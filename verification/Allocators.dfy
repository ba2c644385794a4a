/** What the allocators promise their callers: budget, round trips, and failures that leave no trace. */
module Allocators {
  import opened Chains
  import opened Plat
  import opened Residency
  import opened FaultFacts
  import opened VramBuf
  import BufferBooks
  import opened SizeTable
  import opened PlugAlloc
  import System
  import Runs
  import opened Soundness
  import opened Conservation

  // ----- hooked allocations -----

  lemma AccountedRounding(size: nat)
    ensures size <= Accounted(size) < size + CUDA_PAGE
    ensures Accounted(size) == size || size < KIB || size > CUDA_PAGE / 2
  {
  }

  lemma TryMallocUsage(env: Env, l: Ledger, size: nat)
    ensures var r := TryMalloc(env, l, size);
            && r.l.w.dev.capacity == l.w.dev.capacity && r.l.w.bars == l.w.bars
            && r.l.w.dev.usage == l.w.dev.usage + (if r.status.Success? then Accounted(size) else 0)
  {
  }

  /** If eviction found every page it was asked for, a hooked allocation ends within the budget less its headroom, up to
      the rounding of its own charge, which is less than one 2 MiB page however many allocations came before. */
  lemma MallocWithinBudget(env: Env, l: Ledger, size: nat, headroom: nat)
    requires AllWf(l.w.bars) && MakeRoom(env, l.w, size + headroom).left == 0
    ensures var r := Malloc(env, l, size, headroom);
            r.l.w.dev.usage + headroom <= Target(r.l.w.dev) + (Accounted(size) - size)
            && Accounted(size) - size < CUDA_PAGE
  {
    hide MakeRoom, TryMalloc, FreePages, Accounted, Deficit;
    RoomMade(env, l.w, size + headroom);
    var l1 := l.(w := MakeRoom(env, l.w, size + headroom).w);
    AccountedRounding(size);
    TryMallocUsage(env, l1, size);
    var first := TryMalloc(env, l1, size).l;
    BufferBooks.FreePagesUsage(first.w, size + headroom);
    TryMallocUsage(env, first.(w := FreePages(first.w, size + headroom).w), size);
  }

  /** The plain allocator's 128 MiB headroom swallows the rounding: it never ends above the budget. */
  lemma CudaMallocWithinBudget(env: Env, l: Ledger, size: nat)
    requires AllWf(l.w.bars) && MakeRoom(env, l.w, size + MALLOC_HEADROOM).left == 0
    ensures var r := Malloc(env, l, size, MALLOC_HEADROOM); r.l.w.dev.usage <= Target(r.l.w.dev)
  {
    hide MakeRoom, Malloc;
    MallocWithinBudget(env, l, size, MALLOC_HEADROOM);
  }

  /** Freeing a pointer just charged restores the books exactly when the host had room for its entry; otherwise the
      charge stays, and the free touches at most an older entry for the same pointer. */
  lemma FreeUndoesCharge(env: Env, b: Book, ptr: nat, size: nat)
    ensures var c := Charged(env, b, ptr, size);
            var f := Credited(c, ptr);
            if env(b.dev.clock).result.Success? then f == b.(dev := b.dev.(clock := b.dev.clock + 1))
            else f.lost == b.lost + Accounted(size) && f.allocs == Forget(b.allocs, ptr)
  {
    hide Accounted;
    if env(b.dev.clock).result.Success? {
      ForgetCons(Entry(ptr, size), b.allocs, ptr);
    }
  }

  /** A pointer the table does not know changes nothing; a known one loses exactly its latest entry and charge. */
  lemma CreditIsExact(b: Book, ptr: nat)
    ensures var f := Credited(b, ptr);
            if forall i :: 0 <= i < |b.allocs| ==> b.allocs[i].key != ptr then f == b
            else exists i :: 0 <= i < |b.allocs| && b.allocs[i].key == ptr
                   && (forall j :: 0 <= j < i ==> b.allocs[j].key != ptr)
                   && f.allocs == b.allocs[..i] + b.allocs[i + 1..]
                   && f.dev == b.dev.(usage := b.dev.usage - Accounted(b.allocs[i].item))
  {
    hide Accounted, Find;
    var i := First(b.allocs, ptr);
    FindIsFirst(b.allocs, ptr, i);
  }

  lemma First(allocs: seq<Alloc>, ptr: nat) returns (i: nat)
    ensures i <= |allocs| && (i < |allocs| ==> allocs[i].key == ptr) && forall j :: 0 <= j < i ==> allocs[j].key != ptr
  {
    i := 0;
    while i < |allocs| && allocs[i].key != ptr
      invariant i <= |allocs| && forall j :: 0 <= j < i ==> allocs[j].key != ptr
    {
      i := i + 1;
    }
  }

  // ----- where conservation stops -----

  /** If the true allocator's next answer is a success, the host has room for the entry. */
  predicate Noted(env: Env, d: Dev) {
    env(d.clock).result.Success? ==> env(d.clock + 1).result.Success?
  }

  /** A hooked allocation that succeeds, at the first try or the second, is recorded. */
  predicate Recorded(env: Env, l: Ledger, size: nat, headroom: nat)
    requires AllWf(l.w.bars)
  {
    var l1 := l.(w := MakeRoom(env, l.w, size + headroom).w);
    var first := TryMalloc(env, l1, size);
    Noted(env, l1.w.dev)
    && (!first.status.Success? ==> AllWf(first.l.w.bars) && Noted(env, FreePages(first.l.w, size + headroom).w.dev))
  }

  lemma TryMallocLoses(env: Env, l: Ledger, size: nat)
    ensures var l' := TryMalloc(env, l, size).l;
            l'.lost >= l.lost && (l'.lost == l.lost <==> Noted(env, l.w.dev))
  {
  }

  lemma MallocLoses(env: Env, l: Ledger, size: nat, headroom: nat)
    requires AllWf(l.w.bars)
    ensures var l' := Malloc(env, l, size, headroom).l;
            l'.lost >= l.lost && (l'.lost == l.lost <==> Recorded(env, l, size, headroom))
  {
    hide MakeRoom, FreePages, TryMalloc, Noted;
    var l1 := l.(w := MakeRoom(env, l.w, size + headroom).w);
    TryMallocLoses(env, l1, size);
    TryMallocUsage(env, l1, size);
    var first := TryMalloc(env, l1, size).l;
    TryMallocLoses(env, first.(w := FreePages(first.w, size + headroom).w), size);
  }

  predicate RecordedStep(env: Env, s: System.State, op: System.Op)
    requires AllWf(s.w.bars)
  {
    match op
    case CudaMalloc(size) => Recorded(env, System.Ledger(s), size, MALLOC_HEADROOM)
    case CudaMallocAsync(size) => Recorded(env, System.Ledger(s), size, 0)
    case _ => true
  }

  ghost predicate RecordedRun(env: Env, s: System.State, ops: seq<System.Op>)
    requires System.Sound(s)
    decreases |ops|
  {
    ops == [] || (AllWf(s.w.bars) && RecordedStep(env, s, ops[0]) && RecordedRun(env, Next(env, s, ops[0]), ops[1..]))
  }

  lemma StepLoses(env: Env, s: System.State, op: System.Op)
    requires System.Sound(s)
    ensures AllWf(s.w.bars)
    ensures Next(env, s, op).lost >= s.lost && (Next(env, s, op).lost == s.lost <==> RecordedStep(env, s, op))
  {
    hide Recorded, Malloc, System.Accounted, System.AllTiled, Credited;
    Runs.SoundReady(s);
    match op
    case CudaMalloc(size) => MallocLoses(env, System.Ledger(s), size, MALLOC_HEADROOM);
    case CudaMallocAsync(size) => MallocLoses(env, System.Ledger(s), size, 0);
    case CudaFree(ptr) => CreditKeepsLost(env, System.Ledger(s), ptr);
    case _ =>
  }

  lemma CreditKeepsLost(env: Env, l: Ledger, ptr: nat)
    ensures Free(env, l, ptr).l.lost == l.lost
  {
  }

  lemma {:induction false} RunLoses(env: Env, s: System.State, ops: seq<System.Op>)
    requires System.Sound(s)
    ensures Run(env, s, ops).lost >= s.lost
    ensures Run(env, s, ops).lost == s.lost <==> RecordedRun(env, s, ops)
    decreases |ops|
  {
    hide System.Sound, Next, RecordedStep;
    if ops != [] {
      StepLoses(env, s, ops[0]);
      RunLoses(env, Next(env, s, ops[0]), ops[1..]);
    }
  }

  /** The counter is exactly what is live, and nothing more, if and only if the host found room for the entry of every
      hooked allocation of the run: one that went unrecorded is charged for ever. */
  lemma ConservationThreshold(env: Env, s: System.State, ops: seq<System.Op>)
    requires System.Sound(s) && s.lost == 0
    ensures var s' := Run(env, s, ops);
            s'.w.dev.usage == ResidentPages(s'.w.bars) * VBAR_PAGE + Backed(s'.bufs) + PlugBacked(s'.plug)
                              + System.AllocBytes(s'.allocs) <==>
            RecordedRun(env, s, ops)
  {
    hide System.Sound, Run, RecordedRun;
    UsageIsConserved(env, s, ops);
    RunLoses(env, s, ops);
  }

  /** The driver always succeeds; the host fails its one request. */
  function Unlucky(n: nat): Answer { Answer(if n == 2 then OutOfMemory else Success, 1, 0) }

  function MallocThenFree(): seq<System.Op> { [System.CudaMallocAsync(1), System.CudaFree(1)] }

  /** One such run: an allocation and its free leave 1 KiB charged although nothing is live. */
  lemma UnrecordedChargeStays(capacity: nat)
    ensures var s := Initial(capacity, 0);
            System.Sound(s) && !RecordedRun(Unlucky, s, MallocThenFree())
            && var s' := Run(Unlucky, s, MallocThenFree());
               s'.allocs == [] && s'.w.bars == [] && s'.w.dev.usage == KIB
  {
    hide System.Sound, Next;
    InitialSound(capacity, 0);
    var s := Initial(capacity, 0);
    FirstStep(capacity);
    StepLoses(Unlucky, s, System.CudaMallocAsync(1));
    assert MallocThenFree()[1..] == [System.CudaFree(1)];
    SecondStep(Next(Unlucky, s, System.CudaMallocAsync(1)));
    assert [System.CudaFree(1)][1..] == [];
  }

  lemma FirstStep(capacity: nat)
    ensures var s := Initial(capacity, 0);
            System.Sound(s)
            && var s' := Next(Unlucky, s, System.CudaMallocAsync(1));
               s'.allocs == [] && s'.w.bars == [] && s'.w.dev.usage == KIB && s'.lost == KIB && s'.w.dev.clock == 3
  {
    hide System.Sound;
    InitialSound(capacity, 0);
    var l := System.Ledger(Initial(capacity, 0));
    var l1 := l.(w := l.w.(dev := l.w.dev.(clock := 1)));
    assert MakeRoom(Unlucky, l.w, 1).w == l1.w;
    assert Malloc(Unlucky, l, 1, 0) == TryMalloc(Unlucky, l1, 1);
    MallocStep(capacity);
  }

  lemma MallocStep(capacity: nat)
    requires System.Sound(Initial(capacity, 0))
    ensures var s := Initial(capacity, 0);
            Next(Unlucky, s, System.CudaMallocAsync(1)) ==
            System.WithLedger(s, Malloc(Unlucky, System.Ledger(s), 1, 0).l)
  {
    hide System.Sound, Malloc;
  }

  lemma SecondStep(s: System.State)
    requires System.Sound(s) && s.allocs == []
    ensures var s' := Next(Unlucky, s, System.CudaFree(1));
            s'.allocs == [] && s'.w.bars == s.w.bars && s'.w.dev.usage == s.w.dev.usage
  {
    hide System.Sound;
    Runs.SoundReady(s);
  }

  // ----- the plugin allocator -----

  /** A failed plugin allocation leaves the table as it was, and costs nothing: the usage only lost the pages evicted.
      */
  lemma FailedPluginAllocLeavesNoTrace(env: Env, s: System.State, size: nat, device: int)
    requires System.Sound(s) && AllWf(s.w.bars)
    requires AllocFn(env, s.w, s.plug, s.own, size, device).ptr == 0
    ensures var r := AllocFn(env, s.w, s.plug, s.own, size, device);
            && r.bufs == s.plug
            && r.w.dev.usage == s.w.dev.usage - (ResidentPages(s.w.bars) - ResidentPages(r.w.bars)) * VBAR_PAGE
  {
    hide System.Sound, AllocFn;
    var op := System.PluginAlloc(size, device);
    AllocEither(env, s, size, device);
    NextPlugin(env, s, size, device);
    UsageIsConserved(env, s, []);
    UsageIsConserved(env, Next(env, s, op), []);
  }

  lemma NextPlugin(env: Env, s: System.State, size: nat, device: int)
    requires System.Sound(s) && AllWf(s.w.bars)
    ensures var r := AllocFn(env, s.w, s.plug, s.own, size, device);
            Next(env, s, System.PluginAlloc(size, device)) == s.(w := r.w, plug := r.bufs)
  {
    hide System.Sound, AllocFn;
  }

  lemma AllocEither(env: Env, s: System.State, size: nat, device: int)
    requires AllWf(s.w.bars)
    ensures var r := AllocFn(env, s.w, s.plug, s.own, size, device);
            if r.ptr == 0 then r.bufs == s.plug else r.bufs == [Entry(r.ptr, r.bufs[0].item)] + s.plug
  {
    hide GrowBuffer, DestroyBuffer;
    ReservedNonNull(env, s.w.dev, device, size);
  }

  lemma ReservedNonNull(env: Env, d: Dev, device: int, size: nat)
    ensures CreateBuffer(env, d, device, size).Created? ==> CreateBuffer(env, d, device, size).buf.base != 0
  {
  }

  /** Freeing what was just allocated brings the table back and gives back exactly the buffer's bytes. */
  lemma PluginRoundTrip(env: Env, s: System.State, size: nat, device: int)
    requires AllWf(s.w.bars) && AllocFn(env, s.w, s.plug, s.own, size, device).ptr != 0
    ensures var a := AllocFn(env, s.w, s.plug, s.own, size, device);
            var f := FreeFn(a.w, a.bufs, s.own, a.ptr, device);
            && a.bufs != [] && f.bufs == s.plug && f.w.bars == a.w.bars
            && f.w.dev.usage == a.w.dev.usage - a.bufs[0].item.backed
  {
    hide AllocFn;
    var a := AllocFn(env, s.w, s.plug, s.own, size, device);
    AllocEither(env, s, size, device);
    OwnDevice(env, s, size, device);
    ForgetCons(Entry(a.ptr, a.bufs[0].item), s.plug, a.ptr);
  }

  lemma OwnDevice(env: Env, s: System.State, size: nat, device: int)
    requires AllWf(s.w.bars)
    ensures AllocFn(env, s.w, s.plug, s.own, size, device).ptr != 0 ==> device == s.own
  {
  }
}
