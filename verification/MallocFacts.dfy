/** What the hooked allocators promise: the pointer, the entry, the charge, and that a free takes both back. */
module MallocFacts {
  import opened Chains
  import opened Plat
  import opened Residency
  import opened Eviction
  import opened FaultFacts
  import opened Progress
  import opened SizeTable
  import BufferFacts
  import Allocators
  import System
  import opened Evolution
  import opened Soundness
  import opened Runs
  import opened Stage
  import opened Conservation

  // ----- the charge -----

  /** An allocation is charged for no less than its size: 1 KiB at least, exactly its size up to 1 MiB, and above that
      the next whole number of 2 MiB pages. */
  lemma AccountedMeans(size: nat)
    ensures Accounted(size) >= KIB && Accounted(size) >= size
    ensures size <= KIB ==> Accounted(size) == KIB
    ensures KIB <= size <= CUDA_PAGE / 2 ==> Accounted(size) == size
    ensures size > CUDA_PAGE / 2 ==> Accounted(size) % CUDA_PAGE == 0 && Accounted(size) < size + CUDA_PAGE
  {
  }

  // ----- allocation -----

  /** The moment of the true allocator's answer that counts: the first, or after a failure the second. */
  function Decisive(env: Env, l: Ledger): nat {
    if env(l.w.dev.clock + 1).result.Success? then l.w.dev.clock + 1 else l.w.dev.clock + 2
  }

  /** The list after an allocation at this pointer, if the host had room for the entry. */
  function Listed(allocs: seq<Alloc>, ptr: nat, size: nat, room: bool): seq<Alloc> {
    if room then [Entry(ptr, size)] + allocs else allocs
  }

  /** An allocation returns the true allocator's own answer and pointer. A success is listed first if the host has
      room, and charged either way; a failure returns null and leaves the list alone. Everything else it does is
      evict. */
  lemma MallocMeans(env: Env, l: Ledger, size: nat, headroom: nat)
    requires AllWf(l.w.bars)
    ensures var r := Malloc(env, l, size, headroom);
            var c := Decisive(env, l);
            var room := env(c + 1).result.Success?;
            && r.status == env(c).result
            && AllShrunk(l.w.bars, r.l.w.bars)
            && if r.status.Success? then
                 && r.ptr == env(c).value
                 && r.l.allocs == Listed(l.allocs, r.ptr, size, room)
                 && r.l.lost == l.lost + (if room then 0 else Accounted(size))
                 && r.l.w.dev.usage <= l.w.dev.usage + Accounted(size)
               else r.ptr == 0 && r.l.allocs == l.allocs && r.l.lost == l.lost && r.l.w.dev.usage <= l.w.dev.usage
  {
    hide MakeRoom, FreePages, TryMalloc, Accounted;
    RoomMade(env, l.w, size + headroom);
    BufferFacts.RoomDev(env, l.w, size + headroom);
    var l1 := l.(w := MakeRoom(env, l.w, size + headroom).w);
    TryMeans(env, l1, size);
    var first := TryMalloc(env, l1, size).l;
    BufferFacts.FreedDev(first.w, size + headroom);
    BufferFacts.FreedUsage(first.w, size + headroom);
    FreePagesShrinks(first.w, size + headroom);
    AllShrunkTrans(l.w.bars, first.w.bars, FreePages(first.w, size + headroom).w.bars);
    TryMeans(env, first.(w := FreePages(first.w, size + headroom).w), size);
  }

  /** One try. */
  lemma TryMeans(env: Env, l: Ledger, size: nat)
    ensures var r := TryMalloc(env, l, size);
            var c := l.w.dev.clock;
            var room := env(c + 1).result.Success?;
            && r.status == env(c).result && r.l.w.bars == l.w.bars
            && if r.status.Success? then
                 && r.ptr == env(c).value
                 && r.l.allocs == Listed(l.allocs, r.ptr, size, room)
                 && r.l.lost == l.lost + (if room then 0 else Accounted(size))
                 && r.l.w.dev.usage == l.w.dev.usage + Accounted(size)
               else r.ptr == 0 && r.l == l.(w := l.w.(dev := l.w.dev.(clock := c + 1)))
  {
    hide Accounted;
  }

  /** A first failure, of whatever kind, makes the VBARs give up the whole size and headroom, or all their limits allow,
      before the second try. */
  lemma FailureMakesRoom(env: Env, l: Ledger, size: nat, headroom: nat)
    requires AllWf(l.w.bars) && !env(l.w.dev.clock + 1).result.Success?
    ensures var r := Malloc(env, l, size, headroom);
            var charge := if r.status.Success? then Accounted(size) else 0;
            || AtLimits(r.l.w.bars, 0)
            || r.l.w.dev.usage - charge + size + headroom <= l.w.dev.usage
  {
    hide MakeRoom, FreePages, TryMalloc, Accounted;
    RoomMade(env, l.w, size + headroom);
    BufferFacts.RoomDev(env, l.w, size + headroom);
    var l1 := l.(w := MakeRoom(env, l.w, size + headroom).w);
    TryMeans(env, l1, size);
    var first := TryMalloc(env, l1, size).l;
    BufferFacts.FreedUsage(first.w, size + headroom);
    TryMeans(env, first.(w := FreePages(first.w, size + headroom).w), size);
  }

  /** In a sound context the usage moves by exactly the pages evicted and, on success, the charge. */
  lemma MallocUsage(env: Env, s: System.State, size: nat, plain: bool)
    requires System.Sound(s) && AllWf(s.w.bars)
    ensures var r := Malloc(env, System.Ledger(s), size, if plain then MALLOC_HEADROOM else 0);
            var s' := Next(env, s, if plain then System.CudaMalloc(size) else System.CudaMallocAsync(size));
            && s' == System.WithLedger(s, r.l)
            && r.l.w.dev.usage == s.w.dev.usage - (ResidentPages(s.w.bars) - ResidentPages(r.l.w.bars)) * VBAR_PAGE
                                  + (if r.status.Success? then Accounted(size) else 0)
  {
    hide System.Sound, Malloc, Accounted;
    var headroom := if plain then MALLOC_HEADROOM else 0;
    var op := if plain then System.CudaMalloc(size) else System.CudaMallocAsync(size);
    var r := Malloc(env, System.Ledger(s), size, headroom);
    MallocSteps(env, s, size);
    MallocMeans(env, System.Ledger(s), size, headroom);
    UsageIsConserved(env, s, []);
    UsageIsConserved(env, Next(env, s, op), []);
    if r.status.Success? {
      ListedBytes(s.allocs, r.ptr, size);
    }
  }

  lemma ListedBytes(allocs: seq<Alloc>, ptr: nat, size: nat)
    ensures System.AllocBytes([Entry(ptr, size)] + allocs) == Accounted(size) + System.AllocBytes(allocs)
  {
    assert ([Entry(ptr, size)] + allocs)[1..] == allocs;
  }

  /** The steps of the context are these operations, the plain allocator with 128 MiB to spare and the other with
      none. */
  lemma MallocSteps(env: Env, s: System.State, size: nat)
    requires System.Sound(s)
    ensures AllWf(s.w.bars)
    ensures Next(env, s, System.CudaMalloc(size)) ==
            System.WithLedger(s, Malloc(env, System.Ledger(s), size, MALLOC_HEADROOM).l)
    ensures Next(env, s, System.CudaMallocAsync(size)) == System.WithLedger(s, Malloc(env, System.Ledger(s), size, 0).l)
  {
    hide System.Sound, Malloc;
    SoundReady(s);
  }

  // ----- free -----

  /** A free of null does nothing and succeeds. Otherwise the answer is the true allocator's: if it fails, or nothing
      is listed for the pointer, list and usage stay; if it succeeds, exactly the latest entry for the pointer leaves
      the list and its charge leaves the usage. */
  lemma FreeMeans(env: Env, l: Ledger, ptr: nat)
    ensures var r := Free(env, l, ptr);
            var a := env(l.w.dev.clock);
            && r.ptr == 0
            && if ptr == 0 then r == Malloced(l, Success, 0)
               else
                 && r.status == a.result
                 && r.l.w == l.w.(dev := l.w.dev.(clock := l.w.dev.clock + 1, usage := r.l.w.dev.usage))
                 && r.l.lost == l.lost
                 && if !a.result.Success? || (forall i :: 0 <= i < |l.allocs| ==> l.allocs[i].key != ptr)
                    then r.l.allocs == l.allocs && r.l.w.dev.usage == l.w.dev.usage
                    else exists i :: 0 <= i < |l.allocs| && LatestLeaves(l, r.l, ptr, i)
  {
    hide Accounted, Credited, LatestLeaves;
    if ptr != 0 && env(l.w.dev.clock).result.Success? {
      var i := FreeCredits(env, l, ptr);
    }
  }

  lemma FreeCredits(env: Env, l: Ledger, ptr: nat) returns (i: nat)
    requires ptr != 0 && env(l.w.dev.clock).result.Success?
    ensures i <= |l.allocs|
    ensures var r := Free(env, l, ptr);
            && r.l.w == l.w.(dev := l.w.dev.(clock := l.w.dev.clock + 1, usage := r.l.w.dev.usage))
            && r.l.lost == l.lost
            && if i < |l.allocs| then l.allocs[i].key == ptr && LatestLeaves(l, r.l, ptr, i)
               else
                 && r.l.allocs == l.allocs && r.l.w.dev.usage == l.w.dev.usage
                 && forall j :: 0 <= j < |l.allocs| ==> l.allocs[j].key != ptr
  {
    hide Accounted, Find;
    i := Allocators.First(l.allocs, ptr);
    FindIsFirst(l.allocs, ptr, i);
  }

  /** Entry i was the latest for this pointer, and it and its charge are gone. */
  ghost predicate LatestLeaves(l: Ledger, l': Ledger, ptr: nat, i: nat)
    requires i < |l.allocs|
  {
    && l.allocs[i].key == ptr && (forall j :: 0 <= j < i ==> l.allocs[j].key != ptr)
    && l'.allocs == l.allocs[..i] + l.allocs[i + 1..]
    && l'.w.dev.usage == l.w.dev.usage - Accounted(l.allocs[i].item)
  }

  lemma FreeStep(env: Env, s: System.State, ptr: nat)
    requires System.Sound(s)
    ensures Next(env, s, System.CudaFree(ptr)) == System.WithLedger(s, Free(env, System.Ledger(s), ptr).l)
  {
    hide System.Sound, Free;
    SoundReady(s);
  }

  /** Allocating and then freeing the returned pointer restores the list, and the usage but for what was evicted,
      whenever the entry was recorded and the true free succeeds. */
  lemma FreeUndoesMalloc(env: Env, s: System.State, size: nat, plain: bool)
    requires System.Sound(s) && AllWf(s.w.bars)
    requires var r := Malloc(env, System.Ledger(s), size, if plain then MALLOC_HEADROOM else 0);
             && r.status.Success? && r.ptr != 0 && env(Decisive(env, System.Ledger(s)) + 1).result.Success?
             && env(r.l.w.dev.clock).result.Success?
    ensures var op := if plain then System.CudaMalloc(size) else System.CudaMallocAsync(size);
            var r := Malloc(env, System.Ledger(s), size, if plain then MALLOC_HEADROOM else 0);
            var s' := Run(env, s, [op, System.CudaFree(r.ptr)]);
            && s'.allocs == s.allocs && s'.lost == s.lost
            && s'.w.dev.usage == s.w.dev.usage - (ResidentPages(s.w.bars) - ResidentPages(s'.w.bars)) * VBAR_PAGE
  {
    hide System.Sound, Next, Malloc, Accounted, Free, Run;
    var op := if plain then System.CudaMalloc(size) else System.CudaMallocAsync(size);
    var headroom := if plain then MALLOC_HEADROOM else 0;
    var r := Malloc(env, System.Ledger(s), size, headroom);
    var s1 := Next(env, s, op);
    MallocUsage(env, s, size, plain);
    MallocMeans(env, System.Ledger(s), size, headroom);
    FreeStep(env, s1, r.ptr);
    FreeMeans(env, System.Ledger(s1), r.ptr);
    assert s1.allocs[0] == Entry(r.ptr, size);
    TwoSteps(env, s, op, System.CudaFree(r.ptr));
    assert s1.allocs[..0] + s1.allocs[0 + 1..] == s.allocs;
  }

  lemma TwoSteps(env: Env, s: System.State, op: System.Op, op': System.Op)
    requires System.Sound(s)
    ensures Run(env, s, [op, op']) == Next(env, Next(env, s, op), op')
  {
    hide System.Sound, Next, Run;
    assert [op] + [op'] == [op, op'] && [op'] + [] == [op'];
    RunStep(env, s, op, [op']);
    RunStep(env, Next(env, s, op), op', []);
    RunNone(env, Next(env, Next(env, s, op), op'));
  }
}
