/** What allocating, limiting, reordering and querying VBARs mean. */
module VbarFacts {
  import opened Chains
  import opened Plat
  import opened PlatFacts
  import opened Residency
  import opened Eviction
  import opened FaultFacts
  import VramBuf
  import SizeTable
  import PlugAlloc
  import opened System
  import opened Evolution
  import opened Soundness
  import opened Runs
  import opened Stage

  // ----- allocation -----

  /** The size of a new VBAR: whole pages, as many as asked for or as many as the card holds, whichever is less. */
  ghost predicate Clipped(n: nat, capacity: nat, size: nat) {
    && n * VBAR_PAGE <= capacity
    && (n > 0 ==> (n - 1) * VBAR_PAGE < size)
    && (n * VBAR_PAGE >= size || capacity < (n + 1) * VBAR_PAGE)
  }

  /** A new VBAR: nothing resident, nothing pinned, no offloading decided, no limit. */
  ghost predicate Unused(b: Bar) {
    && b.watermark == |b.pages| && b.limit == 0
    && forall q :: 0 <= q < |b.pages| ==> b.pages[q] == Page(0, 0, 0)
  }

  /** Allocating either puts one new VBAR on top, clipped to the card, on a reservation of its own size, or leaves the
      list and the driver as they were. No VRAM is used either way. */
  lemma AllocateMeans(env: Env, w: World, id: nat, size: nat)
    ensures var w' := Allocate(env, w, id, size);
            && w'.dev == w.dev.(clock := w'.dev.clock, gpu := w'.dev.gpu)
            && if |w'.bars| == |w.bars| then w' == w.(dev := w.dev.(clock := w'.dev.clock))
               else
                 && |w'.bars| == |w.bars| + 1 && w'.bars[..|w.bars|] == w.bars
                 && var b := w'.bars[|w.bars|];
                    && b.id == id && b.base != 0 && Unused(b) && Clipped(|b.pages|, w.dev.capacity, size)
                    && w'.dev.gpu == w.dev.gpu.(spaces := w.dev.gpu.spaces + {SpaceOf(b)})
  {
    hide Reserve;
    var d := w.dev.(clock := w.dev.clock + 1);
    ReserveAnswers(env, d, PagesFor(w.dev.capacity, size) * VBAR_PAGE);
  }

  /** It succeeds when the host has room and the driver grants an address with a card's size of free addresses behind
      it. */
  lemma AllocateSucceeds(env: Env, w: World, id: nat, size: nat)
    requires env(w.dev.clock).result.Success? && env(w.dev.clock + 1).result.Success?
    requires var base := env(w.dev.clock + 1).value;
             base != 0 && forall o :: o in w.dev.gpu.spaces ==> Space(base, w.dev.capacity).Apart(o)
    ensures |Allocate(env, w, id, size).bars| == |w.bars| + 1
  {
    hide Reserve;
    var d := w.dev.(clock := w.dev.clock + 1);
    var n := PagesFor(w.dev.capacity, size);
    ReserveAnswers(env, d, n * VBAR_PAGE);
    var base := env(d.clock).value;
    forall o | o in d.gpu.spaces
      ensures Space(base, n * VBAR_PAGE).Apart(o)
    {
      assert Space(base, w.dev.capacity).Apart(o);
    }
  }

  // ----- no VBAR outgrows the card -----

  ghost predicate FitCard(s: State) {
    forall k :: 0 <= k < |s.w.bars| ==> |s.w.bars[k].pages| * VBAR_PAGE <= s.w.dev.capacity
  }

  lemma {:induction false} DropAllCapacity(d: Dev, ms: seq<Mapping>)
    ensures DropAll(d, ms).capacity == d.capacity
  {
    if ms != [] {
      DropAllCapacity(d, ms[..|ms| - 1]);
    }
  }

  lemma FreePagesCapacity(w: World, size: nat)
    requires AllWf(w.bars)
    ensures FreePages(w, size).w.dev.capacity == w.dev.capacity
  {
    DropAllCapacity(w.dev, Drain(w.bars, 0, PagesUp(size)).dropped);
  }

  lemma {:induction false} UnpinCapacity(w: World, m: nat, p: nat, end: nat)
    requires AllWf(w.bars) && m < |w.bars|
    ensures UnpinLoop(w, m, p, end).dev.capacity == w.dev.capacity
    decreases end - p
  {
    if p < end && p < |w.bars[m].pages| {
      UnpinCapacity(UnpinOne(w, m, p), m, p + 1, end);
    }
  }

  lemma MakeRoomCapacity(env: Env, w: World, size: nat)
    requires AllWf(w.bars)
    ensures MakeRoom(env, w, size).w.dev.capacity == w.dev.capacity
  {
    hide FreePages;
    var d := Poll(env, w.dev);
    FreePagesCapacity(World(d, w.bars), Deficit(d, size));
  }

  lemma {:induction false} GrowLoopCapacity(env: Env, w: World, b: VramBuf.Buf, to: nat)
    requires AllWf(w.bars)
    ensures VramBuf.GrowLoop(env, w, b, to).w.dev.capacity == w.dev.capacity
    decreases if to > b.backed then to - b.backed else 0
  {
    hide FreePages, Stooges;
    if b.backed < to {
      var g := VramBuf.GrowChunk(env, w, b, to);
      var va, n := b.base + b.backed, VramBuf.Step(b, to);
      var first := Stooges(env, w.dev, va, n);
      StoogesUsage(env, w.dev, va, n);
      var w' := FreePages(World(first.dev, w.bars), VramBuf.CHUNK).w;
      FreePagesCapacity(World(first.dev, w.bars), VramBuf.CHUNK);
      StoogesUsage(env, w'.dev, va, n);
      if g.ok {
        GrowLoopCapacity(env, g.w, g.buf, to);
      }
    }
  }

  lemma GrowCapacity(env: Env, w: World, b: VramBuf.Buf, required: nat)
    requires AllWf(w.bars) && b.backed <= b.maxSize
    ensures VramBuf.GrowBuffer(env, w, b, required).w.dev.capacity == w.dev.capacity
  {
    hide MakeRoom, VramBuf.GrowLoop;
    if b.backed < required <= b.maxSize {
      var to := VramBuf.GrowTo(b, required);
      MakeRoomCapacity(env, w, to - b.backed);
      GrowLoopCapacity(env, MakeRoom(env, w, to - b.backed).w, b, to);
    }
  }

  lemma MallocCapacity(env: Env, l: SizeTable.Ledger, size: nat, headroom: nat)
    requires AllWf(l.w.bars)
    ensures SizeTable.Malloc(env, l, size, headroom).l.w.dev.capacity == l.w.dev.capacity
  {
    hide MakeRoom, FreePages, SizeTable.Accounted;
    MakeRoomCapacity(env, l.w, size + headroom);
    var first := SizeTable.TryMalloc(env, l.(w := MakeRoom(env, l.w, size + headroom).w), size).l;
    FreePagesCapacity(first.w, size + headroom);
  }

  lemma StepVbarCapacity(env: Env, s: State, op: Op, k: nat)
    requires AllWf(s.w.bars) && k < |s.w.bars|
    ensures StepVbar(env, s, op, k).w.dev.capacity == s.w.dev.capacity
  {
    hide Fault, DropAll;
    match op
    case FaultVbar(_, offset, size) => FaultAlwaysKeeps(env, s.w, k, offset, size);
    case UnpinVbar(_, offset, size) => UnpinCapacity(s.w, k, offset / VBAR_PAGE, PagesUp(offset + size));
    case FreeVbar(_) => DropAllCapacity(s.w.dev, AllHeld(s.w.bars[k], |s.w.bars[k].pages|));
    case FreeVbarMemory(_, size) => DropAllCapacity(s.w.dev, Drain([s.w.bars[k]], 0, PagesUp(size)).dropped);
    case _ =>
  }

  lemma PluginCapacity(env: Env, s: State, op: Op)
    requires AllWf(s.w.bars) && (op.PluginAlloc? || op.PluginFree?)
    requires forall i :: 0 <= i < |s.bufs| ==> s.bufs[i].backed <= s.bufs[i].maxSize
    ensures StepOther(env, s, op).w.dev.capacity == s.w.dev.capacity
  {
    hide VramBuf.GrowBuffer, VramBuf.ReleaseAll;
    if op.PluginAlloc? {
      match VramBuf.CreateBuffer(env, s.w.dev, op.device, op.size)
      case NotCreated(_) =>
      case Created(d, b) => GrowCapacity(env, World(d, s.w.bars), b, op.size);
    }
  }

  lemma StepCapacity(env: Env, s: State, op: Op)
    requires AllWf(s.w.bars)
    requires forall i :: 0 <= i < |s.bufs| ==> s.bufs[i].backed <= s.bufs[i].maxSize
    ensures Step(env, s, op).w.dev.capacity == s.w.dev.capacity
  {
    hide StepVbar, Allocate, Reserve, SizeTable.Malloc, VramBuf.GrowBuffer, VramBuf.ReleaseAll, PlugAlloc.AllocFn,
         PlugAlloc.FreeFn, SizeTable.Credited;
    if OfVbar(op) {
      if Locate(s.w.bars, op.id) < |s.w.bars| {
        StepVbarCapacity(env, s, op, Locate(s.w.bars, op.id));
      }
    } else {
      match op
      case AllocateVbar(size) => AllocateMeans(env, s.w, s.nextId, size);
      case CreateBuf(size) => CreateCapacity(env, s.w.dev, s.own, size);
      case GrowBuf(i, required) =>
        if i < |s.bufs| {
          GrowCapacity(env, s.w, s.bufs[i], required);
        }
      case CudaMalloc(size) => MallocCapacity(env, Ledger(s), size, SizeTable.MALLOC_HEADROOM);
      case CudaMallocAsync(size) => MallocCapacity(env, Ledger(s), size, 0);
      case CudaFree(ptr) => FreeCapacity(env, Ledger(s), ptr);
      case PluginAlloc(_, _) => PluginCapacity(env, s, op);
      case PluginFree(_, _) => PluginCapacity(env, s, op);
      case _ =>
    }
  }

  lemma CreateCapacity(env: Env, d: Dev, device: int, size: nat)
    ensures VramBuf.CreateBuffer(env, d, device, size).dev.capacity == d.capacity
  {
  }

  lemma FreeCapacity(env: Env, l: SizeTable.Ledger, ptr: nat)
    ensures SizeTable.Free(env, l, ptr).l.w.dev.capacity == l.w.dev.capacity
  {
  }

  /** No step makes a VBAR larger than the card, nor changes the card. */
  lemma StepFits(env: Env, s: State, op: Op)
    requires Sound(s) && FitCard(s)
    ensures FitCard(Next(env, s, op)) && Next(env, s, op).w.dev.capacity == s.w.dev.capacity
  {
    hide Accounted, AllTiled, Evolves, Allocate, StepVbar, StepOther, Pages;
    SoundReady(s);
    StepCapacity(env, s, op);
    StepEvolves(env, s, op);
    var s' := Next(env, s, op);
    forall j | 0 <= j < |s'.w.bars|
      ensures |s'.w.bars[j].pages| * VBAR_PAGE <= s'.w.dev.capacity
    {
      PageCount(env, s, op, j);
    }
  }

  /** A VBAR after a step is a new one or has the pages it had. */
  lemma PageCount(env: Env, s: State, op: Op, j: nat)
    requires Sound(s) && FitCard(s) && j < |Next(env, s, op).w.bars|
    ensures |Next(env, s, op).w.bars[j].pages| * VBAR_PAGE <= s.w.dev.capacity
  {
    hide Accounted, AllTiled, Evolves, Allocate, StepVbar, Pages, Moved, Origin, Locate, AllPages;
    SoundReady(s);
    StepEvolves(env, s, op);
    StepIds(env, s, op);
    var bars, bars' := s.w.bars, Next(env, s, op).w.bars;
    if op.AllocateVbar? {
      AllocateMeans(env, s.w, s.nextId, op.size);
    } else {
      NoNewBar(env, s, op);
      OriginMoves(bars, op, s.nextId, j);
      var k := Origin(bars, op, j);
      EvolvesId(op, FaultOk(env, s, op), bars[k], bars'[j]);
    }
  }

  lemma NoNewBar(env: Env, s: State, op: Op)
    requires AllWf(s.w.bars) && !op.AllocateVbar?
    requires forall i :: 0 <= i < |s.bufs| ==> s.bufs[i].backed <= s.bufs[i].maxSize
    ensures Step(env, s, op).nextId == s.nextId
  {
    hide Locate;
  }

  /** No VBAR of any reachable state has more pages than the card. */
  lemma {:induction false} RunFits(env: Env, s: State, ops: seq<Op>)
    requires Sound(s) && FitCard(s)
    ensures FitCard(Run(env, s, ops)) && Run(env, s, ops).w.dev.capacity == s.w.dev.capacity
    decreases |ops|
  {
    hide Sound, Next, FitCard;
    if ops != [] {
      StepFits(env, s, ops[0]);
      RunFits(env, Next(env, s, ops[0]), ops[1..]);
    }
  }

  lemma ReachedFits(env: Env, capacity: nat, own: int, ops: seq<Op>, k: nat)
    requires k < |Reached(env, capacity, own, ops).w.bars|
    ensures |Reached(env, capacity, own, ops).w.bars[k].pages| <= capacity / VBAR_PAGE
  {
    hide Sound, Run;
    InitialSound(capacity, own);
    RunFits(env, Initial(capacity, own), ops);
  }

  // ----- limits, order, queries -----

  /** A limit in whole pages: the smallest number that holds the size asked for. Nothing else changes. */
  lemma LimitMeans(w: World, m: nat, size: nat)
    requires m < |w.bars|
    ensures var w' := SetLimit(w, m, size);
            var n := w'.bars[m].limit;
            && n * VBAR_PAGE >= size && (n > 0 ==> (n - 1) * VBAR_PAGE < size)
            && w' == w.(bars := w.bars[m := w.bars[m].(limit := n)])
  {
  }

  /** After a reset no VBAR has a limit, and nothing else has changed. */
  lemma ResetMeans(env: Env, s: State)
    requires Sound(s)
    ensures var s' := Next(env, s, Op.ResetLimits);
            && s' == s.(w := s.w.(bars := s'.w.bars)) && |s'.w.bars| == |s.w.bars|
            && forall k :: 0 <= k < |s.w.bars| ==> s'.w.bars[k].limit == 0 && s'.w.bars[k] == s.w.bars[k].(limit := 0)
  {
    hide Sound;
    SoundReady(s);
  }

  /** Deprioritizing puts a VBAR below all others and changes nothing of any VBAR, nor of the driver. */
  lemma DeprioritizeMeans(env: Env, s: State, id: nat)
    requires Sound(s) && Alive(s, id)
    ensures var s' := Next(env, s, DeprioritizeVbar(id));
            && s' == s.(w := s.w.(bars := s'.w.bars)) && |s'.w.bars| == |s.w.bars|
            && s'.w.bars[0] == BarOf(s, id)
            && forall k :: 0 <= k < |s.w.bars| ==>
                 var j := Moved(s.w.bars, DeprioritizeVbar(id), k); j < |s'.w.bars| && s'.w.bars[j] == s.w.bars[k]
  {
    hide Sound, Locate;
    VbarStep(env, s, DeprioritizeVbar(id), Locate(s.w.bars, id));
  }

  /** Prioritizing changes nothing of any other VBAR. */
  lemma PrioritizeMeans(env: Env, s: State, id: nat)
    requires Sound(s) && Alive(s, id)
    ensures var s' := Next(env, s, PrioritizeVbar(id));
            && s' == s.(w := s.w.(bars := s'.w.bars)) && |s'.w.bars| == |s.w.bars|
            && forall k :: 0 <= k < |s.w.bars| && k != Locate(s.w.bars, id) ==>
                 var j := Moved(s.w.bars, PrioritizeVbar(id), k); j < |s'.w.bars| && s'.w.bars[j] == s.w.bars[k]
  {
    hide Sound, Locate;
    VbarStep(env, s, PrioritizeVbar(id), Locate(s.w.bars, id));
  }

  /** Freeing a VBAR changes nothing of any other, and gives back what its resident pages used. */
  lemma FreeVbarMeans(env: Env, s: State, id: nat)
    requires Sound(s) && Alive(s, id)
    ensures var s' := Next(env, s, FreeVbar(id));
            && s'.w.bars == Without(s.w.bars, Locate(s.w.bars, id)) && !Alive(s', id)
            && s'.w.dev.usage == s.w.dev.usage - Resident(BarOf(s, id).pages) * VBAR_PAGE
  {
    hide Accounted, AllTiled, Locate, AllPages, DropAll;
    var k := Locate(s.w.bars, id);
    VbarStep(env, s, FreeVbar(id), k);
    var b := s.w.bars[k];
    HeldCount(b, |b.pages|);
    DropAllEffect(s.w.dev, AllHeld(b, |b.pages|));
    var bars' := Without(s.w.bars, k);
    forall j | 0 <= j < |bars'|
      ensures bars'[j].id != id
    {
      assert bars'[j] == s.w.bars[if j < k then j else j + 1];
    }
  }

  lemma {:induction false} HeldCount(b: Bar, n: nat)
    requires n <= |b.pages|
    ensures |AllHeld(b, n)| == Resident(b.pages[..n]) && Paged(AllHeld(b, n))
    ensures n == |b.pages| ==> |AllHeld(b, n)| == Resident(b.pages)
  {
    assert b.pages[..|b.pages|] == b.pages;
    if n > 0 {
      HeldCount(b, n - 1);
      assert b.pages[..n][..n - 1] == b.pages[..n - 1];
    }
  }

  /** Freeing a VBAR's memory lowers usage by whole pages of that VBAR only, as many as the size takes up, or all that
      its limit lets it. */
  lemma FreeMemoryMeans(env: Env, s: State, id: nat, size: nat)
    requires Sound(s) && Alive(s, id)
    ensures var s' := Next(env, s, FreeVbarMemory(id, size));
            var k := Locate(s.w.bars, id);
            && |s'.w.bars| == |s.w.bars| && (forall j :: 0 <= j < |s.w.bars| && j != k ==> s'.w.bars[j] == s.w.bars[j])
            && Shrunk(s.w.bars[k], s'.w.bars[k])
            && (|| s'.w.dev.usage == s.w.dev.usage - PagesUp(size) * VBAR_PAGE
                || (&& s'.w.bars[k].watermark <= s.w.bars[k].limit
                    && s.w.dev.usage - PagesUp(size) * VBAR_PAGE < s'.w.dev.usage <= s.w.dev.usage))
  {
    hide Sound, Locate, DropAll, Drain;
    var k := Locate(s.w.bars, id);
    VbarStep(env, s, FreeVbarMemory(id, size), k);
    FreeMemoryReturnsWhatItFreed(s.w, k, size);
  }

  /** The residency byte: bit 0 says resident, bit 1 says pinned, no other bit is set. */
  lemma StatusMeans(pg: Page)
    ensures Status(pg) < 4
    ensures Status(pg) % 2 == 1 <==> pg.handle != 0
    ensures Status(pg) / 2 == 1 <==> pg.pins != 0
  {
  }

  // ----- shortages -----

  /** Whichever of the three calls finds no memory, the VBARs are made to pay and the page is tried once more: the
      fault only breaks if that second try fails too. */
  lemma ShortageIsPaid(env: Env, w: World, m: nat, p: nat, end: nat)
    requires AllWf(w.bars) && m < |w.bars| && p < |w.bars[m].pages| && w.bars[m].pages[p].handle == 0
    requires var d := Poll(env, w.dev);
             var first, second, third := env(d.clock), env(d.clock + 1), env(d.clock + 2);
             && Deficit(d, VBAR_PAGE) == 0
             && (|| first.result.OutOfMemory?
                 || (Usable(d, first) && second.result.OutOfMemory?)
                 || (Usable(d, first) && second.result.Success? && third.result.OutOfMemory?))
    ensures var t := FaultPage(env, w, m, p, end);
            var e := PayFor(w.bars, m, end);
            && |e.bars| == |w.bars| && (t.outcome.NoBudget? <==> e.bars[m].watermark <= p) && !t.outcome.Hit?
            && forall j :: 0 <= j < |w.bars| && j != m ==> t.w.bars[j] == e.bars[j]
  {
    hide Stooges, Poll;
    var d := Poll(env, w.dev);
    StoogesAnswers(env, d, w.bars[m].base + p * VBAR_PAGE, VBAR_PAGE);
  }
}
