/** Every operation keeps the context sound: the books balance after any run, whatever the environment does. */
module Soundness {
  import opened Chains
  import opened Plat
  import opened Residency
  import opened Resources
  import opened VbarBooks
  import VramBuf
  import opened BufferBooks
  import SizeTable
  import PlugAlloc
  import opened System
  import opened Evolution

  // ----- identity -----

  /** Where the VBAR now at j stood before the step. */
  function Origin(bars: seq<Bar>, op: Op, j: nat): int {
    var m := if OfVbar(op) then Locate(bars, op.id) else |bars|;
    if m >= |bars| then j
    else if op.FreeVbar? then (if j >= m then j + 1 else j)
    else if op.PrioritizeVbar? then (if j == |bars| - 1 then m else if j >= m then j + 1 else j)
    else if op.DeprioritizeVbar? then (if j == 0 then m else if j <= m then j - 1 else j)
    else j
  }

  lemma OriginMoves(bars: seq<Bar>, op: Op, nextId: nat, j: nat)
    requires Ids(bars, nextId)
    requires j < if op.FreeVbar? && Locate(bars, op.id) < |bars| then |bars| - 1 else |bars|
    ensures var k := Origin(bars, op, j); 0 <= k < |bars| && Moved(bars, op, k) == j && op != FreeVbar(bars[k].id)
  {
    hide Locate;
    if OfVbar(op) && Locate(bars, op.id) < |bars| {
      LocateIs(bars, nextId, Locate(bars, op.id));
    } else if op.FreeVbar? {
      NotLocated(bars, op.id);
    }
  }

  lemma EvolvedBars(op: Op, ok: bool, bars: seq<Bar>, bars': seq<Bar>, nextId: nat, nextId': nat)
    requires Ids(bars, nextId) && BarsEvolve(op, ok, bars, bars', nextId, nextId')
    requires op.FreeVbar? ==> nextId' == nextId
    ensures AllPages(bars') && Ids(bars', nextId')
  {
    hide Locate, Moved, Origin;
    var n := if op.FreeVbar? && Locate(bars, op.id) < |bars| then |bars| - 1 else |bars|;
    forall j | 0 <= j < |bars'|
      ensures Pages(bars'[j])
      ensures if j < n then var k := Origin(bars, op, j); 0 <= k < |bars| && bars'[j].id == bars[k].id < nextId
              else bars'[j].id == nextId
    {
      if j < n {
        OriginMoves(bars, op, nextId, j);
        assert Evolves(op, ok, bars[Origin(bars, op, j)], bars'[j]);
      }
    }
    forall i, j | 0 <= i < j < n
      ensures bars'[i].id != bars'[j].id
    {
      OriginMoves(bars, op, nextId, i);
      OriginMoves(bars, op, nextId, j);
    }
  }

  // ----- the ledger of hooked allocations -----

  lemma ChargeExtra(w: World, d: Dev, rest: seq<Region>, extra: int, amount: int)
    requires Books(w, rest, extra) && d.usage == w.dev.usage + amount && d.gpu == w.dev.gpu
    ensures Books(World(d, w.bars), rest, extra + amount)
  {
  }

  lemma {:induction false} ForgetBytes(allocs: seq<SizeTable.Alloc>, ptr: nat)
    ensures AllocBytes(Forget(allocs, ptr)) ==
            var i := Find(allocs, ptr);
            AllocBytes(allocs) - (if i < |allocs| then SizeTable.Accounted(allocs[i].item) else 0)
  {
    hide SizeTable.Accounted, Forget, Find;
    if allocs == [] {
      ForgetNone(allocs, ptr);
    } else {
      var x, rest := allocs[0], allocs[1..];
      assert allocs == [x] + rest;
      ForgetCons(x, rest, ptr);
      if x.key != ptr {
        ForgetBytes(rest, ptr);
        assert ([x] + Forget(rest, ptr))[1..] == Forget(rest, ptr);
      }
    }
  }

  lemma ForgetNone(allocs: seq<SizeTable.Alloc>, ptr: nat)
    requires allocs == []
    ensures Forget(allocs, ptr) == [] && Find(allocs, ptr) == 0
  {
  }

  function Rest(s: State): seq<Region> { BufRegions(s.bufs) + PlugRegions(s.plug) }

  ghost predicate LedgerBooks(l: SizeTable.Ledger, rest: seq<Region>) {
    Books(l.w, rest, AllocBytes(l.allocs) + l.lost)
  }

  lemma TryMallocBooks(env: Env, l: SizeTable.Ledger, size: nat, rest: seq<Region>)
    requires LedgerBooks(l, rest)
    ensures LedgerBooks(SizeTable.TryMalloc(env, l, size).l, rest)
  {
    hide Books, SizeTable.Accounted;
    var d := l.w.dev.(clock := l.w.dev.clock + 1);
    SameBooksDev(l.w, d, rest, AllocBytes(l.allocs) + l.lost);
    var r := SizeTable.TryMalloc(env, l, size);
    if r.status.Success? {
      ChargeExtra(World(d, l.w.bars), r.l.w.dev, rest, AllocBytes(l.allocs) + l.lost, SizeTable.Accounted(size));
      assert ([Entry(r.ptr, size)] + l.allocs)[1..] == l.allocs;
    }
  }

  lemma SameBooksDev(w: World, d: Dev, rest: seq<Region>, extra: int)
    requires Books(w, rest, extra) && d.usage == w.dev.usage && d.gpu == w.dev.gpu
    ensures Books(World(d, w.bars), rest, extra)
  {
  }

  lemma MallocBooks(env: Env, l: SizeTable.Ledger, size: nat, headroom: nat, rest: seq<Region>)
    requires LedgerBooks(l, rest) && AllWf(l.w.bars)
    ensures LedgerBooks(SizeTable.Malloc(env, l, size, headroom).l, rest)
  {
    hide Books, MakeRoom, FreePages, SizeTable.TryMalloc;
    MakeRoomBooks(env, l.w, size + headroom, rest, AllocBytes(l.allocs) + l.lost);
    var l1 := l.(w := MakeRoom(env, l.w, size + headroom).w);
    TryMallocBooks(env, l1, size, rest);
    var first := SizeTable.TryMalloc(env, l1, size).l;
    TryMallocWf(env, l1, size);
    FreePagesBooks(first.w, size + headroom, rest, AllocBytes(first.allocs) + first.lost);
    TryMallocBooks(env, first.(w := FreePages(first.w, size + headroom).w), size, rest);
  }

  lemma TryMallocWf(env: Env, l: SizeTable.Ledger, size: nat)
    ensures SizeTable.TryMalloc(env, l, size).l.w.bars == l.w.bars
  {
  }

  lemma FreeBooks(env: Env, l: SizeTable.Ledger, ptr: nat, rest: seq<Region>)
    requires LedgerBooks(l, rest)
    ensures LedgerBooks(SizeTable.Free(env, l, ptr).l, rest)
  {
    hide Books, SizeTable.Accounted, Forget;
    var d := l.w.dev.(clock := l.w.dev.clock + 1);
    SameBooksDev(l.w, d, rest, AllocBytes(l.allocs) + l.lost);
    ForgetBytes(l.allocs, ptr);
    var i := Find(l.allocs, ptr);
    if ptr != 0 && env(l.w.dev.clock).result.Success? && i < |l.allocs| {
      var charge: int := SizeTable.Accounted(l.allocs[i].item);
      var d' := SizeTable.Free(env, l, ptr).l.w.dev;
      ChargeExtra(World(d, l.w.bars), d', rest, AllocBytes(l.allocs) + l.lost, -charge);
    }
  }

  // ----- buffers in their lists -----

  lemma BufSplit(bufs: seq<VramBuf.Buf>, i: nat)
    requires i < |bufs|
    ensures BufRegions(bufs) == BufRegions(bufs[..i]) + [BufRegion(bufs[i])] + BufRegions(bufs[i + 1..])
    ensures BufRegions(Without(bufs, i)) == BufRegions(bufs[..i]) + BufRegions(bufs[i + 1..])
    ensures forall b :: BufRegions(bufs[i := b]) == BufRegions(bufs[..i]) + [BufRegion(b)] + BufRegions(bufs[i + 1..])
  {
  }

  lemma PlugSplit(plug: seq<Entry<VramBuf.Buf>>, i: nat)
    requires i < |plug|
    ensures PlugRegions(plug) == PlugRegions(plug[..i]) + [BufRegion(plug[i].item)] + PlugRegions(plug[i + 1..])
    ensures PlugRegions(Without(plug, i)) == PlugRegions(plug[..i]) + PlugRegions(plug[i + 1..])
  {
  }

  lemma GrowStep(env: Env, s: State, i: nat, required: nat)
    requires Sound(s) && AllWf(s.w.bars) && i < |s.bufs| && s.bufs[i].backed <= s.bufs[i].maxSize
    ensures var g := VramBuf.GrowBuffer(env, s.w, s.bufs[i], required);
            AllTiled(s.(bufs := s.bufs[i := g.buf])) && Accounted(s.(w := g.w, bufs := s.bufs[i := g.buf]))
  {
    hide Books, VramBuf.GrowBuffer, BufRegion, BufRegions, PlugRegions, VramBuf.Tiled;
    var pre := BufRegions(s.bufs[..i]);
    var post := BufRegions(s.bufs[i + 1..]) + PlugRegions(s.plug);
    BufSplit(s.bufs, i);
    assert Rest(s) == pre + [BufRegion(s.bufs[i])] + post;
    var g := VramBuf.GrowBuffer(env, s.w, s.bufs[i], required);
    GrowBooks(env, s.w, s.bufs[i], required, pre, post, AllocBytes(s.allocs) + s.lost);
    assert BufRegions(s.bufs[i := g.buf]) + PlugRegions(s.plug) == pre + [BufRegion(g.buf)] + post;
  }

  lemma DestroyStep(s: State, i: nat)
    requires Sound(s) && i < |s.bufs|
    ensures var d := VramBuf.DestroyBuffer(s.w.dev, s.bufs[i]);
            AllTiled(s.(bufs := Without(s.bufs, i))) && Accounted(s.(w := s.w.(dev := d), bufs := Without(s.bufs, i)))
  {
    hide Books, VramBuf.DestroyBuffer, BufRegion, BufRegions, PlugRegions, VramBuf.Tiled;
    var pre := BufRegions(s.bufs[..i]);
    var post := BufRegions(s.bufs[i + 1..]) + PlugRegions(s.plug);
    BufSplit(s.bufs, i);
    assert Rest(s) == pre + [BufRegion(s.bufs[i])] + post;
    DestroyBooks(s.w, s.bufs[i], pre, post, AllocBytes(s.allocs) + s.lost);
    assert BufRegions(Without(s.bufs, i)) + PlugRegions(s.plug) == pre + post;
  }

  lemma CreateStep(env: Env, s: State, size: nat)
    requires Sound(s)
    ensures match VramBuf.CreateBuffer(env, s.w.dev, s.own, size)
            case NotCreated(d) => Accounted(s.(w := s.w.(dev := d)))
            case Created(d, b) =>
              AllTiled(s.(bufs := s.bufs + [b])) && Accounted(s.(w := s.w.(dev := d), bufs := s.bufs + [b]))
  {
    hide Balanced, BarRegion, BufRegion, VramBuf.CreateBuffer, VramBuf.Tiled;
    var extra := AllocBytes(s.allocs) + s.lost;
    CreateBooks(env, s.w, s.own, size, Rest(s), extra);
    match VramBuf.CreateBuffer(env, s.w.dev, s.own, size)
    case NotCreated(d) =>
    case Created(d, b) =>
      var r, pr := BufRegion(b), PlugRegions(s.plug);
      var lead := BarRegions(s.w.bars) + BufRegions(s.bufs);
      MoveBalanced(d, lead, r, pr, [], extra);
      assert BufRegions(s.bufs + [b]) == BufRegions(s.bufs) + [r];
      assert lead + [r] + pr + [] == BarRegions(s.w.bars) + (BufRegions(s.bufs + [b]) + pr);
      assert lead + pr + [r] + [] == BarRegions(s.w.bars) + (Rest(s) + [r]);
  }

  lemma PluginAllocStep(env: Env, s: State, size: nat, device: int)
    requires Sound(s) && AllWf(s.w.bars)
    ensures var p := PlugAlloc.AllocFn(env, s.w, s.plug, s.own, size, device);
            AllTiled(s.(plug := p.bufs)) && Accounted(s.(w := p.w, plug := p.bufs))
  {
    hide Balanced, BarRegion, BufRegion, VramBuf.CreateBuffer, VramBuf.Tiled, VramBuf.GrowBuffer, VramBuf.DestroyBuffer;
    if device == s.own {
      var extra := AllocBytes(s.allocs) + s.lost;
      CreateBooks(env, s.w, device, size, Rest(s), extra);
      match VramBuf.CreateBuffer(env, s.w.dev, device, size)
      case NotCreated(d) =>
      case Created(d, b) =>
        var w := World(d, s.w.bars);
        assert Rest(s) + [BufRegion(b)] == Rest(s) + [BufRegion(b)] + [];
        CreatedFits(env, s.w.dev, device, size);
        GrowBooks(env, w, b, size, Rest(s), [], extra);
        var g := VramBuf.GrowBuffer(env, w, b, size);
        if g.ok {
          PluginAdds(s, g.w, g.buf, extra);
        } else {
          DestroyBooks(g.w, g.buf, Rest(s), [], extra);
          assert Rest(s) + [] == Rest(s);
        }
    }
  }

  lemma CreatedFits(env: Env, d: Dev, device: int, size: nat)
    ensures match VramBuf.CreateBuffer(env, d, device, size)
            case NotCreated(_) => true
            case Created(_, b) => b.backed <= b.maxSize
  {
  }

  lemma PluginAdds(s: State, w: World, b: VramBuf.Buf, extra: int)
    requires Books(w, Rest(s) + [BufRegion(b)] + [], extra)
    ensures Books(w, BufRegions(s.bufs) + PlugRegions([Entry(b.base, b)] + s.plug), extra)
  {
    hide Balanced, BarRegion, BufRegion;
    var r, pr := BufRegion(b), PlugRegions(s.plug);
    var lead := BarRegions(w.bars) + BufRegions(s.bufs);
    MoveBalanced(w.dev, lead, r, pr, [], extra);
    assert PlugRegions([Entry(b.base, b)] + s.plug) == [r] + pr;
    assert lead + [r] + pr + [] == BarRegions(w.bars) + (BufRegions(s.bufs) + ([r] + pr));
    assert lead + pr + [r] + [] == BarRegions(w.bars) + (Rest(s) + [r] + []);
  }

  lemma PluginFreeStep(s: State, ptr: nat, device: int)
    requires Sound(s)
    ensures var p := PlugAlloc.FreeFn(s.w, s.plug, s.own, ptr, device);
            AllTiled(s.(plug := p.bufs)) && Accounted(s.(w := p.w, plug := p.bufs)) && p.w.bars == s.w.bars
  {
    hide Books, VramBuf.DestroyBuffer, BufRegion, BufRegions, PlugRegions, VramBuf.Tiled;
    var i := Find(s.plug, ptr);
    if ptr != 0 && device == s.own && i < |s.plug| {
      var pre := BufRegions(s.bufs) + PlugRegions(s.plug[..i]);
      var post := PlugRegions(s.plug[i + 1..]);
      PlugSplit(s.plug, i);
      assert Rest(s) == pre + [BufRegion(s.plug[i].item)] + post;
      DestroyBooks(s.w, s.plug[i].item, pre, post, AllocBytes(s.allocs) + s.lost);
      assert BufRegions(s.bufs) + PlugRegions(Without(s.plug, i)) == pre + post;
    }
  }

  // ----- one step, any run -----

  lemma StepVbarBooks(env: Env, s: State, op: Op, k: nat)
    requires Sound(s) && AllWf(s.w.bars) && k < |s.w.bars|
    ensures Accounted(StepVbar(env, s, op, k)) && StepVbar(env, s, op, k) == s.(w := StepVbar(env, s, op, k).w)
  {
    hide Books, Fault, Unpin, FreeBar, FreeMemory, BufRegions, PlugRegions;
    var rest, extra := Rest(s), AllocBytes(s.allocs) + s.lost;
    var b := s.w.bars[k];
    match op
    case LimitVbar(_, size) => TouchBooks(s.w, k, b.(limit := PagesUp(size)), rest, extra);
    case PrioritizeVbar(_) => ReorderBooks(s.w, k, b.(watermark := |b.pages|), rest, extra);
    case DeprioritizeVbar(_) => ReorderBooks(s.w, k, b, rest, extra);
    case FaultVbar(_, offset, size) => FaultBooks(env, s.w, k, offset, size, rest, extra);
    case UnpinVbar(_, offset, size) => UnpinStepBooks(s.w, k, offset, size, rest, extra);
    case FreeVbar(_) => FreeBarBooks(s.w, k, rest, extra);
    case FreeVbarMemory(_, size) => FreeMemoryBooks(s.w, k, size, rest, extra);
    case _ =>
  }

  lemma UnpinStepBooks(w: World, m: nat, offset: nat, size: nat, rest: seq<Region>, extra: int)
    requires Books(w, rest, extra) && AllWf(w.bars) && m < |w.bars|
    ensures Books(Unpin(w, m, offset, size), rest, extra)
  {
    UnpinBooks(w, m, offset / VBAR_PAGE, PagesUp(offset + size), rest, extra);
  }

  lemma ResetBooks(w: World, rest: seq<Region>, extra: int)
    requires Books(w, rest, extra)
    ensures Books(w.(bars := Residency.ResetLimits(w.bars)), rest, extra)
  {
    forall k | 0 <= k < |w.bars|
      ensures BarRegion(w.bars[k].(limit := 0)) == BarRegion(w.bars[k])
    {
      SameRegion(w.bars[k], w.bars[k].(limit := 0));
    }
    assert BarRegions(Residency.ResetLimits(w.bars)) == BarRegions(w.bars);
  }

  lemma AllocateStep(env: Env, s: State, size: nat, nextId: nat)
    requires Sound(s)
    ensures Accounted(s.(w := Allocate(env, s.w, s.nextId, size), nextId := nextId))
  {
    hide Books, Allocate;
    AllocateBooks(env, s.w, s.nextId, size, Rest(s), AllocBytes(s.allocs) + s.lost);
  }

  lemma ResetStep(s: State)
    requires Sound(s)
    ensures Accounted(s.(w := s.w.(bars := Residency.ResetLimits(s.w.bars))))
  {
    hide Books;
    ResetBooks(s.w, Rest(s), AllocBytes(s.allocs) + s.lost);
  }

  lemma MallocStep(env: Env, s: State, size: nat, headroom: nat)
    requires Sound(s) && AllWf(s.w.bars)
    ensures Accounted(WithLedger(s, SizeTable.Malloc(env, Ledger(s), size, headroom).l))
  {
    hide Books, SizeTable.Malloc;
    MallocBooks(env, Ledger(s), size, headroom, Rest(s));
  }

  lemma FreeStep(env: Env, s: State, ptr: nat)
    requires Sound(s)
    ensures Accounted(WithLedger(s, SizeTable.Free(env, Ledger(s), ptr).l))
  {
    hide Books, SizeTable.Free;
    FreeBooks(env, Ledger(s), ptr, Rest(s));
  }

  lemma StepOtherSound(env: Env, s: State, op: Op)
    requires Sound(s) && !OfVbar(op)
    ensures AllWf(s.w.bars) && forall i :: 0 <= i < |s.bufs| ==> s.bufs[i].backed <= s.bufs[i].maxSize
    ensures AllTiled(StepOther(env, s, op)) && Accounted(StepOther(env, s, op))
  {
    hide Books, Allocate, SizeTable.Malloc, SizeTable.Free, VramBuf.GrowBuffer, VramBuf.DestroyBuffer,
         VramBuf.CreateBuffer, PlugAlloc.AllocFn, PlugAlloc.FreeFn, VramBuf.Tiled, BufRegions, PlugRegions, Accounted,
         AllPages, Ids;
    ReadyMeans(s);
    match op
    case AllocateVbar(size) => AllocateStep(env, s, size, StepOther(env, s, op).nextId);
    case ResetLimits => ResetStep(s);
    case CreateBuf(size) => CreateStep(env, s, size);
    case GrowBuf(i, required) =>
      if i < |s.bufs| {
        GrowStep(env, s, i, required);
      }
    case DestroyBuf(i) =>
      if i < |s.bufs| {
        DestroyStep(s, i);
      }
    case CudaMalloc(size) => MallocStep(env, s, size, SizeTable.MALLOC_HEADROOM);
    case CudaMallocAsync(size) => MallocStep(env, s, size, 0);
    case CudaFree(ptr) => FreeStep(env, s, ptr);
    case PluginAlloc(size, device) => PluginAllocStep(env, s, size, device);
    case PluginFree(ptr, device) => PluginFreeStep(s, ptr, device);
    case _ =>
  }

  /** Soundness is preserved by every operation, failed ones included, for every environment. */
  lemma StepSound(env: Env, s: State, op: Op)
    requires Sound(s)
    ensures AllWf(s.w.bars) && forall i :: 0 <= i < |s.bufs| ==> s.bufs[i].backed <= s.bufs[i].maxSize
    ensures Sound(Step(env, s, op))
  {
    hide StepVbar, StepOther, Accounted, BarsEvolve;
    ReadyMeans(s);
    StepEvolves(env, s, op);
    StepIds(env, s, op);
    EvolvedBars(op, FaultOk(env, s, op), s.w.bars, Step(env, s, op).w.bars, s.nextId, Step(env, s, op).nextId);
    if OfVbar(op) {
      var k := Locate(s.w.bars, op.id);
      if k < |s.w.bars| {
        StepVbarBooks(env, s, op, k);
      }
    } else {
      StepOtherSound(env, s, op);
    }
  }

  lemma StepIds(env: Env, s: State, op: Op)
    requires Ready(s)
    ensures AllWf(s.w.bars) && forall i :: 0 <= i < |s.bufs| ==> s.bufs[i].backed <= s.bufs[i].maxSize
    ensures op.FreeVbar? ==> Step(env, s, op).nextId == s.nextId
  {
  }

  /** A context just initialised. */
  function Initial(capacity: nat, own: int): State {
    State(World(Dev(capacity, 0, 0, 0, 0, 0, Gpu({}, {}, {}, false)), []), 0, [], 0, [], [], own)
  }

  lemma InitialSound(capacity: nat, own: int)
    ensures Sound(Initial(capacity, own))
  {
    SumsNone();
    assert BarRegions([]) + (BufRegions([]) + PlugRegions([])) == [];
  }

  ghost function Next(env: Env, s: State, op: Op): (s': State)
    requires Sound(s)
    ensures Sound(s')
  {
    StepSound(env, s, op);
    Step(env, s, op)
  }

  /** The state after a run: sound whatever the operations and the environment. */
  ghost function Run(env: Env, s: State, ops: seq<Op>): (s': State)
    requires Sound(s)
    ensures Sound(s')
    decreases |ops|
  {
    hide Sound, Step, Next;
    if ops == [] then s else Run(env, Next(env, s, ops[0]), ops[1..])
  }
}
