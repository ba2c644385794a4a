/** What one operation can do to one VBAR. */
module Evolution {
  import opened Chains
  import opened Plat
  import opened Residency
  import opened Eviction
  import opened FaultFacts
  import VramBuf
  import SizeTable
  import PlugAlloc
  import opened System

  // ----- eviction by other operations -----

  lemma ShrunkTrans(a: Bar, b: Bar, c: Bar)
    requires Shrunk(a, b) && Shrunk(b, c)
    ensures Shrunk(a, c)
  {
  }

  lemma AllShrunkTrans(a: seq<Bar>, b: seq<Bar>, c: seq<Bar>)
    requires AllShrunk(a, b) && AllShrunk(b, c)
    ensures AllShrunk(a, c)
  {
    forall k | 0 <= k < |a|
      ensures Shrunk(a[k], c[k])
    {
      ShrunkTrans(a[k], b[k], c[k]);
    }
  }

  lemma FreePagesShrinks(w: World, size: nat)
    requires AllWf(w.bars)
    ensures AllShrunk(w.bars, FreePages(w, size).w.bars)
  {
    DrainShrinks(w.bars, 0, PagesUp(size));
  }

  lemma MakeRoomShrinks(env: Env, w: World, size: nat)
    requires AllWf(w.bars)
    ensures AllShrunk(w.bars, MakeRoom(env, w, size).w.bars)
  {
    FreePagesShrinks(World(Poll(env, w.dev), w.bars), Deficit(Poll(env, w.dev), size));
  }

  lemma GrowChunkShrinks(env: Env, w: World, b: VramBuf.Buf, to: nat)
    requires AllWf(w.bars) && b.backed < to
    ensures AllShrunk(w.bars, VramBuf.GrowChunk(env, w, b, to).w.bars)
  {
    hide Stooges, FreePages;
    var first := Stooges(env, w.dev, b.base + b.backed, VramBuf.Step(b, to));
    FreePagesShrinks(World(first.dev, w.bars), VramBuf.CHUNK);
  }

  lemma {:induction false} GrowLoopShrinks(env: Env, w: World, b: VramBuf.Buf, to: nat)
    requires AllWf(w.bars)
    ensures AllShrunk(w.bars, VramBuf.GrowLoop(env, w, b, to).w.bars)
    decreases if to > b.backed then to - b.backed else 0
  {
    hide VramBuf.GrowChunk, Shrunk;
    if b.backed >= to {
      Unshrunk(w.bars);
    } else {
      GrowChunkShrinks(env, w, b, to);
      var g := VramBuf.GrowChunk(env, w, b, to);
      if g.ok {
        GrowLoopShrinks(env, g.w, g.buf, to);
        AllShrunkTrans(w.bars, g.w.bars, VramBuf.GrowLoop(env, g.w, g.buf, to).w.bars);
      }
    }
  }

  lemma Unshrunk(bars: seq<Bar>)
    ensures AllShrunk(bars, bars)
  {
  }

  lemma GrowShrinks(env: Env, w: World, b: VramBuf.Buf, required: nat)
    requires AllWf(w.bars) && b.backed <= b.maxSize
    ensures AllShrunk(w.bars, VramBuf.GrowBuffer(env, w, b, required).w.bars)
  {
    hide MakeRoom, VramBuf.GrowLoop, Shrunk;
    Unshrunk(w.bars);
    if b.backed < required <= b.maxSize {
      VramBuf.GrowsEnough(b, required);
      var to := VramBuf.GrowTo(b, required);
      MakeRoomShrinks(env, w, to - b.backed);
      var w' := MakeRoom(env, w, to - b.backed).w;
      GrowLoopShrinks(env, w', b, to);
      AllShrunkTrans(w.bars, w'.bars, VramBuf.GrowLoop(env, w', b, to).w.bars);
    }
  }

  lemma MallocShrinks(env: Env, l: SizeTable.Ledger, size: nat, headroom: nat)
    requires AllWf(l.w.bars)
    ensures AllShrunk(l.w.bars, SizeTable.Malloc(env, l, size, headroom).l.w.bars)
  {
    hide MakeRoom, FreePages, Shrunk, SizeTable.Charged;
    MakeRoomShrinks(env, l.w, size + headroom);
    var w1 := MakeRoom(env, l.w, size + headroom).w;
    var first := SizeTable.TryMalloc(env, l.(w := w1), size);
    FreePagesShrinks(first.l.w, size + headroom);
    AllShrunkTrans(l.w.bars, w1.bars, FreePages(first.l.w, size + headroom).w.bars);
  }

  lemma PluginShrinks(env: Env, s: State, size: nat, device: int)
    requires AllWf(s.w.bars)
    ensures AllShrunk(s.w.bars, PlugAlloc.AllocFn(env, s.w, s.plug, s.own, size, device).w.bars)
  {
    hide VramBuf.GrowBuffer, Shrunk, VramBuf.DestroyBuffer;
    Unshrunk(s.w.bars);
    match VramBuf.CreateBuffer(env, s.w.dev, device, size)
    case NotCreated(d) =>
    case Created(d, b) => GrowShrinks(env, World(d, s.w.bars), b, size);
  }

  // ----- one VBAR -----

  /** The pin count of page q after an operation. */
  function PinsAfter(op: Op, ok: bool, id: nat, q: nat, pins: nat): nat {
    match op
    case FaultVbar(i, offset, size) =>
      if i == id && ok && offset / VBAR_PAGE <= q < PagesUp(offset + size) then PinUp(pins) else pins
    case UnpinVbar(i, offset, size) =>
      if i == id && pins > 0 && offset / VBAR_PAGE <= q < PagesUp(offset + size) then pins - 1 else pins
    case _ => pins
  }

  /** The page is neither unmapped nor remapped. */
  ghost predicate Intact(pg: Page, pg': Page) { pg'.handle == pg.handle && pg'.serial == pg.serial }

  /** b' is what operation `op` may leave of b; `ok` says whether a fault succeeded. */
  ghost predicate Evolves(op: Op, ok: bool, b: Bar, b': Bar) {
    && b'.id == b.id && b'.base == b.base && |b'.pages| == |b.pages|
    && (op == PrioritizeVbar(b.id) || b'.watermark <= b.watermark)
    && (b'.watermark < b.watermark ==> b.limit <= b'.watermark)
    && (b'.limit == b.limit || op.ResetLimits? || (op.LimitVbar? && op.id == b.id))
    && (forall q :: 0 <= q < |b.pages| && q < b'.watermark ==> Spared(b.pages[q], b'.pages[q]))
    && (forall q :: 0 <= q < |b.pages| ==> Aged(b.pages[q], b'.pages[q]))
    && (forall q :: 0 <= q < |b.pages| ==> b'.pages[q].pins == PinsAfter(op, ok, b.id, q, b.pages[q].pins))
    && (forall q :: 0 <= q < |b.pages| && b.pages[q].pins > 0 && PinsAfter(op, false, b.id, q, b.pages[q].pins) > 0 ==>
         Intact(b.pages[q], b'.pages[q]))
    && ((op.FaultVbar? && op.id == b.id) || (forall q: nat :: Stray(b', q) ==> Stray(b, q)))
    && Pages(b')
  }

  lemma ShrunkEvolves(op: Op, ok: bool, b: Bar, b': Bar)
    requires Pages(b) && Shrunk(b, b')
    requires Neutral(op, b.id)
    ensures Evolves(op, ok, b, b')
  {
    hide PinsAfter;
    forall q, ok: bool | 0 <= q < |b.pages|
      ensures PinsAfter(op, ok, b.id, q, b.pages[q].pins) == b.pages[q].pins
    {
      NeutralPins(op, ok, b.id, q, b.pages[q].pins);
    }
  }

  /** The operation neither pins nor unpins this VBAR. */
  ghost predicate Neutral(op: Op, id: nat) { op.FaultVbar? || op.UnpinVbar? ==> op.id != id }

  lemma NeutralPins(op: Op, ok: bool, id: nat, q: nat, pins: nat)
    requires Neutral(op, id)
    ensures PinsAfter(op, ok, id, q, pins) == pins
  {
  }

  lemma FaultEvolves(env: Env, w: World, m: nat, offset: nat, size: nat)
    requires AllWf(w.bars) && m < |w.bars| && Pages(w.bars[m])
    ensures var f := Fault(env, w, m, offset, size);
            var b := w.bars[m];
            OthersShrunk(w.bars, f.w.bars, m)
            && Evolves(FaultVbar(b.id, offset, size), f.code.FaultSuccess?, b, f.w.bars[m])
  {
    hide Fault;
    var f := Fault(env, w, m, offset, size);
    FaultAlwaysKeeps(env, w, m, offset, size);
    if f.code.FaultSuccess? {
      SuccessIsSound(env, w, m, offset, size);
    }
  }

  /** The page of an unpin, in closed form. */
  lemma {:induction false} UnpinClosed(w: World, m: nat, p: nat, end: nat)
    requires AllWf(w.bars) && m < |w.bars|
    ensures var w' := UnpinLoop(w, m, p, end);
            var b, b' := w.bars[m], w'.bars[m];
            && b' == b.(pages := b'.pages) && |b'.pages| == |b.pages| && w'.bars == w.bars[m := b']
            && forall q :: 0 <= q < |b.pages| ==>
                 b'.pages[q] == if p <= q < end then UnpinPage(b.pages[q], q >= b.watermark) else b.pages[q]
    decreases end - p
  {
    if p < end && p < |w.bars[m].pages| {
      UnpinClosed(UnpinOne(w, m, p), m, p + 1, end);
    }
  }

  lemma UnpinEvolves(w: World, m: nat, offset: nat, size: nat)
    requires AllWf(w.bars) && m < |w.bars| && Pages(w.bars[m])
    ensures var w' := Unpin(w, m, offset, size);
            var b := w.bars[m];
            w'.bars == w.bars[m := w'.bars[m]] && Evolves(UnpinVbar(b.id, offset, size), true, b, w'.bars[m])
  {
    UnpinClosed(w, m, offset / VBAR_PAGE, PagesUp(offset + size));
  }

  lemma MarksEvolve(op: Op, ok: bool, b: Bar, watermark: nat, limit: nat)
    requires Pages(b) && watermark <= |b.pages| && (watermark <= b.watermark || op == PrioritizeVbar(b.id))
    requires watermark >= b.watermark && !op.FaultVbar? && !op.UnpinVbar?
    requires limit == b.limit || op.ResetLimits? || (op.LimitVbar? && op.id == b.id)
    ensures Evolves(op, ok, b, b.(watermark := watermark, limit := limit))
  {
  }

  // ----- one step -----

  /** What `Step` asks of a state. */
  ghost predicate Ready(s: State) {
    AllPages(s.w.bars) && Ids(s.w.bars, s.nextId) && AllTiled(s)
  }

  function FaultOk(env: Env, s: State, op: Op): bool
    requires AllWf(s.w.bars)
  {
    op.FaultVbar? && Locate(s.w.bars, op.id) < |s.w.bars|
    && Fault(env, s.w, Locate(s.w.bars, op.id), op.offset, op.size).code.FaultSuccess?
  }

  lemma LocateIs(bars: seq<Bar>, nextId: nat, k: nat)
    requires Ids(bars, nextId) && k < |bars|
    ensures Locate(bars, bars[k].id) == k
  {
  }

  /** Where VBAR k stands after a step that does not free it. */
  function Moved(bars: seq<Bar>, op: Op, k: nat): nat
    requires k < |bars|
  {
    var m := if OfVbar(op) then Locate(bars, op.id) else |bars|;
    if m >= |bars| then k
    else if op.FreeVbar? then (if k > m then k - 1 else k)
    else if op.PrioritizeVbar? then (if k > m then k - 1 else if k == m then |bars| - 1 else k)
    else if op.DeprioritizeVbar? then (if k < m then k + 1 else if k == m then 0 else k)
    else k
  }

  /** The VBARs after a step: each old one evolved, at its new place, and at most one new one. */
  ghost predicate BarsEvolve(op: Op, ok: bool, bars: seq<Bar>, bars': seq<Bar>, nextId: nat, nextId': nat) {
    && |bars'| == (if op.FreeVbar? && Locate(bars, op.id) < |bars| then |bars| - 1 else |bars| + (nextId' - nextId))
    && (|| nextId' == nextId
        || (&& nextId' == nextId + 1 && |bars'| > 0
            && bars'[|bars'| - 1].id == nextId && Pages(bars'[|bars'| - 1])))
    && forall k :: 0 <= k < |bars| && op != FreeVbar(bars[k].id) ==>
         Moved(bars, op, k) < |bars'| && Evolves(op, ok, bars[k], bars'[Moved(bars, op, k)])
  }

  lemma AllShrunkEvolve(op: Op, ok: bool, bars: seq<Bar>, bars': seq<Bar>, nextId: nat)
    requires AllPages(bars) && AllShrunk(bars, bars') && !OfVbar(op)
    ensures BarsEvolve(op, ok, bars, bars', nextId, nextId)
  {
    hide Evolves, Shrunk, Pages;
    forall k | 0 <= k < |bars|
      ensures Evolves(op, ok, bars[k], bars'[k])
    {
      ShrunkEvolves(op, ok, bars[k], bars'[k]);
    }
  }

  lemma OneEvolves(op: Op, ok: bool, bars: seq<Bar>, bars': seq<Bar>, nextId: nat)
    requires AllPages(bars) && Ids(bars, nextId) && OfVbar(op) && Locate(bars, op.id) < |bars| == |bars'|
    requires !op.FreeVbar? && !op.PrioritizeVbar? && !op.DeprioritizeVbar?
    requires OthersShrunk(bars, bars', Locate(bars, op.id))
    requires Evolves(op, ok, bars[Locate(bars, op.id)], bars'[Locate(bars, op.id)])
    ensures BarsEvolve(op, ok, bars, bars', nextId, nextId)
  {
    hide Evolves, Shrunk, Pages, Locate;
    forall k | 0 <= k < |bars| && k != Locate(bars, op.id)
      ensures Evolves(op, ok, bars[k], bars'[k])
    {
      LocateIs(bars, nextId, k);
      ShrunkEvolves(op, ok, bars[k], bars'[k]);
    }
  }

  lemma Others(bars: seq<Bar>, m: nat, b: Bar)
    requires m < |bars|
    ensures OthersShrunk(bars, bars[m := b], m)
  {
  }

  lemma StepVbarEvolves(env: Env, s: State, op: Op)
    requires Ready(s) && OfVbar(op) && Locate(s.w.bars, op.id) < |s.w.bars|
    ensures AllWf(s.w.bars)
    ensures var s' := StepVbar(env, s, op, Locate(s.w.bars, op.id));
            s' == s.(w := s'.w) && BarsEvolve(op, FaultOk(env, s, op), s.w.bars, s'.w.bars, s.nextId, s.nextId)
  {
    hide Evolves, Locate, Fault, Unpin, DropAll;
    var bars := s.w.bars;
    var m := Locate(bars, op.id);
    var ok := FaultOk(env, s, op);
    var b := bars[m];
    match op
    case LimitVbar(_, size) =>
      MarksEvolve(op, ok, b, b.watermark, PagesUp(size));
      Others(bars, m, b.(limit := PagesUp(size)));
      OneEvolves(op, ok, bars, SetLimit(s.w, m, size).bars, s.nextId);
    case FaultVbar(_, offset, size) =>
      FaultEvolves(env, s.w, m, offset, size);
      OneEvolves(op, ok, bars, Fault(env, s.w, m, offset, size).w.bars, s.nextId);
    case UnpinVbar(_, offset, size) =>
      UnpinEvolves(s.w, m, offset, size);
      UnpinOk(op, b, Unpin(s.w, m, offset, size).bars[m], ok);
      Others(bars, m, Unpin(s.w, m, offset, size).bars[m]);
      OneEvolves(op, ok, bars, Unpin(s.w, m, offset, size).bars, s.nextId);
    case FreeVbarMemory(_, size) =>
      DrainShrinks([b], 0, PagesUp(size));
      var b' := Drain([b], 0, PagesUp(size)).bars[0];
      ShrunkEvolves(op, ok, b, b');
      Others(bars, m, b');
      OneEvolves(op, ok, bars, bars[m := b'], s.nextId);
    case _ =>
      ReorderEvolves(op, ok, bars, s.nextId);
  }

  lemma UnpinOk(op: Op, b: Bar, b': Bar, ok: bool)
    requires op.UnpinVbar? && Evolves(op, true, b, b')
    ensures Evolves(op, ok, b, b')
  {
    hide Stray;
  }

  function Reordered(op: Op, bars: seq<Bar>): seq<Bar>
    requires (op.PrioritizeVbar? || op.DeprioritizeVbar? || op.FreeVbar?) && Locate(bars, op.id) < |bars|
  {
    var m := Locate(bars, op.id);
    if op.PrioritizeVbar? then Prioritize(bars, m)
    else if op.DeprioritizeVbar? then Deprioritize(bars, m) else Without(bars, m)
  }

  lemma ReorderedAt(op: Op, bars: seq<Bar>, k: nat)
    requires (op.PrioritizeVbar? || op.DeprioritizeVbar? || op.FreeVbar?) && Locate(bars, op.id) < |bars| && k < |bars|
    requires op.FreeVbar? ==> k != Locate(bars, op.id)
    ensures var bars' := Reordered(op, bars);
            var j := Moved(bars, op, k);
            && j < |bars'|
            && bars'[j] == if op.PrioritizeVbar? && k == Locate(bars, op.id)
                           then bars[k].(watermark := |bars[k].pages|) else bars[k]
  {
    hide Locate, Without;
    WithoutAt(bars, Locate(bars, op.id), k);
  }

  lemma WithoutAt(bars: seq<Bar>, m: nat, k: nat)
    requires m < |bars| && k < |bars|
    ensures |Without(bars, m)| == |bars| - 1
    ensures k < m ==> Without(bars, m)[k] == bars[k]
    ensures k > m ==> Without(bars, m)[k - 1] == bars[k]
  {
  }

  lemma ReorderedSize(op: Op, bars: seq<Bar>)
    requires (op.PrioritizeVbar? || op.DeprioritizeVbar? || op.FreeVbar?) && Locate(bars, op.id) < |bars|
    ensures |Reordered(op, bars)| == if op.FreeVbar? then |bars| - 1 else |bars|
  {
  }

  lemma ReorderEvolves(op: Op, ok: bool, bars: seq<Bar>, nextId: nat)
    requires AllPages(bars) && Ids(bars, nextId) && (op.PrioritizeVbar? || op.DeprioritizeVbar? || op.FreeVbar?)
    requires Locate(bars, op.id) < |bars|
    ensures BarsEvolve(op, ok, bars, Reordered(op, bars), nextId, nextId)
  {
    hide Evolves, Locate, Moved, Reordered;
    var m := Locate(bars, op.id);
    ReorderedSize(op, bars);
    forall k | 0 <= k < |bars| && op != FreeVbar(bars[k].id)
      ensures Moved(bars, op, k) < |Reordered(op, bars)|
      ensures Evolves(op, ok, bars[k], Reordered(op, bars)[Moved(bars, op, k)])
    {
      ReorderedAt(op, bars, k);
      if op.PrioritizeVbar? && k == m {
        MarksEvolve(op, ok, bars[k], |bars[k].pages|, bars[k].limit);
      } else {
        MarksEvolve(op, ok, bars[k], bars[k].watermark, bars[k].limit);
      }
    }
  }

  lemma ReadyMeans(s: State)
    requires Ready(s)
    ensures AllWf(s.w.bars) && forall i :: 0 <= i < |s.bufs| ==> s.bufs[i].backed <= s.bufs[i].maxSize
  {
  }

  lemma StepOtherEvolves(env: Env, s: State, op: Op)
    requires Ready(s) && !OfVbar(op)
    ensures AllWf(s.w.bars) && forall i :: 0 <= i < |s.bufs| ==> s.bufs[i].backed <= s.bufs[i].maxSize
    ensures var s' := StepOther(env, s, op); BarsEvolve(op, false, s.w.bars, s'.w.bars, s.nextId, s'.nextId)
  {
    hide Evolves, SizeTable.Malloc, SizeTable.Free, VramBuf.GrowBuffer, PlugAlloc.AllocFn, Shrunk, Pages, Allocate,
         VramBuf.Tiled, VramBuf.DestroyBuffer, VramBuf.CreateBuffer;
    ReadyMeans(s);
    var bars := s.w.bars;
    Unshrunk(bars);
    AllShrunkEvolve(op, false, bars, bars, s.nextId);
    match op
    case AllocateVbar(size) => AllocateEvolves(env, s, size);
    case ResetLimits => ResetEvolves(op, bars, s.nextId);
    case GrowBuf(i, required) =>
      if i < |s.bufs| {
        GrowShrinks(env, s.w, s.bufs[i], required);
        AllShrunkEvolve(op, false, bars, VramBuf.GrowBuffer(env, s.w, s.bufs[i], required).w.bars, s.nextId);
      }
    case CudaMalloc(size) =>
      MallocShrinks(env, Ledger(s), size, SizeTable.MALLOC_HEADROOM);
      var r := SizeTable.Malloc(env, Ledger(s), size, SizeTable.MALLOC_HEADROOM);
      AllShrunkEvolve(op, false, bars, r.l.w.bars, s.nextId);
    case CudaMallocAsync(size) =>
      MallocShrinks(env, Ledger(s), size, 0);
      AllShrunkEvolve(op, false, bars, SizeTable.Malloc(env, Ledger(s), size, 0).l.w.bars, s.nextId);
    case CudaFree(ptr) => FreeKeepsBars(env, Ledger(s), ptr);
    case PluginAlloc(size, device) =>
      PluginShrinks(env, s, size, device);
      AllShrunkEvolve(op, false, bars, PlugAlloc.AllocFn(env, s.w, s.plug, s.own, size, device).w.bars, s.nextId);
    case _ =>
  }

  lemma FreeKeepsBars(env: Env, l: SizeTable.Ledger, ptr: nat)
    ensures SizeTable.Free(env, l, ptr).l.w.bars == l.w.bars
  {
  }

  lemma AllocateEvolves(env: Env, s: State, size: nat)
    requires Ready(s)
    ensures var w := Allocate(env, s.w, s.nextId, size);
            BarsEvolve(AllocateVbar(size), false, s.w.bars, w.bars, s.nextId,
                       s.nextId + (if |w.bars| > |s.w.bars| then 1 else 0))
  {
    hide Evolves, Reserve;
    Unshrunk(s.w.bars);
    AllShrunkEvolve(AllocateVbar(size), false, s.w.bars, s.w.bars, s.nextId);
  }

  lemma ResetEvolves(op: Op, bars: seq<Bar>, nextId: nat)
    requires AllPages(bars) && op.ResetLimits?
    ensures BarsEvolve(op, false, bars, Residency.ResetLimits(bars), nextId, nextId)
  {
    hide Evolves;
    forall k | 0 <= k < |bars|
      ensures Evolves(op, false, bars[k], bars[k].(limit := 0))
    {
      MarksEvolve(op, false, bars[k], bars[k].watermark, 0);
    }
  }

  /** What one step does to every VBAR. */
  lemma StepEvolves(env: Env, s: State, op: Op)
    requires Ready(s)
    ensures AllWf(s.w.bars) && forall i :: 0 <= i < |s.bufs| ==> s.bufs[i].backed <= s.bufs[i].maxSize
    ensures var s' := Step(env, s, op);
            BarsEvolve(op, FaultOk(env, s, op), s.w.bars, s'.w.bars, s.nextId, s'.nextId)
  {
    hide StepVbar, StepOther, Evolves;
    ReadyMeans(s);
    if OfVbar(op) {
      if Locate(s.w.bars, op.id) < |s.w.bars| {
        StepVbarEvolves(env, s, op);
      } else {
        AbsentTarget(op, s.w.bars, s.nextId);
      }
    } else {
      StepOtherEvolves(env, s, op);
    }
  }

  lemma NotLocated(bars: seq<Bar>, id: nat)
    requires Locate(bars, id) == |bars|
    ensures forall k :: 0 <= k < |bars| ==> bars[k].id != id
  {
  }

  lemma AbsentTarget(op: Op, bars: seq<Bar>, nextId: nat)
    requires AllPages(bars) && OfVbar(op) && Locate(bars, op.id) == |bars|
    ensures BarsEvolve(op, false, bars, bars, nextId, nextId)
  {
    hide Evolves, Shrunk;
    NotLocated(bars, op.id);
    Unshrunk(bars);
    forall k | 0 <= k < |bars|
      ensures Evolves(op, false, bars[k], bars[k])
    {
      ShrunkEvolves(op, false, bars[k], bars[k]);
    }
  }

  // ----- the priority list -----

  /** Prioritizing and deprioritizing move one VBAR to an end of the list and keep all others in order; freeing keeps
      the rest in order too. */
  lemma OrderIsKept(op: Op, bars: seq<Bar>, i: nat, k: nat)
    requires i < k < |bars|
    requires OfVbar(op) && Locate(bars, op.id) != i && Locate(bars, op.id) != k
    ensures Moved(bars, op, i) < Moved(bars, op, k)
    ensures op.PrioritizeVbar? && Locate(bars, op.id) < |bars| ==> Moved(bars, op, Locate(bars, op.id)) == |bars| - 1
    ensures op.DeprioritizeVbar? && Locate(bars, op.id) < |bars| ==> Moved(bars, op, Locate(bars, op.id)) == 0
  {
    hide Locate;
  }
}
