/** VBARs as values, and what each loop of the eviction engine does to them. */
module Residency {
  import opened Chains
  import opened Plat

  const VBAR_PAGE: int := 33554432
  const PIN_SPAN: nat := 0x1_0000_0000
  const SIGNATURE_SPAN: nat := 0x1_0000_0000

  datatype Page = Page(handle: nat, pins: nat, serial: nat)

  /** `id` stands for the VBAR's own pointer; there are |pages| pages. */
  datatype Bar = Bar(id: nat, base: nat, watermark: nat, limit: nat, pages: seq<Page>)

  function PagesUp(x: nat): nat { (x + VBAR_PAGE - 1) / VBAR_PAGE }

  predicate Wf(b: Bar) { b.watermark <= |b.pages| }

  predicate AllWf(bars: seq<Bar>) { forall k :: 0 <= k < |bars| ==> Wf(bars[k]) }

  // ----- one page -----

  predicate Frees(pg: Page, doFree: bool, doUnpin: bool) {
    doFree && pg.handle != 0 && (doUnpin || pg.pins == 0)
  }

  function Mod1(pg: Page, doFree: bool, doUnpin: bool): Page {
    pg.(handle := if Frees(pg, doFree, doUnpin) then 0 else pg.handle, pins := if doUnpin then 0 else pg.pins)
  }

  function PinUp(pins: nat): nat { (pins + 1) % PIN_SPAN }

  function Held(b: Bar, p: nat): Mapping
    requires p < |b.pages|
  {
    Mapping(b.base + p * VBAR_PAGE, VBAR_PAGE, b.pages[p].handle)
  }

  function SetPage(b: Bar, p: nat, pg: Page): Bar
    requires p < |b.pages|
  {
    b.(pages := b.pages[p := pg])
  }

  function Resident(pages: seq<Page>): (n: nat)
    ensures n <= |pages|
  {
    if pages == [] then 0 else Resident(pages[..|pages| - 1]) + (if pages[|pages| - 1].handle != 0 then 1 else 0)
  }

  function Absent(pages: seq<Page>, upTo: nat): nat
    requires upTo <= |pages|
  {
    upTo - Resident(pages[..upTo])
  }

  lemma ResidentUpdate(pages: seq<Page>, p: nat, pg: Page)
    requires p < |pages|
    ensures Resident(pages[p := pg]) ==
            Resident(pages) - (if pages[p].handle != 0 then 1 else 0) + (if pg.handle != 0 then 1 else 0)
  {
    var n := |pages| - 1;
    if p < n {
      ResidentUpdate(pages[..n], p, pg);
      assert pages[p := pg][..n] == pages[..n][p := pg];
    } else {
      assert pages[p := pg][..n] == pages[..n];
    }
  }

  lemma NoneResident(n: nat)
    ensures Resident(seq(n, i => Page(0, 0, 0))) == 0
  {
    if n > 0 {
      assert seq(n, i => Page(0, 0, 0))[..n - 1] == seq(n - 1, i => Page(0, 0, 0));
      NoneResident(n - 1);
    }
  }

  lemma SameResidents(pages: seq<Page>, other: seq<Page>)
    requires |pages| == |other|
    requires forall i :: 0 <= i < |pages| ==> (pages[i].handle == 0 <==> other[i].handle == 0)
    ensures Resident(pages) == Resident(other)
  {
    if |pages| > 0 {
      SameResidents(pages[..|pages| - 1], other[..|pages| - 1]);
    }
  }

  // ----- eviction: each turn tries the page below a watermark, then lowers it -----

  function Top(b: Bar): Page
    requires 0 < b.watermark <= |b.pages|
  {
    b.pages[b.watermark - 1]
  }

  predicate TopFrees(b: Bar)
    requires 0 < b.watermark <= |b.pages|
  {
    Frees(Top(b), true, false)
  }

  function Lower(b: Bar): (b': Bar)
    requires 0 < b.watermark <= |b.pages|
  {
    SetPage(b, b.watermark - 1, Mod1(Top(b), true, false)).(watermark := b.watermark - 1)
  }

  function TopDrop(b: Bar): seq<Mapping>
    requires 0 < b.watermark <= |b.pages|
  {
    if TopFrees(b) then [Held(b, b.watermark - 1)] else []
  }

  datatype World = World(dev: Dev, bars: seq<Bar>)

  datatype Evicted = Evicted(bars: seq<Bar>, dropped: seq<Mapping>)

  function After(ms: seq<Mapping>, e: Evicted): Evicted { Evicted(e.bars, ms + e.dropped) }

  /** The double loop of `vbars_free` from VBAR k on, with `need` pages still to find. */
  function Drain(bars: seq<Bar>, k: nat, need: nat): (e: Evicted)
    requires AllWf(bars)
    ensures AllWf(e.bars) && |e.bars| == |bars| && |e.dropped| <= need
    decreases |bars| - k, if k < |bars| then bars[k].watermark else 0
  {
    if need == 0 || k >= |bars| then Evicted(bars, [])
    else if bars[k].watermark > bars[k].limit then
      var out := TopDrop(bars[k]);
      After(out, Drain(bars[k := Lower(bars[k])], k, need - |out|))
    else Drain(bars, k + 1, need)
  }

  /** One turn of the inner loop. */
  function Turned(w: World, k: nat): World
    requires AllWf(w.bars) && k < |w.bars| && w.bars[k].watermark > 0
  {
    World(DropAll(w.dev, TopDrop(w.bars[k])), w.bars[k := Lower(w.bars[k])])
  }

  /** Where the loop stands: `out` is dropped so far, `need` pages are still to find. */
  ghost predicate Draining(w0: World, total: nat, w: World, k: nat, need: int, out: seq<Mapping>) {
    && AllWf(w0.bars) && AllWf(w.bars) && |w.bars| == |w0.bars|
    && need >= 0 && need + |out| == total
    && Drain(w0.bars, 0, total) == After(out, Drain(w.bars, k, need))
    && w.dev == DropAll(w0.dev, out)
  }

  lemma DrainStart(w: World, total: nat)
    requires AllWf(w.bars)
    ensures Draining(w, total, w, 0, total, [])
  {
  }

  lemma DrainSkip(w0: World, total: nat, w: World, k: nat, need: int, out: seq<Mapping>)
    requires Draining(w0, total, w, k, need, out) && k < |w.bars|
    requires need == 0 || w.bars[k].watermark <= w.bars[k].limit
    ensures Draining(w0, total, w, k + 1, need, out)
  {
  }

  lemma DrainTurn(w0: World, total: nat, w: World, k: nat, need: int, out: seq<Mapping>)
    requires Draining(w0, total, w, k, need, out) && need > 0
    requires k < |w.bars| && w.bars[k].watermark > w.bars[k].limit
    ensures var drop := TopDrop(w.bars[k]);
            Draining(w0, total, Turned(w, k), k, need - |drop|, out + drop)
  {
    var drop := TopDrop(w.bars[k]);
    var rest := Drain(w.bars[k := Lower(w.bars[k])], k, need - |drop|);
    assert out + (drop + rest.dropped) == (out + drop) + rest.dropped;
    DropAllSnoc(w0.dev, out, Held(w.bars[k], w.bars[k].watermark - 1));
    DropAllSnoc(w.dev, [], Held(w.bars[k], w.bars[k].watermark - 1));
    assert out + [] == out;
  }

  lemma DrainDone(w0: World, size: nat, w: World, k: nat, need: nat, out: seq<Mapping>)
    requires size > 0 && Draining(w0, PagesUp(size), w, k, need, out)
    requires need == 0 || k == |w.bars|
    ensures FreePages(w0, size) == Freed(w, need)
  {
    assert out + [] == out;
  }

  function NextAbsent(b: Bar, cursor: nat): nat
    requires Wf(b)
    decreases b.watermark - cursor
  {
    if cursor < b.watermark && b.pages[cursor].handle != 0 then NextAbsent(b, cursor + 1) else cursor
  }

  /** The VBARs between freeing VBAR k's top page and lowering its watermark. */
  function TopFreed(bars: seq<Bar>, k: nat): seq<Bar>
    requires AllWf(bars) && k < |bars| && bars[k].watermark > 0
  {
    bars[k := SetPage(bars[k], bars[k].watermark - 1, Mod1(Top(bars[k]), true, false))]
  }

  function CursorAfter(bars: seq<Bar>, m: nat, k: nat, cursor: nat): nat
    requires AllWf(bars) && m < |bars| && k < |bars| && bars[k].watermark > 0
  {
    if TopFrees(bars[k]) then NextAbsent(TopFreed(bars, k)[m], cursor + 1) else cursor
  }

  datatype Paid = Paid(bars: seq<Bar>, dropped: seq<Mapping>, cursor: nat)

  function AfterPaid(ms: seq<Mapping>, e: Paid): Paid { e.(dropped := ms + e.dropped) }

  /** The double loop of `vbars_free_for_vbar` from VBAR k on: `m` may itself be the victim. */
  function Pay(bars: seq<Bar>, m: nat, k: nat, cursor: nat, target: nat): (e: Paid)
    requires AllWf(bars) && m < |bars|
    ensures AllWf(e.bars) && |e.bars| == |bars|
    ensures forall i :: 0 <= i < |bars| ==> |e.bars[i].pages| == |bars[i].pages|
    decreases |bars| - k, if k < |bars| then bars[k].watermark else 0
  {
    if cursor >= target || cursor >= bars[m].watermark || k >= |bars| then Paid(bars, [], cursor)
    else if bars[k].watermark > bars[k].limit then
      var out := TopDrop(bars[k]);
      AfterPaid(out, Pay(bars[k := Lower(bars[k])], m, k, CursorAfter(bars, m, k, cursor), target))
    else Pay(bars, m, k + 1, cursor, target)
  }

  function PayFor(bars: seq<Bar>, m: nat, target: nat): Paid
    requires AllWf(bars) && m < |bars|
  {
    Pay(bars, m, 0, NextAbsent(bars[m], 0), target)
  }

  /** Where the paying loop stands. */
  ghost predicate Paying(w0: World, m: nat, target: nat, w: World, k: nat, cursor: nat, out: seq<Mapping>) {
    && AllWf(w0.bars) && AllWf(w.bars) && m < |w.bars| == |w0.bars|
    && PayFor(w0.bars, m, target) == AfterPaid(out, Pay(w.bars, m, k, cursor, target))
    && w.dev == DropAll(w0.dev, out)
  }

  lemma PayStart(w: World, m: nat, target: nat)
    requires AllWf(w.bars) && m < |w.bars|
    ensures Paying(w, m, target, w, 0, NextAbsent(w.bars[m], 0), [])
  {
  }

  lemma PaySkip(w0: World, m: nat, target: nat, w: World, k: nat, cursor: nat, out: seq<Mapping>)
    requires Paying(w0, m, target, w, k, cursor, out) && k < |w.bars|
    requires cursor >= target || cursor >= w.bars[m].watermark || w.bars[k].watermark <= w.bars[k].limit
    ensures Paying(w0, m, target, w, k + 1, cursor, out)
  {
  }

  lemma PayTurn(w0: World, m: nat, target: nat, w: World, k: nat, cursor: nat, out: seq<Mapping>)
    requires Paying(w0, m, target, w, k, cursor, out)
    requires cursor < target && cursor < w.bars[m].watermark
    requires k < |w.bars| && w.bars[k].watermark > w.bars[k].limit
    ensures Paying(w0, m, target, Turned(w, k), k, CursorAfter(w.bars, m, k, cursor), out + TopDrop(w.bars[k]))
  {
    var drop := TopDrop(w.bars[k]);
    var rest := Pay(w.bars[k := Lower(w.bars[k])], m, k, CursorAfter(w.bars, m, k, cursor), target);
    assert out + (drop + rest.dropped) == (out + drop) + rest.dropped;
    DropAllSnoc(w0.dev, out, Held(w.bars[k], w.bars[k].watermark - 1));
    DropAllSnoc(w.dev, [], Held(w.bars[k], w.bars[k].watermark - 1));
    assert out + [] == out;
  }

  lemma PayDone(w0: World, m: nat, target: nat, w: World, k: nat, cursor: nat, out: seq<Mapping>)
    requires Paying(w0, m, target, w, k, cursor, out)
    requires cursor >= target || cursor >= w.bars[m].watermark || k == |w.bars|
    ensures w == Charge(w0, m, target)
  {
    assert out + [] == out;
  }

  /** `vbars_free_for_vbar` on the world. */
  function Charge(w: World, m: nat, target: nat): World
    requires AllWf(w.bars) && m < |w.bars|
  {
    World(DropAll(w.dev, PayFor(w.bars, m, target).dropped), PayFor(w.bars, m, target).bars)
  }

  // ----- the exported operations -----

  datatype Freed = Freed(w: World, left: nat)

  /** `vbars_free`: the second result is the number of pages it could not find. */
  function FreePages(w: World, size: nat): (f: Freed)
    requires AllWf(w.bars)
    ensures AllWf(f.w.bars) && |f.w.bars| == |w.bars|
  {
    if size == 0 then Freed(w, 0) else
    var e := Drain(w.bars, 0, PagesUp(size));
    Freed(World(DropAll(w.dev, e.dropped), e.bars), PagesUp(size) - |e.dropped|)
  }

  /** `vbars_free(budget_deficit(size))` */
  function MakeRoom(env: Env, w: World, size: nat): (f: Freed)
    requires AllWf(w.bars)
    ensures AllWf(f.w.bars) && |f.w.bars| == |w.bars|
  {
    var d := Poll(env, w.dev);
    FreePages(World(d, w.bars), Deficit(d, size))
  }

  function Install(w: World, m: nat, p: nat, handle: nat): World
    requires m < |w.bars| && p < |w.bars[m].pages|
  {
    var b := w.bars[m];
    w.(bars := w.bars[m := SetPage(b, p, Page(handle, b.pages[p].pins, b.pages[p].serial + 1))])
  }

  datatype Outcome = Hit | Fresh | NoBudget | Broken

  datatype Turn = Turn(w: World, outcome: Outcome)

  /** One page of a fault: kept if resident, else mapped within budget, else mapped after making VBARs pay. */
  function FaultPage(env: Env, w: World, m: nat, p: nat, end: nat): (t: Turn)
    requires AllWf(w.bars) && m < |w.bars| && p < |w.bars[m].pages|
    ensures AllWf(t.w.bars) && |t.w.bars| == |w.bars| && |t.w.bars[m].pages| == |w.bars[m].pages|
  {
    var va := w.bars[m].base + p * VBAR_PAGE;
    if w.bars[m].pages[p].handle != 0 then Turn(w, Hit) else
    var d := Poll(env, w.dev);
    var first := if Deficit(d, VBAR_PAGE) > 0 then Made(d, OutOfMemory, 0) else Stooges(env, d, va, VBAR_PAGE);
    if first.err.Success? then Turn(Install(World(first.dev, w.bars), m, p, first.handle), Fresh)
    else if first.err.OtherError? then Turn(World(first.dev, w.bars), Broken) else
    var w' := Charge(World(first.dev, w.bars), m, end);
    if p >= w'.bars[m].watermark then Turn(w', NoBudget) else
    var second := Stooges(env, w'.dev, va, VBAR_PAGE);
    if second.err.Success? then Turn(Install(World(second.dev, w'.bars), m, p, second.handle), Fresh)
    else Turn(World(second.dev, w'.bars), Broken)
  }

  datatype FaultCode = FaultSuccess | FaultOom | FaultError

  datatype Faulted = Faulted(w: World, signature: seq<nat>, code: FaultCode)

  function Sign(w: World, m: nat, p: nat): nat
    requires m < |w.bars| && p < |w.bars[m].pages|
  {
    w.bars[m].pages[p].serial % SIGNATURE_SPAN
  }

  function FaultLoop(env: Env, w: World, m: nat, p: nat, end: nat, signature: seq<nat>): (f: Faulted)
    requires AllWf(w.bars) && m < |w.bars| && end <= |w.bars[m].pages|
    ensures AllWf(f.w.bars) && |f.w.bars| == |w.bars| && |f.w.bars[m].pages| == |w.bars[m].pages|
    decreases end - p
  {
    if p >= end then Faulted(w, signature, FaultSuccess) else
    var t := FaultPage(env, w, m, p, end);
    match t.outcome
    case NoBudget => Faulted(t.w, signature, FaultOom)
    case Broken => Faulted(t.w, signature, FaultError)
    case _ => FaultLoop(env, t.w, m, p + 1, end, signature + [Sign(t.w, m, p)])
  }

  /** Where the fault loop stands. */
  ghost predicate Faulting(env: Env, w0: World, m: nat, start: nat, end: nat, w: World, p: nat, signature: seq<nat>) {
    && AllWf(w0.bars) && AllWf(w.bars) && m < |w.bars| == |w0.bars|
    && end <= |w.bars[m].pages| == |w0.bars[m].pages|
    && p == start + |signature|
    && FaultLoop(env, w0, m, start, end, []) == FaultLoop(env, w, m, p, end, signature)
  }

  lemma FaultStart(env: Env, w: World, m: nat, start: nat, end: nat)
    requires AllWf(w.bars) && m < |w.bars| && end <= |w.bars[m].pages|
    ensures Faulting(env, w, m, start, end, w, start, [])
  {
  }

  lemma FaultTurn(env: Env, w0: World, m: nat, start: nat, end: nat, w: World, p: nat, signature: seq<nat>)
    requires Faulting(env, w0, m, start, end, w, p, signature) && p < end
    ensures var t := FaultPage(env, w, m, p, end);
            match t.outcome
            case NoBudget => FaultLoop(env, w0, m, start, end, []) == Faulted(t.w, signature, FaultOom)
            case Broken => FaultLoop(env, w0, m, start, end, []) == Faulted(t.w, signature, FaultError)
            case _ => Faulting(env, w0, m, start, end, t.w, p + 1, signature + [Sign(t.w, m, p)])
  {
  }

  lemma FaultDone(env: Env, w0: World, m: nat, start: nat, end: nat, w: World, p: nat, signature: seq<nat>)
    requires Faulting(env, w0, m, start, end, w, p, signature) && p >= end
    ensures FaultLoop(env, w0, m, start, end, []) == Faulted(w, signature, FaultSuccess)
  {
  }

  function PinRange(pages: seq<Page>, lo: nat, hi: nat): seq<Page> {
    seq(|pages|, i requires 0 <= i < |pages| =>
      if lo <= i < hi then pages[i].(pins := PinUp(pages[i].pins)) else pages[i])
  }

  function Pinned(w: World, m: nat, lo: nat, hi: nat): World
    requires m < |w.bars|
  {
    w.(bars := w.bars[m := w.bars[m].(pages := PinRange(w.bars[m].pages, lo, hi))])
  }

  function Fault(env: Env, w: World, m: nat, offset: nat, size: nat): (f: Faulted)
    requires AllWf(w.bars) && m < |w.bars|
  {
    var w' := MakeRoom(env, w, 0).w;
    var end := PagesUp(offset + size);
    if end > w'.bars[m].watermark then Faulted(w', [], FaultOom) else
    var f := FaultLoop(env, w', m, offset / VBAR_PAGE, end, []);
    if f.code.FaultSuccess? then f.(w := Pinned(f.w, m, offset / VBAR_PAGE, end)) else f
  }

  function UnpinPage(pg: Page, doFree: bool): Page {
    Mod1(pg.(pins := if pg.pins > 0 then pg.pins - 1 else 0), doFree, false)
  }

  function UnpinFrees(pg: Page, doFree: bool): bool {
    Frees(pg.(pins := if pg.pins > 0 then pg.pins - 1 else 0), doFree, false)
  }

  function UnpinOne(w: World, m: nat, p: nat): World
    requires m < |w.bars| && p < |w.bars[m].pages|
  {
    var b := w.bars[m];
    var d := if UnpinFrees(b.pages[p], p >= b.watermark) then DropOne(w.dev, Held(b, p)) else w.dev;
    World(d, w.bars[m := SetPage(b, p, UnpinPage(b.pages[p], p >= b.watermark))])
  }

  lemma UnpinTwice(bars: seq<Bar>, m: nat, p: nat, doFree: bool)
    requires m < |bars| && p < |bars[m].pages|
    ensures var dropped := bars[m := SetPage(bars[m], p, UnpinPage(bars[m].pages[p], false))];
            dropped[m := SetPage(dropped[m], p, Mod1(dropped[m].pages[p], doFree, false))] ==
            bars[m := SetPage(bars[m], p, UnpinPage(bars[m].pages[p], doFree))]
  {
    var pages := bars[m].pages;
    assert pages[p := UnpinPage(pages[p], false)][p := UnpinPage(pages[p], doFree)] ==
           pages[p := UnpinPage(pages[p], doFree)];
  }

  function UnpinLoop(w: World, m: nat, p: nat, end: nat): (w': World)
    requires AllWf(w.bars) && m < |w.bars|
    ensures AllWf(w'.bars) && |w'.bars| == |w.bars|
    decreases end - p
  {
    if p >= end || p >= |w.bars[m].pages| then w else UnpinLoop(UnpinOne(w, m, p), m, p + 1, end)
  }

  function Unpin(w: World, m: nat, offset: nat, size: nat): World
    requires AllWf(w.bars) && m < |w.bars|
  {
    UnpinLoop(w, m, offset / VBAR_PAGE, PagesUp(offset + size))
  }

  /** The driver's share of `vbar_free`: every resident page, lowest first. */
  function AllHeld(b: Bar, upTo: nat): seq<Mapping>
    requires upTo <= |b.pages|
  {
    if upTo == 0 then []
    else AllHeld(b, upTo - 1) + if b.pages[upTo - 1].handle != 0 then [Held(b, upTo - 1)] else []
  }

  function SpaceOf(b: Bar): Space { Space(b.base, |b.pages| * VBAR_PAGE) }

  function FreeBar(w: World, m: nat): World
    requires m < |w.bars|
  {
    var d := DropAll(w.dev, AllHeld(w.bars[m], |w.bars[m].pages|));
    World(d.(gpu := d.gpu.Free(SpaceOf(w.bars[m]))), Without(w.bars, m))
  }

  function PagesFor(capacity: nat, size: nat): nat {
    if capacity / VBAR_PAGE < PagesUp(size) then capacity / VBAR_PAGE else PagesUp(size)
  }

  function NewBar(id: nat, base: nat, n: nat): Bar {
    Bar(id, base, n, 0, seq(n, i => Page(0, 0, 0)))
  }

  /** The first answer is the host allocator's, the second the driver's. */
  function Allocate(env: Env, w: World, id: nat, size: nat): World {
    var a := env(w.dev.clock);
    var d := w.dev.(clock := w.dev.clock + 1);
    if !a.result.Success? then w.(dev := d) else
    var n := PagesFor(d.capacity, size);
    var r := Reserve(env, d, n * VBAR_PAGE);
    if r.err.Success? then World(r.dev, w.bars + [NewBar(id, r.handle, n)]) else w.(dev := r.dev)
  }

  function SetLimit(w: World, m: nat, size: nat): World
    requires m < |w.bars|
  {
    w.(bars := w.bars[m := w.bars[m].(limit := PagesUp(size))])
  }

  function ResetLimits(bars: seq<Bar>): seq<Bar> {
    seq(|bars|, k requires 0 <= k < |bars| => bars[k].(limit := 0))
  }

  function Prioritize(bars: seq<Bar>, m: nat): seq<Bar>
    requires m < |bars|
  {
    Without(bars, m) + [bars[m].(watermark := |bars[m].pages|)]
  }

  function Deprioritize(bars: seq<Bar>, m: nat): seq<Bar>
    requires m < |bars|
  {
    [bars[m]] + Without(bars, m)
  }

  /** `vbar_free_memory`: the eviction loop over one VBAR only. */
  function FreeMemory(w: World, m: nat, size: nat): (f: Freed)
    requires AllWf(w.bars) && m < |w.bars|
  {
    var e := Drain([w.bars[m]], 0, PagesUp(size));
    Freed(World(DropAll(w.dev, e.dropped), w.bars[m := e.bars[0]]), PagesUp(size) - |e.dropped|)
  }

  /** The world as `vbar_free_memory` sees it: one VBAR. */
  function Only(w: World, m: nat): World
    requires m < |w.bars|
  {
    World(w.dev, [w.bars[m]])
  }

  lemma TurnedOnly(w: World, m: nat)
    requires AllWf(w.bars) && m < |w.bars| && w.bars[m].watermark > 0
    ensures Turned(Only(w, m), 0) == Only(Turned(w, m), m)
  {
  }

  lemma DrainOnlyDone(w0: World, m: nat, size: nat, w: World, need: nat, out: seq<Mapping>)
    requires m < |w.bars| == |w0.bars| && AllWf(w0.bars) && w.bars == w0.bars[m := w.bars[m]]
    requires Draining(Only(w0, m), PagesUp(size), Only(w, m), 0, need, out)
    requires need == 0 || w.bars[m].watermark <= w.bars[m].limit
    ensures FreeMemory(w0, m, size) == Freed(w, need)
  {
    assert out + [] == out;
    assert Drain([w.bars[m]], 1, need) == Evicted([w.bars[m]], []);
    assert Drain([w.bars[m]], 0, need) == Evicted([w.bars[m]], []);
  }

  /** Residency flags: bit 0 for resident, bit 1 for pinned. */
  function Status(pg: Page): nat {
    if pg.handle != 0 then (if pg.pins != 0 then 3 else 1) else (if pg.pins != 0 then 2 else 0)
  }

  /** Where `vbar_free` stands: the pages below p are stripped, the others as before. */
  ghost predicate Freeing(w0: World, m: nat, w: World, p: nat) {
    && m < |w0.bars| && |w.bars| == |w0.bars|
    && p <= |w.bars[m].pages| == |w0.bars[m].pages|
    && w.bars == w0.bars[m := w.bars[m]] && w.bars[m].base == w0.bars[m].base
    && w.bars[m].pages[p..] == w0.bars[m].pages[p..]
    && w.dev == DropAll(w0.dev, AllHeld(w0.bars[m], p))
  }

  lemma FreeStart(w: World, m: nat)
    requires m < |w.bars|
    ensures Freeing(w, m, w, 0)
  {
  }

  lemma FreeTurn(w0: World, m: nat, w: World, p: nat)
    requires Freeing(w0, m, w, p) && p < |w.bars[m].pages|
    ensures var b := w.bars[m];
            var d := if Frees(b.pages[p], true, true) then DropOne(w.dev, Held(b, p)) else w.dev;
            Freeing(w0, m, World(d, w.bars[m := SetPage(b, p, Mod1(b.pages[p], true, true))]), p + 1)
  {
    var b := w.bars[m];
    assert b.pages[p] == b.pages[p..][0] == w0.bars[m].pages[p..][0];
    assert b.pages[p..][1..] == b.pages[p + 1..] && w0.bars[m].pages[p..][1..] == w0.bars[m].pages[p + 1..];
    DropAllSnoc(w0.dev, AllHeld(w0.bars[m], p), Held(b, p));
    assert AllHeld(w0.bars[m], p) + [] == AllHeld(w0.bars[m], p);
  }

  lemma FreeDone(w0: World, m: nat, w: World)
    requires m < |w0.bars| && Freeing(w0, m, w, |w0.bars[m].pages|)
    ensures FreeBar(w0, m) ==
            World(w.dev.(gpu := w.dev.gpu.Free(SpaceOf(w0.bars[m]))), Without(w.bars, m))
  {
  }
}
