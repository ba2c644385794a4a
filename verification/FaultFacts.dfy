/** What a caller of `vbar_fault` may rely on, whatever the driver and the budget answer. */
module FaultFacts {
  import opened Plat
  import opened Residency
  import opened Eviction

  // ----- what eviction can never do -----

  ghost predicate Paged(ms: seq<Mapping>) { forall i :: 0 <= i < |ms| ==> ms[i].size == VBAR_PAGE }

  lemma DropAllEffect(d: Dev, ms: seq<Mapping>)
    requires Paged(ms)
    ensures DropAll(d, ms).usage == d.usage - |ms| * VBAR_PAGE
    ensures DropAll(d, ms) == d.(usage := DropAll(d, ms).usage, gpu := DropAll(d, ms).gpu)
  {
  }

  lemma {:induction false} DrainSizes(bars: seq<Bar>, k: nat, need: nat)
    requires AllWf(bars)
    ensures Paged(Drain(bars, k, need).dropped)
    decreases |bars| - k, if k < |bars| then bars[k].watermark else 0
  {
    if need == 0 || k >= |bars| {
    } else if bars[k].watermark > bars[k].limit {
      DrainSizes(bars[k := Lower(bars[k])], k, need - |TopDrop(bars[k])|);
    } else {
      DrainSizes(bars, k + 1, need);
    }
  }

  lemma {:induction false} PaySizes(bars: seq<Bar>, m: nat, k: nat, cursor: nat, target: nat)
    requires AllWf(bars) && m < |bars|
    ensures Paged(Pay(bars, m, k, cursor, target).dropped)
    decreases |bars| - k, if k < |bars| then bars[k].watermark else 0
  {
    if cursor >= target || cursor >= bars[m].watermark || k >= |bars| {
    } else if bars[k].watermark > bars[k].limit {
      PaySizes(bars[k := Lower(bars[k])], m, k, CursorAfter(bars, m, k, cursor), target);
    } else {
      PaySizes(bars, m, k + 1, cursor, target);
    }
  }

  // ----- eviction closes the deficit -----

  function Target(d: Dev): int { d.capacity - VRAM_HEADROOM }

  /** If `vbars_free(budget_deficit(size))` finds every page, the deficit is gone and `size` more bytes fit the
      budget. */
  lemma RoomMade(env: Env, w: World, size: nat)
    requires AllWf(w.bars)
    ensures var f := MakeRoom(env, w, size);
            && f.w.dev.capacity == w.dev.capacity && f.w.dev.usage <= w.dev.usage
            && AllShrunk(w.bars, f.w.bars)
            && (f.left == 0 <==> Deficit(f.w.dev, size) == 0)
            && (f.left == 0 ==> f.w.dev.usage + size <= Target(f.w.dev))
            && (f.left > 0 ==> AtLimits(f.w.bars, 0))
  {
    var d := Poll(env, w.dev);
    var deficit := Deficit(d, size);
    var e := Drain(w.bars, 0, PagesUp(deficit));
    DrainSizes(w.bars, 0, PagesUp(deficit));
    DrainShrinks(w.bars, 0, PagesUp(deficit));
    DrainLowestFirst(w.bars, 0, PagesUp(deficit));
    DropAllEffect(d, e.dropped);
  }

  // ----- one page -----

  /** Page p of b was absent and is now mapped afresh; all else is eviction, and only above p if any happened. */
  ghost predicate Granted(b: Bar, b': Bar, p: nat) {
    && p < |b.pages| == |b'.pages|
    && b.pages[p].handle == 0 && b'.pages[p].handle != 0
    && b'.pages[p] == Page(b'.pages[p].handle, b.pages[p].pins, b.pages[p].serial + 1)
    && Shrunk(b, SetPage(b', p, b.pages[p]))
    && (p < b'.watermark || b'.watermark == b.watermark)
  }

  /** Everything but VBAR m only shrinks. */
  ghost predicate OthersShrunk(bars: seq<Bar>, bars': seq<Bar>, m: nat) {
    |bars'| == |bars| && forall j :: 0 <= j < |bars| && j != m ==> Shrunk(bars[j], bars'[j])
  }

  lemma StoogesUsage(env: Env, d: Dev, va: int, size: int)
    ensures var t := Stooges(env, d, va, size);
            && t.dev.usage == (if t.err.Success? then d.usage + size else d.usage) && t.dev.capacity == d.capacity
  {
  }

  lemma ChargeEffect(w: World, m: nat, end: nat)
    requires AllWf(w.bars) && m < |w.bars|
    ensures var w' := Charge(w, m, end);
            && AllShrunk(w.bars, w'.bars)
            && w'.dev.usage == w.dev.usage - |PayFor(w.bars, m, end).dropped| * VBAR_PAGE
            && w'.dev.capacity == w.dev.capacity
  {
    var c := NextAbsent(w.bars[m], 0);
    PayShrinks(w.bars, m, 0, c, end);
    PaySizes(w.bars, m, 0, c, end);
    DropAllEffect(w.dev, PayFor(w.bars, m, end).dropped);
  }

  lemma PageTurn(env: Env, w: World, m: nat, p: nat, end: nat)
    requires AllWf(w.bars) && m < |w.bars| && p < |w.bars[m].pages|
    ensures var t := FaultPage(env, w, m, p, end);
            && OthersShrunk(w.bars, t.w.bars, m) && t.w.dev.capacity == w.dev.capacity
            && match t.outcome
               case Hit => t.w == w && w.bars[m].pages[p].handle != 0
               case Fresh => Granted(w.bars[m], t.w.bars[m], p)
               case NoBudget => Shrunk(w.bars[m], t.w.bars[m]) && t.w.bars[m].watermark <= p
               case Broken => Shrunk(w.bars[m], t.w.bars[m])
  {
    hide Stooges;
    var b := w.bars[m];
    if b.pages[p].handle == 0 {
      var va := b.base + p * VBAR_PAGE;
      var d := Poll(env, w.dev);
      var first := if Deficit(d, VBAR_PAGE) > 0 then Made(d, OutOfMemory, 0) else Stooges(env, d, va, VBAR_PAGE);
      StoogesUsage(env, d, va, VBAR_PAGE);
      if first.err.OutOfMemory? {
        ChargeEffect(World(first.dev, w.bars), m, end);
        var w' := Charge(World(first.dev, w.bars), m, end);
        StoogesUsage(env, w'.dev, va, VBAR_PAGE);
      }
    }
  }

  // ----- budget -----

  /** If the limit of m is no higher than page p, page p is mapped only within the budget or after a page was evicted
      for it. */
  lemma PageWithinBudget(env: Env, w: World, m: nat, p: nat, end: nat)
    requires AllWf(w.bars) && m < |w.bars| && p < |w.bars[m].pages| && p < end
    requires w.bars[m].pages[p].handle == 0 ==> w.bars[m].limit <= p
    ensures FaultPage(env, w, m, p, end).w.dev.usage <= Max(w.dev.usage, Target(w.dev))
  {
    hide Stooges;
    var b := w.bars[m];
    if b.pages[p].handle == 0 {
      var va := b.base + p * VBAR_PAGE;
      var d := Poll(env, w.dev);
      var first := if Deficit(d, VBAR_PAGE) > 0 then Made(d, OutOfMemory, 0) else Stooges(env, d, va, VBAR_PAGE);
      StoogesUsage(env, d, va, VBAR_PAGE);
      if first.err.OutOfMemory? {
        var w' := Charge(World(first.dev, w.bars), m, end);
        ChargeEffect(World(first.dev, w.bars), m, end);
        StoogesUsage(env, w'.dev, va, VBAR_PAGE);
        if p < w'.bars[m].watermark {
          PaidSomething(w.bars, m, p, end);
        }
      }
    }
  }

  /** Every absent page of the range is at or above the watermark limit. */
  ghost predicate Payable(b: Bar, lo: int, hi: int) {
    forall q :: lo <= q < hi && 0 <= q < |b.pages| && b.pages[q].handle == 0 ==> b.limit <= q
  }

  lemma PaidSomething(bars: seq<Bar>, m: nat, p: nat, end: nat)
    requires AllWf(bars) && m < |bars| && p < |bars[m].pages| && p < end
    requires bars[m].pages[p].handle == 0 && bars[m].limit <= p
    requires p < PayFor(bars, m, end).bars[m].watermark
    ensures |PayFor(bars, m, end).dropped| > 0
  {
    var e := PayFor(bars, m, end);
    PaymentIsExact(bars, m, end);
    PayShrinks(bars, m, 0, NextAbsent(bars[m], 0), end);
    assert Shrunk(bars[m], e.bars[m]);
    var stop := Min(end, e.bars[m].watermark);
    AbsentBelow(e.bars[m].pages, p, stop);
  }

  lemma AbsentBelow(pages: seq<Page>, p: nat, hi: nat)
    requires p < hi <= |pages| && pages[p].handle == 0
    ensures Absent(pages, hi) > 0
  {
    assert pages[..hi][..hi - 1] == pages[..hi - 1];
    if p < hi - 1 {
      AbsentBelow(pages, p, hi - 1);
    }
  }

  // ----- a whole fault -----

  /** A page later in its life: its serial counts its mappings, so an equal serial means it was never remapped. */
  ghost predicate Aged(pg: Page, pg': Page) {
    && pg'.serial >= pg.serial
    && (pg'.serial == pg.serial && pg'.handle != 0 ==> pg'.handle == pg.handle)
  }

  /** A resident pinned page keeps its mapping and serial. */
  ghost predicate Kept(pg: Page, pg': Page) {
    pg.handle != 0 && pg.pins > 0 ==> pg'.handle == pg.handle && pg'.serial == pg.serial
  }

  /** A resident page keeps its mapping and serial, pinned or not. */
  ghost predicate Spared(pg: Page, pg': Page) {
    pg.handle != 0 ==> pg'.handle == pg.handle && pg'.serial == pg.serial
  }

  /** A resident page at or above the watermark with no pin: nothing accounts for it. */
  ghost predicate Stray(b: Bar, q: nat) {
    b.watermark <= q < |b.pages| && b.pages[q].handle != 0 && b.pages[q].pins == 0
  }

  /** What no loop of a fault, and no eviction, breaks in a VBAR; `fresh` are the pages it may have mapped. */
  ghost predicate Worked(b: Bar, b': Bar, lo: nat, hi: nat) {
    && b'.id == b.id && b'.base == b.base && b'.limit == b.limit && |b'.pages| == |b.pages|
    && b'.watermark <= b.watermark && (b'.watermark < b.watermark ==> b.limit <= b'.watermark)
    && (forall q :: 0 <= q < |b.pages| ==>
         && b'.pages[q].pins == b.pages[q].pins
         && Aged(b.pages[q], b'.pages[q]) && Kept(b.pages[q], b'.pages[q])
         && (q < b'.watermark ==> Spared(b.pages[q], b'.pages[q]))
         && (b'.pages[q].handle != 0 ==> b.pages[q].handle != 0 || lo <= q < hi))
    && forall q: nat :: Stray(b', q) ==> Stray(b, q) || (lo <= q < hi && b'.pages[q].serial > b.pages[q].serial)
  }

  lemma ShrunkWorked(b: Bar, b': Bar, lo: nat, hi: nat)
    requires Shrunk(b, b')
    ensures Worked(b, b', lo, hi)
  {
  }

  lemma GrantedWorked(b: Bar, b': Bar, p: nat, lo: nat, hi: nat)
    requires Granted(b, b', p) && lo <= p < hi
    ensures Worked(b, b', lo, hi)
  {
    var c := SetPage(b', p, b.pages[p]);
    forall q | 0 <= q < |b.pages| && q != p
      ensures b'.pages[q] == c.pages[q]
    {
    }
  }

  lemma WorkedTwice(b: Bar, b': Bar, b'': Bar, lo: nat, hi: nat)
    requires Worked(b, b', lo, hi) && Worked(b', b'', lo, hi)
    ensures Worked(b, b'', lo, hi)
  {
    forall q: nat | Stray(b'', q)
      ensures Stray(b, q) || (lo <= q < hi && b''.pages[q].serial > b.pages[q].serial)
    {
      assert Stray(b', q) || (lo <= q < hi && b''.pages[q].serial > b'.pages[q].serial);
    }
  }

  lemma ShrunkTwice(bars: seq<Bar>, bars': seq<Bar>, bars'': seq<Bar>, m: nat)
    requires OthersShrunk(bars, bars', m) && OthersShrunk(bars', bars'', m)
    ensures OthersShrunk(bars, bars'', m)
  {
  }

  /** The slots filled so far hold the serials of the pages passed, which are all resident. */
  ghost predicate Signed(b: Bar, start: nat, p: nat, signature: seq<nat>) {
    && p == start + |signature| && p <= |b.pages|
    && forall q :: start <= q < p ==>
         b.pages[q].handle != 0 && signature[q - start] == b.pages[q].serial % SIGNATURE_SPAN
  }

  ghost predicate LoopResult(w: World, m: nat, start: nat, end: nat, f: Faulted) {
    && m < |w.bars| == |f.w.bars| && OthersShrunk(w.bars, f.w.bars, m) && f.w.dev.capacity == w.dev.capacity
    && Worked(w.bars[m], f.w.bars[m], start, end)
    && (Payable(w.bars[m], start, end) ==> f.w.dev.usage <= Max(w.dev.usage, Target(w.dev)))
    && match f.code
       case FaultSuccess => Signed(f.w.bars[m], start, end, f.signature)
       case FaultOom => f.w.bars[m].watermark < end
       case FaultError => true
  }

  lemma {:induction false} LoopResults(env: Env, w: World, m: nat, start: nat, p: nat, end: nat, signature: seq<nat>)
    requires AllWf(w.bars) && m < |w.bars| && start <= p <= end <= |w.bars[m].pages|
    requires Signed(w.bars[m], start, p, signature)
    ensures LoopResult(w, m, start, end, FaultLoop(env, w, m, p, end, signature))
    decreases end - p
  {
    hide FaultPage, Worked, Granted;
    if p < end {
      var t := FaultPage(env, w, m, p, end);
      PageTurn(env, w, m, p, end);
      if Payable(w.bars[m], start, end) {
        PageWithinBudget(env, w, m, p, end);
      }
      match t.outcome
      case Hit =>
        LoopResults(env, w, m, start, p + 1, end, signature + [Sign(w, m, p)]);
      case Fresh =>
        GrantedSigned(w.bars[m], t.w.bars[m], start, p, signature);
        LoopResults(env, t.w, m, start, p + 1, end, signature + [Sign(t.w, m, p)]);
        LoopStep(w, t.w, m, p, start, end, FaultLoop(env, t.w, m, p + 1, end, signature + [Sign(t.w, m, p)]));
      case _ =>
        ShrunkWorked(w.bars[m], t.w.bars[m], start, end);
    } else {
      ShrunkWorked(w.bars[m], w.bars[m], start, end);
    }
  }

  lemma LoopStep(w: World, w': World, m: nat, p: nat, start: nat, end: nat, f: Faulted)
    requires m < |w.bars| && OthersShrunk(w.bars, w'.bars, m) && w'.dev.capacity == w.dev.capacity
    requires Granted(w.bars[m], w'.bars[m], p) && start <= p < end
    requires Payable(w.bars[m], start, end) ==> w'.dev.usage <= Max(w.dev.usage, Target(w.dev))
    requires LoopResult(w', m, start, end, f)
    ensures LoopResult(w, m, start, end, f)
  {
    hide Signed, Payable;
    GrantedWorked(w.bars[m], w'.bars[m], p, start, end);
    if Payable(w.bars[m], start, end) {
      GrantedPayable(w.bars[m], w'.bars[m], p, start, end);
    }
    WorkedTwice(w.bars[m], w'.bars[m], f.w.bars[m], start, end);
    ShrunkTwice(w.bars, w'.bars, f.w.bars, m);
  }

  lemma GrantedPayable(b: Bar, b': Bar, p: nat, lo: nat, hi: nat)
    requires Granted(b, b', p) && Payable(b, lo, hi)
    ensures Payable(b', lo, hi)
  {
    var c := SetPage(b', p, b.pages[p]);
    forall q | 0 <= q < |b.pages| && q != p
      ensures b'.pages[q] == c.pages[q]
    {
    }
  }

  lemma GrantedSigned(b: Bar, b': Bar, start: nat, p: nat, signature: seq<nat>)
    requires Granted(b, b', p) && Signed(b, start, p, signature)
    ensures Signed(b', start, p + 1, signature + [b'.pages[p].serial % SIGNATURE_SPAN])
  {
    var c := SetPage(b', p, b.pages[p]);
    forall q | start <= q < p
      ensures b'.pages[q] == b.pages[q]
    {
      assert c.pages[q] == b'.pages[q];
    }
  }

  predicate InRange(q: int, offset: nat, size: nat) { offset / VBAR_PAGE <= q < PagesUp(offset + size) }

  /** Everything `vbar_fault` promises about the VBARs, on every return path. */
  ghost predicate FaultKeeps(w: World, m: nat, offset: nat, size: nat, f: Faulted)
    requires m < |w.bars|
  {
    && OthersShrunk(w.bars, f.w.bars, m) && f.w.dev.capacity == w.dev.capacity
    && var b, b' := w.bars[m], f.w.bars[m];
       && b'.id == b.id && b'.base == b.base && b'.limit == b.limit && |b'.pages| == |b.pages|
       && b'.watermark <= b.watermark && (b'.watermark < b.watermark ==> b.limit <= b'.watermark)
       && (forall q :: 0 <= q < |b.pages| ==>
            && Aged(b.pages[q], b'.pages[q]) && Kept(b.pages[q], b'.pages[q])
            && (q < b'.watermark ==> Spared(b.pages[q], b'.pages[q]))
            && (b'.pages[q].handle != 0 ==> b.pages[q].handle != 0 || InRange(q, offset, size))
            && b'.pages[q].pins ==
               if f.code.FaultSuccess? && InRange(q, offset, size) then PinUp(b.pages[q].pins) else b.pages[q].pins)
  }

  lemma FaultResults(env: Env, w: World, m: nat, offset: nat, size: nat) returns (before: World, loop: Faulted)
    requires AllWf(w.bars) && m < |w.bars|
    ensures before == MakeRoom(env, w, 0).w && AllShrunk(w.bars, before.bars) && before.dev.usage <= w.dev.usage
    ensures before.dev.capacity == w.dev.capacity
    ensures var f := Fault(env, w, m, offset, size);
            var start, end := offset / VBAR_PAGE, PagesUp(offset + size);
            if end > before.bars[m].watermark then f == Faulted(before, [], FaultOom) && loop == f
            else
              && end <= |before.bars[m].pages|
              && LoopResult(before, m, start, end, loop)
              && f == if loop.code.FaultSuccess? then loop.(w := Pinned(loop.w, m, start, end)) else loop
  {
    RoomMade(env, w, 0);
    before := MakeRoom(env, w, 0).w;
    var start, end := offset / VBAR_PAGE, PagesUp(offset + size);
    if end > before.bars[m].watermark {
      loop := Fault(env, w, m, offset, size);
    } else {
      loop := FaultLoop(env, before, m, start, end, []);
      LoopResults(env, before, m, start, start, end, []);
    }
  }

  /** The world the mapping loop starts from. */
  function Entered(env: Env, w: World): (w': World)
    requires AllWf(w.bars)
    ensures AllWf(w'.bars) && |w'.bars| == |w.bars|
  {
    MakeRoom(env, w, 0).w
  }

  /** A fault that is not refused at entry is its mapping loop, and the pins if that succeeds. */
  lemma FaultIs(env: Env, w: World, m: nat, offset: nat, size: nat)
    requires AllWf(w.bars) && m < |w.bars| && PagesUp(offset + size) <= Entered(env, w).bars[m].watermark
    ensures var first, end := offset / VBAR_PAGE, PagesUp(offset + size);
            var f := FaultLoop(env, Entered(env, w), m, first, end, []);
            Fault(env, w, m, offset, size) == if f.code.FaultSuccess? then f.(w := Pinned(f.w, m, first, end)) else f
  {
  }

  lemma FaultAlwaysKeeps(env: Env, w: World, m: nat, offset: nat, size: nat)
    requires AllWf(w.bars) && m < |w.bars|
    ensures FaultKeeps(w, m, offset, size, Fault(env, w, m, offset, size))
  {
    hide Fault, FaultLoop, MakeRoom, Payable, Signed, Stray;
    var before, loop := FaultResults(env, w, m, offset, size);
    var start, end := offset / VBAR_PAGE, PagesUp(offset + size);
    assert Shrunk(w.bars[m], before.bars[m]);
    if end <= before.bars[m].watermark {
      ShrunkWorked(w.bars[m], before.bars[m], start, end);
      WorkedTwice(w.bars[m], before.bars[m], loop.w.bars[m], start, end);
      ShrunkTwice(w.bars, before.bars, loop.w.bars, m);
    } else {
      ShrunkWorked(w.bars[m], before.bars[m], start, end);
    }
  }

  /** A successful fault: the whole range resident, each page pinned once more, each slot its page's serial, and
      never more slots than the size / 32 MiB + 2 the caller provides. It holds although the loop may evict from
      the very VBAR it is filling. */
  lemma SuccessIsSound(env: Env, w: World, m: nat, offset: nat, size: nat)
    requires AllWf(w.bars) && m < |w.bars|
    requires Fault(env, w, m, offset, size).code.FaultSuccess?
    ensures var f := Fault(env, w, m, offset, size);
            var start, end := offset / VBAR_PAGE, PagesUp(offset + size);
            var b, b' := w.bars[m], f.w.bars[m];
            && end <= |b.pages| == |b'.pages|
            && |f.signature| == end - start <= size / VBAR_PAGE + 2
            && forall q :: start <= q < end ==>
                 && b'.pages[q].handle != 0 && b'.pages[q].pins == PinUp(b.pages[q].pins)
                 && f.signature[q - start] == b'.pages[q].serial % SIGNATURE_SPAN
  {
    var before, loop := FaultResults(env, w, m, offset, size);
    FaultAlwaysKeeps(env, w, m, offset, size);
    SlotsEnough(offset, size);
  }

  lemma SlotsEnough(offset: nat, size: nat)
    ensures 0 <= PagesUp(offset + size) - offset / VBAR_PAGE <= size / VBAR_PAGE + 2
  {
  }

  /** With the watermark limit no higher than any absent page of the range, no return path leaves the usage above both
      the usage at entry and the budget. */
  lemma FaultWithinBudget(env: Env, w: World, m: nat, offset: nat, size: nat)
    requires AllWf(w.bars) && m < |w.bars|
    requires Payable(w.bars[m], offset / VBAR_PAGE, PagesUp(offset + size))
    ensures Fault(env, w, m, offset, size).w.dev.usage <= Max(w.dev.usage, Target(w.dev))
  {
    var before, loop := FaultResults(env, w, m, offset, size);
    assert Shrunk(w.bars[m], before.bars[m]);
  }

  /** An out-of-memory answer always leaves the watermark below the end of the range. */
  lemma OomLowersWatermark(env: Env, w: World, m: nat, offset: nat, size: nat)
    requires AllWf(w.bars) && m < |w.bars|
    requires Fault(env, w, m, offset, size).code.FaultOom?
    ensures Fault(env, w, m, offset, size).w.bars[m].watermark < PagesUp(offset + size)
  {
    var before, loop := FaultResults(env, w, m, offset, size);
  }

  /** A range ending above the watermark is refused, and only evictions happen. */
  lemma AboveWatermarkRefused(env: Env, w: World, m: nat, offset: nat, size: nat)
    requires AllWf(w.bars) && m < |w.bars| && w.bars[m].watermark < PagesUp(offset + size)
    ensures Fault(env, w, m, offset, size) == Faulted(MakeRoom(env, w, 0).w, [], FaultOom)
    ensures AllShrunk(w.bars, MakeRoom(env, w, 0).w.bars)
  {
    RoomMade(env, w, 0);
    assert Shrunk(w.bars[m], MakeRoom(env, w, 0).w.bars[m]);
  }

  ghost predicate PinRoom(b: Bar, offset: nat, size: nat) {
    forall q :: 0 <= q < |b.pages| && InRange(q, offset, size) ==> b.pages[q].pins < PIN_SPAN - 1
  }

  /** `vbar_free_memory` returns exactly the bytes by which the usage fell; asked for more than it could find, it has
      brought the VBAR down to its limit. */
  lemma FreeMemoryReturnsWhatItFreed(w: World, m: nat, size: nat)
    requires AllWf(w.bars) && m < |w.bars|
    ensures var f := FreeMemory(w, m, size);
            && OthersShrunk(w.bars, f.w.bars, m) && Shrunk(w.bars[m], f.w.bars[m])
            && w.dev.usage - f.w.dev.usage == (PagesUp(size) - f.left) * VBAR_PAGE
            && (f.left > 0 ==> f.w.bars[m].watermark <= w.bars[m].limit)
  {
    DrainShrinks([w.bars[m]], 0, PagesUp(size));
    DrainSizes([w.bars[m]], 0, PagesUp(size));
    DrainLowestFirst([w.bars[m]], 0, PagesUp(size));
    DropAllEffect(w.dev, Drain([w.bars[m]], 0, PagesUp(size)).dropped);
  }
}
