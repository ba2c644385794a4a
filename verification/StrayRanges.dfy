/** Exactly which faults can leave a page resident, unpinned and above the watermark. */
module StrayRanges {
  import opened Plat
  import opened Residency
  import opened Eviction
  import opened FaultFacts
  import opened Strays
  import opened Progress
  import opened System
  import opened Evolution
  import opened Soundness
  import opened Runs
  import opened Stage
  import opened Thresholds

  /** In no reachable state does a fault of these pages, of a VBAR with this limit, leave a page unaccounted that was
      not so before, as long as the pin counters have room. */
  ghost predicate NeverStrays(limit: nat, first: nat, end: nat) {
    forall env: Env, capacity: nat, own: int, ops: seq<Op>, k: nat, offset: nat, size: nat, q: nat ::
      LeavesNone(env, Reached(env, capacity, own, ops).w, k, offset, size, q, limit, first, end)
  }

  ghost predicate LeavesNone(env: Env, w: World, k: nat, offset: nat, size: nat, q: nat, limit: nat, first: nat,
                             end: nat)
    requires AllWf(w.bars)
  {
    k < |w.bars| && w.bars[k].limit == limit && offset / VBAR_PAGE == first && PagesUp(offset + size) == end
    && PinRoom(w.bars[k], offset, size)
    && k < |Fault(env, w, k, offset, size).w.bars| && Stray(Fault(env, w, k, offset, size).w.bars[k], q) ==>
      Stray(w.bars[k], q)
  }

  function Higher(a: nat, b: nat): nat { if a < b then b else a }

  /** Once only absent pages are left to pass, the payment takes the watermark down to the cursor or the limit. */
  lemma {:induction false} PayIdle(bars: seq<Bar>, m: nat, cursor: nat, target: nat)
    requires AllWf(bars) && m == |bars| - 1 && cursor < target && cursor <= bars[m].watermark
    requires bars[m].limit <= bars[m].watermark
    requires forall q :: cursor <= q < bars[m].watermark ==> bars[m].pages[q].handle == 0
    ensures Pay(bars, m, m, cursor, target).bars == bars[m := bars[m].(watermark := Higher(cursor, bars[m].limit))]
    decreases bars[m].watermark
  {
    var b := bars[m];
    if cursor < b.watermark && b.watermark > b.limit {
      assert Lower(b) == b.(watermark := b.watermark - 1) by {
        assert b.pages[b.watermark - 1 := Mod1(Top(b), true, false)] == b.pages;
      }
      PayIdle(bars[m := Lower(b)], m, cursor, target);
    } else {
      assert bars == bars[m := b.(watermark := Higher(cursor, b.limit))];
    }
  }

  /** The small VBAR pays for the first absent page, and the large one's own watermark falls looking for more. */
  lemma PayFromBelow(bars: seq<Bar>, first: nat, end: nat)
    requires AllWf(bars) && |bars| == 2 && first + 1 < end
    requires bars[0].watermark == 1 && bars[0].limit == 0 && Frees(bars[0].pages[0], true, false)
    requires bars[1].watermark == |bars[1].pages| == end && bars[1].limit < end
    requires forall q :: 0 <= q < end ==> (bars[1].pages[q].handle == 0 <==> q >= first)
    ensures PayFor(bars, 1, end).bars[1] == bars[1].(watermark := Higher(first + 1, bars[1].limit))
    ensures PayFor(bars, 1, end).dropped == [Held(bars[0], 0)]
  {
    FirstAbsentIs(bars[1], 0, first);
    assert TopFreed(bars, 0)[1] == bars[1];
    assert NextAbsent(bars[1], first + 1) == first + 1;
    var bars' := bars[0 := Lower(bars[0])];
    PayIdle(bars', 1, first + 1, end);
    NoneDropped(bars', 1, first + 1, end);
    assert Pay(bars', 1, 0, first + 1, end) == Pay(bars', 1, 1, first + 1, end);
  }

  lemma {:induction false} NoneDropped(bars: seq<Bar>, m: nat, cursor: nat, target: nat)
    requires AllWf(bars) && m == |bars| - 1 && cursor < target && cursor <= bars[m].watermark
    requires forall q :: cursor <= q < bars[m].watermark ==> bars[m].pages[q].handle == 0
    ensures Pay(bars, m, m, cursor, target).dropped == []
    decreases bars[m].watermark
  {
    if cursor < bars[m].watermark && bars[m].watermark > bars[m].limit {
      NoneDropped(bars[m := Lower(bars[m])], m, cursor, target);
    }
  }

  /** The loop after its first page: the watermark has fallen, and the pages up to the last still fit the budget. */
  ghost predicate Underway(env: Env, w: World, end: nat, limit: nat, first: nat) {
    && AllWf(w.bars) && |w.bars| == 2 && |w.bars[1].pages| == end && w.bars[1].watermark == Higher(first + 1, limit)
    && (forall q :: first < q < end ==> w.bars[1].pages[q] == Page(0, 0, 0))
    && Settled(env, w.dev, end, first + 1) && w.dev.clock == 16 + 4 * first
  }

  lemma FirstPage(env: Env, w: World, limit: nat, first: nat, end: nat, bad: nat)
    requires first + 3 <= end && limit + 2 <= end && bad >= 16 + 4 * first
    requires AllWf(w.bars) && |w.bars| == 2 && Large(w.bars[1], end, limit, first)
    requires w.bars[0].watermark == 1 && w.bars[0].limit == 0 && Frees(w.bars[0].pages[0], true, false)
    requires env == Rough(Card(end), 12 + 4 * first, bad)
    requires Settled(env, w.dev, end, first + 1) && w.dev.clock == 11 + 4 * first
    ensures var t := FaultPage(env, w, 1, first, end); t.outcome.Fresh? && Underway(env, t.w, end, limit, first)
  {
    hide Generous, Handed, Stooges, PayFor, Large;
    var c := w.dev.clock;
    LargeShape(w.bars[1], end, limit, first);
    SkippedPoll(env, w.dev, end, first + 1, 12 + 4 * first, bad);
    OomTurn(env, w, 1, first, end);
    var w1 := World(w.dev.(clock := c + 2), w.bars);
    PayFromBelow(w.bars, first, end);
    var w' := Charge(w1, 1, end);
    ChargeDev(w1, 1, end);
    ChargeEffect(w1, 1, end);
    DropAllEffect(w1.dev, PayFor(w.bars, 1, end).dropped);
    LiveGrows(env, w.dev, w'.dev);
    RoughIsGenerous(Card(end), 12 + 4 * first, bad, c + 2, c + 5, w'.dev);
    var va := w'.bars[1].base + first * VBAR_PAGE;
    StoogesSucceeds(env, w'.dev, va, VBAR_PAGE, c + 5);
    LiveSince(env, w'.dev, Stooges(env, w'.dev, va, VBAR_PAGE).dev);
  }

  lemma LargeShape(b: Bar, n: nat, limit: nat, k: nat)
    requires Large(b, n, limit, k) && k < n
    ensures b.watermark == |b.pages| == n && b.limit == limit && b.pages[k].handle == 0
    ensures forall q :: 0 <= q < n ==> (b.pages[q].handle == 0 <==> q >= k)
    ensures forall q :: k <= q < n ==> b.pages[q] == Page(0, 0, 0)
  {
  }

  lemma LiveGrows(env: Env, d: Dev, d': Dev)
    requires d'.gpu.live <= d.gpu.live && d.clock <= d'.clock
    requires forall h :: h in d.gpu.live ==> h in Handed(env, 0, d.clock)
    ensures forall h :: h in d'.gpu.live ==> h in Handed(env, 0, d'.clock)
  {
  }

  lemma LiveSince(env: Env, d: Dev, d': Dev)
    requires Since(env, d, d')
    requires forall h :: h in d.gpu.live ==> h in Handed(env, 0, d.clock)
    ensures forall h :: h in d'.gpu.live ==> h in Handed(env, 0, d'.clock)
  {
  }

  /** The pages in between are mapped above the watermark, and the last one fails. */
  lemma RestFails(env: Env, w: World, limit: nat, first: nat, end: nat, signature: seq<nat>)
    requires first + 3 <= end && limit + 2 <= end && Underway(env, w, end, limit, first)
    requires env == Rough(Card(end), 12 + 4 * first, 9 + 4 * end)
    ensures var f := FaultLoop(env, w, 1, first + 1, end, signature);
            && f.code.FaultError? && |f.w.bars| == 2 && Stray(f.w.bars[1], end - 2)
  {
    hide Generous, Handed, Stooges, FaultLoop, FaultPage;
    var hi := 8 + 4 * end;
    RoughIsGenerous(Card(end), 12 + 4 * first, 9 + 4 * end, w.dev.clock, hi, w.dev);
    MissingAll(w.bars[1].pages, first + 1, end - 1);
    assert Roomy(env, w.dev, hi, (end - 1 - (first + 1)) * VBAR_PAGE);
    var w', signature' := RoomyLoop(env, w, 1, first + 1, end - 1, end, signature, hi);
    LastFails(env, w', end);
    LoopOnce(env, w', 1, end, signature');
  }

  lemma LastFails(env: Env, w: World, end: nat)
    requires AllWf(w.bars) && |w.bars| == 2 && 0 < end == |w.bars[1].pages| && w.bars[1].pages[end - 1].handle == 0
    requires w.dev.clock == 8 + 4 * end && env(9 + 4 * end).result.OtherError?
    requires w.dev.stamp <= env(8 + 4 * end).tick < w.dev.stamp + POLL_TICKS && Deficit(w.dev, VBAR_PAGE) == 0
    ensures var t := FaultPage(env, w, 1, end - 1, end); t.outcome.Broken? && t.w.bars == w.bars
  {
  }

  lemma LoopOnce(env: Env, w: World, m: nat, end: nat, signature: seq<nat>)
    requires AllWf(w.bars) && m < |w.bars| && 0 < end <= |w.bars[m].pages|
    requires FaultPage(env, w, m, end - 1, end).outcome.Broken?
    ensures FaultLoop(env, w, m, end - 1, end, signature) ==
            Faulted(FaultPage(env, w, m, end - 1, end).w, signature, FaultError)
  {
  }

  lemma StagedLeavesStray(env: Env, s: State, limit: nat, first: nat, end: nat)
    requires first + 3 <= end && limit + 2 <= end && Staged(env, s, end, limit, first)
    requires env == Rough(Card(end), 12 + 4 * first, 9 + 4 * end)
    ensures AllWf(s.w.bars)
    ensures var f := Fault(env, s.w, 1, first * VBAR_PAGE, (end - first) * VBAR_PAGE);
            |f.w.bars| == 2 && Stray(f.w.bars[1], end - 2) && !Stray(s.w.bars[1], end - 2)
    ensures PinRoom(s.w.bars[1], first * VBAR_PAGE, (end - first) * VBAR_PAGE)
  {
    hide Sound, Settled, FaultPage, FaultLoop, Underway, MakeRoom;
    SoundReady(s);
    var w := s.w;
    QuietEntry(env, w, end, first + 1, 12 + 4 * first, 9 + 4 * end);
    assert first * VBAR_PAGE / VBAR_PAGE == first;
    assert PagesUp(first * VBAR_PAGE + (end - first) * VBAR_PAGE) == end;
    FaultIs(env, w, 1, first * VBAR_PAGE, (end - first) * VBAR_PAGE);
    var w1 := Entered(env, w);
    FirstPage(env, w1, limit, first, end, 9 + 4 * end);
    var t := FaultPage(env, w1, 1, first, end);
    FaultStart(env, w1, 1, first, end);
    FaultTurn(env, w1, 1, first, end, w1, first, []);
    RestFails(env, t.w, limit, first, end, [] + [Sign(t.w, 1, first)]);
  }

  lemma StraysAppear(limit: nat, first: nat, end: nat)
    requires Exposed(limit, first, end)
    ensures !NeverStrays(limit, first, end)
  {
    hide Sound, Fault, Reached, Staged, Pages, Stray, PinRoom;
    var oom, bad := 12 + 4 * first, 9 + 4 * end;
    var env := Rough(Card(end), oom, bad);
    StagingReaches(end, limit, first, oom, bad);
    var s := Reached(env, Card(end), 0, Staging(end, limit, first));
    StagedShape(env, s, end, limit, first);
    StagedLeavesStray(env, s, limit, first, end);
    assert first * VBAR_PAGE / VBAR_PAGE == first;
    assert PagesUp(first * VBAR_PAGE + (end - first) * VBAR_PAGE) == end;
    assert !LeavesNone(env, s.w, 1, first * VBAR_PAGE, (end - first) * VBAR_PAGE, end - 2, limit, first, end);
  }

  lemma UnexposedLeavesNone(env: Env, w: World, k: nat, offset: nat, size: nat, q: nat, limit: nat, first: nat,
                            end: nat)
    requires AllWf(w.bars) && !Exposed(limit, first, end)
    ensures LeavesNone(env, w, k, offset, size, q, limit, first, end)
  {
    hide Fault, Stray, PinRoom;
    if k < |w.bars| && w.bars[k].limit == limit && offset / VBAR_PAGE == first && PagesUp(offset + size) == end
       && PinRoom(w.bars[k], offset, size)
       && k < |Fault(env, w, k, offset, size).w.bars| && Stray(Fault(env, w, k, offset, size).w.bars[k], q) {
      ShortRangesLeaveNone(env, w, k, offset, size, q);
    }
  }

  /** A fault can leave a page resident, unpinned and above the watermark if and only if its range has three pages or
      more and the watermark limit is at least two below its end. */
  lemma StrayThreshold(limit: nat, first: nat, end: nat)
    ensures NeverStrays(limit, first, end) <==> !Exposed(limit, first, end)
  {
    hide Sound, Reached, LeavesNone, Exposed;
    if Exposed(limit, first, end) {
      StraysAppear(limit, first, end);
    } else {
      forall env: Env, capacity: nat, own: int, ops: seq<Op>, k: nat, offset: nat, size: nat, q: nat
        ensures LeavesNone(env, Reached(env, capacity, own, ops).w, k, offset, size, q, limit, first, end)
      {
        UnexposedLeavesNone(env, Reached(env, capacity, own, ops).w, k, offset, size, q, limit, first, end);
      }
    }
  }
}
