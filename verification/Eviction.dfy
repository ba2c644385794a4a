/** What the eviction loops amount to: a greedy choice, and an exact payment. */
module Eviction {
  import opened Plat
  import opened Residency

  // ----- the effect on one VBAR -----

  /** b' is b with its watermark lowered, never below its limit, and the unpinned resident pages passed on the way
      evicted: no more, no less. */
  ghost predicate Shrunk(b: Bar, b': Bar) {
    && b'.id == b.id && b'.base == b.base && b'.limit == b.limit
    && |b'.pages| == |b.pages|
    && b'.watermark <= b.watermark && (b'.watermark < b.watermark ==> b.limit <= b'.watermark)
    && forall p :: 0 <= p < |b.pages| ==>
         b'.pages[p] == if b'.watermark <= p < b.watermark then Mod1(b.pages[p], true, false) else b.pages[p]
  }

  ghost predicate AllShrunk(bars: seq<Bar>, bars': seq<Bar>) {
    |bars'| == |bars| && forall k :: 0 <= k < |bars| ==> Shrunk(bars[k], bars'[k])
  }

  lemma {:induction false} DrainShrinks(bars: seq<Bar>, k: nat, need: nat)
    requires AllWf(bars)
    ensures AllShrunk(bars, Drain(bars, k, need).bars)
    decreases |bars| - k, if k < |bars| then bars[k].watermark else 0
  {
    if need == 0 || k >= |bars| {
    } else if bars[k].watermark > bars[k].limit {
      DrainShrinks(bars[k := Lower(bars[k])], k, need - |TopDrop(bars[k])|);
    } else {
      DrainShrinks(bars, k + 1, need);
    }
  }

  lemma {:induction false} PayShrinks(bars: seq<Bar>, m: nat, k: nat, cursor: nat, target: nat)
    requires AllWf(bars) && m < |bars|
    ensures AllShrunk(bars, Pay(bars, m, k, cursor, target).bars)
    decreases |bars| - k, if k < |bars| then bars[k].watermark else 0
  {
    if cursor >= target || cursor >= bars[m].watermark || k >= |bars| {
    } else if bars[k].watermark > bars[k].limit {
      PayShrinks(bars[k := Lower(bars[k])], m, k, CursorAfter(bars, m, k, cursor), target);
    } else {
      PayShrinks(bars, m, k + 1, cursor, target);
    }
  }

  // ----- `vbars_free` is greedy -----

  /** A page of a VBAR: its place in the priority list, lowest first, and its number. */
  datatype Spot = Spot(bar: nat, page: nat)

  function Offers(k: nat, watermark: nat, limit: nat): seq<Spot> {
    if watermark <= limit then [] else [Spot(k, watermark - 1)] + Offers(k, watermark - 1, limit)
  }

  /** Every page between limit and watermark: lowest-priority VBAR first, high page to low. */
  function Scan(bars: seq<Bar>, k: nat): seq<Spot>
    decreases |bars| - k
  {
    if k >= |bars| then [] else Offers(k, bars[k].watermark, bars[k].limit) + Scan(bars, k + 1)
  }

  predicate Evictable(bars: seq<Bar>, x: Spot) {
    x.bar < |bars| && x.page < |bars[x.bar].pages| && Frees(bars[x.bar].pages[x.page], true, false)
  }

  /** The mappings of the evictable pages among xs, in order. */
  function Picked(bars: seq<Bar>, xs: seq<Spot>): seq<Mapping> {
    if xs == [] then []
    else (if Evictable(bars, xs[0]) then [Held(bars[xs[0].bar], xs[0].page)] else []) + Picked(bars, xs[1..])
  }

  ghost predicate Passed(b: Bar, b': Bar, p: nat) { b'.watermark <= p < b.watermark }

  /** xs[..n] is the shortest prefix with `need` evictable pages, or all of xs if there are not that many. */
  ghost predicate Shortest(bars: seq<Bar>, xs: seq<Spot>, n: nat, need: nat) {
    && n <= |xs|
    && |Picked(bars, xs[..n])| <= need
    && (n < |xs| ==> |Picked(bars, xs[..n])| == need)
    && forall i :: 0 <= i < n ==> |Picked(bars, xs[..i])| < need
  }

  /** How far the scan goes. */
  function Reach(bars: seq<Bar>, xs: seq<Spot>, need: nat): nat {
    if need == 0 || xs == [] then 0
    else 1 + Reach(bars, xs[1..], if Evictable(bars, xs[0]) then need - 1 else need)
  }

  lemma {:induction false} ReachIsShortest(bars: seq<Bar>, xs: seq<Spot>, need: nat)
    ensures Shortest(bars, xs, Reach(bars, xs, need), need)
  {
    var n := Reach(bars, xs, need);
    if need == 0 || xs == [] {
      assert xs[..n] == [];
    } else {
      var need' := if Evictable(bars, xs[0]) then need - 1 else need;
      ReachIsShortest(bars, xs[1..], need');
      forall i | 0 < i <= n
        ensures xs[..i][0] == xs[0] && xs[..i][1..] == xs[1..][..i - 1]
      {
      }
      assert xs[..0] == [];
    }
  }

  lemma ScanAgrees(bars: seq<Bar>, bars': seq<Bar>, k: nat)
    requires |bars| == |bars'| && forall j :: k <= j < |bars| ==> bars[j] == bars'[j]
    ensures Scan(bars, k) == Scan(bars', k)
    decreases |bars| - k
  {
  }

  lemma OffersBelow(k: nat, watermark: nat, limit: nat)
    ensures forall p: nat :: Spot(k, p) in Offers(k, watermark, limit) <==> limit <= p < watermark
    ensures forall x :: x in Offers(k, watermark, limit) ==> x.bar == k
  {
  }

  lemma ScanFrom(bars: seq<Bar>, k: nat)
    ensures forall x :: x in Scan(bars, k) ==>
              k <= x.bar < |bars| && bars[x.bar].limit <= x.page < bars[x.bar].watermark
    decreases |bars| - k
  {
    if k < |bars| {
      OffersBelow(k, bars[k].watermark, bars[k].limit);
      ScanFrom(bars, k + 1);
    }
  }

  ghost predicate SameOffer(bars: seq<Bar>, bars': seq<Bar>, x: Spot) {
    && (Evictable(bars, x) <==> Evictable(bars', x))
    && (Evictable(bars, x) ==> Held(bars[x.bar], x.page) == Held(bars'[x.bar], x.page))
  }

  lemma {:induction false} PickedAgrees(bars: seq<Bar>, bars': seq<Bar>, xs: seq<Spot>, need: nat)
    requires forall i :: 0 <= i < |xs| ==> SameOffer(bars, bars', xs[i])
    ensures Picked(bars, xs) == Picked(bars', xs) && Reach(bars, xs, need) == Reach(bars', xs, need)
  {
    if xs != [] {
      assert SameOffer(bars, bars', xs[0]);
      PickedAgrees(bars, bars', xs[1..], if need > 0 && Evictable(bars, xs[0]) then need - 1 else need);
    }
  }

  lemma PrefixCons<T>(x: T, s: seq<T>, n: nat)
    requires n <= |s|
    ensures ([x] + s)[..n + 1] == [x] + s[..n]
  {
  }

  /** A turn takes the first page of the scan and leaves the rest of the scan as it was. */
  lemma TurnTakesFirst(bars: seq<Bar>, k: nat)
    requires AllWf(bars) && k < |bars| && bars[k].watermark > bars[k].limit
    ensures var bars' := bars[k := Lower(bars[k])];
            && Scan(bars, k) == [Spot(k, bars[k].watermark - 1)] + Scan(bars', k)
            && forall i :: 0 <= i < |Scan(bars', k)| ==> SameOffer(bars, bars', Scan(bars', k)[i])
  {
    var bars' := bars[k := Lower(bars[k])];
    ScanAgrees(bars, bars', k + 1);
    ScanFrom(bars', k);
    forall i | 0 <= i < |Scan(bars', k)|
      ensures SameOffer(bars, bars', Scan(bars', k)[i])
    {
      var x := Scan(bars', k)[i];
      assert x in Scan(bars', k);
    }
  }

  /** What is taken from the scan from VBAR k on. */
  function Taken(bars: seq<Bar>, k: nat, need: nat): (xs: seq<Spot>)
    ensures xs <= Scan(bars, k)
  {
    ReachIsShortest(bars, Scan(bars, k), need);
    Scan(bars, k)[..Reach(bars, Scan(bars, k), need)]
  }

  lemma TakenTurn(bars: seq<Bar>, k: nat, need: nat)
    requires AllWf(bars) && k < |bars| && bars[k].watermark > bars[k].limit && need > 0
    ensures var bars' := bars[k := Lower(bars[k])];
            var rest := Taken(bars', k, need - |TopDrop(bars[k])|);
            && Taken(bars, k, need) == [Spot(k, bars[k].watermark - 1)] + rest
            && Picked(bars, Taken(bars, k, need)) == TopDrop(bars[k]) + Picked(bars', rest)
  {
    hide Scan, Lower;
    var bars' := bars[k := Lower(bars[k])];
    var first := Spot(k, bars[k].watermark - 1);
    var need' := need - |TopDrop(bars[k])|;
    var scan, scan' := Scan(bars, k), Scan(bars', k);
    var rest := Taken(bars', k, need');
    TurnTakesFirst(bars, k);
    assert scan[0] == first && scan[1..] == scan';
    PickedAgrees(bars, bars', scan', need');
    ReachIsShortest(bars', scan', need');
    PrefixCons(first, scan', |rest|);
    forall i | 0 <= i < |rest|
      ensures SameOffer(bars, bars', rest[i])
    {
      assert rest[i] == scan'[i];
    }
    PickedAgrees(bars, bars', rest, 0);
    assert ([first] + rest)[1..] == rest;
  }

  ghost predicate PassesExactly(bars: seq<Bar>, bars': seq<Bar>, xs: seq<Spot>) {
    |bars'| == |bars| && forall j, p :: 0 <= j < |bars| ==> (Passed(bars[j], bars'[j], p) <==> Spot(j, p) in xs)
  }

  lemma PassesTurn(bars: seq<Bar>, k: nat, end: seq<Bar>, xs: seq<Spot>)
    requires AllWf(bars) && k < |bars| && bars[k].watermark > 0
    requires var bars' := bars[k := Lower(bars[k])]; AllShrunk(bars', end) && PassesExactly(bars', end, xs)
    ensures PassesExactly(bars, end, [Spot(k, bars[k].watermark - 1)] + xs)
  {
    var bars' := bars[k := Lower(bars[k])];
    forall j, p: nat | 0 <= j < |bars|
      ensures Passed(bars[j], end[j], p) <==> Spot(j, p) in [Spot(k, bars[k].watermark - 1)] + xs
    {
      assert Passed(bars'[j], end[j], p) <==> Spot(j, p) in xs;
      assert Shrunk(bars'[j], end[j]);
    }
  }

  lemma {:induction false} DrainFollowsScan(bars: seq<Bar>, k: nat, need: nat)
    requires AllWf(bars)
    ensures Drain(bars, k, need).dropped == Picked(bars, Taken(bars, k, need))
    ensures PassesExactly(bars, Drain(bars, k, need).bars, Taken(bars, k, need))
    decreases |bars| - k, if k < |bars| then bars[k].watermark else 0
  {
    if need == 0 || k >= |bars| {
    } else if bars[k].watermark > bars[k].limit {
      var bars' := bars[k := Lower(bars[k])];
      var need' := need - |TopDrop(bars[k])|;
      TakenTurn(bars, k, need);
      DrainFollowsScan(bars', k, need');
      DrainShrinks(bars', k, need');
      PassesTurn(bars, k, Drain(bars', k, need').bars, Taken(bars', k, need'));
    } else {
      assert Scan(bars, k) == Scan(bars, k + 1);
      DrainFollowsScan(bars, k + 1, need);
    }
  }

  /** `vbars_free` evicts exactly the evictable pages of the shortest prefix of the scan that holds enough of them. */
  lemma DrainIsGreedy(bars: seq<Bar>, need: nat) returns (n: nat)
    requires AllWf(bars)
    ensures n <= |Scan(bars, 0)|
    ensures var e := Drain(bars, 0, need);
            var xs := Scan(bars, 0)[..n];
            && Shortest(bars, Scan(bars, 0), n, need)
            && e.dropped == Picked(bars, xs)
            && AllShrunk(bars, e.bars) && PassesExactly(bars, e.bars, xs)
  {
    n := Reach(bars, Scan(bars, 0), need);
    ReachIsShortest(bars, Scan(bars, 0), need);
    DrainShrinks(bars, 0, need);
    DrainFollowsScan(bars, 0, need);
  }

  /** From VBAR k on, no VBAR is touched before every lower one is at or below its limit. */
  ghost predicate LowestFirst(bars: seq<Bar>, bars': seq<Bar>, k: nat) {
    && |bars'| == |bars|
    && (forall i :: 0 <= i < |bars| && i < k ==> bars'[i] == bars[i])
    && forall i, j :: k <= i < j < |bars| && bars'[j] != bars[j] ==> bars'[i].watermark <= bars[i].limit
  }

  ghost predicate AtLimits(bars: seq<Bar>, k: nat) {
    forall i :: k <= i < |bars| ==> bars[i].watermark <= bars[i].limit
  }

  lemma Untouched(bars: seq<Bar>, k: nat)
    ensures LowestFirst(bars, bars, k) && (k >= |bars| ==> AtLimits(bars, k))
  {
  }

  /** A turn at VBAR k, or a step past it at its limit, keeps what the rest of the walk does lowest first. */
  lemma LowestFirstTurn(bars: seq<Bar>, b: Bar, bars': seq<Bar>, k: nat)
    requires k < |bars| && b.limit == bars[k].limit && LowestFirst(bars[k := b], bars', k)
    ensures LowestFirst(bars, bars', k)
  {
  }

  lemma LowestFirstPast(bars: seq<Bar>, bars': seq<Bar>, k: nat)
    requires k < |bars| && bars[k].watermark <= bars[k].limit && LowestFirst(bars, bars', k + 1)
    ensures LowestFirst(bars, bars', k) && (AtLimits(bars', k + 1) ==> AtLimits(bars', k))
  {
  }

  lemma {:induction false} DrainLowestFirst(bars: seq<Bar>, k: nat, need: nat)
    requires AllWf(bars)
    ensures LowestFirst(bars, Drain(bars, k, need).bars, k)
    ensures |Drain(bars, k, need).dropped| < need ==> AtLimits(Drain(bars, k, need).bars, k)
    decreases |bars| - k, if k < |bars| then bars[k].watermark else 0
  {
    hide LowestFirst, AtLimits;
    if need == 0 || k >= |bars| {
      Untouched(bars, k);
    } else if bars[k].watermark > bars[k].limit {
      DrainLowestFirst(bars[k := Lower(bars[k])], k, need - |TopDrop(bars[k])|);
      LowestFirstTurn(bars, Lower(bars[k]), Drain(bars, k, need).bars, k);
    } else {
      DrainLowestFirst(bars, k + 1, need);
      LowestFirstPast(bars, Drain(bars, k, need).bars, k);
    }
  }

  lemma {:induction false} PayLowestFirst(bars: seq<Bar>, m: nat, k: nat, cursor: nat, target: nat)
    requires AllWf(bars) && m < |bars|
    ensures var e := Pay(bars, m, k, cursor, target);
            && LowestFirst(bars, e.bars, k)
            && (e.cursor < target && e.cursor < e.bars[m].watermark ==> AtLimits(e.bars, k))
    decreases |bars| - k, if k < |bars| then bars[k].watermark else 0
  {
    hide CursorAfter, TopDrop, LowestFirst, AtLimits;
    if cursor >= target || cursor >= bars[m].watermark || k >= |bars| {
      Untouched(bars, k);
    } else if bars[k].watermark > bars[k].limit {
      PayLowestFirst(bars[k := Lower(bars[k])], m, k, CursorAfter(bars, m, k, cursor), target);
      LowestFirstTurn(bars, Lower(bars[k]), Pay(bars, m, k, cursor, target).bars, k);
    } else {
      PayLowestFirst(bars, m, k + 1, cursor, target);
      LowestFirstPast(bars, Pay(bars, m, k, cursor, target).bars, k);
    }
  }

  // ----- `vbars_free_for_vbar` pays exactly -----

  /** The cursor stands at an absent page or at the watermark, never beyond it. */
  ghost predicate Standing(b: Bar, cursor: nat) {
    Wf(b) && cursor <= b.watermark && (cursor < b.watermark ==> b.pages[cursor].handle == 0)
  }

  /** Beyond the target the cursor has only walked over resident pages. */
  ghost predicate Walked(b: Bar, cursor: nat, target: nat) {
    forall q :: target <= q < cursor && q < |b.pages| ==> b.pages[q].handle != 0
  }

  lemma {:induction false} NextAbsentStands(b: Bar, cursor: nat)
    requires Wf(b) && cursor <= b.watermark
    ensures var c := NextAbsent(b, cursor);
            && cursor <= c && Standing(b, c) && Absent(b.pages, c) == Absent(b.pages, cursor)
            && forall q :: cursor <= q < c ==> b.pages[q].handle != 0
    decreases b.watermark - cursor
  {
    if cursor < b.watermark && b.pages[cursor].handle != 0 {
      assert b.pages[..cursor + 1][..cursor] == b.pages[..cursor];
      NextAbsentStands(b, cursor + 1);
    }
  }

  /** One turn, with VBAR m itself as victim or not: what is evicted is what the cursor passes. */
  lemma TurnPays(bars: seq<Bar>, m: nat, k: nat, cursor: nat, target: nat)
    requires AllWf(bars) && m < |bars| && k < |bars| && bars[k].watermark > 0
    requires Standing(bars[m], cursor) && cursor < target && cursor < bars[m].watermark
    ensures var b' := bars[k := Lower(bars[k])][m];
            var cursor' := CursorAfter(bars, m, k, cursor);
            && cursor <= cursor' && Standing(b', cursor')
            && (Walked(bars[m], cursor, target) ==> Walked(b', cursor', target))
            && Absent(b'.pages, cursor') == Absent(bars[m].pages, cursor) + |TopDrop(bars[k])|
  {
    var b := bars[m];
    var freed := TopFreed(bars, k)[m];
    var b' := bars[k := Lower(bars[k])][m];
    assert b'.pages == freed.pages && freed.watermark == b.watermark;
    assert freed.pages[..cursor] == b.pages[..cursor];
    if TopFrees(bars[k]) {
      assert freed.pages[..cursor + 1][..cursor] == freed.pages[..cursor];
      NextAbsentStands(freed, cursor + 1);
      if k == m {
        assert freed.pages[b.watermark - 1].handle == 0;
      }
    }
  }

  lemma {:induction false} PayPays(bars: seq<Bar>, m: nat, k: nat, cursor: nat, target: nat)
    requires AllWf(bars) && m < |bars| && Standing(bars[m], cursor)
    ensures var e := Pay(bars, m, k, cursor, target);
            && cursor <= e.cursor && Standing(e.bars[m], e.cursor)
            && (Walked(bars[m], cursor, target) ==> Walked(e.bars[m], e.cursor, target))
            && |e.dropped| == Absent(e.bars[m].pages, e.cursor) - Absent(bars[m].pages, cursor)
    decreases |bars| - k, if k < |bars| then bars[k].watermark else 0
  {
    if cursor >= target || cursor >= bars[m].watermark || k >= |bars| {
    } else if bars[k].watermark > bars[k].limit {
      TurnPays(bars, m, k, cursor, target);
      PayPays(bars[k := Lower(bars[k])], m, k, CursorAfter(bars, m, k, cursor), target);
    } else {
      PayPays(bars, m, k + 1, cursor, target);
    }
  }

  lemma NoneAbsent(pages: seq<Page>, lo: nat, hi: nat)
    requires lo <= hi <= |pages| && forall q :: lo <= q < hi ==> pages[q].handle != 0
    ensures Absent(pages, hi) == Absent(pages, lo)
    decreases hi
  {
    if lo < hi {
      assert pages[..hi][..hi - 1] == pages[..hi - 1];
      NoneAbsent(pages, lo, hi - 1);
    }
  }

  function Min(a: nat, b: nat): nat { if a < b then a else b }

  /** The evictions always equal the absent pages of m below the cursor; when the loop stops early these are
      exactly the absent pages below the target and m's final watermark; when it runs off the list, every VBAR
      is at its limit. */
  lemma PaymentIsExact(bars: seq<Bar>, m: nat, target: nat)
    requires AllWf(bars) && m < |bars|
    ensures var e := PayFor(bars, m, target);
            && e.cursor <= e.bars[m].watermark <= |e.bars[m].pages|
            && |e.dropped| == Absent(e.bars[m].pages, e.cursor)
            && (if e.cursor >= Min(target, e.bars[m].watermark)
                then |e.dropped| == Absent(e.bars[m].pages, Min(target, e.bars[m].watermark))
                else AtLimits(e.bars, 0))
  {
    var c := NextAbsent(bars[m], 0);
    NextAbsentStands(bars[m], 0);
    PayPays(bars, m, 0, c, target);
    PayLowestFirst(bars, m, 0, c, target);
    var e := PayFor(bars, m, target);
    var stop := Min(target, e.bars[m].watermark);
    if e.cursor >= stop {
      NoneAbsent(e.bars[m].pages, stop, e.cursor);
    }
  }

  /** Priority isolation: with its limit no higher than its first absent page, a fault never makes a VBAR above it
      pay. */
  lemma HigherVbarsNeverPay(bars: seq<Bar>, m: nat, target: nat, j: nat)
    requires AllWf(bars) && m < j < |bars| && bars[m].limit <= NextAbsent(bars[m], 0)
    ensures PayFor(bars, m, target).bars[j] == bars[j]
  {
    var c := NextAbsent(bars[m], 0);
    NextAbsentStands(bars[m], 0);
    PayLeavesHigher(bars, m, 0, c, target);
  }

  lemma {:induction false} PayLeavesHigher(bars: seq<Bar>, m: nat, k: nat, cursor: nat, target: nat)
    requires AllWf(bars) && k <= m < |bars| && Standing(bars[m], cursor) && bars[m].limit <= cursor
    ensures forall j :: m < j < |bars| ==> Pay(bars, m, k, cursor, target).bars[j] == bars[j]
    decreases |bars| - k, if k < |bars| then bars[k].watermark else 0
  {
    if cursor >= target || cursor >= bars[m].watermark {
    } else if bars[k].watermark > bars[k].limit {
      TurnPays(bars, m, k, cursor, target);
      PayLeavesHigher(bars[k := Lower(bars[k])], m, k, CursorAfter(bars, m, k, cursor), target);
    } else {
      assert k != m;
      PayLeavesHigher(bars, m, k + 1, cursor, target);
    }
  }
}
