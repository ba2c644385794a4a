/** When a fault must succeed. */
module Progress {
  import opened Plat
  import opened Residency
  import opened Eviction
  import opened FaultFacts

  /** From one moment to another every call succeeds, and every handle handed out is a new one. */
  ghost predicate Generous(env: Env, lo: nat, hi: nat, live: set<nat>) {
    && (forall n :: lo <= n < hi ==> env(n).result.Success? && env(n).value != 0 && env(n).value !in live)
    && forall i, j :: lo <= i < j < hi ==> env(i).value != env(j).value
  }

  /** All that the environment handed out between two moments. */
  ghost function Handed(env: Env, lo: nat, hi: nat): iset<nat> { iset n: nat | lo <= n < hi :: env(n).value }

  ghost predicate Since(env: Env, d: Dev, d': Dev) {
    d.clock <= d'.clock && forall h :: h in d'.gpu.live ==> h in d.gpu.live || h in Handed(env, d.clock, d'.clock)
  }

  lemma StillGenerous(env: Env, d: Dev, d': Dev, hi: nat)
    requires Generous(env, d.clock, hi, d.gpu.live) && Since(env, d, d')
    ensures Generous(env, d'.clock, hi, d'.gpu.live)
  {
  }

  lemma SinceTwice(env: Env, d: Dev, d': Dev, d'': Dev)
    requires Since(env, d, d') && Since(env, d', d'')
    ensures Since(env, d, d'')
  {
  }

  /** A granted transaction, and what it costs. */
  lemma StoogesSucceeds(env: Env, d: Dev, va: int, size: int, hi: nat)
    requires Generous(env, d.clock, hi, d.gpu.live) && d.clock + 3 <= hi
    ensures var t := Stooges(env, d, va, size);
            t.err.Success? && Since(env, d, t.dev)
            && t.dev == d.(clock := d.clock + 3, usage := d.usage + size, gpu := t.dev.gpu)
  {
  }

  lemma DropAllLive(d: Dev, ms: seq<Mapping>)
    ensures DropAll(d, ms).gpu.live <= d.gpu.live
  {
  }

  /** The absent pages of a range. */
  function Missing(pages: seq<Page>, lo: nat, hi: nat): nat
    requires hi <= |pages|
    decreases hi - lo
  {
    if lo >= hi then 0 else (if pages[lo].handle == 0 then 1 else 0) + Missing(pages, lo + 1, hi)
  }

  lemma {:induction false} MissingAgrees(pages: seq<Page>, other: seq<Page>, lo: nat, hi: nat)
    requires hi <= |pages| == |other| && forall q :: lo <= q < hi ==> pages[q].handle == other[q].handle
    ensures Missing(pages, lo, hi) == Missing(other, lo, hi)
    decreases hi - lo
  {
    if lo < hi {
      MissingAgrees(pages, other, lo + 1, hi);
    }
  }

  lemma {:induction false} MissingAll(pages: seq<Page>, lo: nat, hi: nat)
    requires lo <= hi <= |pages| && forall q :: lo <= q < hi ==> pages[q].handle == 0
    ensures Missing(pages, lo, hi) == hi - lo
    decreases hi - lo
  {
    if lo < hi {
      MissingAll(pages, lo + 1, hi);
    }
  }

  // ----- whatever the budget says -----

  /** When every call is granted, a turn ends with its page resident, unless the watermark fell to it. */
  lemma GrantedTurn(env: Env, w: World, m: nat, p: nat, end: nat, hi: nat)
    requires AllWf(w.bars) && m < |w.bars| && p < |w.bars[m].pages|
    requires Generous(env, w.dev.clock, hi, w.dev.gpu.live) && w.dev.clock + 4 <= hi
    ensures var t := FaultPage(env, w, m, p, end);
            && !t.outcome.Broken?
            && w.dev.clock <= t.w.dev.clock <= w.dev.clock + 4 && Since(env, w.dev, t.w.dev)
  {
    hide Generous, Stooges, Since, Handed;
    var b := w.bars[m];
    SinceSame(env, w.dev, w.dev);
    if b.pages[p].handle == 0 {
      var va := b.base + p * VBAR_PAGE;
      var d := Poll(env, w.dev);
      SinceSame(env, w.dev, d);
      StillGenerous(env, w.dev, d, hi);
      if Deficit(d, VBAR_PAGE) > 0 {
        ChargeEffect(World(d, w.bars), m, end);
        var w' := Charge(World(d, w.bars), m, end);
        ChargeDev(World(d, w.bars), m, end);
        SinceSame(env, d, w'.dev);
        SinceTwice(env, w.dev, d, w'.dev);
        StillGenerous(env, w.dev, w'.dev, hi);
        StoogesSucceeds(env, w'.dev, va, VBAR_PAGE, hi);
        SinceTwice(env, w.dev, w'.dev, Stooges(env, w'.dev, va, VBAR_PAGE).dev);
      } else {
        StoogesSucceeds(env, d, va, VBAR_PAGE, hi);
        SinceTwice(env, w.dev, d, Stooges(env, d, va, VBAR_PAGE).dev);
      }
    }
  }

  lemma SinceSame(env: Env, d: Dev, d': Dev)
    requires d'.gpu.live <= d.gpu.live && d'.clock >= d.clock
    ensures Since(env, d, d')
  {
  }

  lemma ChargeDev(w: World, m: nat, end: nat)
    requires AllWf(w.bars) && m < |w.bars|
    ensures Charge(w, m, end).dev.gpu.live <= w.dev.gpu.live && Charge(w, m, end).dev.clock == w.dev.clock
  {
    var ms := PayFor(w.bars, m, end).dropped;
    PaySizes(w.bars, m, 0, NextAbsent(w.bars[m], 0), end);
    DropAllEffect(w.dev, ms);
    DropAllLive(w.dev, ms);
  }

  lemma {:induction false} GrantedLoop(env: Env, w: World, m: nat, p: nat, end: nat, signature: seq<nat>, hi: nat)
    requires AllWf(w.bars) && m < |w.bars| && p <= end <= |w.bars[m].pages|
    requires Generous(env, w.dev.clock, hi, w.dev.gpu.live) && w.dev.clock + 4 * (end - p) <= hi
    ensures !FaultLoop(env, w, m, p, end, signature).code.FaultError?
    decreases end - p
  {
    hide Generous, FaultPage, Since;
    if p < end {
      var t := FaultPage(env, w, m, p, end);
      GrantedTurn(env, w, m, p, end, hi);
      if t.outcome.Hit? || t.outcome.Fresh? {
        StillGenerous(env, w.dev, t.w.dev, hi);
        GrantedLoop(env, t.w, m, p + 1, end, signature + [Sign(t.w, m, p)], hi);
      }
    }
  }

  // ----- within the budget -----

  /** No poll falls due before `hi`, and this many more bytes fit the budget. */
  ghost predicate Roomy(env: Env, d: Dev, hi: nat, bytes: int) {
    && (forall n :: d.clock <= n < hi ==> d.stamp <= env(n).tick < d.stamp + POLL_TICKS)
    && Deficit(d, bytes) == 0
  }

  /** The world after `n` pages of VBAR m were mapped: nothing else changed but time and the driver. */
  ghost predicate Filled(env: Env, w: World, w': World, m: nat, p: nat, mid: nat, n: nat) {
    && AllWf(w.bars) && AllWf(w'.bars) && m < |w.bars| == |w'.bars| && w'.bars == w.bars[m := w'.bars[m]]
    && var b, b' := w.bars[m], w'.bars[m];
       && b' == b.(pages := b'.pages) && |b'.pages| == |b.pages|
       && (forall q :: 0 <= q < |b.pages| ==>
            && b'.pages[q].pins == b.pages[q].pins
            && if p <= q < mid then b'.pages[q].handle != 0 else b'.pages[q] == b.pages[q])
       && w'.dev == w.dev.(clock := w.dev.clock + 4 * n, usage := w.dev.usage + n * VBAR_PAGE, gpu := w'.dev.gpu)
       && Since(env, w.dev, w'.dev)
  }

  /** A turn within the budget evicts nothing: a hit costs nothing, a mapping four calls. */
  lemma RoomyTurn(env: Env, w: World, m: nat, p: nat, end: nat, hi: nat)
    requires AllWf(w.bars) && m < |w.bars| && p < |w.bars[m].pages|
    requires w.bars[m].pages[p].handle == 0 ==>
               && Generous(env, w.dev.clock, hi, w.dev.gpu.live) && w.dev.clock + 4 <= hi
               && Roomy(env, w.dev, hi, VBAR_PAGE)
    ensures var t := FaultPage(env, w, m, p, end);
            var absent := w.bars[m].pages[p].handle == 0;
            && t.outcome == (if absent then Fresh else Hit)
            && Filled(env, w, t.w, m, p, p + 1, if absent then 1 else 0)
  {
    hide Generous, Stooges, Since, Handed;
    SinceSame(env, w.dev, w.dev);
    var b := w.bars[m];
    if b.pages[p].handle == 0 {
      var va := b.base + p * VBAR_PAGE;
      var d := Poll(env, w.dev);
      assert d == w.dev.(clock := w.dev.clock + 1);
      SinceSame(env, w.dev, d);
      StillGenerous(env, w.dev, d, hi);
      StoogesSucceeds(env, d, va, VBAR_PAGE, hi);
      SinceTwice(env, w.dev, d, Stooges(env, d, va, VBAR_PAGE).dev);
    } else {
      assert w.bars == w.bars[m := w.bars[m]];
    }
  }

  /** As far as the budget and the environment allow, the mapping loop maps every page it comes to. */
  lemma {:induction false} RoomyLoop(env: Env, w: World, m: nat, p: nat, mid: nat, end: nat,
                                     signature: seq<nat>, hi: nat)
    returns (w': World, signature': seq<nat>)
    requires AllWf(w.bars) && m < |w.bars| && p <= mid <= end <= |w.bars[m].pages|
    requires var n := Missing(w.bars[m].pages, p, mid);
             Generous(env, w.dev.clock, hi, w.dev.gpu.live) && w.dev.clock + 4 * n <= hi
             && Roomy(env, w.dev, hi, n * VBAR_PAGE)
    ensures Filled(env, w, w', m, p, mid, Missing(w.bars[m].pages, p, mid))
    ensures |w'.bars[m].pages| == |w.bars[m].pages|
    ensures FaultLoop(env, w, m, p, end, signature) == FaultLoop(env, w', m, mid, end, signature')
    decreases mid - p
  {
    hide Generous, FaultPage, Since, Roomy;
    if p == mid {
      w', signature' := w, signature;
      SinceSame(env, w.dev, w.dev);
      assert w.bars == w.bars[m := w.bars[m]];
    } else {
      var n := Missing(w.bars[m].pages, p, mid);
      var cost := if w.bars[m].pages[p].handle == 0 then 1 else 0;
      if cost == 1 {
        RoomyLess(env, w.dev, hi, n, 1);
      }
      RoomyTurn(env, w, m, p, end, hi);
      var t := FaultPage(env, w, m, p, end);
      MissingAgrees(w.bars[m].pages, t.w.bars[m].pages, p + 1, mid);
      StillGenerous(env, w.dev, t.w.dev, hi);
      RoomyLater(env, w.dev, t.w.dev, hi, n, cost);
      w', signature' := RoomyLoop(env, t.w, m, p + 1, mid, end, signature + [Sign(t.w, m, p)], hi);
      FilledTwice(env, w, t.w, w', m, p, mid, cost, n - cost);
    }
  }

  lemma RoomyLess(env: Env, d: Dev, hi: nat, n: nat, n': nat)
    requires Roomy(env, d, hi, n * VBAR_PAGE) && n' <= n
    ensures Roomy(env, d, hi, n' * VBAR_PAGE)
  {
  }

  lemma RoomyLater(env: Env, d: Dev, d': Dev, hi: nat, n: nat, cost: nat)
    requires Roomy(env, d, hi, n * VBAR_PAGE) && cost <= n
    requires d' == d.(clock := d.clock + 4 * cost, usage := d.usage + cost * VBAR_PAGE, gpu := d'.gpu)
    ensures Roomy(env, d', hi, (n - cost) * VBAR_PAGE)
  {
  }

  lemma FilledTwice(env: Env, w: World, w': World, w'': World, m: nat, p: nat, mid: nat, n: nat, n': nat)
    requires p < mid && Filled(env, w, w', m, p, p + 1, n) && Filled(env, w', w'', m, p + 1, mid, n')
    ensures Filled(env, w, w'', m, p, mid, n + n')
  {
    hide Since;
    SinceTwice(env, w.dev, w'.dev, w''.dev);
    assert w''.bars == w.bars[m := w''.bars[m]];
  }

  // ----- a whole fault -----

  /** The environment grants every call of the mapping loop. */
  ghost predicate AllGranted(env: Env, w: World, offset: nat, size: nat)
    requires AllWf(w.bars)
  {
    var d := Entered(env, w).dev;
    Generous(env, d.clock, d.clock + 4 * (PagesUp(offset + size) - offset / VBAR_PAGE), d.gpu.live)
  }

  /** When every call is granted a fault never fails with an error, and if it does not succeed its own watermark, which
      never falls below the limit, is below the end of its range. */
  lemma GrantedFault(env: Env, w: World, m: nat, offset: nat, size: nat)
    requires AllWf(w.bars) && m < |w.bars| && AllGranted(env, w, offset, size)
    ensures var f := Fault(env, w, m, offset, size);
            && !f.code.FaultError?
            && (PagesUp(offset + size) <= f.w.bars[m].watermark ==> f.code.FaultSuccess?)
  {
    hide Generous, FaultLoop, MakeRoom;
    SlotsEnough(offset, size);
    var w1 := Entered(env, w);
    var first, end := offset / VBAR_PAGE, PagesUp(offset + size);
    if end <= w1.bars[m].watermark {
      GrantedLoop(env, w1, m, first, end, [], w1.dev.clock + 4 * (end - first));
      FaultIs(env, w, m, offset, size);
    }
    if Fault(env, w, m, offset, size).code.FaultOom? {
      OomLowersWatermark(env, w, m, offset, size);
    }
  }

  /** A fault must succeed if its range is below the watermark once the entry eviction is done, the environment grants
      every call, and either the range is below the watermark limit, whatever the budget says, or its absent pages fit
      the budget. */
  lemma FaultMustSucceed(env: Env, w: World, m: nat, offset: nat, size: nat)
    requires AllWf(w.bars) && m < |w.bars| && AllGranted(env, w, offset, size)
    requires var w1 := Entered(env, w);
             var first, end := offset / VBAR_PAGE, PagesUp(offset + size);
             && end <= w1.bars[m].watermark
             && (|| end <= w.bars[m].limit
                 || Roomy(env, w1.dev, w1.dev.clock + 4 * (end - first),
                          Missing(w1.bars[m].pages, first, end) * VBAR_PAGE))
    ensures Fault(env, w, m, offset, size).code.FaultSuccess?
  {
    hide Generous, Roomy, FaultLoop, MakeRoom;
    RoomMade(env, w, 0);
    SlotsEnough(offset, size);
    var w1 := Entered(env, w);
    var first, end := offset / VBAR_PAGE, PagesUp(offset + size);
    if end <= w.bars[m].limit {
      GrantedFault(env, w, m, offset, size);
      assert Shrunk(w.bars[m], w1.bars[m]);
      FaultLimit(env, w, m, offset, size);
    } else {
      MissingBound(w1.bars[m].pages, first, end);
      var w', signature' := RoomyLoop(env, w1, m, first, end, end, [], w1.dev.clock + 4 * (end - first));
      LoopEnds(env, w', m, end, signature');
      FaultIs(env, w, m, offset, size);
    }
  }

  /** Past its entry eviction, a fault never takes the watermark below the limit. */
  lemma FaultLimit(env: Env, w: World, m: nat, offset: nat, size: nat)
    requires AllWf(w.bars) && m < |w.bars|
    ensures var before, after := Entered(env, w).bars[m].watermark, Fault(env, w, m, offset, size).w.bars[m].watermark;
            after == before || (after < before && w.bars[m].limit <= after)
  {
    hide FaultLoop, MakeRoom;
    var before, loop := FaultResults(env, w, m, offset, size);
    assert Shrunk(w.bars[m], before.bars[m]);
  }

  lemma {:induction false} MissingBound(pages: seq<Page>, lo: nat, hi: nat)
    requires lo <= hi <= |pages|
    ensures Missing(pages, lo, hi) <= hi - lo
    decreases hi - lo
  {
    if lo < hi {
      MissingBound(pages, lo + 1, hi);
    }
  }

  lemma LoopEnds(env: Env, w: World, m: nat, end: nat, signature: seq<nat>)
    requires AllWf(w.bars) && m < |w.bars| && end <= |w.bars[m].pages|
    ensures FaultLoop(env, w, m, end, end, signature) == Faulted(w, signature, FaultSuccess)
  {
  }
}
