/** Pages a fault leaves resident, unpinned and at or above the watermark: how they come about, and how they cannot. */
module Strays {
  import opened Plat
  import opened Residency
  import opened Eviction
  import opened FaultFacts

  /** Where a fault of pages start to end stands, given that its range was below the watermark when it began: the
      watermark is still beyond the range, or it fell during the loop, to above `start` and not below the limit. */
  ghost predicate Lowered(b: Bar, start: nat, end: nat) {
    b.watermark >= end || (start < b.watermark && b.limit <= b.watermark)
  }

  /** A turn leaves nothing unaccounted but, perhaps, its own page, mapped when the watermark was already at or below
      it. */
  lemma TurnStrays(env: Env, w: World, m: nat, start: nat, p: nat, end: nat)
    requires AllWf(w.bars) && m < |w.bars| && start <= p < end <= |w.bars[m].pages|
    requires Lowered(w.bars[m], start, end)
    ensures var t := FaultPage(env, w, m, p, end);
            && t.w.bars[m].limit == w.bars[m].limit
            && (t.outcome.Hit? || t.outcome.Fresh? ==> Lowered(t.w.bars[m], start, end))
            && forall q: nat :: Stray(t.w.bars[m], q) ==>
                 Stray(w.bars[m], q) || (q == p && t.outcome.Fresh? && w.bars[m].watermark <= p)
  {
    hide FaultPage;
    var t := FaultPage(env, w, m, p, end);
    var b, b' := w.bars[m], t.w.bars[m];
    PageTurn(env, w, m, p, end);
    if t.outcome.Fresh? {
      var c := SetPage(b', p, b.pages[p]);
      forall q: nat | q != p && Stray(b', q)
        ensures Stray(b, q)
      {
        assert c.pages[q] == b'.pages[q];
      }
    }
  }

  /** How an unaccounted page came about: `at` is where the loop stood when it mapped page q, at or above the
      watermark. */
  ghost predicate MappedAbove(env: Env, w: World, m: nat, start: nat, end: nat, q: nat, at: World,
                              signature: seq<nat>) {
    && Faulting(env, w, m, start, end, at, q, signature) && start < q < end
    && at.bars[m].watermark <= q && start < at.bars[m].watermark && w.bars[m].limit <= at.bars[m].watermark
    && q < |at.bars[m].pages| && FaultPage(env, at, m, q, end).outcome.Fresh?
  }

  lemma {:induction false} LoopStrays(env: Env, w0: World, m: nat, start: nat, end: nat, w: World, p: nat,
                                      sig: seq<nat>, q: nat)
    returns (at: World, signature: seq<nat>)
    requires Faulting(env, w0, m, start, end, w, p, sig) && p <= end && Lowered(w.bars[m], start, end)
    requires w.bars[m].limit == w0.bars[m].limit
    requires Stray(FaultLoop(env, w0, m, start, end, []).w.bars[m], q) && !Stray(w.bars[m], q)
    ensures MappedAbove(env, w0, m, start, end, q, at, signature)
    decreases end - p
  {
    hide FaultPage, Lowered, Stray, FaultLoop;
    if p == end {
      FaultDone(env, w0, m, start, end, w, p, sig);
      assert false;
    }
    FaultTurn(env, w0, m, start, end, w, p, sig);
    TurnStrays(env, w, m, start, p, end);
    var t := FaultPage(env, w, m, p, end);
    if Stray(t.w.bars[m], q) {
      at, signature := w, sig;
      LoweredBelow(w.bars[m], start, end);
    } else {
      assert t.outcome.Hit? || t.outcome.Fresh?;
      at, signature := LoopStrays(env, w0, m, start, end, t.w, p + 1, sig + [Sign(t.w, m, p)], q);
    }
  }

  lemma LoweredBelow(b: Bar, start: nat, end: nat)
    requires Lowered(b, start, end) && b.watermark < end
    ensures start < b.watermark && b.limit <= b.watermark
  {
  }

  /** The last page of a range is never left so: once it is mapped the fault has succeeded. */
  lemma LastPageSucceeds(env: Env, w: World, m: nat, start: nat, end: nat, q: nat, at: World, signature: seq<nat>)
    requires MappedAbove(env, w, m, start, end, q, at, signature) && q == end - 1
    ensures FaultLoop(env, w, m, start, end, []).code.FaultSuccess?
  {
    FaultTurn(env, w, m, start, end, at, q, signature);
  }

  /** A page the pinning of a fault leaves unaccounted was so before it, or had a full counter. */
  lemma PinnedStray(w: World, m: nat, lo: nat, hi: nat, q: nat)
    requires m < |w.bars| && Stray(Pinned(w, m, lo, hi).bars[m], q)
    ensures if lo <= q < hi then w.bars[m].pages[q].pins >= PIN_SPAN - 1 else Stray(w.bars[m], q)
  {
  }

  /** An unaccounted page after a fault: it was so before, or a pin counter of the range was full, or the fault failed
      and mapped it itself, neither first nor last of its range, at or above a watermark that had fallen during the
      loop. */
  lemma FaultStrays(env: Env, w: World, m: nat, offset: nat, size: nat, q: nat) returns (at: World, signature: seq<nat>)
    requires AllWf(w.bars) && m < |w.bars|
    requires Stray(Fault(env, w, m, offset, size).w.bars[m], q)
    ensures var f := Fault(env, w, m, offset, size);
            var first, end := offset / VBAR_PAGE, PagesUp(offset + size);
            || Stray(w.bars[m], q)
            || !PinRoom(w.bars[m], offset, size)
            || (&& !f.code.FaultSuccess? && q + 1 < end
                && MappedAbove(env, Entered(env, w), m, first, end, q, at, signature)
                && q < |w.bars[m].pages| == |f.w.bars[m].pages|
                && f.w.bars[m].pages[q].serial > w.bars[m].pages[q].serial)
  {
    hide Fault, Pinned, MakeRoom, FaultLoop, Faulting;
    at, signature := w, [];
    var f := Fault(env, w, m, offset, size);
    var before, loop := FaultResults(env, w, m, offset, size);
    var first, end := offset / VBAR_PAGE, PagesUp(offset + size);
    FaultAlwaysKeeps(env, w, m, offset, size);
    assert Shrunk(w.bars[m], before.bars[m]);
    ShrunkWorked(w.bars[m], before.bars[m], first, end);
    if end <= before.bars[m].watermark && !Stray(w.bars[m], q) && PinRoom(w.bars[m], offset, size) {
      assert !Stray(before.bars[m], q);
      FaultIs(env, w, m, offset, size);
      if loop.code.FaultSuccess? {
        assert loop.w.bars[m].pages[q].pins == w.bars[m].pages[q].pins;
        PinnedStray(loop.w, m, first, end, q);
        assert false;
      }
      SlotsEnough(offset, size);
      FaultStart(env, before, m, first, end);
      at, signature := LoopStrays(env, before, m, first, end, before, first, [], q);
      if q == end - 1 {
        LastPageSucceeds(env, before, m, first, end, q, at, signature);
      }
      assert Worked(before.bars[m], loop.w.bars[m], first, end);
    }
  }

  /** The ranges that can leave such a page: three pages at least, with the limit low enough to fall between them. */
  predicate Exposed(limit: nat, first: nat, end: nat) { end >= first + 3 && limit + 2 <= end }

  /** No other range leaves one. */
  lemma ShortRangesLeaveNone(env: Env, w: World, m: nat, offset: nat, size: nat, q: nat)
    requires AllWf(w.bars) && m < |w.bars| && PinRoom(w.bars[m], offset, size)
    requires !Exposed(w.bars[m].limit, offset / VBAR_PAGE, PagesUp(offset + size))
    requires Stray(Fault(env, w, m, offset, size).w.bars[m], q)
    ensures Stray(w.bars[m], q)
  {
    hide Fault, MakeRoom, FaultLoop;
    RoomMade(env, w, 0);
    var at, signature := FaultStrays(env, w, m, offset, size, q);
  }

  /** A fault refused at entry, its own eviction included, leaves none either. */
  lemma RefusedLeavesNone(env: Env, w: World, m: nat, offset: nat, size: nat, q: nat)
    requires AllWf(w.bars) && m < |w.bars| && Entered(env, w).bars[m].watermark < PagesUp(offset + size)
    requires Stray(Fault(env, w, m, offset, size).w.bars[m], q)
    ensures Stray(w.bars[m], q)
  {
    hide MakeRoom, FaultLoop;
    RoomMade(env, w, 0);
    assert Shrunk(w.bars[m], Entered(env, w).bars[m]);
  }
}
