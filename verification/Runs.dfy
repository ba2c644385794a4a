/** What a client may rely on over whole runs, for one VBAR and its pages. */
module Runs {
  import opened Plat
  import opened Residency
  import Eviction
  import opened FaultFacts
  import opened System
  import opened Evolution
  import opened Soundness
  import Strays

  ghost predicate Alive(s: State, id: nat) { Locate(s.w.bars, id) < |s.w.bars| }

  function BarOf(s: State, id: nat): Bar
    requires Alive(s, id)
  {
    s.w.bars[Locate(s.w.bars, id)]
  }

  ghost predicate NeverFreed(ops: seq<Op>, id: nat) { forall i :: 0 <= i < |ops| ==> ops[i] != FreeVbar(id) }

  ghost predicate NeverPrioritized(ops: seq<Op>, id: nat) {
    forall i :: 0 <= i < |ops| ==> ops[i] != PrioritizeVbar(id)
  }

  lemma SoundReady(s: State)
    requires Sound(s)
    ensures Ready(s) && AllWf(s.w.bars) && forall i :: 0 <= i < |s.bufs| ==> s.bufs[i].backed <= s.bufs[i].maxSize
  {
    hide Accounted;
    ReadyMeans(s);
  }

  ghost function Ok(env: Env, s: State, op: Op): bool
    requires Sound(s)
  {
    SoundReady(s);
    FaultOk(env, s, op)
  }

  /** One step of the VBAR's life. */
  lemma NextBar(env: Env, s: State, op: Op, id: nat)
    requires Sound(s) && Alive(s, id) && op != FreeVbar(id)
    ensures Alive(Next(env, s, op), id)
    ensures Evolves(op, Ok(env, s, op), BarOf(s, id), BarOf(Next(env, s, op), id))
  {
    hide Sound, Evolves, FaultOk, Moved, Locate;
    SoundReady(s);
    var k := Locate(s.w.bars, id);
    StepEvolves(env, s, op);
    var s' := Next(env, s, op);
    var j := Moved(s.w.bars, op, k);
    assert Evolves(op, FaultOk(env, s, op), s.w.bars[k], s'.w.bars[j]);
    SoundReady(s');
    EvolvesId(op, FaultOk(env, s, op), s.w.bars[k], s'.w.bars[j]);
    LocateIs(s'.w.bars, s'.nextId, j);
  }

  lemma EvolvesId(op: Op, ok: bool, b: Bar, b': Bar)
    requires Evolves(op, ok, b, b')
    ensures b'.id == b.id && |b'.pages| == |b.pages|
  {
  }

  // ----- serials tell the truth -----

  /** The page of a VBAR at two moments of a run. */
  lemma {:induction false} PagesAge(env: Env, s: State, ops: seq<Op>, id: nat)
    requires Sound(s) && Alive(s, id) && NeverFreed(ops, id)
    ensures var s' := Run(env, s, ops);
            Alive(s', id) && |BarOf(s', id).pages| == |BarOf(s, id).pages|
            && forall q :: 0 <= q < |BarOf(s, id).pages| ==> Aged(BarOf(s, id).pages[q], BarOf(s', id).pages[q])
    decreases |ops|
  {
    hide Sound, Next, Locate;
    if ops != [] {
      NextBar(env, s, ops[0], id);
      PagesAge(env, Next(env, s, ops[0]), ops[1..], id);
    }
  }

  /** If a page is resident at both ends of a run with the same serial, it was resident, with the same mapping,
      after every operation in between. */
  lemma SameSerialMeansNeverUnmapped(env: Env, s: State, ops: seq<Op>, more: seq<Op>, id: nat, q: nat)
    requires Sound(s) && Alive(s, id) && NeverFreed(ops + more, id) && q < |BarOf(s, id).pages|
    requires var s'' := Run(env, s, ops + more);
             Alive(s'', id) && q < |BarOf(s'', id).pages|
             && BarOf(s'', id).pages[q].handle != 0 && BarOf(s'', id).pages[q].serial == BarOf(s, id).pages[q].serial
    ensures var s' := Run(env, s, ops);
            Alive(s', id) && q < |BarOf(s', id).pages| && Intact(BarOf(s, id).pages[q], BarOf(s', id).pages[q])
            && BarOf(s', id).pages[q].handle != 0
  {
    hide Sound, Next, Locate, Run;
    RunConcat(env, s, ops, more);
    assert NeverFreed(ops, id) by {
      forall i | 0 <= i < |ops|
        ensures ops[i] != FreeVbar(id)
      {
        assert (ops + more)[i] == ops[i];
      }
    }
    assert NeverFreed(more, id) by {
      forall i | 0 <= i < |more|
        ensures more[i] != FreeVbar(id)
      {
        assert (ops + more)[|ops| + i] == more[i];
      }
    }
    PagesAge(env, s, ops, id);
    PagesAge(env, Run(env, s, ops), more, id);
  }

  lemma {:induction false} RunConcat(env: Env, s: State, ops: seq<Op>, more: seq<Op>)
    requires Sound(s)
    ensures Run(env, s, ops + more) == Run(env, Run(env, s, ops), more)
    decreases |ops|
  {
    hide Sound, Next;
    if ops == [] {
      assert ops + more == more;
    } else {
      assert (ops + more)[1..] == ops[1..] + more;
      RunConcat(env, Next(env, s, ops[0]), ops[1..], more);
    }
  }

  // ----- offload decisions stick -----

  /** Once a watermark is below `end`, it stays there until the VBAR is prioritized, and every fault up to or beyond
      `end` is refused: nothing is mapped for it. */
  lemma {:induction false} OffloadSticks(env: Env, s: State, ops: seq<Op>, id: nat, end: nat)
    requires Sound(s) && Alive(s, id) && NeverFreed(ops, id) && NeverPrioritized(ops, id)
    requires BarOf(s, id).watermark < end
    ensures var s' := Run(env, s, ops); Alive(s', id) && BarOf(s', id).watermark < end
    decreases |ops|
  {
    hide Sound, Next, Locate;
    if ops != [] {
      NextBar(env, s, ops[0], id);
      OffloadSticks(env, Next(env, s, ops[0]), ops[1..], id, end);
    }
  }

  /** After an out-of-memory fault, a later fault ending at or beyond the same page is refused and maps nothing. */
  lemma OomStaysOom(env: Env, s: State, ops: seq<Op>, id: nat, offset: nat, size: nat, offset': nat, size': nat)
    requires Sound(s) && Alive(s, id) && NeverFreed(ops, id) && NeverPrioritized(ops, id)
    requires AllWf(s.w.bars) && Fault(env, s.w, Locate(s.w.bars, id), offset, size).code.FaultOom?
    requires PagesUp(offset' + size') >= PagesUp(offset + size)
    ensures var s' := Run(env, Next(env, s, FaultVbar(id, offset, size)), ops);
            && Alive(s', id) && AllWf(s'.w.bars)
            && var f := Fault(env, s'.w, Locate(s'.w.bars, id), offset', size');
               f == Faulted(MakeRoom(env, s'.w, 0).w, [], FaultOom) && Eviction.AllShrunk(s'.w.bars, f.w.bars)
  {
    hide Sound, Locate, Fault, MakeRoom;
    var op := FaultVbar(id, offset, size);
    var end := PagesUp(offset + size);
    NextBar(env, s, op, id);
    var s1 := Next(env, s, op);
    FaultedBar(env, s, id, offset, size);
    OomLowersWatermark(env, s.w, Locate(s.w.bars, id), offset, size);
    OffloadSticks(env, s1, ops, id, end);
    var s' := Run(env, s1, ops);
    SoundReady(s');
    AboveWatermarkRefused(env, s'.w, Locate(s'.w.bars, id), offset', size');
  }

  lemma FaultedBar(env: Env, s: State, id: nat, offset: nat, size: nat)
    requires Sound(s) && Alive(s, id) && AllWf(s.w.bars)
    ensures var s' := Next(env, s, FaultVbar(id, offset, size));
            && s'.w == Fault(env, s.w, Locate(s.w.bars, id), offset, size).w
            && Alive(s', id) && BarOf(s', id) == s'.w.bars[Locate(s.w.bars, id)]
  {
    hide Sound, Fault, Locate;
    var k := Locate(s.w.bars, id);
    NextBar(env, s, FaultVbar(id, offset, size), id);
    FaultAlwaysKeeps(env, s.w, k, offset, size);
    var s' := Next(env, s, FaultVbar(id, offset, size));
    SoundReady(s');
    LocateIs(s'.w.bars, s'.nextId, k);
  }

  /** Prioritizing lifts every offload decision at once: the VBAR ends on top of the list with no page above its
      watermark. */
  lemma PrioritizeLiftsOffloading(env: Env, s: State, id: nat)
    requires Sound(s) && Alive(s, id)
    ensures var s' := Next(env, s, PrioritizeVbar(id));
            Alive(s', id) && Locate(s'.w.bars, id) == |s'.w.bars| - 1
            && BarOf(s', id) == BarOf(s, id).(watermark := |BarOf(s, id).pages|)
  {
    hide Sound, Locate;
    var s' := Next(env, s, PrioritizeVbar(id));
    SoundReady(s');
    LocateIs(s'.w.bars, s'.nextId, |s'.w.bars| - 1);
  }

  // ----- watermark limits -----

  ghost predicate LimitKept(ops: seq<Op>, id: nat) {
    forall i :: 0 <= i < |ops| ==> !ops[i].ResetLimits? && !(ops[i].LimitVbar? && ops[i].id == id)
  }

  lemma ProtectedStep(op: Op, ok: bool, b: Bar, b': Bar, q: nat)
    requires Evolves(op, ok, b, b') && q < |b.pages| && q < b.limit && q < b.watermark && b.pages[q].handle != 0
    requires !op.ResetLimits? && !(op.LimitVbar? && op.id == b.id)
    ensures Intact(b.pages[q], b'.pages[q]) && q < b'.limit && q < b'.watermark
  {
  }

  /** A watermark limit protects: a resident page below it is never evicted, pinned or not, until the limit changes or
      the VBAR is freed. */
  lemma {:induction false} LimitProtects(env: Env, s: State, ops: seq<Op>, id: nat, q: nat)
    requires Sound(s) && Alive(s, id) && NeverFreed(ops, id) && LimitKept(ops, id) && q < |BarOf(s, id).pages|
    requires q < BarOf(s, id).limit && q < BarOf(s, id).watermark && BarOf(s, id).pages[q].handle != 0
    ensures var s' := Run(env, s, ops);
            Alive(s', id) && q < |BarOf(s', id).pages| && Intact(BarOf(s, id).pages[q], BarOf(s', id).pages[q])
    decreases |ops|
  {
    hide Sound, Next, Locate, Evolves;
    if ops != [] {
      NextBar(env, s, ops[0], id);
      BarId(s, id);
      EvolvesId(ops[0], Ok(env, s, ops[0]), BarOf(s, id), BarOf(Next(env, s, ops[0]), id));
      ProtectedStep(ops[0], Ok(env, s, ops[0]), BarOf(s, id), BarOf(Next(env, s, ops[0]), id), q);
      LimitProtects(env, Next(env, s, ops[0]), ops[1..], id, q);
    }
  }

  // ----- pins -----

  /** The successful faults of page q not yet matched by an unpin, after one more operation. */
  function Outstanding(op: Op, ok: bool, id: nat, q: nat, c: int): int {
    match op
    case FaultVbar(i, offset, size) => if i == id && ok && InRange(q, offset, size) then c + 1 else c
    case UnpinVbar(i, offset, size) => if i == id && InRange(q, offset, size) then c - 1 else c
    case _ => c
  }

  ghost function OutstandingAfter(env: Env, s: State, ops: seq<Op>, id: nat, q: nat, c: int): int
    requires Sound(s)
    decreases |ops|
  {
    if ops == [] then c
    else OutstandingAfter(env, Next(env, s, ops[0]), ops[1..], id, q, Outstanding(ops[0], Ok(env, s, ops[0]), id, q, c))
  }

  /** Every unpin matches an earlier fault, fewer than 2^32 faults are ever outstanding, and `floor` is never
      undercut. */
  ghost predicate Matched(env: Env, s: State, ops: seq<Op>, id: nat, q: nat, c: int, floor: nat)
    requires Sound(s)
    decreases |ops|
  {
    ops == [] ||
    var c' := Outstanding(ops[0], Ok(env, s, ops[0]), id, q, c);
    floor <= c' < PIN_SPAN && Matched(env, Next(env, s, ops[0]), ops[1..], id, q, c', floor)
  }

  lemma PinsFollow(op: Op, ok: bool, b: Bar, b': Bar, q: nat)
    requires Evolves(op, ok, b, b') && q < |b.pages|
    requires 0 <= Outstanding(op, ok, b.id, q, b.pages[q].pins) < PIN_SPAN
    ensures q < |b'.pages| && b'.pages[q].pins == Outstanding(op, ok, b.id, q, b.pages[q].pins)
  {
  }

  /** Under matched use, a page's pin count is the number of its outstanding faults. */
  lemma {:induction false} PinsAreOutstandingFaults(env: Env, s: State, ops: seq<Op>, id: nat, q: nat)
    requires Sound(s) && Alive(s, id) && NeverFreed(ops, id) && q < |BarOf(s, id).pages|
    requires Matched(env, s, ops, id, q, BarOf(s, id).pages[q].pins, 0)
    ensures var s' := Run(env, s, ops);
            Alive(s', id) && q < |BarOf(s', id).pages|
            && BarOf(s', id).pages[q].pins == OutstandingAfter(env, s, ops, id, q, BarOf(s, id).pages[q].pins)
    decreases |ops|
  {
    hide Sound, Next, Locate, Evolves, Outstanding;
    if ops != [] {
      NextBar(env, s, ops[0], id);
      BarId(s, id);
      PinsFollow(ops[0], Ok(env, s, ops[0]), BarOf(s, id), BarOf(Next(env, s, ops[0]), id), q);
      PinsAreOutstandingFaults(env, Next(env, s, ops[0]), ops[1..], id, q);
    }
  }

  lemma BarId(s: State, id: nat)
    requires Alive(s, id)
    ensures BarOf(s, id).id == id
  {
  }

  lemma PinnedStep(op: Op, ok: bool, b: Bar, b': Bar, q: nat)
    requires Evolves(op, ok, b, b') && q < |b.pages| && b.pages[q].pins > 0
    requires 0 < Outstanding(op, ok, b.id, q, b.pages[q].pins) < PIN_SPAN
    ensures q < |b'.pages| && b'.pages[q].pins == Outstanding(op, ok, b.id, q, b.pages[q].pins)
    ensures Intact(b.pages[q], b'.pages[q])
  {
  }

  /** From a successful fault until its last matching unpin, nothing unmaps or remaps a page, whatever else runs. */
  lemma {:induction false} PinnedPagesStay(env: Env, s: State, ops: seq<Op>, id: nat, q: nat)
    requires Sound(s) && Alive(s, id) && NeverFreed(ops, id) && q < |BarOf(s, id).pages|
    requires BarOf(s, id).pages[q].pins > 0 && Matched(env, s, ops, id, q, BarOf(s, id).pages[q].pins, 1)
    ensures var s' := Run(env, s, ops);
            Alive(s', id) && q < |BarOf(s', id).pages| && Intact(BarOf(s, id).pages[q], BarOf(s', id).pages[q])
            && BarOf(s', id).pages[q].pins > 0
    decreases |ops|
  {
    hide Sound, Next, Locate, Evolves, Outstanding;
    if ops != [] {
      NextBar(env, s, ops[0], id);
      BarId(s, id);
      PinnedStep(ops[0], Ok(env, s, ops[0]), BarOf(s, id), BarOf(Next(env, s, ops[0]), id), q);
      PinnedPagesStay(env, Next(env, s, ops[0]), ops[1..], id, q);
    }
  }

  // ----- residency above the watermark -----

  ghost predicate NoStray(b: Bar) { forall q: nat :: !Stray(b, q) }

  /** Every fault of this VBAR leaves its pin counters room, and has too few pages or too high a limit to leave a page
      unaccounted, or else succeeds or is refused at entry. */
  ghost predicate CleanFaults(env: Env, s: State, ops: seq<Op>, id: nat)
    requires Sound(s)
    decreases |ops|
  {
    ops == [] ||
    (Alive(s, id) && CleanFault(env, s, ops[0], id) && CleanFaults(env, Next(env, s, ops[0]), ops[1..], id))
  }

  ghost predicate CleanFault(env: Env, s: State, op: Op, id: nat)
    requires Sound(s) && Alive(s, id)
  {
    SoundReady(s);
    op.FaultVbar? && op.id == id ==>
      var end := PagesUp(op.offset + op.size);
      || Entered(env, s.w).bars[Locate(s.w.bars, id)].watermark < end
      || (PinRoom(BarOf(s, id), op.offset, op.size)
          && (Ok(env, s, op) || !Strays.Exposed(BarOf(s, id).limit, op.offset / VBAR_PAGE, end)))
  }

  lemma CleanStep(env: Env, s: State, op: Op, id: nat)
    requires Sound(s) && Alive(s, id) && op != FreeVbar(id) && NoStray(BarOf(s, id)) && CleanFault(env, s, op, id)
    ensures Alive(Next(env, s, op), id) && NoStray(BarOf(Next(env, s, op), id))
  {
    hide Sound, Next, Locate, Fault, MakeRoom;
    NextBar(env, s, op, id);
    BarId(s, id);
    if op.FaultVbar? && op.id == id {
      SoundReady(s);
      FaultedBar(env, s, id, op.offset, op.size);
      var k := Locate(s.w.bars, id);
      var b' := BarOf(Next(env, s, op), id);
      forall q: nat | Stray(b', q)
        ensures Stray(BarOf(s, id), q)
      {
        if Entered(env, s.w).bars[k].watermark < PagesUp(op.offset + op.size) {
          Strays.RefusedLeavesNone(env, s.w, k, op.offset, op.size, q);
        } else if !Strays.Exposed(s.w.bars[k].limit, op.offset / VBAR_PAGE, PagesUp(op.offset + op.size)) {
          Strays.ShortRangesLeaveNone(env, s.w, k, op.offset, op.size, q);
        } else {
          var at, signature := Strays.FaultStrays(env, s.w, k, op.offset, op.size, q);
        }
      }
    }
  }

  /** Every resident page at or above its watermark stays accounted for by a pin over any run whose faults are clean. */
  lemma {:induction false} NoStraysOverRuns(env: Env, s: State, ops: seq<Op>, id: nat)
    requires Sound(s) && Alive(s, id) && NeverFreed(ops, id) && NoStray(BarOf(s, id)) && CleanFaults(env, s, ops, id)
    ensures var s' := Run(env, s, ops); Alive(s', id) && NoStray(BarOf(s', id))
    decreases |ops|
  {
    hide Sound, Next, Locate, CleanFault, NoStray;
    if ops != [] {
      CleanStep(env, s, ops[0], id);
      NoStraysOverRuns(env, Next(env, s, ops[0]), ops[1..], id);
    }
  }
}
