/** Where three promises of the fault path stop: for each the exact condition, and a run that shows it is needed. */
module Thresholds {
  import opened Chains
  import opened Plat
  import opened Residency
  import opened Eviction
  import opened FaultFacts
  import opened Strays
  import opened Progress
  import SizeTable
  import opened System
  import opened Evolution
  import opened Soundness
  import opened Runs
  import opened Stage

  // ----- the budget -----

  /** The first absent page of a range. */
  ghost predicate FirstMissing(b: Bar, lo: int, hi: int, absent: nat) {
    && lo <= absent < hi && absent < |b.pages| && b.pages[absent].handle == 0
    && forall q :: lo <= q < absent && 0 <= q ==> b.pages[q].handle != 0
  }

  /** In no reachable state does a fault of a VBAR with this limit, with this first absent page in its range, end above
      both the usage it started from and the budget. */
  ghost predicate NeverOvershoots(limit: nat, absent: nat) {
    forall env: Env, capacity: nat, own: int, ops: seq<Op>, k: nat, offset: nat, size: nat ::
      StaysWithin(env, Reached(env, capacity, own, ops).w, k, offset, size, limit, absent)
  }

  ghost predicate StaysWithin(env: Env, w: World, k: nat, offset: nat, size: nat, limit: nat, absent: nat)
    requires AllWf(w.bars)
  {
    k < |w.bars| && w.bars[k].limit == limit
    && FirstMissing(w.bars[k], offset / VBAR_PAGE, PagesUp(offset + size), absent) ==>
      Fault(env, w, k, offset, size).w.dev.usage <= Max(w.dev.usage, Target(w.dev))
  }

  /** A VBAR as large as the card, protected whole, and an allocation as large as the card. */
  function Guarding(limit: nat): seq<Op> {
    [AllocateVbar(limit * VBAR_PAGE), LimitVbar(0, limit * VBAR_PAGE), CudaMallocAsync(limit * VBAR_PAGE)]
  }

  /** What that leaves: no page may be evicted, and the card is full. */
  ghost predicate Guarded(env: Env, w: World, limit: nat) {
    && AllWf(w.bars) && |w.bars| == 1
    && w.bars[0] == Bar(0, w.bars[0].base, limit, limit, seq(limit, i => Page(0, 0, 0)))
    && w.dev.capacity == w.dev.usage == limit * VBAR_PAGE
    && Generous(env, w.dev.clock, w.dev.clock + 5, w.dev.gpu.live)
  }

  lemma GuardingReaches(limit: nat)
    requires limit > 0
    ensures var env := Rough(limit * VBAR_PAGE, 1000, 1000);
            Guarded(env, Reached(env, limit * VBAR_PAGE, 0, Guarding(limit)).w, limit)
  {
    hide Sound, Run, Next, Initial, Allocate, SizeTable.Malloc, StepVbar, Generous;
    var big := limit * VBAR_PAGE;
    var env := Rough(big, 1000, 1000);
    var a, l, c := AllocateVbar(big), LimitVbar(0, big), CudaMallocAsync(big);
    InitialSound(big, 0);
    var s0 := Initial(big, 0);
    var s1 := Next(env, s0, a);
    var s2 := Next(env, s1, l);
    var s3 := Next(env, s2, c);
    AllocateNext(env, s0, big);
    OneAllocated(env, limit);
    VbarStep(env, s1, l, 0);
    OneLimited(env, s1, limit);
    MallocNext(env, s2, big);
    CardFilled(env, SizeTable.Ledger(s2.w, s2.allocs, s2.lost), limit);
    RoughIsGenerous(big, 1000, 1000, 5, 10, s3.w.dev);
    assert [c] + [] == [c] && [l] + [c] == [l, c] && [a] + [l, c] == Guarding(limit);
    RunStep(env, s0, a, [l, c]);
    RunStep(env, s1, l, [c]);
    RunStep(env, s2, c, []);
    RunNone(env, s3);
  }

  lemma OneAllocated(env: Env, limit: nat)
    requires limit > 0 && env == Rough(limit * VBAR_PAGE, 1000, 1000)
    ensures var big := limit * VBAR_PAGE;
            var s := Initial(big, 0);
            Allocate(env, s.w, s.nextId, big) ==
            World(Dev(big, 0, 0, 0, 0, 2, Gpu({}, {}, {Space(2 * big, big)}, false)), [NewBar(0, 2 * big, limit)])
  {
    assert PagesFor(limit * VBAR_PAGE, limit * VBAR_PAGE) == limit;
  }

  lemma OneLimited(env: Env, s: State, limit: nat)
    requires AllWf(s.w.bars) && |s.w.bars| == 1
    ensures StepVbar(env, s, LimitVbar(0, limit * VBAR_PAGE), 0).w ==
            World(s.w.dev, [s.w.bars[0].(limit := limit)])
  {
  }

  lemma MallocNext(env: Env, s: State, size: nat)
    requires Sound(s)
    ensures AllWf(s.w.bars)
    ensures Next(env, s, CudaMallocAsync(size)).w ==
            SizeTable.Malloc(env, SizeTable.Ledger(s.w, s.allocs, s.lost), size, 0).l.w
  {
    hide Sound, SizeTable.Malloc;
    SoundReady(s);
  }

  lemma NothingToDrain(w: World, size: nat)
    requires AllWf(w.bars) && |w.bars| == 1 && w.bars[0].watermark <= w.bars[0].limit
    ensures FreePages(w, size).w == w
  {
    assert Drain(w.bars, 1, PagesUp(size)) == Evicted(w.bars, []);
  }

  lemma CardFilled(env: Env, l: SizeTable.Ledger, limit: nat)
    requires limit > 0 && env == Rough(limit * VBAR_PAGE, 1000, 1000)
    requires AllWf(l.w.bars) && |l.w.bars| == 1 && l.w.bars[0].watermark <= l.w.bars[0].limit
    requires l.w.dev.clock == 2 && l.w.dev.usage == 0 && l.w.dev.capacity == limit * VBAR_PAGE
    ensures var w := SizeTable.Malloc(env, l, limit * VBAR_PAGE, 0).l.w;
            && w.bars == l.w.bars && w.dev.usage == w.dev.capacity == limit * VBAR_PAGE && w.dev.clock == 5
            && w.dev.gpu == l.w.dev.gpu
  {
    hide FreePages;
    var size := limit * VBAR_PAGE;
    var d := Poll(env, l.w.dev);
    NothingToDrain(World(d, l.w.bars), Deficit(d, size));
    assert MakeRoom(env, l.w, size).w == World(d, l.w.bars);
    WholePages(limit);
  }

  lemma WholePages(n: nat)
    requires n > 0
    ensures SizeTable.Accounted(n * VBAR_PAGE) == n * VBAR_PAGE
  {
    var k := 16 * n;
    assert n * VBAR_PAGE == k * CUDA_PAGE;
    assert (k * CUDA_PAGE + CUDA_PAGE - 1) / CUDA_PAGE == k;
  }

  /** On the full card, with nothing to evict, a page is mapped all the same. */
  lemma GuardedOvershoots(env: Env, w: World, limit: nat, absent: nat)
    requires Guarded(env, w, limit) && absent < limit
    ensures Fault(env, w, 0, absent * VBAR_PAGE, VBAR_PAGE).w.dev.usage == w.dev.usage + VBAR_PAGE
  {
    hide FreePages, Generous, Stooges, Since;
    var b := w.bars[0];
    var d := Poll(env, w.dev);
    NothingToDrain(World(d, w.bars), Deficit(d, 0));
    var w1 := World(d, w.bars);
    assert Entered(env, w) == w1;
    var end := absent + 1;
    assert PagesUp(absent * VBAR_PAGE + VBAR_PAGE) == end;
    FaultIs(env, w, 0, absent * VBAR_PAGE, VBAR_PAGE);
    assert PayFor(w.bars, 0, end) == Paid(w.bars, [], 0) by {
      assert NextAbsent(b, 0) == 0;
      assert Pay(w.bars, 0, 1, 0, end) == Paid(w.bars, [], 0);
    }
    var d' := Poll(env, d);
    assert DropAll(d', []) == d';
    SinceSame(env, w.dev, d');
    StillGenerous(env, w.dev, d', w.dev.clock + 5);
    StoogesSucceeds(env, d', b.base + absent * VBAR_PAGE, VBAR_PAGE, w.dev.clock + 5);
    var t := FaultPage(env, w1, 0, absent, end);
    assert t.outcome.Fresh?;
    LoopEnds(env, t.w, 0, end, [Sign(t.w, 0, absent)]);
  }

  lemma LimitStaysWithin(env: Env, w: World, k: nat, offset: nat, size: nat, limit: nat, absent: nat)
    requires AllWf(w.bars) && limit <= absent
    ensures StaysWithin(env, w, k, offset, size, limit, absent)
  {
    hide Fault;
    if k < |w.bars| && w.bars[k].limit == limit
       && FirstMissing(w.bars[k], offset / VBAR_PAGE, PagesUp(offset + size), absent) {
      FaultWithinBudget(env, w, k, offset, size);
    }
  }

  lemma BudgetFails(limit: nat, absent: nat)
    requires absent < limit
    ensures !NeverOvershoots(limit, absent)
  {
    hide Sound, Fault, Reached;
    var env, capacity := Rough(limit * VBAR_PAGE, 1000, 1000), limit * VBAR_PAGE;
    var w := Reached(env, capacity, 0, Guarding(limit)).w;
    GuardingReaches(limit);
    GuardedOvershoots(env, w, limit, absent);
    assert absent * VBAR_PAGE / VBAR_PAGE == absent && PagesUp(absent * VBAR_PAGE + VBAR_PAGE) == absent + 1;
    assert FirstMissing(w.bars[0], absent, absent + 1, absent);
    assert !StaysWithin(env, w, 0, absent * VBAR_PAGE, VBAR_PAGE, limit, absent);
  }

  /** The budget holds on every path of every fault if and only if the watermark limit is no higher than the first page
      the fault has to map. */
  lemma BudgetThreshold(limit: nat, absent: nat)
    ensures NeverOvershoots(limit, absent) <==> limit <= absent
  {
    hide Sound, Reached, StaysWithin;
    if limit <= absent {
      forall env: Env, capacity: nat, own: int, ops: seq<Op>, k: nat, offset: nat, size: nat
        ensures StaysWithin(env, Reached(env, capacity, own, ops).w, k, offset, size, limit, absent)
      {
        LimitStaysWithin(env, Reached(env, capacity, own, ops).w, k, offset, size, limit, absent);
      }
    } else {
      BudgetFails(limit, absent);
    }
  }

  // ----- priority -----

  /** In no reachable state does the mapping loop of a fault of a VBAR with this limit, and this first absent page
      once the entry eviction is done, change a VBAR above it. */
  ghost predicate NeverReachesHigher(limit: nat, absent: nat) {
    forall env: Env, capacity: nat, own: int, ops: seq<Op>, k: nat, offset: nat, size: nat, j: nat ::
      SparesHigher(env, Reached(env, capacity, own, ops).w, k, offset, size, j, limit, absent)
  }

  ghost predicate SparesHigher(env: Env, w: World, k: nat, offset: nat, size: nat, j: nat, limit: nat, absent: nat)
    requires AllWf(w.bars)
  {
    k < j < |w.bars| && w.bars[k].limit == limit && NextAbsent(Entered(env, w).bars[k], 0) == absent ==>
      j < |Fault(env, w, k, offset, size).w.bars|
      && Fault(env, w, k, offset, size).w.bars[j] == Entered(env, w).bars[j]
  }

  /** No page below the limit is absent, and none is above the watermark. */
  ghost predicate Full(b: Bar) {
    b.limit <= b.watermark <= |b.pages| && forall q :: 0 <= q < b.limit ==> b.pages[q].handle != 0
  }

  lemma FullMeans(b: Bar)
    requires Wf(b) && b.limit <= NextAbsent(b, 0)
    ensures Full(b)
  {
    NextAbsentStands(b, 0);
  }

  lemma {:induction false} FullFirst(b: Bar, cursor: nat)
    requires Full(b) && cursor <= b.watermark
    ensures b.limit <= NextAbsent(b, cursor)
    decreases b.watermark - cursor
  {
    if cursor < b.watermark && b.pages[cursor].handle != 0 {
      FullFirst(b, cursor + 1);
    }
  }

  lemma TurnSparesHigher(env: Env, w: World, m: nat, p: nat, end: nat)
    requires AllWf(w.bars) && m < |w.bars| && p < |w.bars[m].pages| && Full(w.bars[m])
    ensures var t := FaultPage(env, w, m, p, end);
            Full(t.w.bars[m]) && forall j :: m < j < |w.bars| ==> t.w.bars[j] == w.bars[j]
  {
    hide Stooges, Poll;
    PageTurn(env, w, m, p, end);
    FullFirst(w.bars[m], 0);
    forall j | m < j < |w.bars|
      ensures PayFor(w.bars, m, end).bars[j] == w.bars[j]
    {
      HigherVbarsNeverPay(w.bars, m, end, j);
    }
    TurnFull(env, w, m, p, end);
  }

  lemma TurnFull(env: Env, w: World, m: nat, p: nat, end: nat)
    requires AllWf(w.bars) && m < |w.bars| && p < |w.bars[m].pages| && Full(w.bars[m])
    ensures Full(FaultPage(env, w, m, p, end).w.bars[m])
  {
    hide FaultPage;
    var t := FaultPage(env, w, m, p, end);
    var b, b' := w.bars[m], t.w.bars[m];
    PageTurn(env, w, m, p, end);
    if t.outcome.Fresh? {
      var c := SetPage(b', p, b.pages[p]);
      forall q | 0 <= q < b.limit
        ensures b'.pages[q].handle != 0
      {
        assert q != p ==> c.pages[q] == b'.pages[q];
      }
    }
  }

  lemma {:induction false} LoopSparesHigher(env: Env, w: World, m: nat, p: nat, end: nat, signature: seq<nat>)
    requires AllWf(w.bars) && m < |w.bars| && end <= |w.bars[m].pages| && Full(w.bars[m])
    ensures forall j :: m < j < |w.bars| ==> FaultLoop(env, w, m, p, end, signature).w.bars[j] == w.bars[j]
    decreases end - p
  {
    hide FaultPage, Full;
    if p < end {
      var t := FaultPage(env, w, m, p, end);
      TurnSparesHigher(env, w, m, p, end);
      if t.outcome.Hit? || t.outcome.Fresh? {
        LoopSparesHigher(env, t.w, m, p + 1, end, signature + [Sign(t.w, m, p)]);
      }
    }
  }

  /** With its limit no higher than its first absent page, a fault changes no VBAR above its own once its entry
      eviction is done, on any return path. */
  lemma FaultSparesHigher(env: Env, w: World, m: nat, offset: nat, size: nat)
    requires AllWf(w.bars) && m < |w.bars| && w.bars[m].limit <= NextAbsent(Entered(env, w).bars[m], 0)
    ensures forall j :: m < j < |w.bars| ==> Fault(env, w, m, offset, size).w.bars[j] == Entered(env, w).bars[j]
  {
    hide MakeRoom, FaultLoop, NextAbsent;
    RoomMade(env, w, 0);
    var b := Entered(env, w).bars[m];
    assert Shrunk(w.bars[m], b);
    FullMeans(b);
    var first, end := offset / VBAR_PAGE, PagesUp(offset + size);
    if end <= b.watermark {
      LoopSparesHigher(env, Entered(env, w), m, first, end, []);
      FaultIs(env, w, m, offset, size);
    }
  }

  lemma {:induction false} FirstAbsentIs(b: Bar, from: nat, absent: nat)
    requires Wf(b) && from <= absent < b.watermark && b.pages[absent].handle == 0
    requires forall q :: from <= q < absent ==> b.pages[q].handle != 0
    ensures NextAbsent(b, from) == absent
    decreases absent - from
  {
    if from < absent {
      FirstAbsentIs(b, from + 1, absent);
    }
  }

  /** On a settled budget with room, a fault starts with no poll due and nothing to evict. */
  lemma QuietEntry(env: Env, w: World, n: nat, used: nat, oom: nat, bad: nat)
    requires AllWf(w.bars) && env == Rough(Card(n), oom, bad) && Settled(env, w.dev, n, used) && used <= n + 1
    ensures var d := w.dev.(clock := w.dev.clock + 1);
            && Entered(env, w) == World(d, w.bars)
            && Settled(env, d, n, used) && Poll(env, d) == d.(clock := d.clock + 1)
            && (used <= n ==> Deficit(d, VBAR_PAGE) == 0)
  {
    var d := w.dev.(clock := w.dev.clock + 1);
    SkippedPoll(env, w.dev, n, used, oom, bad);
    SkippedPoll(env, d, n, used, oom, bad);
  }

  /** A page whose first call finds no memory, although the budget has room: the VBARs pay, then it is tried again. */
  lemma OomTurn(env: Env, w: World, m: nat, p: nat, end: nat)
    requires AllWf(w.bars) && m < |w.bars| && p < |w.bars[m].pages| && w.bars[m].pages[p].handle == 0
    requires Poll(env, w.dev) == w.dev.(clock := w.dev.clock + 1) && Deficit(w.dev, VBAR_PAGE) == 0
    requires env(w.dev.clock + 1).result.OutOfMemory?
    ensures var w' := Charge(World(w.dev.(clock := w.dev.clock + 2), w.bars), m, end);
            var t := FaultPage(env, w, m, p, end);
            if p >= w'.bars[m].watermark then t == Turn(w', NoBudget)
            else
              var second := Stooges(env, w'.dev, w'.bars[m].base + p * VBAR_PAGE, VBAR_PAGE);
              if second.err.Success? then t == Turn(Install(World(second.dev, w'.bars), m, p, second.handle), Fresh)
              else t == Turn(World(second.dev, w'.bars), Broken)
  {
    hide Charge, MakeRoom;
    ChargeEffect(World(w.dev.(clock := w.dev.clock + 2), w.bars), m, end);
  }

  lemma PayFromAbove(bars: seq<Bar>, absent: nat)
    requires AllWf(bars) && |bars| == 2 && NextAbsent(bars[0], 0) == absent
    requires bars[0].watermark == absent + 1 <= bars[0].limit
    requires bars[1].watermark == 1 && bars[1].limit == 0 && Frees(bars[1].pages[0], true, false)
    ensures PayFor(bars, 0, absent + 1).bars[1].pages[0].handle == 0
  {
    hide NextAbsent;
    var bars' := bars[1 := Lower(bars[1])];
    var c := CursorAfter(bars, 0, 1, absent);
    assert Pay(bars, 0, 0, absent, absent + 1) == Pay(bars, 0, 1, absent, absent + 1);
    PayShrinks(bars', 0, 1, c, absent + 1);
    assert Shrunk(bars'[1], Pay(bars', 0, 1, c, absent + 1).bars[1]);
  }

  /** The large VBAR moved below the small one: its limit is above its first absent page, and the first call fails. */
  lemma NeighbourPays(env: Env, s: State, limit: nat, absent: nat)
    requires absent < limit && Staged(env, s, absent + 1, limit, absent)
    requires var c := s.w.dev.clock; env == Rough(Card(absent + 1), c + 2, c + 2)
    ensures AllWf(s.w.bars)
    ensures var w := s.w.(bars := [s.w.bars[1], s.w.bars[0]]);
            AllWf(w.bars) && NextAbsent(Entered(env, w).bars[0], 0) == absent
            && Fault(env, w, 0, absent * VBAR_PAGE, VBAR_PAGE).w.bars[1] != Entered(env, w).bars[1]
  {
    hide Sound, Generous, Settled, FreePages, Stooges;
    SoundReady(s);
    var n, end := absent + 1, absent + 1;
    var w := s.w.(bars := [s.w.bars[1], s.w.bars[0]]);
    var w1 := World(w.dev.(clock := w.dev.clock + 1), w.bars);
    QuietEntry(env, w, n, absent + 1, w.dev.clock + 2, w.dev.clock + 2);
    assert NextAbsent(w.bars[0], 0) == absent by {
      FirstAbsentIs(w.bars[0], 0, absent);
    }
    assert PagesUp(absent * VBAR_PAGE + VBAR_PAGE) == end && absent * VBAR_PAGE / VBAR_PAGE == absent;
    FaultIs(env, w, 0, absent * VBAR_PAGE, VBAR_PAGE);
    var e := PayFor(w.bars, 0, end);
    PayFromAbove(w.bars, absent);
    OomTurn(env, w1, 0, absent, end);
    var t := FaultPage(env, w1, 0, absent, end);
    assert t.w.bars[1] == e.bars[1];
    if t.outcome.Fresh? {
      LoopEnds(env, t.w, 0, end, [Sign(t.w, 0, absent)]);
    }
  }

  lemma DeprioritizeNext(env: Env, s: State)
    requires Sound(s) && |s.w.bars| == 2 && s.w.bars[0].id == 0 && s.w.bars[1].id == 1
    ensures Next(env, s, DeprioritizeVbar(1)).w == s.w.(bars := [s.w.bars[1], s.w.bars[0]])
  {
    hide Sound;
    VbarStep(env, s, DeprioritizeVbar(1), 1);
  }

  function Lowering(n: nat, limit: nat, k: nat): seq<Op> { Staging(n, limit, k) + [DeprioritizeVbar(1)] }

  lemma LoweringReaches(n: nat, limit: nat, k: nat, oom: nat, bad: nat)
    requires n > 0 && k <= n && oom >= 10 + 4 * k && bad >= 10 + 4 * k
    ensures var env := Rough(Card(n), oom, bad);
            var s := Reached(env, Card(n), 0, Staging(n, limit, k));
            && Staged(env, s, n, limit, k)
            && Reached(env, Card(n), 0, Lowering(n, limit, k)).w == s.w.(bars := [s.w.bars[1], s.w.bars[0]])
  {
    hide Sound, Run, Next, Initial, Settled;
    var env := Rough(Card(n), oom, bad);
    InitialSound(Card(n), 0);
    StagingReaches(n, limit, k, oom, bad);
    var s := Reached(env, Card(n), 0, Staging(n, limit, k));
    DeprioritizeNext(env, s);
    RunConcat(env, Initial(Card(n), 0), Staging(n, limit, k), [DeprioritizeVbar(1)]);
    assert [DeprioritizeVbar(1)] + [] == [DeprioritizeVbar(1)];
    RunStep(env, s, DeprioritizeVbar(1), []);
    RunNone(env, Next(env, s, DeprioritizeVbar(1)));
  }

  lemma StagedShape(env: Env, s: State, n: nat, limit: nat, k: nat)
    requires Staged(env, s, n, limit, k)
    ensures |s.w.bars| == 2 && s.w.bars[1].limit == limit && s.w.dev.clock == 10 + 4 * k
  {
  }

  lemma IsolationFails(limit: nat, absent: nat)
    requires absent < limit
    ensures !NeverReachesHigher(limit, absent)
  {
    hide Sound, Fault, Reached, NextAbsent, MakeRoom, Staged, Pages;
    var n, oom := absent + 1, 12 + 4 * absent;
    var env := Rough(Card(n), oom, oom);
    LoweringReaches(n, limit, absent, oom, oom);
    var s := Reached(env, Card(n), 0, Staging(n, limit, absent));
    var w := Reached(env, Card(n), 0, Lowering(n, limit, absent)).w;
    StagedShape(env, s, n, limit, absent);
    NeighbourPays(env, s, limit, absent);
    assert !SparesHigher(env, w, 0, absent * VBAR_PAGE, VBAR_PAGE, 1, limit, absent);
  }

  lemma LimitSparesHigher(env: Env, w: World, k: nat, offset: nat, size: nat, j: nat, limit: nat, absent: nat)
    requires AllWf(w.bars) && limit <= absent
    ensures SparesHigher(env, w, k, offset, size, j, limit, absent)
  {
    hide Fault, NextAbsent, MakeRoom;
    if k < j < |w.bars| && w.bars[k].limit == limit && NextAbsent(Entered(env, w).bars[k], 0) == absent {
      FaultAlwaysKeeps(env, w, k, offset, size);
      FaultSparesHigher(env, w, k, offset, size);
    }
  }

  lemma IsolationHolds(limit: nat, absent: nat)
    requires limit <= absent
    ensures NeverReachesHigher(limit, absent)
  {
    hide Sound, Reached, SparesHigher;
    forall env: Env, capacity: nat, own: int, ops: seq<Op>, k: nat, offset: nat, size: nat, j: nat
      ensures SparesHigher(env, Reached(env, capacity, own, ops).w, k, offset, size, j, limit, absent)
    {
      LimitSparesHigher(env, Reached(env, capacity, own, ops).w, k, offset, size, j, limit, absent);
    }
  }

  /** Higher-priority VBARs are safe from the mapping loop of a fault if and only if its VBAR's limit is no higher
      than its first absent page. */
  lemma IsolationThreshold(limit: nat, absent: nat)
    ensures NeverReachesHigher(limit, absent) <==> limit <= absent
  {
    hide NeverReachesHigher;
    if limit <= absent {
      IsolationHolds(limit, absent);
    } else {
      IsolationFails(limit, absent);
    }
  }
}
