/** Runs that lead to the states where a promise of the fault path gives way. */
module Stage {
  import opened Plat
  import opened Residency
  import opened FaultFacts
  import opened Progress
  import opened System
  import opened Soundness
  import opened Runs

  /** The state a run reaches from a context just initialised. */
  ghost function Reached(env: Env, capacity: nat, own: int, ops: seq<Op>): (s: State)
    ensures Sound(s) && AllWf(s.w.bars)
  {
    InitialSound(capacity, own);
    SoundReady(Run(env, Initial(capacity, own), ops));
    Run(env, Initial(capacity, own), ops)
  }

  /** Everything is granted, addresses far apart, but for one lack of memory and one error. */
  function Rough(big: nat, oom: nat, bad: nat): Env {
    (n: nat) =>
      Answer(if n == oom then OutOfMemory else if n == bad then OtherError else Success, (n + 1) * big, POLL_TICKS)
  }

  lemma Spread(big: nat, i: nat, j: nat)
    requires i < j
    ensures (i + 1) * big + big <= (j + 1) * big
  {
    calc {
      (j + 1) * big;
      (i + 1) * big + (j - i) * big;
    >= { Monotone(1, j - i, big); }
      (i + 1) * big + big;
    }
  }

  lemma Monotone(a: nat, b: nat, c: nat)
    requires a <= b
    ensures a * c <= b * c
  {
  }

  lemma RoughIsGenerous(big: nat, oom: nat, bad: nat, lo: nat, hi: nat, d: Dev)
    requires big > 0 && !(lo <= oom < hi) && !(lo <= bad < hi)
    requires forall h :: h in d.gpu.live ==> h in Handed(Rough(big, oom, bad), 0, lo)
    ensures Generous(Rough(big, oom, bad), lo, hi, d.gpu.live)
  {
    var env := Rough(big, oom, bad);
    forall i: nat, j: nat | i < j
      ensures env(i).value < env(j).value
    {
      Spread(big, i, j);
    }
    forall n: nat
      ensures env(n).value != 0
    {
      Monotone(1, n + 1, big);
    }
  }

  // ----- single steps -----

  lemma RunStep(env: Env, s: State, op: Op, rest: seq<Op>)
    requires Sound(s)
    ensures Run(env, s, [op] + rest) == Run(env, Next(env, s, op), rest)
  {
    hide Sound, Next;
    assert ([op] + rest)[1..] == rest;
  }

  lemma VbarStep(env: Env, s: State, op: Op, k: nat)
    requires Sound(s) && OfVbar(op) && k < |s.w.bars| && Locate(s.w.bars, op.id) == k
    ensures AllWf(s.w.bars) && Next(env, s, op) == StepVbar(env, s, op, k)
  {
    hide Sound, StepVbar;
    SoundReady(s);
  }

  /** A fault of absent pages that fit the budget maps them all and pins them. */
  lemma CalmFault(env: Env, w: World, m: nat, lo: nat, n: nat, hi: nat)
    requires AllWf(w.bars) && m < |w.bars| && lo + n <= w.bars[m].watermark
    requires forall q :: lo <= q < lo + n ==> w.bars[m].pages[q].handle == 0
    requires var d := Poll(env, w.dev);
             && d.clock + 4 * n <= hi && Generous(env, d.clock, hi, d.gpu.live)
             && Deficit(d, 0) == 0 && Roomy(env, d, hi, n * VBAR_PAGE)
    ensures var f := Fault(env, w, m, lo * VBAR_PAGE, n * VBAR_PAGE);
            var d := Poll(env, w.dev);
            && f.code.FaultSuccess? && AllWf(f.w.bars) && m < |f.w.bars| && f.w.bars == w.bars[m := f.w.bars[m]]
            && f.w.dev == d.(clock := d.clock + 4 * n, usage := d.usage + n * VBAR_PAGE, gpu := f.w.dev.gpu)
            && Since(env, w.dev, f.w.dev)
            && var b, b' := w.bars[m], f.w.bars[m];
               && b' == b.(pages := b'.pages) && |b'.pages| == |b.pages|
               && forall q :: 0 <= q < |b.pages| ==>
                    if lo <= q < lo + n
                    then b'.pages[q].handle != 0 && b'.pages[q].pins == PinUp(b.pages[q].pins)
                    else b'.pages[q] == b.pages[q]
  {
    hide Generous, Roomy, FaultLoop, Since;
    var w1 := World(Poll(env, w.dev), w.bars);
    assert Entered(env, w) == w1;
    assert PagesUp(lo * VBAR_PAGE + n * VBAR_PAGE) == lo + n && lo * VBAR_PAGE / VBAR_PAGE == lo;
    FaultIs(env, w, m, lo * VBAR_PAGE, n * VBAR_PAGE);
    MissingAll(w.bars[m].pages, lo, lo + n);
    var w', signature' := RoomyLoop(env, w1, m, lo, lo + n, lo + n, [], hi);
    LoopEnds(env, w', m, lo + n, signature');
    SinceSame(env, w.dev, w1.dev);
    SinceTwice(env, w.dev, w1.dev, w'.dev);
    assert w'.bars[m := w'.bars[m].(pages := PinRange(w'.bars[m].pages, lo, lo + n))] ==
           w.bars[m := w'.bars[m].(pages := PinRange(w'.bars[m].pages, lo, lo + n))];
  }

  // ----- two VBARs -----

  /** A card with room for n + 1 pages and the headroom, whose size also spaces the addresses. */
  function Card(n: nat): nat { (n + 9) * VBAR_PAGE }

  /** The large VBAR: n pages, of which the first k are resident and pinned. */
  ghost predicate Large(b: Bar, n: nat, limit: nat, k: nat) {
    && b.id == 1 && b.watermark == |b.pages| == n && b.limit == limit
    && forall q :: 0 <= q < n ==>
         if q < k then b.pages[q].handle != 0 && b.pages[q].pins == 1 else b.pages[q] == Page(0, 0, 0)
  }

  /** A small VBAR below a large one, k + 1 pages mapped, room for the rest, and no poll due. */
  ghost predicate Staged(env: Env, s: State, n: nat, limit: nat, k: nat) {
    && Sound(s) && |s.w.bars| == 2 && k <= n
    && s.w.bars[0].id == 0 && s.w.bars[0].watermark == |s.w.bars[0].pages| == 1 && s.w.bars[0].limit == 0
    && s.w.bars[0].pages[0].handle != 0 && s.w.bars[0].pages[0].pins == 0
    && Large(s.w.bars[1], n, limit, k)
    && Settled(env, s.w.dev, n, k + 1) && s.w.dev.clock == 10 + 4 * k
  }

  /** A budget with `used` pages taken of the n + 1 it has, after a poll that found more than enough. */
  ghost predicate Settled(env: Env, d: Dev, n: nat, used: nat) {
    && d.capacity == Card(n) && d.usage == used * VBAR_PAGE && d.stamp == POLL_TICKS
    && d.deficitSync - d.lastCheck <= VRAM_HEADROOM - Card(n)
    && forall h :: h in d.gpu.live ==> h in Handed(env, 0, d.clock)
  }

  function Setup(n: nat, limit: nat): seq<Op> {
    [AllocateVbar(VBAR_PAGE), AllocateVbar(n * VBAR_PAGE), LimitVbar(1, limit * VBAR_PAGE)]
  }

  function Fill(k: nat): seq<Op> {
    [FaultVbar(0, 0, VBAR_PAGE), UnpinVbar(0, 0, VBAR_PAGE), FaultVbar(1, 0, k * VBAR_PAGE)]
  }

  /** The small VBAR alone. */
  function OneSetUp(n: nat): World {
    var big := Card(n);
    World(Dev(big, 0, 0, 0, 0, 2, Gpu({}, {}, {Space(2 * big, VBAR_PAGE)}, false)), [NewBar(0, 2 * big, 1)])
  }

  function AllocatedDev(n: nat): Dev {
    var big := Card(n);
    Dev(big, 0, 0, 0, 0, 4, Gpu({}, {}, {Space(2 * big, VBAR_PAGE), Space(4 * big, n * VBAR_PAGE)}, false))
  }

  /** What the setup leaves: two empty VBARs, the larger with its limit. */
  function SetUp(n: nat, limit: nat): World {
    var big := Card(n);
    World(AllocatedDev(n), [NewBar(0, 2 * big, 1), NewBar(1, 4 * big, n).(limit := limit)])
  }

  lemma FirstAllocated(n: nat, oom: nat, bad: nat)
    requires n > 0 && oom > 4 && bad > 4
    ensures var env := Rough(Card(n), oom, bad);
            var s := Initial(Card(n), 0);
            && Sound(s)
            && var s' := Next(env, s, AllocateVbar(VBAR_PAGE));
               && s'.nextId == 1
               && s'.w == OneSetUp(n)
  {
    hide Sound;
    InitialSound(Card(n), 0);
    AllocateNext(Rough(Card(n), oom, bad), Initial(Card(n), 0), VBAR_PAGE);
  }

  lemma AllocateNext(env: Env, s: State, size: nat)
    requires Sound(s)
    ensures Next(env, s, AllocateVbar(size)).w == Allocate(env, s.w, s.nextId, size)
    ensures var w := Allocate(env, s.w, s.nextId, size);
            Next(env, s, AllocateVbar(size)).nextId == s.nextId + (if |w.bars| > |s.w.bars| then 1 else 0)
  {
    hide Sound, Allocate;
    SoundReady(s);
  }

  lemma SetupReaches(n: nat, limit: nat, oom: nat, bad: nat)
    requires n > 0 && oom > 4 && bad > 4
    ensures var env := Rough(Card(n), oom, bad);
            Reached(env, Card(n), 0, Setup(n, limit)).w == SetUp(n, limit)
  {
    hide Sound, Run, Next, Initial, Allocate, StepVbar;
    var env, big := Rough(Card(n), oom, bad), Card(n);
    InitialSound(Card(n), 0);
    var s0 := Initial(Card(n), 0);
    FirstAllocated(n, oom, bad);
    var s1 := Next(env, s0, AllocateVbar(VBAR_PAGE));
    AllocateNext(env, s1, n * VBAR_PAGE);
    SecondAllocated(env, s1.w, n, oom, bad);
    var s2 := Next(env, s1, AllocateVbar(n * VBAR_PAGE));
    var op := LimitVbar(1, limit * VBAR_PAGE);
    VbarStep(env, s2, op, 1);
    LimitStep(env, s2, limit);
    var s3 := Next(env, s2, op);
    assert [op] + [] == [op];
    assert [AllocateVbar(n * VBAR_PAGE)] + [op] == [AllocateVbar(n * VBAR_PAGE), op];
    assert [AllocateVbar(VBAR_PAGE)] + [AllocateVbar(n * VBAR_PAGE), op] == Setup(n, limit);
    RunStep(env, s2, op, []);
    RunStep(env, s1, AllocateVbar(n * VBAR_PAGE), [op]);
    RunStep(env, s0, AllocateVbar(VBAR_PAGE), [AllocateVbar(n * VBAR_PAGE), op]);
    RunNone(env, s3);
  }

  lemma RunNone(env: Env, s: State)
    requires Sound(s)
    ensures Run(env, s, []) == s
  {
    hide Sound;
  }

  lemma SecondAllocated(env: Env, w: World, n: nat, oom: nat, bad: nat)
    requires n > 0 && oom > 4 && bad > 4 && env == Rough(Card(n), oom, bad)
    requires w == OneSetUp(n)
    ensures Allocate(env, w, 1, n * VBAR_PAGE) ==
            World(AllocatedDev(n), w.bars + [NewBar(1, 4 * Card(n), n)])
  {
    assert PagesFor(Card(n), n * VBAR_PAGE) == n;
    assert Space(4 * Card(n), n * VBAR_PAGE).Apart(Space(2 * Card(n), VBAR_PAGE));
    var r := Reserve(env, w.dev.(clock := 3), n * VBAR_PAGE);
    assert r.dev == AllocatedDev(n);
  }

  lemma LimitStep(env: Env, s: State, limit: nat)
    requires AllWf(s.w.bars) && |s.w.bars| == 2
    ensures StepVbar(env, s, LimitVbar(1, limit * VBAR_PAGE), 1).w.bars == [s.w.bars[0], s.w.bars[1].(limit := limit)]
    ensures StepVbar(env, s, LimitVbar(1, limit * VBAR_PAGE), 1).w.dev == s.w.dev
  {
  }

  // ----- filling them -----

  /** What a fault of the next n pages of VBAR m leaves of a settled budget. */
  lemma SettledFault(env: Env, w: World, m: nat, n: nat, oom: nat, bad: nat, room: nat, used: nat)
    requires env == Rough(Card(room), oom, bad) && AllWf(w.bars) && m < |w.bars| && n <= w.bars[m].watermark
    requires forall q :: 0 <= q < n ==> w.bars[m].pages[q].handle == 0
    requires Settled(env, Poll(env, w.dev), room, used) && used + n <= room + 1
    requires var c := w.dev.clock + 1 + 4 * n; oom >= c && bad >= c
    ensures var f := Fault(env, w, m, 0, n * VBAR_PAGE);
            && f.code.FaultSuccess? && |f.w.bars| == |w.bars| && f.w.bars == w.bars[m := f.w.bars[m]]
            && Settled(env, f.w.dev, room, used + n) && f.w.dev.clock == w.dev.clock + 1 + 4 * n
            && var b, b' := w.bars[m], f.w.bars[m];
               && b' == b.(pages := b'.pages) && |b'.pages| == |b.pages|
               && forall q :: 0 <= q < |b.pages| ==>
                    if q < n then b'.pages[q].handle != 0 && b'.pages[q].pins == PinUp(b.pages[q].pins)
                    else b'.pages[q] == b.pages[q]
  {
    hide Fault, Generous, Poll;
    var hi := w.dev.clock + 1 + 4 * n;
    var d := Poll(env, w.dev);
    PollClock(env, w.dev);
    RoughIsGenerous(Card(room), oom, bad, d.clock, hi, d);
    CalmFault(env, w, m, 0, n, hi);
    HandedKept(env, w.dev, d, Fault(env, w, m, 0, n * VBAR_PAGE).w.dev);
  }

  lemma PollClock(env: Env, d: Dev)
    ensures Poll(env, d).clock == d.clock + 1 && Poll(env, d).gpu == d.gpu
  {
  }

  lemma HandedKept(env: Env, d0: Dev, d: Dev, d': Dev)
    requires d.gpu == d0.gpu && d0.clock <= d.clock <= d'.clock && Since(env, d0, d')
    requires forall h :: h in d.gpu.live ==> h in Handed(env, 0, d.clock)
    ensures forall h :: h in d'.gpu.live ==> h in Handed(env, 0, d'.clock)
  {
  }

  lemma FillReaches(env: Env, s: State, n: nat, limit: nat, k: nat, oom: nat, bad: nat)
    requires Sound(s) && n > 0 && k <= n && s.w == SetUp(n, limit)
    requires env == Rough(Card(n), oom, bad) && oom >= 10 + 4 * k && bad >= 10 + 4 * k
    ensures Staged(env, Run(env, s, Fill(k)), n, limit, k)
  {
    hide Sound, Run, Next, Fault, StepVbar, Settled, Poll;
    var f1, u, f2 := FaultVbar(0, 0, VBAR_PAGE), UnpinVbar(0, 0, VBAR_PAGE), FaultVbar(1, 0, k * VBAR_PAGE);
    var s1 := Next(env, s, f1);
    var s2 := Next(env, s1, u);
    var s3 := Next(env, s2, f2);
    FirstPoll(env, n, limit, oom, bad);
    SettledFault(env, s.w, 0, 1, oom, bad, n, 0);
    FaultNext(env, s, 0, 0, VBAR_PAGE);
    UnpinNext(env, s1);
    SkippedPoll(env, s2.w.dev, n, 1, oom, bad);
    SettledFault(env, s2.w, 1, k, oom, bad, n, 1);
    FaultNext(env, s2, 1, 0, k * VBAR_PAGE);
    assert [f2] + [] == [f2] && [u] + [f2] == [u, f2] && [f1] + [u, f2] == Fill(k);
    RunStep(env, s, f1, [u, f2]);
    RunStep(env, s1, u, [f2]);
    RunStep(env, s2, f2, []);
    RunNone(env, s3);
  }

  lemma FaultNext(env: Env, s: State, k: nat, offset: nat, size: nat)
    requires Sound(s) && k < |s.w.bars| && Locate(s.w.bars, s.w.bars[k].id) == k
    ensures AllWf(s.w.bars)
    ensures Next(env, s, FaultVbar(s.w.bars[k].id, offset, size)).w == Fault(env, s.w, k, offset, size).w
  {
    hide Sound, Fault;
    VbarStep(env, s, FaultVbar(s.w.bars[k].id, offset, size), k);
  }

  lemma UnpinNext(env: Env, s: State)
    requires Sound(s) && |s.w.bars| > 0 && s.w.bars[0].id == 0
    requires s.w.bars[0].watermark == |s.w.bars[0].pages| == 1 && s.w.bars[0].pages[0].pins == 1
    ensures var w := Next(env, s, UnpinVbar(0, 0, VBAR_PAGE)).w;
            w == s.w.(bars := s.w.bars[0 := SetPage(s.w.bars[0], 0, s.w.bars[0].pages[0].(pins := 0))])
  {
    hide Sound;
    VbarStep(env, s, UnpinVbar(0, 0, VBAR_PAGE), 0);
    assert UnpinLoop(UnpinOne(s.w, 0, 0), 0, 1, 1) == UnpinOne(s.w, 0, 0);
  }

  lemma FirstPoll(env: Env, n: nat, limit: nat, oom: nat, bad: nat)
    requires env == Rough(Card(n), oom, bad) && oom > 4 && bad > 4
    ensures Settled(env, Poll(env, SetUp(n, limit).dev), n, 0)
  {
  }

  lemma SkippedPoll(env: Env, d: Dev, n: nat, used: nat, oom: nat, bad: nat)
    requires env == Rough(Card(n), oom, bad) && Settled(env, d, n, used)
    ensures Poll(env, d) == d.(clock := d.clock + 1) && Settled(env, Poll(env, d), n, used)
  {
  }

  function Staging(n: nat, limit: nat, k: nat): seq<Op> { Setup(n, limit) + Fill(k) }

  lemma StagingReaches(n: nat, limit: nat, k: nat, oom: nat, bad: nat)
    requires n > 0 && k <= n && oom >= 10 + 4 * k && bad >= 10 + 4 * k
    ensures var env := Rough(Card(n), oom, bad);
            Staged(env, Reached(env, Card(n), 0, Staging(n, limit, k)), n, limit, k)
  {
    hide Sound, Run, Next, Initial;
    var env := Rough(Card(n), oom, bad);
    InitialSound(Card(n), 0);
    SetupReaches(n, limit, oom, bad);
    FillReaches(env, Reached(env, Card(n), 0, Setup(n, limit)), n, limit, k, oom, bad);
    RunConcat(env, Initial(Card(n), 0), Setup(n, limit), Fill(k));
  }
}
