/** No VBAR operation unbalances the books. */
module VbarBooks {
  import opened Chains
  import opened Plat
  import opened Residency
  import opened Eviction
  import opened Resources

  // ----- VBARs as owners -----

  function BarRegion(b: Bar): Region {
    Region(SpaceOf(b), multiset(AllHeld(b, |b.pages|)), Resident(b.pages) * VBAR_PAGE)
  }

  function BarRegions(bars: seq<Bar>): seq<Region> {
    seq(|bars|, k requires 0 <= k < |bars| => BarRegion(bars[k]))
  }

  /** The books of the whole context: these VBARs and the other owners. */
  ghost predicate Books(w: World, rest: seq<Region>, extra: int) {
    Balanced(w.dev, BarRegions(w.bars) + rest, extra)
  }

  /** A mapping a VBAR holds is that of one of its resident pages. */
  lemma {:induction false} HeldAt(b: Bar, n: nat, m: Mapping) returns (q: nat)
    requires n <= |b.pages| && m in AllHeld(b, n)
    ensures q < n && b.pages[q].handle != 0 && m == Held(b, q)
  {
    if n > 0 && m in AllHeld(b, n - 1) {
      q := HeldAt(b, n - 1, m);
    } else {
      q := n - 1;
    }
  }

  function One(b: Bar, p: nat): multiset<Mapping>
    requires p < |b.pages|
  {
    if b.pages[p].handle != 0 then multiset{Held(b, p)} else multiset{}
  }

  lemma Regroup<T>(all: multiset<T>, out: multiset<T>, into: multiset<T>, more: multiset<T>)
    requires out <= all
    ensures all - out + into + more == all + more - out + into && out <= all + more
  {
  }

  lemma SwapLast<T>(all: multiset<T>, out: multiset<T>, into: multiset<T>)
    ensures all + into == all + out - out + into && out <= all + out
  {
  }

  lemma AllHeldLast(b: Bar, n: nat)
    requires 0 < n <= |b.pages|
    ensures multiset(AllHeld(b, n)) == multiset(AllHeld(b, n - 1)) + One(b, n - 1)
  {
  }

  lemma SameOne(b: Bar, p: nat, pg: Page, q: nat)
    requires p < |b.pages| && q < |b.pages| && p != q
    ensures One(SetPage(b, p, pg), q) == One(b, q)
  {
  }

  /** What a VBAR holds after one of its pages changed. */
  lemma {:induction false} AllHeldUpdate(b: Bar, p: nat, pg: Page, n: nat)
    requires p < |b.pages| && p < n <= |b.pages|
    ensures var b' := SetPage(b, p, pg);
            multiset(AllHeld(b', n)) == multiset(AllHeld(b, n)) - One(b, p) + One(b', p)
    ensures One(b, p) <= multiset(AllHeld(b, n))
  {
    hide AllHeld, One;
    var b' := SetPage(b, p, pg);
    AllHeldLast(b, n);
    AllHeldLast(b', n);
    if p == n - 1 {
      HeldBelow(b, p, pg, p);
      SwapLast(multiset(AllHeld(b, n - 1)), One(b, p), One(b', p));
    } else {
      SameOne(b, p, pg, n - 1);
      AllHeldUpdate(b, p, pg, n - 1);
      Regroup(multiset(AllHeld(b, n - 1)), One(b, p), One(b', p), One(b, n - 1));
    }
  }

  lemma {:induction false} HeldBelow(b: Bar, p: nat, pg: Page, n: nat)
    requires n <= p < |b.pages|
    ensures AllHeld(SetPage(b, p, pg), n) == AllHeld(b, n)
  {
    if n > 0 {
      HeldBelow(b, p, pg, n - 1);
    }
  }

  lemma PageRegion(b: Bar, p: nat, pg: Page)
    requires p < |b.pages|
    ensures var b' := SetPage(b, p, pg);
            && One(b, p) <= BarRegion(b).held
            && BarRegion(b') == Region(SpaceOf(b), BarRegion(b).held - One(b, p) + One(b', p),
                 BarRegion(b).bytes - (if b.pages[p].handle != 0 then VBAR_PAGE else 0)
                                    + (if pg.handle != 0 then VBAR_PAGE else 0))
  {
    AllHeldUpdate(b, p, pg, |b.pages|);
    ResidentUpdate(b.pages, p, pg);
  }

  /** Only base and pages matter to the books. */
  lemma SameRegion(b: Bar, b': Bar)
    requires b'.base == b.base && |b'.pages| == |b.pages|
    requires forall q :: 0 <= q < |b.pages| ==> b'.pages[q].handle == b.pages[q].handle
    ensures BarRegion(b') == BarRegion(b)
  {
    SameResidents(b.pages, b'.pages);
    SameHeld(b, b', |b.pages|);
  }

  lemma {:induction false} SameHeld(b: Bar, b': Bar, n: nat)
    requires b'.base == b.base && n <= |b'.pages| == |b.pages|
    requires forall q :: 0 <= q < |b.pages| ==> b'.pages[q].handle == b.pages[q].handle
    ensures AllHeld(b', n) == AllHeld(b, n)
  {
    if n > 0 {
      SameHeld(b, b', n - 1);
    }
  }

  lemma RegionsUpdate(bars: seq<Bar>, k: nat, b: Bar, rest: seq<Region>)
    requires k < |bars|
    ensures BarRegions(bars[k := b]) + rest == (BarRegions(bars) + rest)[k := BarRegion(b)]
    ensures (BarRegions(bars) + rest)[k] == BarRegion(bars[k]) && |BarRegions(bars)| == |bars|
  {
  }

  lemma SameBooks(w: World, w': World, rest: seq<Region>, extra: int)
    requires Books(w, rest, extra)
    requires w'.dev.usage == w.dev.usage && w'.dev.gpu == w.dev.gpu && BarRegions(w'.bars) == BarRegions(w.bars)
    ensures Books(w', rest, extra)
  {
  }

  /** Evicting one resident page. */
  lemma PageDropBooks(w: World, k: nat, p: nat, pg: Page, rest: seq<Region>, extra: int)
    requires Books(w, rest, extra) && k < |w.bars| && p < |w.bars[k].pages|
    requires w.bars[k].pages[p].handle != 0 && pg.handle == 0
    ensures Books(World(DropOne(w.dev, Held(w.bars[k], p)), w.bars[k := SetPage(w.bars[k], p, pg)]), rest, extra)
  {
    hide BarRegion, Balanced, DropOne;
    var b := w.bars[k];
    var regs := BarRegions(w.bars) + rest;
    PageRegion(b, p, pg);
    PageHeld(b, p, pg);
    RegionsUpdate(w.bars, k, SetPage(b, p, pg), rest);
    DropBalanced(w.dev, regs, extra, k, Held(b, p), BarRegion(SetPage(b, p, pg)));
  }

  lemma PageHeld(b: Bar, p: nat, pg: Page)
    requires p < |b.pages| && b.pages[p].handle != 0 && pg.handle == 0
    ensures var r := BarRegion(b);
            && Held(b, p) in r.held
            && BarRegion(SetPage(b, p, pg)) == Region(r.space, r.held - multiset{Held(b, p)}, r.bytes - VBAR_PAGE)
  {
    PageRegion(b, p, pg);
  }

  // ----- eviction -----

  lemma DropAllConcat(d: Dev, a: seq<Mapping>, b: seq<Mapping>)
    ensures DropAll(d, a + b) == DropAll(DropAll(d, a), b)
    decreases |b|
  {
    if b == [] {
      assert a + b == a;
    } else {
      var n := |b| - 1;
      assert (a + b)[..|a + b| - 1] == a + b[..n];
      DropAllConcat(d, a, b[..n]);
    }
  }

  lemma DropNone(d: Dev)
    ensures DropAll(d, []) == d
  {
  }

  lemma TurnBooks(w: World, k: nat, rest: seq<Region>, extra: int)
    requires Books(w, rest, extra) && AllWf(w.bars) && k < |w.bars| && w.bars[k].watermark > 0
    ensures Books(Turned(w, k), rest, extra)
  {
    hide Balanced, BarRegion;
    var b := w.bars[k];
    var p := b.watermark - 1;
    var pg := Mod1(b.pages[p], true, false);
    var b' := SetPage(b, p, pg);
    if TopFrees(b) {
      PageDropBooks(w, k, p, pg, rest, extra);
      DropAllSnoc(w.dev, [], Held(b, p));
      var w' := World(DropOne(w.dev, Held(b, p)), w.bars[k := b']);
      SameRegion(b', Lower(b));
      RegionsUpdate(w.bars, k, b', rest);
      RegionsUpdate(w.bars, k, Lower(b), rest);
    } else {
      SameRegion(b, Lower(b));
      RegionsUpdate(w.bars, k, Lower(b), rest);
      assert (BarRegions(w.bars) + rest)[k := BarRegion(b)] == BarRegions(w.bars) + rest;
    }
  }

  lemma {:induction false} DrainBooks(w: World, k: nat, need: nat, rest: seq<Region>, extra: int)
    requires Books(w, rest, extra) && AllWf(w.bars)
    ensures var e := Drain(w.bars, k, need); Books(World(DropAll(w.dev, e.dropped), e.bars), rest, extra)
    decreases |w.bars| - k, if k < |w.bars| then w.bars[k].watermark else 0
  {
    hide Books, DropAll;
    if need == 0 || k >= |w.bars| {
      DropNone(w.dev);
    } else if w.bars[k].watermark > w.bars[k].limit {
      var out := TopDrop(w.bars[k]);
      TurnBooks(w, k, rest, extra);
      DrainBooks(Turned(w, k), k, need - |out|, rest, extra);
      DropAllConcat(w.dev, out, Drain(Turned(w, k).bars, k, need - |out|).dropped);
    } else {
      DrainBooks(w, k + 1, need, rest, extra);
    }
  }

  lemma {:induction false} PayBooks(w: World, m: nat, k: nat, cursor: nat, target: nat, rest: seq<Region>, extra: int)
    requires Books(w, rest, extra) && AllWf(w.bars) && m < |w.bars|
    ensures var e := Pay(w.bars, m, k, cursor, target); Books(World(DropAll(w.dev, e.dropped), e.bars), rest, extra)
    decreases |w.bars| - k, if k < |w.bars| then w.bars[k].watermark else 0
  {
    hide Books, CursorAfter, DropAll;
    if cursor >= target || cursor >= w.bars[m].watermark || k >= |w.bars| {
      DropNone(w.dev);
    } else if w.bars[k].watermark > w.bars[k].limit {
      var out := TopDrop(w.bars[k]);
      var c := CursorAfter(w.bars, m, k, cursor);
      TurnBooks(w, k, rest, extra);
      PayBooks(Turned(w, k), m, k, c, target, rest, extra);
      DropAllConcat(w.dev, out, Pay(Turned(w, k).bars, m, k, c, target).dropped);
    } else {
      PayBooks(w, m, k + 1, cursor, target, rest, extra);
    }
  }

  lemma FreePagesBooks(w: World, size: nat, rest: seq<Region>, extra: int)
    requires Books(w, rest, extra) && AllWf(w.bars)
    ensures Books(FreePages(w, size).w, rest, extra)
  {
    hide Books;
    DrainBooks(w, 0, PagesUp(size), rest, extra);
  }

  lemma MakeRoomBooks(env: Env, w: World, size: nat, rest: seq<Region>, extra: int)
    requires Books(w, rest, extra) && AllWf(w.bars)
    ensures Books(MakeRoom(env, w, size).w, rest, extra)
  {
    var d := Poll(env, w.dev);
    SameBooks(w, World(d, w.bars), rest, extra);
    FreePagesBooks(World(d, w.bars), Deficit(d, size), rest, extra);
  }

  // ----- faults -----

  lemma AbsentPageHasRoom(b: Bar, p: nat)
    requires p < |b.pages| && b.pages[p].handle == 0
    ensures Room(BarRegion(b), b.base + p * VBAR_PAGE, VBAR_PAGE)
  {
    hide AllHeld, Resident;
    forall o | o in BarRegion(b).held
      ensures !o.Meets(b.base + p * VBAR_PAGE, b.base + p * VBAR_PAGE + VBAR_PAGE)
    {
      assert o in AllHeld(b, |b.pages|);
      var q := HeldAt(b, |b.pages|, o);
    }
  }

  /** Mapping an absent page. */
  lemma InstallBooks(env: Env, w: World, m: nat, p: nat, rest: seq<Region>, extra: int)
    requires Books(w, rest, extra) && m < |w.bars| && p < |w.bars[m].pages| && w.bars[m].pages[p].handle == 0
    ensures var t := Stooges(env, w.dev, w.bars[m].base + p * VBAR_PAGE, VBAR_PAGE);
            var w' := World(t.dev, w.bars);
            Books(if t.err.Success? then Install(w', m, p, t.handle) else w', rest, extra)
  {
    hide Balanced, Stooges, BarRegion;
    var b := w.bars[m];
    var regs := BarRegions(w.bars) + rest;
    RegionsUpdate(w.bars, m, b, rest);
    AbsentPageHasRoom(b, p);
    StoogesBalanced(env, w.dev, regs, extra, m, b.base + p * VBAR_PAGE, VBAR_PAGE);
    var t := Stooges(env, w.dev, b.base + p * VBAR_PAGE, VBAR_PAGE);
    if t.err.Success? {
      var pg := Page(t.handle, b.pages[p].pins, b.pages[p].serial + 1);
      PageTaken(b, p, pg);
      RegionsUpdate(w.bars, m, SetPage(b, p, pg), rest);
    }
  }

  lemma PageTaken(b: Bar, p: nat, pg: Page)
    requires p < |b.pages| && b.pages[p].handle == 0 && pg.handle != 0
    ensures var r := BarRegion(b);
            BarRegion(SetPage(b, p, pg)) ==
            var m := Mapping(b.base + p * VBAR_PAGE, VBAR_PAGE, pg.handle);
            Region(r.space, r.held + multiset{m}, r.bytes + VBAR_PAGE)
  {
    hide AllHeld, Resident;
    PageRegion(b, p, pg);
    assert BarRegion(b).held - multiset{} == BarRegion(b).held;
  }

  lemma ChargeBooks(w: World, m: nat, end: nat, rest: seq<Region>, extra: int)
    requires Books(w, rest, extra) && AllWf(w.bars) && m < |w.bars|
    ensures Books(Charge(w, m, end), rest, extra) && |Charge(w, m, end).bars| == |w.bars|
  {
    hide Books, Pay;
    PayBooks(w, m, 0, NextAbsent(w.bars[m], 0), end, rest, extra);
  }

  lemma FaultPageBooks(env: Env, w: World, m: nat, p: nat, end: nat, rest: seq<Region>, extra: int)
    requires Books(w, rest, extra) && AllWf(w.bars) && m < |w.bars| && p < |w.bars[m].pages|
    ensures Books(FaultPage(env, w, m, p, end).w, rest, extra)
  {
    hide Stooges, Install, Charge, Balanced, BarRegions;
    if w.bars[m].pages[p].handle == 0 {
      var d := Poll(env, w.dev);
      var va := w.bars[m].base + p * VBAR_PAGE;
      var w1 := World(d, w.bars);
      SameBooks(w, w1, rest, extra);
      InstallBooks(env, w1, m, p, rest, extra);
      var first := if Deficit(d, VBAR_PAGE) > 0 then Made(d, OutOfMemory, 0) else Stooges(env, d, va, VBAR_PAGE);
      if first.err.OutOfMemory? {
        var w2 := World(first.dev, w.bars);
        ChargeBooks(w2, m, end, rest, extra);
        ChargeLoses(w2, m, end);
        InstallBooks(env, Charge(w2, m, end), m, p, rest, extra);
      }
    }
  }

  lemma ChargeLoses(w: World, m: nat, end: nat)
    requires AllWf(w.bars) && m < |w.bars|
    ensures Charge(w, m, end).bars == PayFor(w.bars, m, end).bars && AllShrunk(w.bars, Charge(w, m, end).bars)
  {
    PayShrinks(w.bars, m, 0, NextAbsent(w.bars[m], 0), end);
  }

  lemma {:induction false} FaultLoopBooks(env: Env, w: World, m: nat, p: nat, end: nat, sig: seq<nat>,
                                          rest: seq<Region>, extra: int)
    requires Books(w, rest, extra) && AllWf(w.bars) && m < |w.bars| && end <= |w.bars[m].pages|
    ensures Books(FaultLoop(env, w, m, p, end, sig).w, rest, extra)
    decreases end - p
  {
    hide Books, FaultPage;
    if p < end {
      FaultPageBooks(env, w, m, p, end, rest, extra);
      var t := FaultPage(env, w, m, p, end);
      if t.outcome.Hit? || t.outcome.Fresh? {
        FaultLoopBooks(env, t.w, m, p + 1, end, sig + [Sign(t.w, m, p)], rest, extra);
      }
    }
  }

  /** VBAR m changed in nothing the books record. */
  lemma TouchBooks(w: World, m: nat, b: Bar, rest: seq<Region>, extra: int)
    requires Books(w, rest, extra) && m < |w.bars| && b.base == w.bars[m].base && |b.pages| == |w.bars[m].pages|
    requires forall q :: 0 <= q < |b.pages| ==> b.pages[q].handle == w.bars[m].pages[q].handle
    ensures Books(w.(bars := w.bars[m := b]), rest, extra)
  {
    hide Balanced;
    SameRegion(w.bars[m], b);
    RegionsUpdate(w.bars, m, b, rest);
    assert (BarRegions(w.bars) + rest)[m := BarRegion(b)] == BarRegions(w.bars) + rest;
  }

  lemma FaultBooks(env: Env, w: World, m: nat, offset: nat, size: nat, rest: seq<Region>, extra: int)
    requires Books(w, rest, extra) && AllWf(w.bars) && m < |w.bars|
    ensures Books(Fault(env, w, m, offset, size).w, rest, extra)
  {
    hide Books, FaultLoop, MakeRoom;
    MakeRoomBooks(env, w, 0, rest, extra);
    var w' := MakeRoom(env, w, 0).w;
    var start, end := offset / VBAR_PAGE, PagesUp(offset + size);
    if end <= w'.bars[m].watermark {
      FaultLoopBooks(env, w', m, start, end, [], rest, extra);
      var f := FaultLoop(env, w', m, start, end, []);
      TouchBooks(f.w, m, f.w.bars[m].(pages := PinRange(f.w.bars[m].pages, start, end)), rest, extra);
    }
  }

  // ----- the other operations -----

  lemma {:induction false} UnpinBooks(w: World, m: nat, p: nat, end: nat, rest: seq<Region>, extra: int)
    requires Books(w, rest, extra) && AllWf(w.bars) && m < |w.bars|
    ensures Books(UnpinLoop(w, m, p, end), rest, extra)
    decreases end - p
  {
    hide Books;
    if p < end && p < |w.bars[m].pages| {
      var b := w.bars[m];
      var pg := UnpinPage(b.pages[p], p >= b.watermark);
      if UnpinFrees(b.pages[p], p >= b.watermark) {
        PageDropBooks(w, m, p, pg, rest, extra);
      } else {
        TouchBooks(w, m, SetPage(b, p, pg), rest, extra);
      }
      UnpinBooks(UnpinOne(w, m, p), m, p + 1, end, rest, extra);
    }
  }

  /** The VBAR with its first n pages stripped, as the loop of `vbar_free` leaves it. */
  function Stripped(b: Bar, n: nat): Bar {
    b.(pages := seq(|b.pages|, i requires 0 <= i < |b.pages| =>
      if i < n then Mod1(b.pages[i], true, true) else b.pages[i]))
  }

  lemma {:induction false} StripBooks(w: World, m: nat, n: nat, rest: seq<Region>, extra: int)
    requires Books(w, rest, extra) && m < |w.bars| && n <= |w.bars[m].pages|
    ensures Books(World(DropAll(w.dev, AllHeld(w.bars[m], n)), w.bars[m := Stripped(w.bars[m], n)]), rest, extra)
  {
    hide Books;
    var b := w.bars[m];
    if n == 0 {
      assert Stripped(b, 0) == b && w.bars[m := b] == w.bars;
      assert World(DropAll(w.dev, AllHeld(b, 0)), w.bars[m := Stripped(b, 0)]) == w;
    } else {
      StripBooks(w, m, n - 1, rest, extra);
      var w' := World(DropAll(w.dev, AllHeld(b, n - 1)), w.bars[m := Stripped(b, n - 1)]);
      var pg := Mod1(b.pages[n - 1], true, true);
      assert SetPage(w'.bars[m], n - 1, pg) == Stripped(b, n);
      assert w'.bars[m := Stripped(b, n)] == w.bars[m := Stripped(b, n)];
      if b.pages[n - 1].handle != 0 {
        PageDropBooks(w', m, n - 1, pg, rest, extra);
        DropAllSnoc(w.dev, AllHeld(b, n - 1), Held(b, n - 1));
        assert Held(w'.bars[m], n - 1) == Held(b, n - 1);
      } else {
        assert AllHeld(b, n) == AllHeld(b, n - 1);
        TouchBooks(w', m, Stripped(b, n), rest, extra);
      }
    }
  }

  lemma StrippedIsEmpty(b: Bar)
    ensures BarRegion(Stripped(b, |b.pages|)) == Region(SpaceOf(b), multiset{}, 0)
  {
    var s := Stripped(b, |b.pages|);
    NothingHeld(s, |s.pages|);
    NothingResident(s.pages);
  }

  lemma {:induction false} NothingHeld(b: Bar, n: nat)
    requires n <= |b.pages| && forall q :: 0 <= q < |b.pages| ==> b.pages[q].handle == 0
    ensures AllHeld(b, n) == []
  {
    if n > 0 {
      NothingHeld(b, n - 1);
    }
  }

  lemma {:induction false} NothingResident(pages: seq<Page>)
    requires forall q :: 0 <= q < |pages| ==> pages[q].handle == 0
    ensures Resident(pages) == 0
  {
    if pages != [] {
      NothingResident(pages[..|pages| - 1]);
    }
  }

  lemma FreeBarBooks(w: World, m: nat, rest: seq<Region>, extra: int)
    requires Books(w, rest, extra) && m < |w.bars|
    ensures Books(FreeBar(w, m), rest, extra)
  {
    hide Balanced, BarRegion;
    var b := w.bars[m];
    var n := |b.pages|;
    StripBooks(w, m, n, rest, extra);
    StrippedIsEmpty(b);
    var d := DropAll(w.dev, AllHeld(b, n));
    var bars := w.bars[m := Stripped(b, n)];
    var regs := BarRegions(bars) + rest;
    RegionsUpdate(w.bars, m, Stripped(b, n), rest);
    FreeBalanced(d, regs, extra, m);
    assert regs[..m] + regs[m + 1..] == BarRegions(Without(w.bars, m)) + rest;
  }

  lemma EmptyBar(id: nat, base: nat, n: nat)
    ensures BarRegion(NewBar(id, base, n)) == Region(Space(base, n * VBAR_PAGE), multiset{}, 0)
  {
    var b := NewBar(id, base, n);
    StrippedIsEmpty(b);
    assert Stripped(b, n).pages == b.pages;
  }

  lemma AllocateBooks(env: Env, w: World, id: nat, size: nat, rest: seq<Region>, extra: int)
    requires Books(w, rest, extra)
    ensures Books(Allocate(env, w, id, size), rest, extra)
  {
    hide Balanced, Reserve, BarRegion;
    var d := w.dev.(clock := w.dev.clock + 1);
    var w1 := w.(dev := d);
    SameBooks(w, w1, rest, extra);
    if env(w.dev.clock).result.Success? {
      var n := PagesFor(d.capacity, size);
      var r := Reserve(env, d, n * VBAR_PAGE);
      var regs := BarRegions(w.bars);
      ReserveBalanced(env, d, regs + rest, extra, n * VBAR_PAGE);
      if r.err.Success? {
        var b := NewBar(id, r.handle, n);
        EmptyBar(id, r.handle, n);
        MoveBalanced(r.dev, regs, BarRegion(b), rest, [], extra);
        assert BarRegions(w.bars + [b]) == regs + [BarRegion(b)];
        assert regs + [BarRegion(b)] + rest + [] == regs + [BarRegion(b)] + rest;
        assert regs + rest + [BarRegion(b)] + [] == regs + rest + [BarRegion(b)];
      } else {
        SameBooks(w1, w.(dev := r.dev), rest, extra);
      }
    }
  }

  lemma ReorderBooks(w: World, m: nat, b: Bar, rest: seq<Region>, extra: int)
    requires Books(w, rest, extra) && m < |w.bars| && b.base == w.bars[m].base && b.pages == w.bars[m].pages
    ensures Books(w.(bars := Without(w.bars, m) + [b]), rest, extra)
    ensures Books(w.(bars := [b] + Without(w.bars, m)), rest, extra)
  {
    hide Balanced, BarRegion;
    var r := BarRegion(w.bars[m]);
    SameRegion(w.bars[m], b);
    var lo, hi := BarRegions(w.bars[..m]), BarRegions(w.bars[m + 1..]);
    assert BarRegions(w.bars) == lo + [r] + hi;
    MoveBalanced(w.dev, lo, r, hi, rest, extra);
    assert BarRegions(Without(w.bars, m) + [b]) == lo + hi + [r];
    MoveBalanced(w.dev, [], r, lo, hi + rest, extra);
    assert BarRegions([b] + Without(w.bars, m)) == [r] + (lo + hi);
    assert [] + [r] + lo + (hi + rest) == [r] + (lo + hi) + rest;
    assert [] + lo + [r] + (hi + rest) == lo + [r] + hi + rest;
  }

  lemma FreeMemoryBooks(w: World, m: nat, size: nat, rest: seq<Region>, extra: int)
    requires Books(w, rest, extra) && AllWf(w.bars) && m < |w.bars|
    ensures Books(FreeMemory(w, m, size).w, rest, extra)
  {
    hide Balanced, BarRegion, Drain;
    var lo, hi := BarRegions(w.bars[..m]), BarRegions(w.bars[m + 1..]);
    var one := Only(w, m);
    var r := BarRegion(w.bars[m]);
    MoveBalanced(w.dev, [], r, lo, hi + rest, extra);
    assert BarRegions(w.bars) + rest == [] + lo + [r] + (hi + rest);
    assert BarRegions(one.bars) + (lo + hi + rest) == [] + [r] + lo + (hi + rest);
    DrainBooks(one, 0, PagesUp(size), lo + hi + rest, extra);
    var e := Drain(one.bars, 0, PagesUp(size));
    var d := DropAll(w.dev, e.dropped);
    var r' := BarRegion(e.bars[0]);
    assert BarRegions(e.bars) + (lo + hi + rest) == [] + [r'] + lo + (hi + rest);
    MoveBalanced(d, [], r', lo, hi + rest, extra);
    assert BarRegions(w.bars[m := e.bars[0]]) + rest == [] + lo + [r'] + (hi + rest);
  }
}
