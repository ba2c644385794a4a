/** The VBAR engine on the heap: page arrays, a doubly linked priority list, loops that update both in place. */
module ModelVbar {
  import opened Chains
  import opened Plat
  import opened Residency
  import opened Eviction

  class ModelVBAR {
    ghost const id: nat
    const vbar: nat
    const residencyMap: array<Page>
    var watermark: nat
    var watermarkLimit: nat
    var residentCount: int
    var higher: ModelVBAR?
    var lower: ModelVBAR?

    constructor (ghost id: nat, vbar: nat, nrPages: nat)
      ensures this.id == id && fresh(residencyMap)
      ensures View() == NewBar(id, vbar, nrPages) && residentCount == 0
    {
      this.id, this.vbar := id, vbar;
      residencyMap := new Page[nrPages](_ => Page(0, 0, 0));
      watermark, watermarkLimit, residentCount := nrPages, 0, 0;
      higher, lower := null, null;
      new;
      assert residencyMap[..] == seq(nrPages, i => Page(0, 0, 0));
    }

    ghost function View(): Bar
      reads this`watermark, this`watermarkLimit, residencyMap
    {
      Bar(id, vbar, watermark, watermarkLimit, residencyMap[..])
    }

    ghost predicate Marks(b: Bar)
      reads this`watermark, this`watermarkLimit
    {
      watermark == b.watermark && watermarkLimit == b.limit && Wf(b)
    }

    ghost predicate Shows(b: Bar)
      reads this`watermark, this`watermarkLimit, this`residentCount, residencyMap
    {
      View() == b && Wf(b) && residentCount == Resident(b.pages)
    }

    method Mod1(device: Device, p: nat, doFree: bool, doUnpin: bool, ghost b: Bar) returns (freed: bool)
      requires Shows(b) && p < |b.pages|
      modifies this`residentCount, residencyMap, device
      ensures freed == Frees(b.pages[p], doFree, doUnpin)
      ensures Shows(SetPage(b, p, Residency.Mod1(b.pages[p], doFree, doUnpin)))
      ensures device.View() == if freed then DropOne(old(device.View()), Held(b, p)) else old(device.View())
    {
      var rp := residencyMap[p];
      var vaddr := vbar + p * VBAR_PAGE;
      freed := doFree && rp.handle != 0 && (doUnpin || rp.pins == 0);
      if freed {
        device.MemUnmap(vaddr, VBAR_PAGE);
        device.MemRelease(rp.handle);
        device.usage := device.usage - VBAR_PAGE;
        residencyMap[p] := residencyMap[p].(handle := 0);
        residentCount := residentCount - 1;
      }
      if doUnpin {
        residencyMap[p] := residencyMap[p].(pins := 0);
      }
      ghost var pg := Residency.Mod1(rp, doFree, doUnpin);
      ResidentUpdate(b.pages, p, pg);
      assert residencyMap[..] == b.pages[p := pg];
    }
  
    method Install(p: nat, h: nat, ghost b: Bar)
      requires Shows(b) && p < |b.pages| && b.pages[p].handle == 0 && h != 0
      modifies this`residentCount, residencyMap
      ensures Shows(SetPage(b, p, Page(h, b.pages[p].pins, b.pages[p].serial + 1)))
    {
      residencyMap[p] := residencyMap[p].(handle := h);
      residencyMap[p] := residencyMap[p].(serial := residencyMap[p].serial + 1);
      residentCount := residentCount + 1;
      ghost var pg := Page(h, b.pages[p].pins, b.pages[p].serial + 1);
      ResidentUpdate(b.pages, p, pg);
      assert residencyMap[..] == b.pages[p := pg];
    }

    method Unpin(p: nat, ghost b: Bar)
      requires Shows(b) && p < |b.pages|
      modifies residencyMap
      ensures Shows(SetPage(b, p, UnpinPage(b.pages[p], false)))
    {
      if residencyMap[p].pins > 0 {
        residencyMap[p] := residencyMap[p].(pins := residencyMap[p].pins - 1);
      }
      assert residencyMap[..] == SetPage(b, p, UnpinPage(b.pages[p], false)).pages;
      SameResidents(b.pages, residencyMap[..]);
    }

    method Pin(lo: nat, hi: nat, ghost b: Bar)
      requires Shows(b) && hi <= |b.pages|
      modifies residencyMap
      ensures Shows(b.(pages := PinRange(b.pages, lo, hi)))
    {
      var p := lo;
      while p < hi
        invariant lo <= p && (p <= hi || p == lo)
        invariant residencyMap[..] == PinRange(b.pages, lo, p)
      {
        residencyMap[p] := residencyMap[p].(pins := PinUp(residencyMap[p].pins));
        p := p + 1;
      }
      assert residencyMap[..] == PinRange(b.pages, lo, hi);
      SameResidents(b.pages, residencyMap[..]);
    }
  }

  ghost predicate Within(chain: seq<ModelVBAR>, repr: set<object>) {
    forall i :: 0 <= i < |chain| ==> chain[i] in repr && chain[i].residencyMap in repr
  }

  ghost predicate Apart(chain: seq<ModelVBAR>) {
    forall i, j :: 0 <= i < j < |chain| ==> chain[i] != chain[j] && chain[i].residencyMap != chain[j].residencyMap
  }

  lemma Members(chain: seq<ModelVBAR>, repr: set<object>)
    requires Within(chain, repr)
    ensures forall x :: x in chain ==> x in repr
  {
  }

  lemma SameWithin(chain: seq<ModelVBAR>, other: seq<ModelVBAR>, repr: set<object>)
    requires Within(chain, repr) && forall i :: 0 <= i < |other| ==> other[i] in chain
    ensures Within(other, repr)
  {
  }

  /** Where the element now at k was before element m of n became the last. */
  ghost function FromFirst(m: nat, n: nat, k: nat): nat { if k < m then k else if k + 1 < n then k + 1 else m }

  ghost function FromLast(m: nat, k: nat): nat { if k == 0 then m else if k <= m then k - 1 else k }

  lemma MovedFirst<T>(c: seq<T>, b: seq<Bar>, m: nat)
    requires |c| == |b| + 2 && m < |b|
    ensures var d := Without(c, m + 1);
            var e := d[..|d| - 1] + [c[m + 1]] + d[|d| - 1..];
            && |d| == |c| - 1 && |e| == |c|
            && (forall i :: 0 <= i < |d| ==> d[i] in c) && (forall i :: 0 <= i < |e| ==> e[i] in c)
            && |Without(b, m)| == |b| - 1
            && forall k :: 0 <= k < |b| ==>
                 && FromFirst(m, |b|, k) < |b|
                 && (Without(b, m) + [b[m]])[k] == b[FromFirst(m, |b|, k)]
                 && e[k + 1] == c[FromFirst(m, |b|, k) + 1]
  {
  }

  lemma MovedLast<T>(c: seq<T>, b: seq<Bar>, m: nat)
    requires |c| == |b| + 2 && m < |b|
    ensures var d := Without(c, m + 1);
            var e := d[..1] + [c[m + 1]] + d[1..];
            && |d| == |c| - 1 && |e| == |c|
            && (forall i :: 0 <= i < |d| ==> d[i] in c) && (forall i :: 0 <= i < |e| ==> e[i] in c)
            && |Without(b, m)| == |b| - 1
            && forall k :: 0 <= k < |b| ==>
                 && FromLast(m, k) < |b|
                 && ([b[m]] + Without(b, m))[k] == b[FromLast(m, k)]
                 && e[k + 1] == c[FromLast(m, k) + 1]
  {
  }

  lemma ApartWithout(chain: seq<ModelVBAR>, k: nat)
    requires Apart(chain) && k < |chain|
    ensures Apart(Without(chain, k)) && Apart(Without(chain, k) + [chain[k]])
  {
  }

  lemma ApartInserted(chain: seq<ModelVBAR>, mv: ModelVBAR, k: nat)
    requires Apart(chain + [mv]) && k <= |chain|
    ensures Apart(chain[..k] + [mv] + chain[k..])
    ensures forall i :: 0 <= i < |chain| ==> chain[i] != mv
  {
    var all := chain + [mv];
    assert all[|chain|] == mv;
    forall i | 0 <= i < |chain|
      ensures chain[i] != mv && chain[i].residencyMap != mv.residencyMap
    {
      assert all[i] == chain[i];
    }
    assert Apart(chain) by {
      forall i, j | 0 <= i < j < |chain|
        ensures chain[i] != chain[j] && chain[i].residencyMap != chain[j].residencyMap
      {
        assert all[i] == chain[i] && all[j] == chain[j];
      }
    }
  }

  /** The signature buffer: `out` in the first slots, the others untouched. */
  ghost predicate Written(slots: seq<nat>, before: seq<nat>, out: seq<nat>) {
    |out| <= |before| == |slots| && slots == out + before[|out|..]
  }

  lemma NoSlots(slots: seq<nat>)
    ensures Written(slots, slots, [])
  {
  }

  lemma WriteSlot(slots: seq<nat>, before: seq<nat>, out: seq<nat>, x: nat)
    requires Written(slots, before, out) && |out| < |slots|
    ensures Written(slots[|out| := x], before, out + [x])
  {
  }

  class VbarList {
    const device: Device
    const highest: ModelVBAR
    const lowest: ModelVBAR

    /** Both sentinels and the VBARs between them, lowest priority first. */
    ghost var chain: seq<ModelVBAR>
    ghost var bars: seq<Bar>
    ghost var nextId: nat
    ghost var Repr: set<object>

    constructor (device: Device)
      ensures Valid() && this.device == device && fresh(Repr)
      ensures bars == [] && nextId == 0
    {
      this.device := device;
      highest := new ModelVBAR(0, 0, 0);
      lowest := new ModelVBAR(0, 0, 0);
      bars, nextId := [], 0;
      new;
      chain := [lowest, highest];
      Repr := {this, highest, lowest, highest.residencyMap, lowest.residencyMap};
      highest.lower := lowest;
      lowest.higher := highest;
    }

    ghost predicate Linked()
      reads this`chain, chain`higher, chain`lower
    {
      && |chain| >= 2 && Apart(chain)
      && chain[0] == lowest && chain[|chain| - 1] == highest
      && (forall i {:trigger chain[i].higher} :: 0 <= i < |chain| - 1 ==> chain[i].higher == chain[i + 1])
      && (forall i {:trigger chain[i].lower} :: 0 < i < |chain| ==> chain[i].lower == chain[i - 1])
    }

    ghost predicate Valid()
      reads this, Repr
    {
      && this in Repr && device !in Repr
      && Within(chain, Repr)
      && Linked() && |chain| == |bars| + 2
      && (forall k :: 0 <= k < |bars| ==> chain[k + 1].Shows(bars[k]))
    }

    ghost function World(): World
      reads this, device
    {
      Residency.World(device.View(), bars)
    }

    /** Everything but page contents, watermarks and the ledger is as before. */
    twostate predicate SameList()
      reads this
    {
      chain == old(chain) && Repr == old(Repr) && nextId == old(nextId)
    }

    method Mod1(mv: ModelVBAR, ghost k: nat, p: nat, doFree: bool, doUnpin: bool) returns (freed: bool)
      requires Valid() && k < |bars| && mv == chain[k + 1] && p < |bars[k].pages|
      modifies Repr, device
      ensures Valid() && SameList()
      ensures freed == Frees(old(bars[k].pages[p]), doFree, doUnpin)
      ensures bars == old(bars)[k := SetPage(old(bars[k]), p, Residency.Mod1(old(bars[k].pages[p]), doFree, doUnpin))]
      ensures device.View() == if freed then DropOne(old(device.View()), Held(old(bars[k]), p)) else old(device.View())
    {
      freed := mv.Mod1(device, p, doFree, doUnpin, bars[k]);
      bars := bars[k := SetPage(bars[k], p, Residency.Mod1(bars[k].pages[p], doFree, doUnpin))];
    }

    method LowerWatermark(mv: ModelVBAR, ghost k: nat)
      requires Valid() && k < |bars| && mv == chain[k + 1] && bars[k].watermark > 0
      modifies Repr
      ensures Valid() && SameList()
      ensures bars == old(bars)[k := old(bars[k]).(watermark := old(bars[k]).watermark - 1)]
    {
      mv.watermark := mv.watermark - 1;
      bars := bars[k := bars[k].(watermark := mv.watermark)];
    }

    /** One turn of an eviction loop that keeps no cursor. */
    method LowerTop(mv: ModelVBAR, ghost k: nat) returns (freed: bool)
      requires Valid() && k < |bars| && mv == chain[k + 1] && bars[k].watermark > 0
      modifies Repr, device
      ensures Valid() && SameList()
      ensures freed == (TopDrop(old(bars[k])) != [])
      ensures World() == Turned(old(World()), k) && mv.Marks(bars[k])
    {
      freed := Mod1(mv, k, mv.watermark - 1, true, false);
      LowerWatermark(mv, k);
      DropAllSnoc(old(device.View()), [], Held(old(bars[k]), old(bars[k]).watermark - 1));
    }

    /** What a walker standing at VBAR k may rely on. */
    lemma At(k: nat)
      requires Valid() && k <= |bars|
      ensures AllWf(bars) && |chain| == |bars| + 2 && lowest.higher == chain[1]
      ensures chain[k + 1] == highest <==> k == |bars|
      ensures k < |bars| ==> chain[k + 1].Marks(bars[k]) && chain[k + 1].higher == chain[k + 2]
      ensures this in Repr && device !in Repr && Apart(chain) && Within(chain, Repr)
      ensures k < |bars| ==> chain[k + 1] in Repr && chain[k + 1].residencyMap in Repr
    {
    }

    method MakeRoom(size: nat) returns (left: nat)
      requires Valid()
      modifies Repr, device
      ensures Valid() && SameList()
      ensures Freed(World(), left) == Residency.MakeRoom(device.env, old(World()), size)
    {
      var deficit := device.BudgetDeficit(size);
      left := VbarsFree(deficit);
    }

    lemma Showing(k: nat)
      requires Valid() && k < |bars|
      ensures chain[k + 1].Shows(bars[k])
    {
    }

    method SetMarks(mv: ModelVBAR, ghost k: nat, watermark: nat, limit: nat)
      requires Valid() && k < |bars| && mv == chain[k + 1] && watermark <= |bars[k].pages|
      modifies Repr
      ensures Valid() && SameList()
      ensures bars == old(bars)[k := old(bars[k]).(watermark := watermark, limit := limit)]
    {
      mv.watermark := watermark;
      mv.watermarkLimit := limit;
      bars := bars[k := bars[k].(watermark := watermark, limit := limit)];
    }

    method VbarsFree(size: nat) returns (left: nat)
      requires Valid()
      modifies Repr, device
      ensures Valid() && SameList()
      ensures Freed(World(), left) == FreePages(old(World()), size)
    {
      hide Valid, Drain;
      left := PagesUp(size);
      At(0);
      if size == 0 {
        return;
      }
      ghost var w0 := World();
      ghost var k, out := 0, [];
      DrainStart(w0, PagesUp(size));
      var i := lowest.higher;
      while left > 0 && i != highest
        invariant Valid() && SameList()
        invariant k <= |bars| == |w0.bars| && |chain| == |bars| + 2 && i == chain[k + 1]
        invariant Draining(w0, PagesUp(size), World(), k, left, out)
        decreases |bars| - k
      {
        At(k);
        while left > 0 && i.watermark > i.watermarkLimit
          invariant Valid() && SameList()
          invariant k < |bars| == |w0.bars| && |chain| == |bars| + 2 && i == chain[k + 1] && i.Marks(bars[k])
          invariant Draining(w0, PagesUp(size), World(), k, left, out)
          decreases i.watermark
        {
          DrainTurn(w0, PagesUp(size), World(), k, left, out);
          out := out + TopDrop(bars[k]);
          var freed := LowerTop(i, k);
          if freed {
            left := left - 1;
          }
        }
        At(k);
        DrainSkip(w0, PagesUp(size), World(), k, left, out);
        i := i.higher;
        k := k + 1;
      }
      At(k);
      DrainDone(w0, size, World(), k, left, out);
    }
  
    method MoveCursorToAbsent(mv: ModelVBAR, from: nat, ghost b: Bar) returns (cursor: nat)
      requires mv.Shows(b)
      ensures cursor == NextAbsent(b, from)
    {
      cursor := from;
      while cursor < mv.watermark && mv.residencyMap[cursor].handle != 0
        invariant NextAbsent(b, from) == NextAbsent(b, cursor)
      {
        cursor := cursor + 1;
      }
    }

    /** One turn of the paying loop: free, move the cursor, lower the watermark. `i` and `mv` may be the same. */
    method PayTop(mv: ModelVBAR, ghost m: nat, i: ModelVBAR, ghost k: nat, from: nat) returns (cursor: nat)
      requires Valid() && m < |bars| && mv == chain[m + 1] && k < |bars| && i == chain[k + 1] && bars[k].watermark > 0
      modifies Repr, device
      ensures Valid() && SameList()
      ensures World() == Turned(old(World()), k) && cursor == CursorAfter(old(bars), m, k, from)
      ensures |bars| == |old(bars)| && i.Marks(bars[k]) && mv.Marks(bars[m])
    {
      hide Valid;
      cursor := from;
      At(k);
      var freed := Mod1(i, k, i.watermark - 1, true, false);
      if freed {
        Showing(m);
        cursor := MoveCursorToAbsent(mv, cursor + 1, bars[m]);
      }
      LowerWatermark(i, k);
      At(k);
      At(m);
      DropAllSnoc(old(device.View()), [], Held(old(bars[k]), old(bars[k]).watermark - 1));
    }

    method VbarsFreeForVbar(mv: ModelVBAR, ghost m: nat, target: nat)
      requires Valid() && m < |bars| && mv == chain[m + 1]
      modifies Repr, device
      ensures Valid() && SameList()
      ensures World() == Charge(old(World()), m, target)
    {
      hide Valid, Pay, Paying, PayFor, Charge, CursorAfter;
      At(0);
      At(m);
      Showing(m);
      ghost var w0 := World();
      ghost var k, out := 0, [];
      var cursor: nat := MoveCursorToAbsent(mv, 0, bars[m]);
      PayStart(w0, m, target);
      var i := lowest.higher;
      while cursor < target && cursor < mv.watermark && i != highest
        invariant Valid() && SameList() && |bars| == |w0.bars| && mv.Marks(bars[m])
        invariant k <= |bars| && |chain| == |bars| + 2 && i == chain[k + 1]
        invariant Paying(w0, m, target, World(), k, cursor, out)
        decreases |bars| - k
      {
        At(k);
        while cursor < target && cursor < mv.watermark && i.watermark > i.watermarkLimit
          invariant Valid() && SameList() && |bars| == |w0.bars| && mv.Marks(bars[m])
          invariant k < |bars| && |chain| == |bars| + 2 && i == chain[k + 1] && i.Marks(bars[k])
          invariant Paying(w0, m, target, World(), k, cursor, out)
          decreases i.watermark
        {
          PayTurn(w0, m, target, World(), k, cursor, out);
          out := out + TopDrop(bars[k]);
          cursor := PayTop(mv, m, i, k, cursor);
        }
        PaySkip(w0, m, target, World(), k, cursor, out);
        At(k);
        i := i.higher;
        k := k + 1;
      }
      At(k);
      PayDone(w0, m, target, World(), k, cursor, out);
    }
  
    method Grant(mv: ModelVBAR, ghost m: nat, p: nat, h: nat)
      requires Valid() && m < |bars| && mv == chain[m + 1] && p < |bars[m].pages|
      requires bars[m].pages[p].handle == 0 && h != 0
      modifies Repr
      ensures Valid() && SameList()
      ensures World() == Residency.Install(old(World()), m, p, h)
    {
      mv.Install(p, h, bars[m]);
      bars := bars[m := SetPage(bars[m], p, Page(h, bars[m].pages[p].pins, bars[m].pages[p].serial + 1))];
    }

    method PinAll(mv: ModelVBAR, ghost m: nat, lo: nat, hi: nat)
      requires Valid() && m < |bars| && mv == chain[m + 1] && hi <= |bars[m].pages|
      modifies Repr
      ensures Valid() && SameList()
      ensures World() == Pinned(old(World()), m, lo, hi)
    {
      mv.Pin(lo, hi, bars[m]);
      bars := bars[m := bars[m].(pages := PinRange(bars[m].pages, lo, hi))];
    }

    method FaultPage(mv: ModelVBAR, ghost m: nat, p: nat, end: nat) returns (outcome: Outcome, serial: nat)
      requires Valid() && m < |bars| && mv == chain[m + 1] && p < |bars[m].pages|
      modifies Repr, device
      ensures Valid() && SameList()
      ensures Turn(World(), outcome) == Residency.FaultPage(device.env, old(World()), m, p, end)
      ensures m < |bars| && |bars[m].pages| == |old(bars)[m].pages|
      ensures outcome.Hit? || outcome.Fresh? ==> serial == bars[m].pages[p].serial
    {
      hide Valid, Stooges, Poll, Pay, DropAll;
      At(m);
      Showing(m);
      var vaddr := mv.vbar + p * VBAR_PAGE;
      if mv.residencyMap[p].handle != 0 {
        return Hit, mv.residencyMap[p].serial;
      }
      var err, h := OutOfMemory, 0;
      var deficit := device.BudgetDeficit(VBAR_PAGE);
      if deficit == 0 {
        err, h := device.ThreeStooges(vaddr, VBAR_PAGE);
      }
      if !err.Success? {
        if !err.OutOfMemory? {
          return Broken, 0;
        }
        PayShrinks(bars, m, 0, NextAbsent(bars[m], 0), end);
        VbarsFreeForVbar(mv, m, end);
        At(m);
        if p >= mv.watermark {
          return NoBudget, 0;
        }
        err, h := device.ThreeStooges(vaddr, VBAR_PAGE);
        if !err.Success? {
          return Broken, 0;
        }
      }
      Grant(mv, m, p, h);
      Showing(m);
      return Fresh, mv.residencyMap[p].serial;
    }

    /** The mapping loop of `vbar_fault`. */
    method FaultRange(mv: ModelVBAR, ghost m: nat, first: nat, end: nat, signature: array<nat>)
      returns (code: FaultCode, ghost out: seq<nat>)
      requires Valid() && m < |bars| && mv == chain[m + 1] && signature !in Repr
      requires end <= |bars[m].pages| && end - first <= signature.Length
      modifies Repr, device, signature
      ensures Valid() && SameList() && m < |bars| && |bars[m].pages| == |old(bars)[m].pages|
      ensures Faulted(World(), out, code) == FaultLoop(device.env, old(World()), m, first, end, [])
      ensures Written(signature[..], old(signature[..]), out)
    {
      hide Valid, Residency.FaultPage, FaultLoop, Faulting, Written;
      At(m);
      ghost var w0 := World();
      var pageNr := first;
      out := [];
      NoSlots(signature[..]);
      FaultStart(device.env, w0, m, first, end);
      while pageNr < end
        invariant Valid() && SameList() && m < |bars| && |bars[m].pages| == |w0.bars[m].pages|
        invariant pageNr == first + |out|
        invariant Written(signature[..], old(signature[..]), out)
        invariant Faulting(device.env, w0, m, first, end, World(), pageNr, out)
      {
        FaultTurn(device.env, w0, m, first, end, World(), pageNr, out);
        var outcome, serial := FaultPage(mv, m, pageNr, end);
        if outcome.NoBudget? {
          return FaultOom, out;
        }
        if outcome.Broken? {
          return FaultError, out;
        }
        WriteSlot(signature[..], old(signature[..]), out, serial % SIGNATURE_SPAN);
        signature[pageNr - first] := serial % SIGNATURE_SPAN;
        out := out + [serial % SIGNATURE_SPAN];
        pageNr := pageNr + 1;
      }
      FaultDone(device.env, w0, m, first, end, World(), pageNr, out);
      code := FaultSuccess;
    }

    method Fault(mv: ModelVBAR, ghost m: nat, offset: nat, size: nat, signature: array<nat>) returns (code: FaultCode)
      requires Valid() && m < |bars| && mv == chain[m + 1] && signature !in Repr
      requires PagesUp(offset + size) - offset / VBAR_PAGE <= signature.Length
      modifies Repr, device, signature
      ensures Valid() && SameList()
      ensures var f := Residency.Fault(device.env, old(World()), m, offset, size);
              World() == f.w && code == f.code && Written(signature[..], old(signature[..]), f.signature)
    {
      hide Valid, Residency.MakeRoom, FaultLoop, PinRange;
      At(m);
      var pageEnd := PagesUp(offset + size);
      var left := MakeRoom(0);
      At(m);
      if pageEnd > mv.watermark {
        return FaultOom;
      }
      ghost var out;
      code, out := FaultRange(mv, m, offset / VBAR_PAGE, pageEnd, signature);
      if code.FaultSuccess? {
        PinAll(mv, m, offset / VBAR_PAGE, pageEnd);
      }
    }

    method RemoveVbar(mv: ModelVBAR, ghost i: nat)
      requires Linked() && 0 < i < |chain| - 1 && mv == chain[i]
      modifies this`chain, chain`higher, chain`lower
      ensures Linked() && chain == Without(old(chain), i) && Apart(chain + [mv])
    {
      assert mv.lower == chain[i - 1] && mv.higher == chain[i + 1];
      ApartWithout(chain, i);
      mv.lower.higher := mv.higher;
      mv.higher.lower := mv.lower;
      chain := Without(chain, i);
    }

    method InsertVbar(mv: ModelVBAR)
      requires Linked() && Apart(chain + [mv])
      modifies this`chain, mv`higher, mv`lower, chain`higher, chain`lower
      ensures Linked() && chain == old(chain)[..|old(chain)| - 1] + [mv] + old(chain)[|old(chain)| - 1..]
    {
      ghost var n := |chain| - 1;
      ApartInserted(chain, mv, n);
      assert highest.lower == chain[n - 1];
      mv.lower := highest.lower;
      highest.lower.higher := mv;
      mv.higher := highest;
      highest.lower := mv;
      chain := chain[..n] + [mv] + chain[n..];
    }

    method InsertVbarLast(mv: ModelVBAR)
      requires Linked() && Apart(chain + [mv])
      modifies this`chain, mv`higher, mv`lower, chain`higher, chain`lower
      ensures Linked() && chain == old(chain)[..1] + [mv] + old(chain)[1..]
    {
      ApartInserted(chain, mv, 1);
      assert lowest.higher == chain[1];
      mv.higher := lowest.higher;
      lowest.higher.lower := mv;
      mv.lower := lowest;
      lowest.higher := mv;
      chain := chain[..1] + [mv] + chain[1..];
    }

    method MoveFirst(mv: ModelVBAR, ghost m: nat)
      requires Valid() && m < |bars| && mv == chain[m + 1]
      modifies Repr
      ensures Valid() && Repr == old(Repr) && nextId == old(nextId)
      ensures bars == Without(old(bars), m) + [old(bars[m])] && chain[|bars|] == mv
    {
      hide Apart, Linked, ModelVBAR.Shows, Without, FromFirst, Within;
      ghost var c, b := chain, bars;
      MovedFirst(c, b, m);
      Members(c, Repr);
      RemoveVbar(mv, m + 1);
      InsertVbar(mv);
      bars := Without(b, m) + [b[m]];
      forall k | 0 <= k < |bars|
        ensures chain[k + 1].Shows(bars[k])
      {
        assert chain[k + 1] == c[FromFirst(m, |b|, k) + 1];
      }
      SameWithin(c, chain, Repr);
    }

    method Prioritize(mv: ModelVBAR, ghost m: nat)
      requires Valid() && m < |bars| && mv == chain[m + 1]
      modifies Repr
      ensures Valid() && Repr == old(Repr) && nextId == old(nextId)
      ensures bars == Residency.Prioritize(old(bars), m)
    {
      MoveFirst(mv, m);
      SetMarks(mv, |bars| - 1, mv.residencyMap.Length, mv.watermarkLimit);
    }

    method Deprioritize(mv: ModelVBAR, ghost m: nat)
      requires Valid() && m < |bars| && mv == chain[m + 1]
      modifies Repr
      ensures Valid() && Repr == old(Repr) && nextId == old(nextId)
      ensures bars == Residency.Deprioritize(old(bars), m)
    {
      hide Apart, Linked, ModelVBAR.Shows, Without, FromLast, Within;
      ghost var c, b := chain, bars;
      MovedLast(c, b, m);
      Members(c, Repr);
      RemoveVbar(mv, m + 1);
      InsertVbarLast(mv);
      bars := [b[m]] + Without(b, m);
      forall k | 0 <= k < |bars|
        ensures chain[k + 1].Shows(bars[k])
      {
        assert chain[k + 1] == c[FromLast(m, k) + 1];
      }
      SameWithin(c, chain, Repr);
    }

    method SetWatermarkLimit(mv: ModelVBAR, ghost m: nat, size: nat)
      requires Valid() && m < |bars| && mv == chain[m + 1]
      modifies Repr
      ensures Valid() && SameList() && World() == SetLimit(old(World()), m, size)
    {
      SetMarks(mv, m, mv.watermark, PagesUp(size));
    }

    method ResetWatermarkLimits()
      requires Valid()
      modifies Repr
      ensures Valid() && SameList() && bars == ResetLimits(old(bars))
    {
      hide Valid;
      At(0);
      ghost var k := 0;
      var i := lowest.higher;
      while i != highest
        invariant Valid() && SameList()
        invariant k <= |bars| == |old(bars)| && |chain| == |bars| + 2 && i == chain[k + 1]
        invariant forall j :: 0 <= j < |bars| ==> bars[j] == if j < k then old(bars)[j].(limit := 0) else old(bars)[j]
        decreases |bars| - k
      {
        At(k);
        SetMarks(i, k, i.watermark, 0);
        At(k);
        i := i.higher;
        k := k + 1;
      }
      At(k);
    }

    method VbarUnpin(mv: ModelVBAR, ghost m: nat, offset: nat, size: nat)
      requires Valid() && m < |bars| && mv == chain[m + 1]
      modifies Repr, device
      ensures Valid() && SameList() && World() == Unpin(old(World()), m, offset, size)
    {
      hide Valid;
      At(m);
      Showing(m);
      var pageEnd := PagesUp(offset + size);
      ghost var w0 := World();
      var pageNr := offset / VBAR_PAGE;
      while pageNr < pageEnd && pageNr < mv.residencyMap.Length
        invariant Valid() && SameList() && m < |bars| && AllWf(bars) && mv.residencyMap.Length == |bars[m].pages|
        invariant Unpin(w0, m, offset, size) == UnpinLoop(World(), m, pageNr, pageEnd)
      {
        UnpinStep(mv, m, pageNr);
        At(m);
        pageNr := pageNr + 1;
      }
    }

    method UnpinStep(mv: ModelVBAR, ghost m: nat, p: nat)
      requires Valid() && m < |bars| && mv == chain[m + 1] && p < |bars[m].pages|
      modifies Repr, device
      ensures Valid() && SameList() && World() == UnpinOne(old(World()), m, p)
    {
      hide Valid;
      At(m);
      UnpinTwice(bars, m, p, p >= mv.watermark);
      DropPin(mv, m, p);
      At(m);
      var freed := Mod1(mv, m, p, p >= mv.watermark, false);
    }

    method DropPin(mv: ModelVBAR, ghost m: nat, p: nat)
      requires Valid() && m < |bars| && mv == chain[m + 1] && p < |bars[m].pages|
      modifies Repr
      ensures Valid() && SameList()
      ensures bars == old(bars)[m := SetPage(old(bars[m]), p, UnpinPage(old(bars[m].pages[p]), false))]
    {
      mv.Unpin(p, bars[m]);
      bars := bars[m := SetPage(bars[m], p, UnpinPage(bars[m].pages[p], false))];
    }

    method VbarFree(mv: ModelVBAR, ghost m: nat)
      requires Valid() && m < |bars| && mv == chain[m + 1]
      modifies Repr, device
      ensures Valid() && Repr == old(Repr) && nextId == old(nextId)
      ensures World() == FreeBar(old(World()), m)
    {
      hide Valid, AllHeld;
      At(m);
      Showing(m);
      ghost var w0 := World();
      ghost var b := bars[m];
      var pageNr := 0;
      FreeStart(w0, m);
      while pageNr < mv.residencyMap.Length
        invariant Valid() && SameList() && m < |bars| && pageNr <= mv.residencyMap.Length == |bars[m].pages|
        invariant Freeing(w0, m, World(), pageNr)
      {
        FreeTurn(w0, m, World(), pageNr);
        var freed := Mod1(mv, m, pageNr, true, true);
        pageNr := pageNr + 1;
      }
      FreeDone(w0, m, World());
      Delist(mv, m);
      device.AddressFree(Space(mv.vbar, mv.residencyMap.Length * VBAR_PAGE));
    }

    method Delist(mv: ModelVBAR, ghost m: nat)
      requires Valid() && m < |bars| && mv == chain[m + 1]
      modifies Repr
      ensures Valid() && Repr == old(Repr) && nextId == old(nextId) && bars == Without(old(bars), m)
    {
      ghost var c, b := chain, bars;
      hide Apart, Linked, ModelVBAR.Shows;
      RemoveVbar(mv, m + 1);
      bars := Without(b, m);
      forall k | 0 <= k < |bars|
        ensures chain[k + 1].Shows(bars[k])
      {
        assert chain[k + 1] == c[(if k < m then k else k + 1) + 1];
      }
      SameWithin(c, chain, Repr);
    }

    method VbarAllocate(size: nat) returns (mv: ModelVBAR?)
      requires Valid()
      modifies Repr, device
      ensures Valid() && fresh(Repr - old(Repr))
      ensures World() == Allocate(device.env, old(World()), old(nextId), size)
      ensures if mv == null then bars == old(bars) && nextId == old(nextId)
              else nextId == old(nextId) + 1 && |bars| == |old(bars)| + 1 && chain[|bars|] == mv
    {
      hide Valid, Apart, Reserve;
      At(0);
      var host := device.Ask();
      if !host.result.Success? {
        return null;
      }
      var nrPages := PagesFor(device.capacity, size);
      var err, base := device.AddressReserve(nrPages * VBAR_PAGE);
      if !err.Success? {
        return null;
      }
      mv := new ModelVBAR(nextId, base, nrPages);
      NewVbar(mv, chain, NewBar(nextId, base, nrPages));
      Enlist(mv, NewBar(nextId, base, nrPages));
    }

    method Enlist(mv: ModelVBAR, ghost b: Bar)
      requires Valid() && Apart(chain + [mv]) && mv.Shows(b)
      modifies Repr, mv
      ensures Valid() && Repr == old(Repr) + {mv, mv.residencyMap} && nextId == old(nextId) + 1
      ensures bars == old(bars) + [b] && chain[|bars|] == mv
    {
      hide ModelVBAR.Shows, Apart, Linked;
      ghost var c := chain;
      InsertVbar(mv);
      Repr := Repr + {mv, mv.residencyMap};
      bars := bars + [b];
      nextId := nextId + 1;
      forall k | 0 <= k < |bars|
        ensures chain[k + 1].Shows(bars[k])
      {
        assert chain[k + 1] == if k + 1 < |bars| then c[k + 1] else mv;
      }
      assert forall i :: 0 <= i < |chain| ==> chain[i] in c || chain[i] == mv;
    }

    lemma NewVbar(mv: ModelVBAR, c: seq<ModelVBAR>, b: Bar)
      requires Apart(c) && mv.View() == b && b == NewBar(b.id, b.base, |b.pages|) && mv.residentCount == 0
      requires forall i :: 0 <= i < |c| ==> c[i] != mv && c[i].residencyMap != mv.residencyMap
      ensures Apart(c + [mv]) && mv.Shows(b)
    {
      NoneResident(|b.pages|);
    }

    method VbarFreeMemory(mv: ModelVBAR, ghost m: nat, size: nat) returns (bytes: nat)
      requires Valid() && m < |bars| && mv == chain[m + 1]
      modifies Repr, device
      ensures Valid() && SameList()
      ensures World() == FreeMemory(old(World()), m, size).w
      ensures bytes == (PagesUp(size) - FreeMemory(old(World()), m, size).left) * VBAR_PAGE
    {
      hide Valid, Drain;
      At(m);
      var pagesToFree: nat := PagesUp(size);
      var pagesFreed := 0;
      ghost var w0 := World();
      ghost var out := [];
      while pagesToFree > 0 && mv.watermark > mv.watermarkLimit
        invariant Valid() && SameList() && |bars| == |w0.bars| && mv.Marks(bars[m])
        invariant bars == w0.bars[m := bars[m]]
        invariant Draining(Only(w0, m), PagesUp(size), Only(World(), m), 0, pagesToFree, out)
        invariant pagesFreed + pagesToFree == PagesUp(size)
        decreases mv.watermark
      {
        TurnedOnly(World(), m);
        DrainTurn(Only(w0, m), PagesUp(size), Only(World(), m), 0, pagesToFree, out);
        out := out + TopDrop(bars[m]);
        var freed := LowerTop(mv, m);
        if freed {
          pagesToFree := pagesToFree - 1;
          pagesFreed := pagesFreed + 1;
        }
      }
      DrainOnlyDone(w0, m, size, World(), pagesToFree, out);
      bytes := pagesFreed * VBAR_PAGE;
    }

    method VbarLoadedSize(mv: ModelVBAR, ghost m: nat) returns (bytes: nat)
      requires Valid() && m < |bars| && mv == chain[m + 1]
      ensures bytes == Resident(bars[m].pages) * VBAR_PAGE
    {
      assert mv.Shows(bars[m]);
      bytes := mv.residentCount * VBAR_PAGE;
    }

    method VbarGetResidency(mv: ModelVBAR, ghost m: nat, out: array<nat>)
      requires Valid() && m < |bars| && mv == chain[m + 1] && out !in Repr
      modifies out
      ensures forall p :: 0 <= p < out.Length ==>
                out[p] == if p < |bars[m].pages| then Status(bars[m].pages[p]) else old(out[p])
    {
      var n := if mv.residencyMap.Length < out.Length then mv.residencyMap.Length else out.Length;
      for p := 0 to n
        invariant forall q :: 0 <= q < out.Length ==> out[q] == if q < p then Status(bars[m].pages[q]) else old(out[q])
      {
        var rp := mv.residencyMap[p];
        out[p] := (if rp.handle != 0 then 1 else 0) + (if rp.pins != 0 then 2 else 0);
      }
    }
  }
}
