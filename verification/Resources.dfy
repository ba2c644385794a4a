/** Who owns what: every reservation, mapping, handle and byte of usage has exactly one owner. */
module Resources {
  import opened Plat

  /** One owner: its reservation, what it has mapped there, and the bytes of that. */
  datatype Region = Region(space: Space, held: multiset<Mapping>, bytes: int)

  function Bytes(regs: seq<Region>): int {
    if regs == [] then 0 else regs[0].bytes + Bytes(regs[1..])
  }

  function Maps(regs: seq<Region>): multiset<Mapping> {
    if regs == [] then multiset{} else regs[0].held + Maps(regs[1..])
  }

  function Spaces(regs: seq<Region>): multiset<Space> {
    if regs == [] then multiset{} else multiset{regs[0].space} + Spaces(regs[1..])
  }

  lemma SumsCons(r: Region, b: seq<Region>)
    ensures Bytes([r] + b) == r.bytes + Bytes(b)
    ensures Maps([r] + b) == r.held + Maps(b)
    ensures Spaces([r] + b) == multiset{r.space} + Spaces(b)
  {
    assert ([r] + b)[1..] == b;
  }

  lemma {:induction false} SumsConcat(a: seq<Region>, b: seq<Region>)
    ensures Bytes(a + b) == Bytes(a) + Bytes(b)
    ensures Maps(a + b) == Maps(a) + Maps(b)
    ensures Spaces(a + b) == Spaces(a) + Spaces(b)
  {
    hide Bytes, Maps, Spaces;
    if a == [] {
      SumsNone();
      assert a + b == b;
    } else {
      SumsConcat(a[1..], b);
      assert a + b == [a[0]] + (a[1..] + b) && a == [a[0]] + a[1..];
      SumsCons(a[0], a[1..] + b);
      SumsCons(a[0], a[1..]);
    }
  }

  lemma SumsNone()
    ensures Bytes([]) == 0 && Maps([]) == multiset{} && Spaces([]) == multiset{}
  {
  }

  /** The sums split at any one owner. */
  lemma SumsAt(regs: seq<Region>, k: nat)
    requires k < |regs|
    ensures Bytes(regs) == Bytes(regs[..k]) + regs[k].bytes + Bytes(regs[k + 1..])
    ensures Maps(regs) == Maps(regs[..k]) + regs[k].held + Maps(regs[k + 1..])
    ensures Spaces(regs) == Spaces(regs[..k]) + multiset{regs[k].space} + Spaces(regs[k + 1..])
  {
    assert regs == regs[..k] + regs[k..];
    SumsConcat(regs[..k], regs[k..]);
    assert regs[k..][1..] == regs[k + 1..];
  }

  lemma SumsUpdate(regs: seq<Region>, k: nat, r: Region)
    requires k < |regs|
    ensures Bytes(regs[k := r]) == Bytes(regs) - regs[k].bytes + r.bytes
    ensures Maps(regs[k := r]) == Maps(regs) - regs[k].held + r.held
    ensures Spaces(regs[k := r]) == Spaces(regs) - multiset{regs[k].space} + multiset{r.space}
  {
    SumsAt(regs, k);
    SumsAt(regs[k := r], k);
    assert regs[k := r][..k] == regs[..k] && regs[k := r][k + 1..] == regs[k + 1..];
  }

  /** A mapping in the sum is held by someone. */
  lemma {:induction false} Holder(regs: seq<Region>, m: Mapping) returns (j: nat)
    requires m in Maps(regs)
    ensures j < |regs| && m in regs[j].held
  {
    if m in regs[0].held {
      j := 0;
    } else {
      j := Holder(regs[1..], m);
      j := j + 1;
    }
  }

  ghost predicate Owns(r: Region) {
    forall m :: m in r.held ==> m.size > 0 && m.Inside(r.space.base, r.space.base + r.space.size)
  }

  ghost predicate Disjoint(g: Gpu) {
    && (forall a, b :: a in g.spaces && b in g.spaces && a != b ==> a.Apart(b))
    && (forall a, b :: a in g.maps && b in g.maps && a != b ==> a.handle != b.handle && !a.Meets(b.va, b.va + b.size))
  }

  ghost predicate Backing(g: Gpu) {
    && (forall m :: m in g.maps ==> m.handle in g.live)
    && (forall h :: h in g.live ==> exists m :: m in g.maps && m.handle == h)
  }

  /** The books balance: usage is what the owners hold plus `extra`, the driver holds nothing but what the owners
      hold, each live handle has its mapping, nothing overlaps, and no call has broken the driver's rules. */
  ghost predicate Balanced(d: Dev, regs: seq<Region>, extra: int) {
    && d.usage == Bytes(regs) + extra
    && multiset(d.gpu.maps) == Maps(regs)
    && multiset(d.gpu.spaces) == Spaces(regs)
    && (forall k :: 0 <= k < |regs| ==> Owns(regs[k]))
    && Disjoint(d.gpu) && Backing(d.gpu) && !d.gpu.misuse
  }

  lemma HeldIsMapped(d: Dev, regs: seq<Region>, extra: int, k: nat)
    requires Balanced(d, regs, extra) && k < |regs|
    ensures regs[k].space in d.gpu.spaces
    ensures forall m :: m in regs[k].held ==> m in d.gpu.maps && regs[k].held[m] == 1
  {
    SumsAt(regs, k);
    assert regs[k].space in multiset(d.gpu.spaces);
    forall m | m in regs[k].held
      ensures m in d.gpu.maps && regs[k].held[m] == 1
    {
      assert m in multiset(d.gpu.maps) && multiset(d.gpu.maps)[m] == 1;
    }
  }

  lemma SpacesDiffer(d: Dev, regs: seq<Region>, extra: int, j: nat, k: nat)
    requires Balanced(d, regs, extra) && j < k < |regs|
    ensures regs[j].space != regs[k].space && regs[j].space.Apart(regs[k].space)
  {
    HeldIsMapped(d, regs, extra, j);
    HeldIsMapped(d, regs, extra, k);
    SumsAt(regs, k);
    SumsAt(regs[..k], j);
    assert regs[..k][j] == regs[j];
    var s := regs[j].space;
    assert multiset(d.gpu.spaces)[s] == Spaces(regs)[s] >= multiset{s}[s] + multiset{regs[k].space}[s];
  }

  /** A mapping that touches owner k's reservation is owner k's. */
  lemma OnlyOwnMeets(d: Dev, regs: seq<Region>, extra: int, k: nat, m: Mapping)
    requires Balanced(d, regs, extra) && k < |regs| && m in d.gpu.maps
    requires m.Meets(regs[k].space.base, regs[k].space.base + regs[k].space.size)
    ensures m in regs[k].held
  {
    assert m in Maps(regs);
    var j := Holder(regs, m);
    assert Owns(regs[j]);
    if j < k {
      SpacesDiffer(d, regs, extra, j, k);
    } else if k < j {
      SpacesDiffer(d, regs, extra, k, j);
    }
  }

  /** Unmapping and releasing one mapping touches nothing else and breaks no rule. */
  lemma GpuDrop(g: Gpu, m: Mapping)
    requires Disjoint(g) && Backing(g) && !g.misuse && m in g.maps && forall o :: o in g.maps ==> o.size > 0
    ensures var g' := g.Unmap(m.va, m.va + m.size).Release(m.handle);
            && g'.maps == g.maps - {m} && g'.live == g.live - {m.handle} && g'.spaces == g.spaces
            && Disjoint(g') && Backing(g') && !g'.misuse
  {
    forall o | o in g.maps && o != m
      ensures !o.Meets(m.va, m.va + m.size) && !o.Inside(m.va, m.va + m.size)
    {
    }
    assert g.Unmap(m.va, m.va + m.size).maps == g.maps - {m};
    forall x | m.va <= x < m.va + m.size
      ensures g.Backed(x)
    {
      assert m.Meets(x, x + 1);
    }
    forall h | h in g.live - {m.handle}
      ensures exists o :: o in g.maps - {m} && o.handle == h
    {
      var o :| o in g.maps && o.handle == h;
      assert o in g.maps - {m};
    }
  }

  lemma Sized(d: Dev, regs: seq<Region>, extra: int)
    requires Balanced(d, regs, extra)
    ensures forall m :: m in d.gpu.maps ==> m.size > 0
  {
    forall m | m in d.gpu.maps
      ensures m.size > 0
    {
      assert m in Maps(regs);
      var j := Holder(regs, m);
      assert Owns(regs[j]);
    }
  }

  lemma HeldInSum(regs: seq<Region>, k: nat)
    requires k < |regs|
    ensures regs[k].held <= Maps(regs) && regs[k].space in Spaces(regs)
  {
    SumsAt(regs, k);
  }

  lemma TakeOne<T>(all: multiset<T>, part: multiset<T>, x: T)
    requires part <= all && x in part
    ensures all - part + (part - multiset{x}) == all - multiset{x}
  {
  }

  lemma AddOne<T>(all: multiset<T>, part: multiset<T>, x: T)
    requires part <= all
    ensures all - part + (part + multiset{x}) == all + multiset{x}
  {
  }

  lemma GiveBack<T>(all: multiset<T>, x: T)
    requires x in all
    ensures all - multiset{x} + multiset{x} == all
  {
  }

  lemma SetLess<T>(s: set<T>, x: T)
    requires x in s
    ensures multiset(s - {x}) == multiset(s) - multiset{x}
  {
  }

  lemma SetMore<T>(s: set<T>, x: T)
    requires x !in s
    ensures multiset(s + {x}) == multiset(s) + multiset{x}
  {
  }

  /** The books after one owner's holding changed, given the driver's state after it. */
  lemma Rebalanced(d: Dev, d': Dev, regs: seq<Region>, extra: int, k: nat, r: Region)
    requires Balanced(d, regs, extra) && k < |regs| && r.space == regs[k].space && Owns(r)
    requires d'.usage == d.usage - regs[k].bytes + r.bytes && d'.gpu.spaces == d.gpu.spaces
    requires multiset(d'.gpu.maps) == Maps(regs) - regs[k].held + r.held
    requires Disjoint(d'.gpu) && Backing(d'.gpu) && !d'.gpu.misuse
    ensures Balanced(d', regs[k := r], extra)
  {
    hide Disjoint, Backing, Bytes, Maps, Spaces, Owns;
    SumsUpdate(regs, k, r);
    HeldInSum(regs, k);
    GiveBack(Spaces(regs), regs[k].space);
  }

  /** Giving up one mapping. */
  lemma DropBalanced(d: Dev, regs: seq<Region>, extra: int, k: nat, m: Mapping, r: Region)
    requires Balanced(d, regs, extra) && k < |regs| && m in regs[k].held
    requires r == Region(regs[k].space, regs[k].held - multiset{m}, regs[k].bytes - m.size)
    ensures Balanced(DropOne(d, m), regs[k := r], extra)
  {
    hide Disjoint, Backing, Bytes, Maps, Spaces, Gpu.Unmap, Gpu.Release;
    HeldIsMapped(d, regs, extra, k);
    HeldInSum(regs, k);
    TakeOne(Maps(regs), regs[k].held, m);
    Sized(d, regs, extra);
    GpuDrop(d.gpu, m);
    SetLess(d.gpu.maps, m);
    assert Owns(regs[k]);
    Rebalanced(d, DropOne(d, m), regs, extra, k, r);
  }

  // ----- mapping -----

  /** Nothing held by owner k touches these bytes, which lie in its reservation. */
  ghost predicate Room(r: Region, va: int, size: int) {
    && size > 0 && r.space.base <= va && va + size <= r.space.base + r.space.size
    && forall o :: o in r.held ==> !o.Meets(va, va + size)
  }

  lemma RoomIsMappable(d: Dev, regs: seq<Region>, extra: int, k: nat, va: int, size: int)
    requires Balanced(d, regs, extra) && k < |regs| && Room(regs[k], va, size)
    ensures regs[k].space in d.gpu.spaces
    ensures forall o :: o in d.gpu.maps ==> !o.Meets(va, va + size)
  {
    HeldIsMapped(d, regs, extra, k);
    forall o | o in d.gpu.maps
      ensures !o.Meets(va, va + size)
    {
      if o.Meets(va, va + size) {
        OnlyOwnMeets(d, regs, extra, k, o);
      }
    }
  }

  /** What a mapping transaction does to the driver: everything, or nothing at all but the clock. */
  lemma StoogesGpu(env: Env, d: Dev, va: int, size: int, s: Space)
    requires !d.gpu.misuse && Backing(d.gpu) && s in d.gpu.spaces
    requires size > 0 && s.base <= va && va + size <= s.base + s.size
    requires forall o :: o in d.gpu.maps ==> o.size > 0 && !o.Meets(va, va + size)
    ensures var t := Stooges(env, d, va, size);
            var m := Mapping(va, size, t.handle);
            if t.err.Success?
            then t.dev.usage == d.usage + size && t.handle !in d.gpu.live
                 && t.dev.gpu == d.gpu.(live := d.gpu.live + {t.handle}, maps := d.gpu.maps + {m})
            else t.dev == d.(clock := t.dev.clock)
  {
    var c := Create(env, d);
    if c.err.Success? {
      var m := Mapping(va, size, c.handle);
      assert m.Inside(s.base, s.base + s.size);
      var g := c.dev.gpu;
      assert g.Mappable(m);
      assert g.live - {c.handle} == d.gpu.live;
      var g' := g.Map(m);
      assert g'.Unmap(va, va + size).maps == d.gpu.maps;
      forall x | va <= x < va + size
        ensures g'.Backed(x)
      {
        assert m.Meets(x, x + 1);
      }
    }
  }

  lemma MapBalanced(d: Dev, d': Dev, regs: seq<Region>, extra: int, k: nat, m: Mapping)
    requires Balanced(d, regs, extra) && k < |regs| && Room(regs[k], m.va, m.size) && m.handle !in d.gpu.live
    requires d'.usage == d.usage + m.size && d'.gpu == d.gpu.(live := d.gpu.live + {m.handle}, maps := d.gpu.maps + {m})
    ensures Balanced(d', regs[k := Region(regs[k].space, regs[k].held + multiset{m}, regs[k].bytes + m.size)], extra)
  {
    hide Bytes, Maps, Spaces, Disjoint, Backing;
    var r := Region(regs[k].space, regs[k].held + multiset{m}, regs[k].bytes + m.size);
    RoomIsMappable(d, regs, extra, k, m.va, m.size);
    HeldInSum(regs, k);
    AddOne(Maps(regs), regs[k].held, m);
    NewMapping(d.gpu, m);
    SetMore(d.gpu.maps, m);
    assert Owns(regs[k]);
    Rebalanced(d, d', regs, extra, k, r);
  }

  /** Mapping fresh bytes of one's own reservation: on success the books gain one mapping, on failure only time
      passed. */
  lemma StoogesBalanced(env: Env, d: Dev, regs: seq<Region>, extra: int, k: nat, va: int, size: int)
    requires Balanced(d, regs, extra) && k < |regs| && Room(regs[k], va, size)
    ensures var t := Stooges(env, d, va, size);
            var m := Mapping(va, size, t.handle);
            var r := Region(regs[k].space, regs[k].held + multiset{m}, regs[k].bytes + size);
            if t.err.Success? then Balanced(t.dev, regs[k := r], extra)
            else t.dev == d.(clock := t.dev.clock) && Balanced(t.dev, regs, extra)
  {
    hide Stooges, Bytes, Maps, Spaces, Disjoint, Backing, Owns;
    var t := Stooges(env, d, va, size);
    RoomIsMappable(d, regs, extra, k, va, size);
    Sized(d, regs, extra);
    StoogesGpu(env, d, va, size, regs[k].space);
    if t.err.Success? {
      MapBalanced(d, t.dev, regs, extra, k, Mapping(va, size, t.handle));
    }
  }

  lemma NewMapping(g: Gpu, m: Mapping)
    requires Disjoint(g) && Backing(g) && m.handle !in g.live && m.size > 0
    requires forall o :: o in g.maps ==> !o.Meets(m.va, m.va + m.size)
    ensures var g' := g.(live := g.live + {m.handle}, maps := g.maps + {m});
            Disjoint(g') && Backing(g') && m !in g.maps
  {
    var g' := g.(live := g.live + {m.handle}, maps := g.maps + {m});
    forall h | h in g'.live
      ensures exists o :: o in g'.maps && o.handle == h
    {
      if h != m.handle {
        var o :| o in g.maps && o.handle == h;
        assert o in g'.maps;
      } else {
        assert m in g'.maps;
      }
    }
  }

  // ----- reservations -----

  lemma ReserveBalanced(env: Env, d: Dev, regs: seq<Region>, extra: int, size: int)
    requires Balanced(d, regs, extra)
    ensures var t := Reserve(env, d, size);
            if t.err.Success? then Balanced(t.dev, regs + [Region(Space(t.handle, size), multiset{}, 0)], extra)
            else t.dev == d.(clock := t.dev.clock) && Balanced(t.dev, regs, extra)
  {
    hide Bytes, Maps, Spaces;
    var t := Reserve(env, d, size);
    if t.err.Success? {
      var r := Region(Space(t.handle, size), multiset{}, 0);
      SumsConcat(regs, [r]);
      SumsCons(r, []);
      SumsNone();
      assert [r] + [] == [r];
      SetMore(d.gpu.spaces, r.space);
    }
  }

  /** Giving back an emptied reservation. */
  lemma FreeBalanced(d: Dev, regs: seq<Region>, extra: int, k: nat)
    requires Balanced(d, regs, extra) && k < |regs| && regs[k].held == multiset{} && regs[k].bytes == 0
    ensures Balanced(d.(gpu := d.gpu.Free(regs[k].space)), regs[..k] + regs[k + 1..], extra)
  {
    hide Bytes, Maps, Spaces;
    var s := regs[k].space;
    SumsAt(regs, k);
    SumsConcat(regs[..k], regs[k + 1..]);
    HeldIsMapped(d, regs, extra, k);
    SetLess(d.gpu.spaces, s);
    forall o | o in d.gpu.maps
      ensures !o.Meets(s.base, s.base + s.size)
    {
      if o.Meets(s.base, s.base + s.size) {
        OnlyOwnMeets(d, regs, extra, k, o);
      }
    }
    assert d.gpu.Returnable(s);
    assert multiset(d.gpu.spaces - {s}) == Spaces(regs[..k]) + Spaces(regs[k + 1..]);
  }

  /** The books do not care in which order the owners are listed. */
  lemma MoveBalanced(d: Dev, a: seq<Region>, r: Region, b: seq<Region>, c: seq<Region>, extra: int)
    ensures Balanced(d, a + [r] + b + c, extra) <==> Balanced(d, a + b + [r] + c, extra)
  {
    hide Bytes, Maps, Spaces;
    SumsConcat(a, [r]);
    SumsConcat(a + [r], b);
    SumsConcat(a + [r] + b, c);
    SumsConcat(a, b);
    SumsConcat(a + b, [r]);
    SumsConcat(a + b + [r], c);
    OwnsParts(a, r, b, c);
  }

  lemma OwnsParts(a: seq<Region>, r: Region, b: seq<Region>, c: seq<Region>)
    ensures (forall k :: 0 <= k < |a + [r] + b + c| ==> Owns((a + [r] + b + c)[k])) <==>
            (forall k :: 0 <= k < |a + b + [r] + c| ==> Owns((a + b + [r] + c)[k]))
  {
    hide Owns;
    var x, y := a + [r] + b + c, a + b + [r] + c;
    assert forall k :: 0 <= k < |x| ==> x[k] in y;
    assert forall k :: 0 <= k < |y| ==> y[k] in x;
  }
}
