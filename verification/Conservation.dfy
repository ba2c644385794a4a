/** What a sound context means: where every byte of usage and every driver resource is. */
module Conservation {
  import opened Chains
  import opened Plat
  import opened Residency
  import opened Resources
  import opened VbarBooks
  import VramBuf
  import opened BufferBooks
  import SizeTable
  import opened System
  import opened Soundness

  function ResidentPages(bars: seq<Bar>): nat {
    if bars == [] then 0 else Resident(bars[0].pages) + ResidentPages(bars[1..])
  }

  function Backed(bufs: seq<VramBuf.Buf>): nat {
    if bufs == [] then 0 else bufs[0].backed + Backed(bufs[1..])
  }

  function PlugBacked(plug: seq<Entry<VramBuf.Buf>>): nat {
    if plug == [] then 0 else plug[0].item.backed + PlugBacked(plug[1..])
  }

  lemma {:induction false} BarBytes(bars: seq<Bar>)
    ensures Bytes(BarRegions(bars)) == ResidentPages(bars) * VBAR_PAGE
  {
    if bars != [] {
      BarBytes(bars[1..]);
      assert BarRegions(bars)[1..] == BarRegions(bars[1..]);
    }
  }

  lemma {:induction false} BufBytes(bufs: seq<VramBuf.Buf>)
    ensures Bytes(BufRegions(bufs)) == Backed(bufs)
  {
    if bufs != [] {
      BufBytes(bufs[1..]);
      assert BufRegions(bufs)[1..] == BufRegions(bufs[1..]);
    }
  }

  lemma {:induction false} PlugBytes(plug: seq<Entry<VramBuf.Buf>>)
    ensures Bytes(PlugRegions(plug)) == PlugBacked(plug)
  {
    if plug != [] {
      PlugBytes(plug[1..]);
      assert PlugRegions(plug)[1..] == PlugRegions(plug[1..]);
    }
  }

  /** After any run: the usage counter is 32 MiB per resident page, plus every byte backed in a buffer, plus every
      hooked allocation's charge, plus what was charged for allocations the host had no room to record. */
  lemma UsageIsConserved(env: Env, s: State, ops: seq<Op>)
    requires Sound(s)
    ensures var s' := Run(env, s, ops);
            s'.w.dev.usage == ResidentPages(s'.w.bars) * VBAR_PAGE + Backed(s'.bufs) + PlugBacked(s'.plug)
                              + AllocBytes(s'.allocs) + s'.lost
  {
    hide Run, Disjoint, Backing;
    var s' := Run(env, s, ops);
    BarBytes(s'.w.bars);
    BufBytes(s'.bufs);
    PlugBytes(s'.plug);
    SumsConcat(BufRegions(s'.bufs), PlugRegions(s'.plug));
    SumsConcat(BarRegions(s'.w.bars), BufRegions(s'.bufs) + PlugRegions(s'.plug));
  }

  /** No run ever breaks a rule of the driver: no double mapping, no overlap, no unmap of unmapped bytes, no release of
      a mapped or dead handle, no return of a used or unknown range. */
  lemma DriverNeverMisused(env: Env, s: State, ops: seq<Op>)
    requires Sound(s)
    ensures var g := Run(env, s, ops).w.dev.gpu; !g.misuse && Disjoint(g) && Backing(g)
  {
    hide Run, Disjoint, Backing;
  }

  function Owners(s: State): seq<Region> { BarRegions(s.w.bars) + (BufRegions(s.bufs) + PlugRegions(s.plug)) }

  lemma HoldingMapped(s: State, k: nat, m: Mapping)
    requires Sound(s) && k < |Owners(s)| && m in Owners(s)[k].held
    ensures m in s.w.dev.gpu.maps && m.handle in s.w.dev.gpu.live
  {
    hide AllPages, Ids, AllTiled;
    HeldIsMapped(s.w.dev, Owners(s), AllocBytes(s.allocs) + s.lost, k);
  }

  /** What two owners hold, or one owner holds twice, shares no handle and no byte. */
  lemma HoldingsNeverShare(s: State, k: nat, j: nat, m: Mapping, n: Mapping)
    requires Sound(s) && k < |Owners(s)| && j < |Owners(s)| && m in Owners(s)[k].held && n in Owners(s)[j].held
    requires k != j || m != n
    ensures m.handle != n.handle && !m.Meets(n.va, n.va + n.size)
  {
    hide AllPages, Ids, AllTiled;
    var d, regs, extra := s.w.dev, Owners(s), AllocBytes(s.allocs) + s.lost;
    HeldIsMapped(d, regs, extra, k);
    HeldIsMapped(d, regs, extra, j);
    if k != j {
      SpacesDiffer(d, regs, extra, if k < j then k else j, if k < j then j else k);
      assert Owns(regs[k]) && Owns(regs[j]);
    }
  }

  lemma PageHeldBy(s: State, k: nat, p: nat)
    requires Sound(s) && k < |s.w.bars| && p < |s.w.bars[k].pages| && s.w.bars[k].pages[p].handle != 0
    ensures k < |Owners(s)| && Held(s.w.bars[k], p) in Owners(s)[k].held
  {
    hide Sound, AllHeld, Resident;
    PageRegion(s.w.bars[k], p, s.w.bars[k].pages[p]);
    assert Held(s.w.bars[k], p) in One(s.w.bars[k], p);
    assert Owners(s)[k] == BarRegion(s.w.bars[k]);
  }

  /** A resident page's handle is live and mapped at the page's own address. */
  lemma ResidentPageIsMapped(s: State, k: nat, p: nat)
    requires Sound(s) && k < |s.w.bars| && p < |s.w.bars[k].pages| && s.w.bars[k].pages[p].handle != 0
    ensures Held(s.w.bars[k], p) in s.w.dev.gpu.maps && s.w.bars[k].pages[p].handle in s.w.dev.gpu.live
  {
    hide Sound, Owners;
    PageHeldBy(s, k, p);
    HoldingMapped(s, k, Held(s.w.bars[k], p));
  }

  /** Different resident pages, of one VBAR or of two, never share a handle or a byte of address space. */
  lemma PagesNeverShare(s: State, k: nat, p: nat, j: nat, q: nat)
    requires Sound(s) && k < |s.w.bars| && p < |s.w.bars[k].pages| && s.w.bars[k].pages[p].handle != 0
    requires j < |s.w.bars| && q < |s.w.bars[j].pages| && s.w.bars[j].pages[q].handle != 0
    requires k != j || p != q
    ensures s.w.bars[k].pages[p].handle != s.w.bars[j].pages[q].handle
    ensures !Held(s.w.bars[k], p).Meets(Held(s.w.bars[j], q).va, Held(s.w.bars[j], q).va + VBAR_PAGE)
  {
    hide Sound, Owners;
    PageHeldBy(s, k, p);
    PageHeldBy(s, j, q);
    HoldingsNeverShare(s, k, j, Held(s.w.bars[k], p), Held(s.w.bars[j], q));
  }

  lemma LiveMapping(s: State, h: nat) returns (m: Mapping, j: nat)
    requires Sound(s) && h in s.w.dev.gpu.live
    ensures m.handle == h && j < |Owners(s)| && m in Owners(s)[j].held
  {
    hide BarRegion, BufRegion;
    m :| m in s.w.dev.gpu.maps && m.handle == h;
    assert m in Maps(Owners(s));
    j := Holder(Owners(s), m);
  }

  ghost predicate PageOwns(bars: seq<Bar>, h: nat) {
    exists k, p :: 0 <= k < |bars| && 0 <= p < |bars[k].pages| && bars[k].pages[p].handle == h
  }

  ghost predicate BufOwns(bufs: seq<VramBuf.Buf>, h: nat) {
    exists i :: 0 <= i < |bufs| && h in bufs[i].handles
  }

  ghost predicate PlugOwns(plug: seq<Entry<VramBuf.Buf>>, h: nat) {
    exists i :: 0 <= i < |plug| && h in plug[i].item.handles
  }

  /** Every live handle belongs to a resident page, a stand-alone buffer or a plugin buffer. */
  lemma LiveHandleHasOwner(s: State, h: nat)
    requires Sound(s) && h in s.w.dev.gpu.live
    ensures PageOwns(s.w.bars, h) || BufOwns(s.bufs, h) || PlugOwns(s.plug, h)
  {
    hide Sound, AllHeld, Resident, Chunks;
    var m, j := LiveMapping(s, h);
    var n, i := |s.w.bars|, |s.bufs|;
    if j < n {
      assert Owners(s)[j] == BarRegion(s.w.bars[j]);
      var p := HeldAt(s.w.bars[j], |s.w.bars[j].pages|, m);
      assert s.w.bars[j].pages[p].handle == h;
    } else if j < n + i {
      assert Owners(s)[j] == BufRegion(s.bufs[j - n]);
      ChunkHandle(s.bufs[j - n], m);
    } else {
      assert Owners(s)[j] == BufRegion(s.plug[j - n - i].item);
      ChunkHandle(s.plug[j - n - i].item, m);
    }
  }

  lemma ChunkHandle(b: VramBuf.Buf, m: Mapping)
    requires m in Chunks(b)
    ensures m.handle in b.handles
  {
  }

  // ----- buffers -----

  /** Stand-alone buffers, then the plugin's. */
  function Buffers(s: State): seq<VramBuf.Buf> {
    s.bufs + seq(|s.plug|, i requires 0 <= i < |s.plug| => s.plug[i].item)
  }

  lemma BufferOwner(s: State, i: nat)
    requires Sound(s) && i < |Buffers(s)|
    ensures |s.w.bars| + i < |Owners(s)| && Owners(s)[|s.w.bars| + i] == BufRegion(Buffers(s)[i])
    ensures VramBuf.Tiled(Buffers(s)[i])
  {
    hide Accounted, AllPages, Ids, BarRegion, BufRegion, VramBuf.Tiled;
  }

  lemma ChunkHeld(s: State, i: nat, c: nat)
    requires Sound(s) && i < |Buffers(s)| && c < |Buffers(s)[i].handles|
    ensures |s.w.bars| + i < |Owners(s)| && Chunk(Buffers(s)[i], c) in Owners(s)[|s.w.bars| + i].held
  {
    hide Sound, Owners, VramBuf.Tiled;
    BufferOwner(s, i);
    assert Chunks(Buffers(s)[i])[c] == Chunk(Buffers(s)[i], c);
  }

  /** Every chunk of a buffer, stand-alone or the plugin's, has its own live handle, mapped at the chunk's own
      address. */
  lemma ChunkIsMapped(s: State, i: nat, c: nat)
    requires Sound(s) && i < |Buffers(s)| && c < |Buffers(s)[i].handles|
    ensures var m := Chunk(Buffers(s)[i], c);
            m.handle == Buffers(s)[i].handles[c] && m in s.w.dev.gpu.maps && m.handle in s.w.dev.gpu.live
  {
    hide Sound, Owners;
    ChunkHeld(s, i, c);
    HoldingMapped(s, |s.w.bars| + i, Chunk(Buffers(s)[i], c));
  }

  /** Different chunks, of one buffer or of two, share no handle and no byte of address space. */
  lemma ChunksNeverShare(s: State, i: nat, c: nat, j: nat, d: nat)
    requires Sound(s) && i < |Buffers(s)| && c < |Buffers(s)[i].handles|
    requires j < |Buffers(s)| && d < |Buffers(s)[j].handles| && (i != j || c != d)
    ensures Buffers(s)[i].handles[c] != Buffers(s)[j].handles[d]
    ensures var n := Chunk(Buffers(s)[j], d); !Chunk(Buffers(s)[i], c).Meets(n.va, n.va + n.size)
  {
    hide Sound, Owners;
    ChunkHeld(s, i, c);
    ChunkHeld(s, j, d);
    HoldingsNeverShare(s, |s.w.bars| + i, |s.w.bars| + j, Chunk(Buffers(s)[i], c), Chunk(Buffers(s)[j], d));
  }

  /** No chunk shares a handle or a byte with a resident page. */
  lemma ChunkIsNoPage(s: State, i: nat, c: nat, k: nat, p: nat)
    requires Sound(s) && i < |Buffers(s)| && c < |Buffers(s)[i].handles|
    requires k < |s.w.bars| && p < |s.w.bars[k].pages| && s.w.bars[k].pages[p].handle != 0
    ensures Buffers(s)[i].handles[c] != s.w.bars[k].pages[p].handle
    ensures var n := Held(s.w.bars[k], p); !Chunk(Buffers(s)[i], c).Meets(n.va, n.va + n.size)
  {
    hide Sound, Owners;
    ChunkHeld(s, i, c);
    PageHeldBy(s, k, p);
    HoldingsNeverShare(s, |s.w.bars| + i, k, Chunk(Buffers(s)[i], c), Held(s.w.bars[k], p));
  }

  /** Once every VBAR and buffer is freed, the driver holds nothing, and only hooked allocations are charged. */
  lemma NothingLeft(s: State)
    requires Sound(s) && s.w.bars == [] && s.bufs == [] && s.plug == []
    ensures s.w.dev.gpu.maps == {} && s.w.dev.gpu.live == {} && s.w.dev.gpu.spaces == {}
    ensures s.w.dev.usage == AllocBytes(s.allocs) + s.lost
  {
    SumsNone();
    assert BarRegions([]) + (BufRegions([]) + PlugRegions([])) == [];
    var g := s.w.dev.gpu;
    assert multiset(g.maps) == multiset{} && multiset(g.spaces) == multiset{};
    assert forall m :: m in g.maps <==> m in multiset(g.maps);
    assert forall x :: x in g.spaces <==> x in multiset(g.spaces);
  }
}
