/** No buffer operation unbalances the books, and what growing a buffer promises. */
module BufferBooks {
  import opened Chains
  import opened Plat
  import opened Residency
  import opened Eviction
  import FaultFacts
  import opened Resources
  import opened VbarBooks
  import opened VramBuf

  /** Chunk i: 16 MiB, except that the last one ends with the backed bytes. */
  function Chunk(b: Buf, i: nat): Mapping
    requires i < |b.handles|
  {
    Mapping(b.base + i * CHUNK, if b.backed - i * CHUNK < CHUNK then b.backed - i * CHUNK else CHUNK, b.handles[i])
  }

  function Chunks(b: Buf): seq<Mapping> {
    seq(|b.handles|, i requires 0 <= i < |b.handles| => Chunk(b, i))
  }

  function BufRegion(b: Buf): Region {
    Region(Space(b.base, b.maxSize), multiset(Chunks(b)), b.backed)
  }

  /** The chunks tile the backed bytes exactly: each byte lies in its own chunk and in no other. */
  lemma ChunksTile(b: Buf, x: int)
    requires Tiled(b) && b.base <= x < b.base + b.backed
    ensures var i := (x - b.base) / CHUNK;
            && 0 <= i < |b.handles| && Chunk(b, i).Meets(x, x + 1)
            && forall j :: 0 <= j < |b.handles| && Chunk(b, j).Meets(x, x + 1) ==> j == i
  {
  }

  lemma ChunkInside(b: Buf, i: nat)
    requires Tiled(b) && i < |b.handles|
    ensures Chunk(b, i).size > 0 && Chunk(b, i).Inside(b.base, b.base + b.backed)
  {
  }

  lemma ChunksExtended(b: Buf, n: nat, h: nat)
    requires Tiled(b) && Tiled(Extended(b, n, h)) && n > 0
    ensures Chunks(Extended(b, n, h)) == Chunks(b) + [Mapping(b.base + b.backed, n, h)]
  {
    var c := Extended(b, n, h);
    assert b.backed % CHUNK == 0;
    forall i | 0 <= i < |b.handles|
      ensures Chunk(c, i) == Chunk(b, i)
    {
    }
  }

  lemma NextChunkHasRoom(b: Buf, n: nat)
    requires Tiled(b) && n > 0 && b.backed + n <= b.maxSize
    ensures Room(BufRegion(b), b.base + b.backed, n)
  {
    forall o | o in BufRegion(b).held
      ensures !o.Meets(b.base + b.backed, b.base + b.backed + n)
    {
      var i :| 0 <= i < |Chunks(b)| && Chunks(b)[i] == o;
      ChunkInside(b, i);
    }
  }

  // ----- growing -----

  /** One chunk more, or nothing but evictions: the buffer stays tiled and the books balanced. */
  lemma ChunkBooks(env: Env, w: World, b: Buf, required: nat, pre: seq<Region>, post: seq<Region>, extra: int)
    requires AllWf(w.bars) && Tiled(b) && required <= b.maxSize && b.backed < GrowTo(b, required)
    requires Books(w, pre + [BufRegion(b)] + post, extra)
    ensures var g := GrowChunk(env, w, b, GrowTo(b, required));
            Tiled(g.buf) && g.buf.base == b.base && g.buf.maxSize == b.maxSize && g.buf.device == b.device
            && Books(g.w, pre + [BufRegion(g.buf)] + post, extra)
  {
    hide Books, Stooges, FreePages, BufRegion;
    var to := GrowTo(b, required);
    var n := Step(b, to);
    var rest := pre + [BufRegion(b)] + post;
    GrowsEnough(b, required);
    var first := Stooges(env, w.dev, b.base + b.backed, n);
    ChunkTiles(b, required, first.handle);
    ExtendBooks(env, w, b, n, pre, post, extra);
    if first.err.OutOfMemory? {
      var w1 := World(first.dev, w.bars);
      FreePagesBooks(w1, CHUNK, rest, extra);
      var w2 := FreePages(w1, CHUNK).w;
      ChunkTiles(b, required, Stooges(env, w2.dev, b.base + b.backed, n).handle);
      ExtendBooks(env, w2, b, n, pre, post, extra);
    }
  }

  lemma ExtendBooks(env: Env, w: World, b: Buf, n: nat, pre: seq<Region>, post: seq<Region>, extra: int)
    requires Tiled(b) && n > 0 && b.backed + n <= b.maxSize && forall h :: Tiled(Extended(b, n, h))
    requires Books(w, pre + [BufRegion(b)] + post, extra)
    ensures var t := Stooges(env, w.dev, b.base + b.backed, n);
            var b' := if t.err.Success? then Extended(b, n, t.handle) else b;
            Books(World(t.dev, w.bars), pre + [BufRegion(b')] + post, extra)
  {
    hide Balanced, Stooges, BarRegion, Chunks, Tiled;
    var rest := pre + [BufRegion(b)] + post;
    var regs := BarRegions(w.bars) + rest;
    var k := |w.bars| + |pre|;
    assert regs[k] == BufRegion(b);
    NextChunkHasRoom(b, n);
    StoogesBalanced(env, w.dev, regs, extra, k, b.base + b.backed, n);
    var t := Stooges(env, w.dev, b.base + b.backed, n);
    if t.err.Success? {
      ChunksExtended(b, n, t.handle);
      var r := BufRegion(Extended(b, n, t.handle));
      assert regs[k := r] == BarRegions(w.bars) + (pre + [r] + post);
    }
  }

  lemma {:induction false} GrowLoopBooks(env: Env, w: World, b: Buf, required: nat, pre: seq<Region>,
                                         post: seq<Region>, extra: int)
    requires AllWf(w.bars) && Tiled(b) && required <= b.maxSize
    requires Books(w, pre + [BufRegion(b)] + post, extra)
    ensures var g := GrowLoop(env, w, b, GrowTo(b, required));
            Tiled(g.buf) && g.buf.base == b.base && g.buf.maxSize == b.maxSize && g.buf.device == b.device
            && Books(g.w, pre + [BufRegion(g.buf)] + post, extra)
    decreases if GrowTo(b, required) > b.backed then GrowTo(b, required) - b.backed else 0
  {
    hide Books, GrowChunk, BufRegion, Tiled;
    if b.backed < GrowTo(b, required) {
      ChunkBooks(env, w, b, required, pre, post, extra);
      var g := GrowChunk(env, w, b, GrowTo(b, required));
      if g.ok {
        GrowLoopBooks(env, g.w, g.buf, required, pre, post, extra);
      }
    }
  }

  /** Any grow, also one that fails part-way, leaves the buffer tiled and the books balanced. */
  lemma GrowBooks(env: Env, w: World, b: Buf, required: nat, pre: seq<Region>, post: seq<Region>, extra: int)
    requires AllWf(w.bars) && Tiled(b) && Books(w, pre + [BufRegion(b)] + post, extra)
    ensures var g := GrowBuffer(env, w, b, required);
            Tiled(g.buf) && g.buf.base == b.base && g.buf.maxSize == b.maxSize && g.buf.device == b.device
            && Books(g.w, pre + [BufRegion(g.buf)] + post, extra)
  {
    hide Books, GrowLoop, MakeRoom, BufRegion;
    if b.backed < required <= b.maxSize {
      GrowsEnough(b, required);
      var room := GrowTo(b, required) - b.backed;
      MakeRoomBooks(env, w, room, pre + [BufRegion(b)] + post, extra);
      GrowLoopBooks(env, MakeRoom(env, w, room).w, b, required, pre, post, extra);
    }
  }

  // ----- destroying -----

  /** The driver has this buffer's chunks mapped, and nothing else in their bytes. */
  ghost predicate ChunksMapped(g: Gpu, b: Buf) {
    && (forall i :: 0 <= i < |b.handles| ==> Chunk(b, i) in g.maps)
    && forall o :: o in g.maps ==> o.size > 0 && (o.Meets(b.base, b.base + b.backed) ==> o in Chunks(b))
  }

  lemma OwnChunksMapped(d: Dev, regs: seq<Region>, extra: int, k: nat, b: Buf)
    requires Balanced(d, regs, extra) && k < |regs| && regs[k] == BufRegion(b) && Tiled(b)
    ensures ChunksMapped(d.gpu, b)
  {
    hide Maps, Spaces, Bytes, Balanced;
    HeldIsMapped(d, regs, extra, k);
    Sized(d, regs, extra);
    forall o | o in d.gpu.maps && o.Meets(b.base, b.base + b.backed)
      ensures o in Chunks(b)
    {
      OnlyOwnMeets(d, regs, extra, k, o);
    }
    forall i | 0 <= i < |b.handles|
      ensures Chunk(b, i) in d.gpu.maps
    {
      assert Chunks(b)[i] in multiset(Chunks(b));
    }
  }

  /** Unmapping all chunks at once removes exactly them. */
  lemma UnmapChunks(g: Gpu, b: Buf)
    requires ChunksMapped(g, b) && Tiled(b) && !g.misuse
    ensures g.Unmap(b.base, b.base + b.backed) == g.(maps := set o | o in g.maps && o !in Chunks(b))
  {
    forall o | o in g.maps && o in Chunks(b)
      ensures o.Inside(b.base, b.base + b.backed)
    {
      var i :| 0 <= i < |Chunks(b)| && Chunks(b)[i] == o;
      ChunkInside(b, i);
    }
    forall x | b.base <= x < b.base + b.backed
      ensures g.Backed(x)
    {
      ChunksTile(b, x);
      assert Chunk(b, (x - b.base) / CHUNK) in g.maps;
    }
    assert g.Unmappable(b.base, b.base + b.backed);
    assert forall o :: o in g.maps ==> (o.Inside(b.base, b.base + b.backed) <==> o in Chunks(b));
  }

  /** Releasing distinct live handles that nothing maps any more. */
  lemma {:induction false} ReleaseAllLegal(g: Gpu, handles: seq<nat>)
    requires !g.misuse && forall i :: 0 <= i < |handles| ==> handles[i] in g.live
    requires forall i, j :: 0 <= i < j < |handles| ==> handles[i] != handles[j]
    requires forall o :: o in g.maps ==> o.handle !in handles
    ensures ReleaseAll(g, handles) == g.(live := set h | h in g.live && h !in handles)
  {
    if handles != [] {
      var n := |handles| - 1;
      ReleaseAllLegal(g, handles[..n]);
      assert handles == handles[..n] + [handles[n]];
      var g' := g.(live := set h | h in g.live && h !in handles[..n]);
      assert g'.Release(handles[n]).live == set h | h in g.live && h !in handles;
    } else {
      assert (set h | h in g.live && h !in handles) == g.live;
    }
  }

  lemma MinusHeld(s: set<Mapping>, held: seq<Mapping>)
    requires multiset(held) <= multiset(s)
    ensures multiset(set o | o in s && o !in held) == multiset(s) - multiset(held)
  {
    forall o
      ensures multiset(set o | o in s && o !in held)[o] == (multiset(s) - multiset(held))[o]
    {
      assert o in held <==> o in multiset(held);
      assert multiset(held)[o] <= multiset(s)[o] <= 1;
    }
  }

  lemma HandlesDistinct(g: Gpu, b: Buf)
    requires ChunksMapped(g, b) && Tiled(b) && Disjoint(g) && Backing(g)
    ensures forall i :: 0 <= i < |b.handles| ==> b.handles[i] in g.live
    ensures forall i, j :: 0 <= i < j < |b.handles| ==> b.handles[i] != b.handles[j]
    ensures forall o :: o in g.maps && o !in Chunks(b) ==> o.handle !in b.handles
  {
    forall i | 0 <= i < |b.handles|
      ensures b.handles[i] in g.live
    {
      assert Chunk(b, i) in g.maps && Chunk(b, i).handle == b.handles[i];
    }
    forall i, j | 0 <= i < j < |b.handles|
      ensures b.handles[i] != b.handles[j]
    {
      assert Chunk(b, i) in g.maps && Chunk(b, j) in g.maps && Chunk(b, i).va != Chunk(b, j).va;
    }
    forall o | o in g.maps && o !in Chunks(b)
      ensures o.handle !in b.handles
    {
      forall i | 0 <= i < |b.handles|
        ensures b.handles[i] != o.handle
      {
        assert Chunks(b)[i] == Chunk(b, i) && Chunk(b, i) in g.maps;
      }
    }
  }

  /** What is left of the driver's state once a buffer's chunks and handles are gone. */
  lemma ChunksGone(g: Gpu, b: Buf)
    requires ChunksMapped(g, b) && Tiled(b) && Disjoint(g) && Backing(g) && !g.misuse
    ensures var g1 := if b.backed > 0 then g.Unmap(b.base, b.base + b.backed) else g;
            var g2 := ReleaseAll(g1, b.handles);
            && g2.maps == (set o | o in g.maps && o !in Chunks(b)) && g2.spaces == g.spaces
            && Disjoint(g2) && Backing(g2) && !g2.misuse
  {
    var g1 := if b.backed > 0 then g.Unmap(b.base, b.base + b.backed) else g;
    if b.backed > 0 {
      UnmapChunks(g, b);
    } else {
      assert b.handles == [] && Chunks(b) == [];
      assert g.maps == set o | o in g.maps && o !in Chunks(b);
    }
    HandlesDistinct(g, b);
    ReleaseAllLegal(g1, b.handles);
    var g2 := ReleaseAll(g1, b.handles);
    forall h | h in g2.live
      ensures exists o :: o in g2.maps && o.handle == h
    {
      var o :| o in g.maps && o.handle == h;
      forall i | 0 <= i < |Chunks(b)|
        ensures Chunks(b)[i] != o
      {
        assert Chunks(b)[i].handle == b.handles[i];
      }
      assert o in g2.maps;
    }
  }

  /** Destroying buffer k gives back all it held and its reservation. */
  lemma DestroyBalanced(d: Dev, regs: seq<Region>, extra: int, k: nat, b: Buf)
    requires Balanced(d, regs, extra) && k < |regs| && regs[k] == BufRegion(b) && Tiled(b)
    ensures Balanced(DestroyBuffer(d, b), regs[..k] + regs[k + 1..], extra)
  {
    hide Maps, Spaces, Bytes, Disjoint, Backing, Chunks, ReleaseAll, Gpu.Unmap, ChunksMapped, Tiled;
    OwnChunksMapped(d, regs, extra, k, b);
    ChunksGone(d.gpu, b);
    HeldInSum(regs, k);
    MinusHeld(d.gpu.maps, Chunks(b));
    var g1 := if b.backed > 0 then d.gpu.Unmap(b.base, b.base + b.backed) else d.gpu;
    var d' := d.(usage := d.usage - b.backed, gpu := ReleaseAll(g1, b.handles));
    var r := Region(Space(b.base, b.maxSize), multiset{}, 0);
    Rebalanced(d, d', regs, extra, k, r);
    FreeBalanced(d', regs[k := r], extra, k);
    assert regs[k := r][..k] == regs[..k] && regs[k := r][k + 1..] == regs[k + 1..];
  }

  lemma DestroyBooks(w: World, b: Buf, pre: seq<Region>, post: seq<Region>, extra: int)
    requires Books(w, pre + [BufRegion(b)] + post, extra) && Tiled(b)
    ensures Books(World(DestroyBuffer(w.dev, b), w.bars), pre + post, extra)
  {
    hide Balanced, DestroyBuffer, BufRegion, BarRegion;
    var regs := BarRegions(w.bars) + (pre + [BufRegion(b)] + post);
    var k := |w.bars| + |pre|;
    DestroyBalanced(w.dev, regs, extra, k, b);
    assert regs[..k] + regs[k + 1..] == BarRegions(w.bars) + (pre + post);
  }

  lemma CreateBooks(env: Env, w: World, device: int, size: nat, rest: seq<Region>, extra: int)
    requires Books(w, rest, extra)
    ensures match CreateBuffer(env, w.dev, device, size)
            case NotCreated(d) => Books(World(d, w.bars), rest, extra)
            case Created(d, b) => Tiled(b) && Books(World(d, w.bars), rest + [BufRegion(b)], extra)
  {
    hide Balanced, Reserve, BarRegion;
    var d := w.dev.(clock := w.dev.clock + 1);
    SameBooks(w, World(d, w.bars), rest, extra);
    if env(w.dev.clock).result.Success? {
      var max := AlignUp(size, CUDA_PAGE);
      var regs := BarRegions(w.bars) + rest;
      ReserveBalanced(env, d, regs, extra, max);
      var r := Reserve(env, d, max);
      if r.err.Success? {
        var b := Buf(r.handle, max, device, 0, []);
        assert Chunks(b) == [];
        assert regs + [BufRegion(b)] == BarRegions(w.bars) + (rest + [BufRegion(b)]);
      } else {
        SameBooks(w, World(r.dev, w.bars), rest, extra);
      }
    }
  }

  // ----- growing and the budget -----

  lemma FreePagesUsage(w: World, size: nat)
    requires AllWf(w.bars)
    ensures var f := FreePages(w, size).w; f.dev.usage <= w.dev.usage && f.dev.capacity == w.dev.capacity
  {
    FaultFacts.DrainSizes(w.bars, 0, PagesUp(size));
    FaultFacts.DropAllEffect(w.dev, Drain(w.bars, 0, PagesUp(size)).dropped);
  }

  lemma {:induction false} GrowLoopUsage(env: Env, w: World, b: Buf, to: nat)
    requires AllWf(w.bars)
    ensures var g := GrowLoop(env, w, b, to);
            && g.w.dev.usage <= w.dev.usage + (g.buf.backed - b.backed) && g.w.dev.capacity == w.dev.capacity
            && (g.ok ==> g.buf.backed >= to) && (b.backed <= to ==> g.buf.backed <= to)
    decreases if to > b.backed then to - b.backed else 0
  {
    hide FreePages, Stooges;
    if b.backed < to {
      var va, n := b.base + b.backed, Step(b, to);
      var first := Stooges(env, w.dev, va, n);
      FaultFacts.StoogesUsage(env, w.dev, va, n);
      if first.err.OutOfMemory? {
        FreePagesUsage(World(first.dev, w.bars), CHUNK);
        FaultFacts.StoogesUsage(env, FreePages(World(first.dev, w.bars), CHUNK).w.dev, va, n);
      }
      var g := GrowChunk(env, w, b, to);
      if g.ok {
        GrowLoopUsage(env, g.w, g.buf, to);
      }
    }
  }

  /** A grow whose eviction found every page ends within the budget, however its chunks were then mapped. */
  lemma GrowWithinBudget(env: Env, w: World, b: Buf, required: nat)
    requires AllWf(w.bars) && b.backed < required <= b.maxSize
    requires MakeRoom(env, w, GrowTo(b, required) - b.backed).left == 0
    ensures var g := GrowBuffer(env, w, b, required);
            && g.w.dev.usage <= FaultFacts.Target(g.w.dev)
            && (g.ok ==> required <= GrowTo(b, required) == g.buf.backed)
  {
    hide MakeRoom, GrowLoop, GrowTo, Deficit;
    GrowsEnough(b, required);
    var room := GrowTo(b, required) - b.backed;
    FaultFacts.RoomMade(env, w, room);
    GrowLoopUsage(env, MakeRoom(env, w, room).w, b, GrowTo(b, required));
  }
}
