/** What creating and growing a buffer mean for their caller. */
module BufferFacts {
  import opened Chains
  import opened Plat
  import opened PlatFacts
  import opened Residency
  import opened Eviction
  import FaultFacts
  import opened Progress
  import opened VramBuf
  import BufferBooks
  import opened System
  import opened Evolution
  import opened Soundness
  import Runs

  // ----- create -----

  /** An empty buffer on its own reservation: the size asked for, rounded up to the next 2 MiB. */
  ghost predicate Empty(b: Buf, device: int, size: nat) {
    && b.base != 0 && b.device == device && b.backed == 0 && b.handles == []
    && size <= b.maxSize < size + CUDA_PAGE && b.maxSize % CUDA_PAGE == 0
  }

  /** Creating a buffer costs no VRAM; it leaves an empty buffer and its reservation, or nothing at all. */
  lemma CreateMeans(env: Env, d: Dev, device: int, size: nat)
    ensures var c := CreateBuffer(env, d, device, size);
            && c.dev == d.(clock := c.dev.clock, gpu := c.dev.gpu)
            && match c
               case NotCreated(d') => d'.gpu == d.gpu
               case Created(d', b) =>
                 && Empty(b, device, size)
                 && d'.clock == d.clock + 2
                 && d'.gpu == d.gpu.(spaces := d.gpu.spaces + {Space(b.base, b.maxSize)})
  {
    hide Reserve;
    ReserveAnswers(env, d.(clock := d.clock + 1), AlignUp(size, CUDA_PAGE));
  }

  /** It succeeds when the host has room and the driver grants an address with that much free space behind it. */
  lemma CreateSucceeds(env: Env, d: Dev, device: int, size: nat)
    requires env(d.clock).result.Success? && env(d.clock + 1).result.Success?
    requires var base := env(d.clock + 1).value;
             base != 0 && forall o :: o in d.gpu.spaces ==> Space(base, size + CUDA_PAGE).Apart(o)
    ensures CreateBuffer(env, d, device, size).Created?
  {
    hide Reserve;
    var d1 := d.(clock := d.clock + 1);
    var n := AlignUp(size, CUDA_PAGE);
    var base := env(d1.clock).value;
    ReserveAnswers(env, d1, n);
    forall o | o in d1.gpu.spaces
      ensures Space(base, n).Apart(o)
    {
      assert Space(base, size + CUDA_PAGE).Apart(o);
    }
  }

  // ----- grow -----

  /** The same buffer, with more chunks behind the ones it had. */
  ghost predicate Longer(b: Buf, b': Buf) {
    && b'.base == b.base && b'.maxSize == b.maxSize && b'.device == b.device
    && b.backed <= b'.backed && b.handles <= b'.handles
  }

  lemma {:induction false} LoopMeans(env: Env, w: World, b: Buf, goal: nat)
    requires AllWf(w.bars) && b.backed <= goal
    ensures var g := GrowLoop(env, w, b, goal);
            && Longer(b, g.buf) && g.buf.backed <= goal && (g.ok <==> g.buf.backed == goal)
    decreases goal - b.backed
  {
    hide FreePages, Stooges;
    if b.backed < goal {
      var g := GrowChunk(env, w, b, goal);
      if g.ok {
        LoopMeans(env, g.w, g.buf, goal);
      }
    }
  }

  /** A grow says yes exactly if the buffer then backs what was required, and never backs more than the reservation,
      or more than the chunk that completes the requirement. Beyond the reservation it refuses, and what is backed
      already costs nothing: both leave everything as it was. The chunks there were stay. */
  lemma GrowMeans(env: Env, w: World, b: Buf, required: nat)
    requires AllWf(w.bars) && Tiled(b)
    ensures var g := GrowBuffer(env, w, b, required);
            && Longer(b, g.buf)
            && (g.ok <==> required <= g.buf.backed)
            && g.buf.backed <= b.maxSize
            && (required > b.backed ==> g.buf.backed < required + CHUNK)
            && (required > b.maxSize || required <= b.backed ==> g.w == w && g.buf == b)
  {
    hide MakeRoom, GrowLoop;
    if b.backed < required <= b.maxSize {
      GrowsEnough(b, required);
      AlignUpMeans(required, CHUNK);
      var to := GrowTo(b, required);
      LoopMeans(env, MakeRoom(env, w, to - b.backed).w, b, to);
      if GrowBuffer(env, w, b, required).buf.backed < to {
        LoopStops(env, MakeRoom(env, w, to - b.backed).w, b, required);
      }
    }
  }

  /** A buffer that stopped short of its goal has not reached the requirement: the goal is the first chunk boundary from
      there on, or the end of the reservation. */
  lemma {:induction false} LoopStops(env: Env, w: World, b: Buf, required: nat)
    requires AllWf(w.bars) && Tiled(b) && b.backed < required <= b.maxSize
    ensures var g := GrowLoop(env, w, b, GrowTo(b, required));
            g.buf.backed < GrowTo(b, required) ==> g.buf.backed < required
    decreases b.maxSize - b.backed
  {
    hide FreePages, Stooges, AlignUp;
    GrowsEnough(b, required);
    AlignUpMeans(required, CHUNK);
    var to := GrowTo(b, required);
    var g := GrowChunk(env, w, b, to);
    if g.ok {
      ChunkTiles(b, required, g.buf.handles[|b.handles|]);
      if g.buf.backed < required {
        LoopStops(env, g.w, g.buf, required);
      } else {
        BoundaryReached(g.buf.backed, required, b.maxSize);
      }
    }
  }

  lemma BoundaryReached(backed: nat, required: nat, maxSize: nat)
    requires required <= backed <= maxSize && (backed % CHUNK == 0 || backed == maxSize)
    ensures backed >= if AlignUp(required, CHUNK) > maxSize then maxSize else AlignUp(required, CHUNK)
  {
  }

  // ----- when it must succeed -----

  /** Chunks still to map. */
  function ChunksLeft(b: Buf, to: nat): nat { if to <= b.backed then 0 else (to - b.backed + CHUNK - 1) / CHUNK }

  lemma {:induction false} LoopSucceeds(env: Env, w: World, b: Buf, to: nat, hi: nat)
    requires AllWf(w.bars) && w.dev.clock + 3 * ChunksLeft(b, to) <= hi
    requires Generous(env, w.dev.clock, hi, w.dev.gpu.live)
    ensures GrowLoop(env, w, b, to).ok
    decreases if to > b.backed then to - b.backed else 0
  {
    hide Generous, Since, Stooges, FreePages;
    if b.backed < to {
      var n := VramBuf.Step(b, to);
      StoogesSucceeds(env, w.dev, b.base + b.backed, n, hi);
      var t := Stooges(env, w.dev, b.base + b.backed, n);
      StillGenerous(env, w.dev, t.dev, hi);
      var b' := Extended(b, n, t.handle);
      assert ChunksLeft(b', to) == ChunksLeft(b, to) - 1;
      LoopSucceeds(env, World(t.dev, w.bars), b', to, hi);
    }
  }

  /** A grow within the reservation must succeed when every call is granted. */
  lemma GrowSucceeds(env: Env, w: World, b: Buf, required: nat, hi: nat)
    requires AllWf(w.bars) && b.backed <= b.maxSize && required <= b.maxSize
    requires w.dev.clock + 1 + 3 * ((b.maxSize - b.backed + CHUNK - 1) / CHUNK) <= hi
    requires Generous(env, w.dev.clock, hi, w.dev.gpu.live)
    ensures GrowBuffer(env, w, b, required).ok
  {
    hide Generous, Since, GrowLoop, MakeRoom;
    if b.backed < required {
      GrowsEnough(b, required);
      var to := GrowTo(b, required);
      var w1 := MakeRoom(env, w, to - b.backed).w;
      RoomDev(env, w, to - b.backed);
      SinceSame(env, w.dev, w1.dev);
      StillGenerous(env, w.dev, w1.dev, hi);
      LoopSucceeds(env, w1, b, to, hi);
    }
  }

  lemma RoomDev(env: Env, w: World, size: nat)
    requires AllWf(w.bars)
    ensures var d := MakeRoom(env, w, size).w.dev; d.clock == w.dev.clock + 1 && d.gpu.live <= w.dev.gpu.live
  {
    var d := Poll(env, w.dev);
    FreedDev(World(d, w.bars), Deficit(d, size));
  }

  lemma FreedDev(w: World, size: nat)
    requires AllWf(w.bars)
    ensures var d := FreePages(w, size).w.dev;
            && d.clock == w.dev.clock && d.gpu.live <= w.dev.gpu.live && d == w.dev.(usage := d.usage, gpu := d.gpu)
  {
    var ms := Drain(w.bars, 0, PagesUp(size)).dropped;
    FaultFacts.DrainSizes(w.bars, 0, PagesUp(size));
    FaultFacts.DropAllEffect(w.dev, ms);
    DropAllLive(w.dev, ms);
  }

  // ----- shortages -----

  /** A chunk that finds memory evicts nothing. One that does not costs the VBARs one page, or finds all of them at
      their limits, and is tried once more: the answer is that of the second try. Any other error ends the grow. */
  lemma ChunkRetries(env: Env, w: World, b: Buf, to: nat)
    requires AllWf(w.bars) && b.backed < to
    ensures var va, n := b.base + b.backed, VramBuf.Step(b, to);
            var first := Stooges(env, w.dev, va, n);
            var g := GrowChunk(env, w, b, to);
            if !first.err.OutOfMemory? then (g.ok <==> first.err.Success?) && g.w.bars == w.bars
            else
              exists d: Dev ::
                && d == first.dev.(usage := d.usage, gpu := d.gpu)
                && (|| d.usage == w.dev.usage - VBAR_PAGE
                    || (d.usage == w.dev.usage && AtLimits(g.w.bars, 0)))
                && (g.ok <==> Stooges(env, d, va, n).err.Success?)
                && (g.ok ==> g.buf == Extended(b, n, Stooges(env, d, va, n).handle))
                && AllShrunk(w.bars, g.w.bars)
  {
    hide Stooges, DropAll;
    var va, n := b.base + b.backed, VramBuf.Step(b, to);
    var first := Stooges(env, w.dev, va, n);
    FaultFacts.StoogesUsage(env, w.dev, va, n);
    if first.err.OutOfMemory? {
      var w1 := World(first.dev, w.bars);
      FreedDev(w1, CHUNK);
      FreedUsage(w1, CHUNK);
      assert PagesUp(CHUNK) == 1;
      FreePagesShrinks(w1, CHUNK);
      var d := FreePages(w1, CHUNK).w.dev;
      assert d == first.dev.(usage := d.usage, gpu := d.gpu);
    }
  }

  /** Eviction takes the pages asked for, or all that the limits allow. */
  lemma FreedUsage(w: World, size: nat)
    requires AllWf(w.bars)
    ensures var f := FreePages(w, size);
            && f.w.dev.usage == w.dev.usage - (PagesUp(size) - f.left) * VBAR_PAGE && f.left <= PagesUp(size)
            && (f.left > 0 ==> AtLimits(f.w.bars, 0))
  {
    FaultFacts.DrainSizes(w.bars, 0, PagesUp(size));
    DrainLowestFirst(w.bars, 0, PagesUp(size));
    FaultFacts.DropAllEffect(w.dev, Drain(w.bars, 0, PagesUp(size)).dropped);
  }

  // ----- as steps -----

  /** The steps of the context are these operations: creating appends, growing replaces, destroying removes one buffer
      and gives back exactly its backed bytes. */
  lemma BufferSteps(env: Env, s: State, i: nat, size: nat)
    requires Sound(s)
    ensures AllWf(s.w.bars)
    ensures var c, s' := CreateBuffer(env, s.w.dev, s.own, size), Next(env, s, CreateBuf(size));
            s' == s.(w := s.w.(dev := c.dev), bufs := if c.Created? then s.bufs + [c.buf] else s.bufs)
    ensures i < |s.bufs| ==>
              && s.bufs[i].backed <= s.bufs[i].maxSize
              && var g, s' := GrowBuffer(env, s.w, s.bufs[i], size), Next(env, s, GrowBuf(i, size));
                 s' == s.(w := g.w, bufs := s.bufs[i := g.buf])
    ensures i < |s.bufs| ==>
              var s' := Next(env, s, DestroyBuf(i));
              && s'.bufs == Without(s.bufs, i) && s'.w.bars == s.w.bars
              && s'.w.dev.usage == s.w.dev.usage - s.bufs[i].backed
  {
    hide Sound, CreateBuffer, GrowBuffer, ReleaseAll;
    Runs.SoundReady(s);
  }
}
