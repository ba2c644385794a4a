/** What the plugin allocator promises: what a pointer it returns is worth, when it must return one, and what a free
    does. */
module PluginFacts {
  import opened Chains
  import opened Plat
  import opened PlatFacts
  import opened Residency
  import opened Eviction
  import opened Progress
  import opened VramBuf
  import opened BufferFacts
  import opened PlugAlloc
  import opened System
  import opened Evolution
  import opened Soundness
  import Runs

  lemma EmptyTiled(b: Buf, device: int, size: nat)
    requires Empty(b, device, size)
    ensures Tiled(b)
  {
  }

  /** A pointer is the address of a new buffer, latest in the table, of this device, that backs at least the size
      asked for. Null leaves the table as it was. Everything else it does to VBARs is evict. */
  lemma AllocMeans(env: Env, w: World, bufs: seq<Entry<Buf>>, own: int, size: nat, device: int)
    requires AllWf(w.bars)
    ensures var r := AllocFn(env, w, bufs, own, size, device);
            if r.ptr == 0 then r.bufs == bufs
            else
              && device == own && |r.bufs| == |bufs| + 1 && r.bufs[1..] == bufs
              && r.bufs[0].key == r.ptr
              && var b := r.bufs[0].item;
                 && b.base == r.ptr && b.device == device && Tiled(b)
                 && size <= b.backed <= b.maxSize < size + CUDA_PAGE
  {
    hide CreateBuffer, GrowBuffer, DestroyBuffer, Tiled;
    if device == own {
      CreateMeans(env, w.dev, device, size);
      match CreateBuffer(env, w.dev, device, size)
      case NotCreated(_) =>
      case Created(d, b) =>
        EmptyTiled(b, device, size);
        GrowMeans(env, World(d, w.bars), b, size);
        BufferTiled(env, World(d, w.bars), b, size);
    }
  }

  lemma BufferTiled(env: Env, w: World, b: Buf, required: nat)
    requires AllWf(w.bars) && Tiled(b)
    ensures Tiled(GrowBuffer(env, w, b, required).buf)
  {
    hide MakeRoom, GrowLoop, Tiled;
    TiledBacked(b);
    if b.backed < required <= b.maxSize {
      LoopTiled(env, MakeRoom(env, w, GrowTo(b, required) - b.backed).w, b, required);
    }
  }

  lemma TiledBacked(b: Buf)
    requires Tiled(b)
    ensures b.backed <= b.maxSize
  {
  }

  lemma {:induction false} LoopTiled(env: Env, w: World, b: Buf, required: nat)
    requires AllWf(w.bars) && Tiled(b) && required <= b.maxSize
    ensures Tiled(GrowLoop(env, w, b, GrowTo(b, required)).buf)
    decreases b.maxSize - b.backed
  {
    hide FreePages, Stooges, Tiled, GrowTo;
    var to := GrowTo(b, required);
    if b.backed < to {
      GrowsEnough(b, required);
      var g := GrowChunk(env, w, b, to);
      if g.ok {
        ChunkTiles(b, required, g.buf.handles[|b.handles|]);
        SameGoal(b, g.buf, required);
        LoopTiled(env, g.w, g.buf, required);
      }
    }
  }

  lemma SameGoal(b: Buf, b': Buf, required: nat)
    requires b'.maxSize == b.maxSize
    ensures GrowTo(b', required) == GrowTo(b, required)
  {
  }

  /** On the own device it must return a pointer when the host has room, the driver grants an address with enough free
      space behind it, and every mapping is granted. */
  lemma AllocSucceeds(env: Env, w: World, bufs: seq<Entry<Buf>>, own: int, size: nat, hi: nat)
    requires AllWf(w.bars)
    requires var c := w.dev.clock;
             && env(c).result.Success? && env(c + 1).result.Success? && env(c + 1).value != 0
             && (forall o :: o in w.dev.gpu.spaces ==> Space(env(c + 1).value, size + CUDA_PAGE).Apart(o))
             && Generous(env, c + 2, hi, w.dev.gpu.live) && c + 3 + 3 * ((size + CUDA_PAGE + CHUNK) / CHUNK) <= hi
    ensures AllocFn(env, w, bufs, own, size, own).ptr != 0
  {
    hide CreateBuffer, GrowBuffer, Generous, DestroyBuffer;
    CreateMeans(env, w.dev, own, size);
    CreateSucceeds(env, w.dev, own, size);
    match CreateBuffer(env, w.dev, own, size)
    case Created(d, b) =>
      GrowSucceeds(env, World(d, w.bars), b, size, hi);
  }

  /** A free of null, of another device, or of an address the table does not know changes nothing. A known address
      loses its latest buffer, whose bytes leave the usage; no VBAR changes. */
  lemma FreeMeans(w: World, bufs: seq<Entry<Buf>>, own: int, ptr: nat, device: int)
    ensures var r := FreeFn(w, bufs, own, ptr, device);
            if ptr == 0 || device != own || (forall i :: 0 <= i < |bufs| ==> bufs[i].key != ptr)
            then r.w == w && r.bufs == bufs
            else exists i :: 0 <= i < |bufs| && LatestDestroyed(w, bufs, r, ptr, i)
  {
    hide DestroyBuffer;
    var i := Find(bufs, ptr);
    if i < |bufs| {
      FindsLatest(bufs, ptr);
      if ptr != 0 && device == own {
        DestroyUsage(w.dev, bufs[i].item);
        assert LatestDestroyed(w, bufs, FreeFn(w, bufs, own, ptr, device), ptr, i);
      }
    } else {
      FindsLatest(bufs, ptr);
    }
  }

  lemma {:induction false} FindsLatest(bufs: seq<Entry<Buf>>, ptr: nat)
    ensures forall j :: 0 <= j < Find(bufs, ptr) ==> bufs[j].key != ptr
  {
    if bufs != [] && bufs[0].key != ptr {
      FindsLatest(bufs[1..], ptr);
    }
  }

  /** Buffer i was the latest at this address; it is gone from the table, and its bytes from the usage. */
  ghost predicate LatestDestroyed(w: World, bufs: seq<Entry<Buf>>, r: Plugged, ptr: nat, i: nat)
    requires i < |bufs|
  {
    && bufs[i].key == ptr && (forall j :: 0 <= j < i ==> bufs[j].key != ptr)
    && r.bufs == bufs[..i] + bufs[i + 1..]
    && r.w.bars == w.bars && r.w.dev.usage == w.dev.usage - bufs[i].item.backed
    && forall h :: h in bufs[i].item.handles ==> h !in r.w.dev.gpu.live
  }

  lemma DestroyUsage(d: Dev, b: Buf)
    ensures var d' := DestroyBuffer(d, b);
            d'.usage == d.usage - b.backed && forall h :: h in b.handles ==> h !in d'.gpu.live
  {
    var g := if b.backed > 0 then d.gpu.Unmap(b.base, b.base + b.backed) else d.gpu;
    ReleaseAllLive(g, b.handles);
  }

  lemma {:induction false} ReleaseAllLive(g: Gpu, handles: seq<nat>)
    ensures ReleaseAll(g, handles).live <= g.live && forall h :: h in handles ==> h !in ReleaseAll(g, handles).live
  {
    if handles != [] {
      ReleaseAllLive(g, handles[..|handles| - 1]);
    }
  }

  /** The steps of the context are these operations. */
  lemma PluginSteps(env: Env, s: State, n: nat, device: int)
    requires Sound(s)
    ensures AllWf(s.w.bars)
    ensures var r := AllocFn(env, s.w, s.plug, s.own, n, device);
            Next(env, s, System.PluginAlloc(n, device)) == s.(w := r.w, plug := r.bufs)
    ensures var r := FreeFn(s.w, s.plug, s.own, n, device);
            Next(env, s, System.PluginFree(n, device)) == s.(w := r.w, plug := r.bufs)
  {
    hide Sound, AllocFn, FreeFn;
    Runs.SoundReady(s);
  }
}
