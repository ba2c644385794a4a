/** Growable VRAM buffers: one reservation, backed chunk by chunk. */
module VramBuf {
  import opened Plat
  import opened Residency
  import opened ModelVbar

  const CHUNK: nat := 16777216
  const HANDLE_BYTES: nat := 8

  /** `backed` is the number of bytes mapped so far (`allocated` in the source). */
  datatype Buf = Buf(base: nat, maxSize: nat, device: int, backed: nat, handles: seq<nat>)

  /** Whole chunks, except that the last may stop at the end of the reservation. */
  ghost predicate Tiled(b: Buf) {
    && b.maxSize % CUDA_PAGE == 0 && b.backed <= b.maxSize
    && (b.backed % CHUNK == 0 || b.backed == b.maxSize)
    && |b.handles| == (b.backed + CHUNK - 1) / CHUNK
  }

  function Extended(b: Buf, n: nat, handle: nat): Buf {
    b.(backed := b.backed + n, handles := b.handles + [handle])
  }

  function Step(b: Buf, to: nat): nat
    requires b.backed < to
  {
    if to - b.backed > CHUNK then CHUNK else to - b.backed
  }

  datatype Grown = Grown(w: World, buf: Buf, ok: bool)

  /** One chunk: mapped at once, or after making VBARs give up one chunk's worth, or not at all. */
  function GrowChunk(env: Env, w: World, b: Buf, to: nat): (g: Grown)
    requires AllWf(w.bars) && b.backed < to
    ensures AllWf(g.w.bars) && (g.ok ==> b.backed < g.buf.backed <= to)
  {
    var n := Step(b, to);
    var first := Stooges(env, w.dev, b.base + b.backed, n);
    if first.err.Success? then Grown(World(first.dev, w.bars), Extended(b, n, first.handle), true)
    else if first.err.OtherError? then Grown(World(first.dev, w.bars), b, false) else
    var w' := FreePages(World(first.dev, w.bars), CHUNK).w;
    var second := Stooges(env, w'.dev, b.base + b.backed, n);
    if second.err.Success? then Grown(World(second.dev, w'.bars), Extended(b, n, second.handle), true)
    else Grown(World(second.dev, w'.bars), b, false)
  }

  function GrowLoop(env: Env, w: World, b: Buf, to: nat): (g: Grown)
    requires AllWf(w.bars)
    ensures AllWf(g.w.bars)
    decreases if to > b.backed then to - b.backed else 0
  {
    if b.backed >= to then Grown(w, b, true) else
    var g := GrowChunk(env, w, b, to);
    if g.ok then GrowLoop(env, g.w, g.buf, to) else g
  }

  function GrowTo(b: Buf, required: nat): nat {
    if AlignUp(required, CHUNK) > b.maxSize then b.maxSize else AlignUp(required, CHUNK)
  }

  function GrowBuffer(env: Env, w: World, b: Buf, required: nat): (g: Grown)
    requires AllWf(w.bars) && b.backed <= b.maxSize
    ensures AllWf(g.w.bars)
  {
    if required > b.maxSize then Grown(w, b, false)
    else if required <= b.backed then Grown(w, b, true) else
    var to := GrowTo(b, required);
    GrowLoop(env, MakeRoom(env, w, to - b.backed).w, b, to)
  }

  datatype Created = Created(dev: Dev, buf: Buf) | NotCreated(dev: Dev)

  /** The first answer is the host allocator's, the second the driver's. */
  function CreateBuffer(env: Env, d: Dev, device: int, maxSize: nat): Created {
    var a := env(d.clock);
    var d' := d.(clock := d.clock + 1);
    if !a.result.Success? then NotCreated(d') else
    var r := Reserve(env, d', AlignUp(maxSize, CUDA_PAGE));
    if !r.err.Success? then NotCreated(r.dev)
    else Created(r.dev, Buf(r.handle, AlignUp(maxSize, CUDA_PAGE), device, 0, []))
  }

  function ReleaseAll(g: Gpu, handles: seq<nat>): Gpu {
    if handles == [] then g else ReleaseAll(g, handles[..|handles| - 1]).Release(handles[|handles| - 1])
  }

  /** One unmap over all chunks, then every handle, the reservation and the usage. */
  function DestroyBuffer(d: Dev, b: Buf): Dev {
    var g := if b.backed > 0 then d.gpu.Unmap(b.base, b.base + b.backed) else d.gpu;
    d.(usage := d.usage - b.backed, gpu := ReleaseAll(g, b.handles).Free(Space(b.base, b.maxSize)))
  }

  /** A chunk leaves the buffer tiled, and there is a slot for its handle. */
  lemma ChunkTiles(b: Buf, required: nat, handle: nat)
    requires Tiled(b) && required <= b.maxSize && b.backed < GrowTo(b, required)
    ensures Tiled(Extended(b, Step(b, GrowTo(b, required)), handle)) && |b.handles| < 1 + b.maxSize / CHUNK
  {
  }

  lemma GrowsEnough(b: Buf, required: nat)
    requires required <= b.maxSize
    ensures required <= GrowTo(b, required) <= b.maxSize
  {
  }

  /** The calloc in the source rounds bytes, not slots: it still leaves one slot and every whole chunk's. */
  lemma SlotsAllocated(maxSize: nat)
    requires maxSize % CUDA_PAGE == 0
    ensures 1 + HANDLE_BYTES * maxSize / CHUNK / HANDLE_BYTES == 1 + maxSize / CHUNK
  {
  }

  class VramBuffer {
    const basePtr: nat
    const maxSize: nat
    const device: int
    const handles: array<nat>
    var backed: nat
    var handleCount: nat
    var next: VramBuffer?

    constructor (basePtr: nat, maxSize: nat, device: int)
      requires maxSize % CUDA_PAGE == 0
      ensures fresh(handles) && Shows(Buf(basePtr, maxSize, device, 0, [])) && next == null
    {
      this.basePtr, this.maxSize, this.device := basePtr, maxSize, device;
      handles := new nat[1 + HANDLE_BYTES * maxSize / CHUNK / HANDLE_BYTES];
      backed, handleCount, next := 0, 0, null;
      new;
      SlotsAllocated(maxSize);
    }

    ghost predicate Shows(b: Buf)
      reads this`backed, this`handleCount, handles
    {
      && handles.Length == 1 + maxSize / CHUNK && handleCount <= handles.Length
      && b == Buf(basePtr, maxSize, device, backed, handles[..handleCount])
      && Tiled(b)
    }

    method Append(n: nat, h: nat, ghost b: Buf)
      requires Shows(b) && |b.handles| < handles.Length && Tiled(Extended(b, n, h))
      modifies this`backed, this`handleCount, handles
      ensures Shows(Extended(b, n, h))
    {
      handles[handleCount] := h;
      handleCount := handleCount + 1;
      backed := backed + n;
    }

    method Grow(v: VbarList, required: nat, ghost b: Buf) returns (ok: bool, ghost b': Buf)
      requires v.Valid() && Shows(b) && {this, handles} !! v.Repr
      modifies this`backed, this`handleCount, handles, v.Repr, v.device
      ensures v.Valid() && v.SameList() && Shows(b')
      ensures Grown(v.World(), b', ok) == GrowBuffer(v.device.env, old(v.World()), b, required)
    {
      hide VbarList.Valid, Residency.MakeRoom, GrowChunk, Stooges, Tiled;
      v.At(0);
      b' := b;
      if required > maxSize {
        return false, b';
      }
      if required <= backed {
        return true, b';
      }
      var growTo := AlignUp(required, CHUNK);
      if growTo > maxSize {
        growTo := maxSize;
      }
      GrowsEnough(b, required);
      var left := v.MakeRoom(growTo - backed);
      ghost var w0 := v.World();
      v.At(0);
      while backed < growTo
        invariant v.Valid() && v.SameList() && Shows(b') && AllWf(v.bars) && b'.maxSize == b.maxSize
        invariant GrowLoop(v.device.env, w0, b, growTo) == GrowLoop(v.device.env, v.World(), b', growTo)
        decreases growTo - backed
      {
        var fits;
        fits, b' := GrowOne(v, growTo, required, b');
        if !fits {
          return false, b';
        }
        v.At(0);
      }
      ok := true;
    }

    method GrowOne(v: VbarList, growTo: nat, ghost required: nat, ghost b: Buf) returns (fits: bool, ghost b': Buf)
      requires v.Valid() && Shows(b) && {this, handles} !! v.Repr
      requires b.backed < growTo == GrowTo(b, required) && required <= b.maxSize
      modifies this`backed, this`handleCount, handles, v.Repr, v.device
      ensures v.Valid() && v.SameList() && Shows(b')
      ensures AllWf(old(v.bars)) && b'.maxSize == b.maxSize
      ensures Grown(v.World(), b', fits) == GrowChunk(v.device.env, old(v.World()), b, growTo)
    {
      hide VbarList.Valid, FreePages, Stooges;
      v.At(0);
      b' := b;
      var toAllocate := growTo - backed;
      if toAllocate > CHUNK {
        toAllocate := CHUNK;
      }
      var err, handle := v.device.ThreeStooges(basePtr + backed, toAllocate);
      if !err.Success? {
        if !err.OutOfMemory? {
          return false, b';
        }
        var left := v.VbarsFree(CHUNK);
        v.At(0);
        err, handle := v.device.ThreeStooges(basePtr + backed, toAllocate);
        if !err.Success? {
          return false, b';
        }
      }
      ChunkTiles(b, required, handle);
      b' := Extended(b, toAllocate, handle);
      Append(toAllocate, handle, b);
      return true, b';
    }

    method Destroy(dev: Device, ghost b: Buf)
      requires Shows(b)
      modifies dev
      ensures dev.View() == DestroyBuffer(old(dev.View()), b)
    {
      if backed > 0 {
        dev.MemUnmap(basePtr, backed);
      }
      ghost var g := dev.gpu;
      for i := 0 to handleCount
        invariant dev.gpu == ReleaseAll(g, b.handles[..i])
        invariant dev.View() == old(dev.View()).(gpu := dev.gpu)
      {
        assert b.handles[..i + 1][..i] == b.handles[..i];
        dev.MemRelease(handles[i]);
      }
      assert b.handles[..handleCount] == b.handles;
      dev.AddressFree(Space(basePtr, maxSize));
      dev.usage := dev.usage - backed;
    }
  }

  method VrambufCreate(dev: Device, device: int, maxSize: nat) returns (buf: VramBuffer?)
    modifies dev
    ensures buf != null ==> buf.device == device
    ensures match CreateBuffer(dev.env, old(dev.View()), device, maxSize)
            case NotCreated(d) => buf == null && dev.View() == d
            case Created(d, b) => buf != null && fresh(buf) && fresh(buf.handles) && dev.View() == d && buf.Shows(b)
  {
    var aligned := AlignUp(maxSize, CUDA_PAGE);
    var host := dev.Ask();
    if !host.result.Success? {
      return null;
    }
    var err, base := dev.AddressReserve(aligned);
    if !err.Success? {
      return null;
    }
    buf := new VramBuffer(base, aligned, device);
  }
}
