/** One device context as a state machine: every exported operation is a step, a run is any sequence of them. */
module System {
  import opened Chains
  import opened Plat
  import opened Residency
  import opened Eviction
  import opened Resources
  import opened VbarBooks
  import VramBuf
  import opened BufferBooks
  import SizeTable
  import PlugAlloc

  /** VBARs with the driver and ledger, hooked allocations, stand-alone buffers, and the plugin's buffers. */
  datatype State = State(w: World, nextId: nat, allocs: seq<SizeTable.Alloc>, lost: nat, bufs: seq<VramBuf.Buf>,
                         plug: seq<Entry<VramBuf.Buf>>, own: int)

  datatype Op =
    | AllocateVbar(size: nat)
    | LimitVbar(id: nat, size: nat)
    | ResetLimits
    | PrioritizeVbar(id: nat)
    | DeprioritizeVbar(id: nat)
    | FaultVbar(id: nat, offset: nat, size: nat)
    | UnpinVbar(id: nat, offset: nat, size: nat)
    | FreeVbar(id: nat)
    | FreeVbarMemory(id: nat, size: nat)
    | CreateBuf(size: nat)
    | GrowBuf(i: nat, required: nat)
    | DestroyBuf(i: nat)
    | CudaMalloc(size: nat)
    | CudaMallocAsync(size: nat)
    | CudaFree(ptr: nat)
    | PluginAlloc(size: nat, device: int)
    | PluginFree(ptr: nat, device: int)

  /** Where the VBAR with this id stands in the priority list. */
  function Locate(bars: seq<Bar>, id: nat): (k: nat)
    ensures k <= |bars| && (k < |bars| ==> bars[k].id == id) && forall j :: 0 <= j < k ==> bars[j].id != id
  {
    if bars == [] || bars[0].id == id then 0 else 1 + Locate(bars[1..], id)
  }

  function Ledger(s: State): SizeTable.Ledger { SizeTable.Ledger(s.w, s.allocs, s.lost) }

  function WithLedger(s: State, l: SizeTable.Ledger): State { s.(w := l.w, allocs := l.allocs, lost := l.lost) }

  /** An operation on a VBAR or buffer that does not exist is not one a caller can make: the state stays. */
  function StepVbar(env: Env, s: State, op: Op, k: nat): State
    requires AllWf(s.w.bars) && k < |s.w.bars|
  {
    match op
    case LimitVbar(_, size) => s.(w := SetLimit(s.w, k, size))
    case PrioritizeVbar(_) => s.(w := s.w.(bars := Prioritize(s.w.bars, k)))
    case DeprioritizeVbar(_) => s.(w := s.w.(bars := Deprioritize(s.w.bars, k)))
    case FaultVbar(_, offset, size) => s.(w := Fault(env, s.w, k, offset, size).w)
    case UnpinVbar(_, offset, size) => s.(w := Unpin(s.w, k, offset, size))
    case FreeVbar(_) => s.(w := FreeBar(s.w, k))
    case FreeVbarMemory(_, size) => s.(w := FreeMemory(s.w, k, size).w)
    case _ => s
  }

  predicate OfVbar(op: Op) {
    op.LimitVbar? || op.PrioritizeVbar? || op.DeprioritizeVbar? || op.FaultVbar? || op.UnpinVbar? || op.FreeVbar?
    || op.FreeVbarMemory?
  }

  function StepOther(env: Env, s: State, op: Op): State
    requires AllWf(s.w.bars)
    requires forall i :: 0 <= i < |s.bufs| ==> s.bufs[i].backed <= s.bufs[i].maxSize
  {
    match op
    case AllocateVbar(size) =>
      var w := Allocate(env, s.w, s.nextId, size);
      s.(w := w, nextId := s.nextId + (if |w.bars| > |s.w.bars| then 1 else 0))
    case ResetLimits => s.(w := s.w.(bars := Residency.ResetLimits(s.w.bars)))
    case CreateBuf(size) =>
      (match VramBuf.CreateBuffer(env, s.w.dev, s.own, size)
       case NotCreated(d) => s.(w := s.w.(dev := d))
       case Created(d, b) => s.(w := s.w.(dev := d), bufs := s.bufs + [b]))
    case GrowBuf(i, required) =>
      if i >= |s.bufs| then s else
      var g := VramBuf.GrowBuffer(env, s.w, s.bufs[i], required);
      s.(w := g.w, bufs := s.bufs[i := g.buf])
    case DestroyBuf(i) =>
      if i >= |s.bufs| then s
      else s.(w := s.w.(dev := VramBuf.DestroyBuffer(s.w.dev, s.bufs[i])), bufs := Without(s.bufs, i))
    case CudaMalloc(size) => WithLedger(s, SizeTable.Malloc(env, Ledger(s), size, SizeTable.MALLOC_HEADROOM).l)
    case CudaMallocAsync(size) => WithLedger(s, SizeTable.Malloc(env, Ledger(s), size, 0).l)
    case CudaFree(ptr) => WithLedger(s, SizeTable.Free(env, Ledger(s), ptr).l)
    case PluginAlloc(size, device) =>
      var p := PlugAlloc.AllocFn(env, s.w, s.plug, s.own, size, device);
      s.(w := p.w, plug := p.bufs)
    case PluginFree(ptr, device) =>
      var p := PlugAlloc.FreeFn(s.w, s.plug, s.own, ptr, device);
      s.(w := p.w, plug := p.bufs)
    case _ => s
  }

  // ----- soundness -----

  function BufRegions(bufs: seq<VramBuf.Buf>): seq<Region> {
    seq(|bufs|, i requires 0 <= i < |bufs| => BufRegion(bufs[i]))
  }

  function PlugRegions(plug: seq<Entry<VramBuf.Buf>>): seq<Region> {
    seq(|plug|, i requires 0 <= i < |plug| => BufRegion(plug[i].item))
  }

  function AllocBytes(allocs: seq<SizeTable.Alloc>): int {
    if allocs == [] then 0 else SizeTable.Accounted(allocs[0].item) + AllocBytes(allocs[1..])
  }

  ghost predicate Pages(b: Bar) {
    Wf(b) && forall q :: 0 <= q < |b.pages| ==> b.pages[q].pins > 0 ==> b.pages[q].handle != 0
  }

  /** Pinned pages are resident and every watermark is within its VBAR. */
  ghost predicate AllPages(bars: seq<Bar>) { forall k :: 0 <= k < |bars| ==> Pages(bars[k]) }

  ghost predicate Ids(bars: seq<Bar>, nextId: nat) {
    && (forall k :: 0 <= k < |bars| ==> bars[k].id < nextId)
    && forall j, k :: 0 <= j < k < |bars| ==> bars[j].id != bars[k].id
  }

  ghost predicate AllTiled(s: State) {
    && (forall i :: 0 <= i < |s.bufs| ==> VramBuf.Tiled(s.bufs[i]))
    && forall i :: 0 <= i < |s.plug| ==> VramBuf.Tiled(s.plug[i].item) && s.plug[i].key == s.plug[i].item.base
  }

  ghost predicate Accounted(s: State) {
    Books(s.w, BufRegions(s.bufs) + PlugRegions(s.plug), AllocBytes(s.allocs) + s.lost)
  }

  ghost predicate Sound(s: State) {
    AllPages(s.w.bars) && Ids(s.w.bars, s.nextId) && AllTiled(s) && Accounted(s)
  }

  function Step(env: Env, s: State, op: Op): State
    requires AllWf(s.w.bars)
    requires forall i :: 0 <= i < |s.bufs| ==> s.bufs[i].backed <= s.bufs[i].maxSize
  {
    if OfVbar(op) then
      var k := Locate(s.w.bars, op.id);
      if k < |s.w.bars| then StepVbar(env, s, op, k) else s
    else StepOther(env, s, op)
  }
}
