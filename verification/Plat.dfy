/** The device context's VRAM ledger, the driver beneath it, the budget and the transactional mapping. */
module Plat {

  const VRAM_HEADROOM: int := 268435456
  const POLL_TICKS: nat := 2000
  const CUDA_PAGE: nat := 2097152

  datatype CuResult = Success | OutOfMemory | OtherError

  /** What the environment says to one question: a result code, a value (handle, address, free bytes) and the clock. */
  datatype Answer = Answer(result: CuResult, value: nat, tick: nat)

  /** Every behaviour of the environment: its n-th answer, for each n. All results hold for every one. */
  type Env = nat -> Answer

  datatype Mapping = Mapping(va: int, size: int, handle: nat) {
    predicate Inside(lo: int, hi: int) { lo <= va && va + size <= hi }
    predicate Meets(lo: int, hi: int) { va < hi && lo < va + size }
  }

  /** A reserved range of device addresses. */
  datatype Space = Space(base: int, size: int) {
    predicate Apart(o: Space) { base != o.base && (base + size <= o.base || o.base + o.size <= base) }
  }

  /** The driver's own state. `misuse` records that some call broke the driver's rules. */
  datatype Gpu = Gpu(live: set<nat>, maps: set<Mapping>, spaces: set<Space>, misuse: bool) {

    predicate Mappable(m: Mapping) {
      && m.size > 0
      && m.handle in live
      && (exists s :: s in spaces && m.Inside(s.base, s.base + s.size))
      && forall o :: o in maps ==> o.handle != m.handle && !o.Meets(m.va, m.va + m.size)
    }

    predicate Backed(x: int) { exists o :: o in maps && o.Meets(x, x + 1) }

    /** An unmap covers whole mappings only, and every byte it names is mapped. */
    predicate Unmappable(lo: int, hi: int) {
      && (forall o :: o in maps && o.Meets(lo, hi) ==> o.Inside(lo, hi))
      && forall x :: lo <= x < hi ==> Backed(x)
    }

    /** A release names a live handle with no mapping left: otherwise its memory would stay in use. */
    predicate Releasable(h: nat) {
      h in live && forall o :: o in maps ==> o.handle != h
    }

    /** An address range is given back whole and empty. */
    predicate Returnable(s: Space) {
      s in spaces && forall o :: o in maps ==> !o.Meets(s.base, s.base + s.size)
    }

    function Map(m: Mapping): Gpu {
      this.(maps := maps + {m}, misuse := misuse || !Mappable(m))
    }

    function Unmap(lo: int, hi: int): Gpu {
      this.(maps := (set o | o in maps && !o.Inside(lo, hi)), misuse := misuse || !Unmappable(lo, hi))
    }

    function Release(h: nat): Gpu {
      this.(live := live - {h}, misuse := misuse || !Releasable(h))
    }

    function Free(s: Space): Gpu {
      this.(spaces := spaces - {s}, misuse := misuse || !Returnable(s))
    }
  }

  datatype Dev = Dev(capacity: nat, usage: int, lastCheck: int, deficitSync: int, stamp: nat, clock: nat, gpu: Gpu)

  /** `unit` is a power of two in the source. */
  function AlignUp(x: nat, unit: nat): nat
    requires unit > 0
  {
    (x + unit - 1) / unit * unit
  }

  function Max(a: int, b: int): int { if a > b then a else b }

  // ----- what each operation does to the context -----

  datatype Made = Made(dev: Dev, err: CuResult, handle: nat)

  /** A conforming driver hands out a non-zero handle that is not in use; any other answer counts as an error. */
  function Create(env: Env, d: Dev): (m: Made)
    ensures m.err.Success? ==> m.handle != 0
  {
    var a := env(d.clock);
    var d' := d.(clock := d.clock + 1);
    if !a.result.Success? then Made(d', a.result, 0)
    else if a.value == 0 || a.value in d.gpu.live then Made(d', OtherError, 0)
    else Made(d'.(gpu := d.gpu.(live := d.gpu.live + {a.value})), Success, a.value)
  }

  function Map(env: Env, d: Dev, m: Mapping): Made {
    var a := env(d.clock);
    var d' := d.(clock := d.clock + 1);
    if a.result.Success? then Made(d'.(gpu := d.gpu.Map(m)), Success, m.handle) else Made(d', a.result, 0)
  }

  function Undo(d: Dev, h: nat): Dev { d.(gpu := d.gpu.Release(h)) }

  /** Create, map, set access; on the first failure undo what was done. The usage moves only on success. */
  function Stooges(env: Env, d: Dev, va: int, size: int): (m: Made)
    ensures m.err.Success? ==> m.handle != 0
  {
    var c := Create(env, d);
    if !c.err.Success? then c else
    var m := Map(env, c.dev, Mapping(va, size, c.handle));
    if !m.err.Success? then Made(Undo(m.dev, c.handle), m.err, 0) else
    var a := env(m.dev.clock);
    var d' := m.dev.(clock := m.dev.clock + 1);
    if !a.result.Success? then Made(Undo(d'.(gpu := d'.gpu.Unmap(va, va + size)), c.handle), a.result, 0)
    else Made(d'.(usage := d'.usage + size), Success, c.handle)
  }

  /** A poll is skipped inside its 2000 ticks; a failed query still moves the stamp and the usage snapshot. */
  function Poll(env: Env, d: Dev): Dev {
    var a := env(d.clock);
    var d' := d.(clock := d.clock + 1);
    if d.stamp <= a.tick < d.stamp + POLL_TICKS then d'
    else if !a.result.Success? then d'.(stamp := a.tick, lastCheck := d.usage)
    else d'.(stamp := a.tick, lastCheck := d.usage, deficitSync := VRAM_HEADROOM - a.value)
  }

  function Deficit(d: Dev, size: int): nat {
    Max(Max(d.usage + VRAM_HEADROOM + size - d.capacity, d.deficitSync + d.usage - d.lastCheck + size), 0)
  }

  /** Unmap and release one mapping and give its bytes back. */
  function DropOne(d: Dev, m: Mapping): Dev {
    d.(usage := d.usage - m.size, gpu := d.gpu.Unmap(m.va, m.va + m.size).Release(m.handle))
  }

  function DropAll(d: Dev, ms: seq<Mapping>): Dev {
    if ms == [] then d else DropOne(DropAll(d, ms[..|ms| - 1]), ms[|ms| - 1])
  }

  lemma DropAllSnoc(d: Dev, ms: seq<Mapping>, m: Mapping)
    ensures DropAll(d, ms + [m]) == DropOne(DropAll(d, ms), m)
  {
    assert (ms + [m])[..|ms|] == ms;
  }

  /** Reservations are conforming too: non-null and apart from every other one. */
  function Reserve(env: Env, d: Dev, size: int): Made {
    var a := env(d.clock);
    var d' := d.(clock := d.clock + 1);
    var s := Space(a.value, size);
    if !a.result.Success? then Made(d', a.result, 0)
    else if a.value == 0 || size < 0 || exists o :: o in d.gpu.spaces && !s.Apart(o) then Made(d', OtherError, 0)
    else Made(d'.(gpu := d.gpu.(spaces := d.gpu.spaces + {s})), Success, a.value)
  }

  /** The context's fields, and the driver, updated in place. */
  class Device {
    const env: Env
    const capacity: nat
    var usage: int
    var lastCheck: int
    var deficitSync: int
    var stamp: nat
    var clock: nat
    var gpu: Gpu

    function View(): Dev
      reads this
    {
      Dev(capacity, usage, lastCheck, deficitSync, stamp, clock, gpu)
    }

    constructor (env: Env, capacity: nat)
      ensures this.env == env
      ensures View() == Dev(capacity, 0, 0, 0, 0, 0, Gpu({}, {}, {}, false))
    {
      this.env, this.capacity := env, capacity;
      usage, lastCheck, deficitSync, stamp, clock := 0, 0, 0, 0, 0;
      gpu := Gpu({}, {}, {}, false);
    }

    method Ask() returns (a: Answer)
      modifies this`clock
      ensures a == env(old(clock)) && View() == old(View()).(clock := old(clock) + 1)
    {
      a := env(clock);
      clock := clock + 1;
    }

    method MemCreate() returns (err: CuResult, h: nat)
      modifies this
      ensures Made(View(), err, h) == Create(env, old(View()))
    {
      var a := Ask();
      if !a.result.Success? {
        return a.result, 0;
      }
      if a.value == 0 || a.value in gpu.live {
        return OtherError, 0;
      }
      gpu := gpu.(live := gpu.live + {a.value});
      return Success, a.value;
    }

    method MemMap(m: Mapping) returns (err: CuResult)
      modifies this
      ensures View() == Map(env, old(View()), m).dev && err == Map(env, old(View()), m).err
    {
      var a := Ask();
      err := a.result;
      if err.Success? {
        gpu := gpu.Map(m);
      }
    }

    method MemUnmap(va: int, size: int)
      modifies this`gpu
      ensures gpu == old(gpu).Unmap(va, va + size)
    {
      gpu := gpu.Unmap(va, va + size);
    }

    method MemRelease(h: nat)
      modifies this`gpu
      ensures gpu == old(gpu).Release(h)
    {
      gpu := gpu.Release(h);
    }

    method AddressReserve(size: int) returns (err: CuResult, base: nat)
      modifies this
      ensures Made(View(), err, base) == Reserve(env, old(View()), size)
    {
      var a := Ask();
      if !a.result.Success? {
        return a.result, 0;
      }
      var s := Space(a.value, size);
      if a.value == 0 || size < 0 || exists o :: o in gpu.spaces && !s.Apart(o) {
        return OtherError, 0;
      }
      gpu := gpu.(spaces := gpu.spaces + {s});
      return Success, a.value;
    }

    method AddressFree(s: Space)
      modifies this`gpu
      ensures gpu == old(gpu).Free(s)
    {
      gpu := gpu.Free(s);
    }

    method ThreeStooges(va: int, size: int) returns (err: CuResult, h: nat)
      modifies this
      ensures Made(View(), err, h) == Stooges(env, old(View()), va, size)
    {
      err, h := MemCreate();
      if !err.Success? {
        return;
      }
      err := MemMap(Mapping(va, size, h));
      if err.Success? {
        var a := Ask();
        err := a.result;
        if err.Success? {
          usage := usage + size;
          return;
        }
        MemUnmap(va, size);
      }
      MemRelease(h);
      h := 0;
    }

    method PollBudgetDeficit()
      modifies this
      ensures View() == Poll(env, old(View()))
    {
      var a := Ask();
      if stamp <= a.tick < stamp + POLL_TICKS {
        return;
      }
      stamp := a.tick;
      lastCheck := usage;
      if a.result.Success? {
        deficitSync := VRAM_HEADROOM - a.value;
      }
    }

    method BudgetDeficit(size: int) returns (deficit: nat)
      modifies this
      ensures View() == Poll(env, old(View()))
      ensures deficit == Deficit(View(), size)
    {
      PollBudgetDeficit();
      var simple := usage + VRAM_HEADROOM + size - capacity;
      var delta := deficitSync + usage - lastCheck + size;
      deficit := Max(Max(simple, delta), 0);
    }
  }
}
