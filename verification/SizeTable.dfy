/** The hooked CUDA allocators: a chained table of live allocations and the usage they are charged. */
module SizeTable {
  import opened Chains
  import opened Plat
  import opened Residency
  import opened ModelVbar

  const KIB: nat := 1024
  const MALLOC_HEADROOM: nat := 134217728
  const BUCKETS: nat := 1024

  /** The key is the device pointer, the item the size asked for. */
  type Alloc = Entry<nat>

  /** The charge for one allocation: at least 1 KiB, whole 2 MiB pages above half a page, its own size between. */
  function Accounted(size: nat): nat {
    if size <= KIB then KIB
    else if size > CUDA_PAGE / 2 then AlignUp(size, CUDA_PAGE)
    else size
  }

  /** Only the low ten bits of either shifted pointer reach the bucket number. */
  function SizeHash(ptr: nat): (h: nat)
    ensures h < BUCKETS
  {
    (((ptr / 1024 % 1024) as bv10) ^ ((ptr / 2097152 % 1024) as bv10)) as nat
  }

  // ----- accounting -----

  /** `lost` is what was charged for allocations no entry could be kept for. */
  datatype Book = Book(dev: Dev, allocs: seq<Alloc>, lost: nat)

  /** The usage moves whether or not the host has room for the entry. */
  function Charged(env: Env, b: Book, ptr: nat, size: nat): Book {
    var a := env(b.dev.clock);
    var d := b.dev.(clock := b.dev.clock + 1, usage := b.dev.usage + Accounted(size));
    if a.result.Success? then Book(d, [Entry(ptr, size)] + b.allocs, b.lost)
    else Book(d, b.allocs, b.lost + Accounted(size))
  }

  function Credited(b: Book, ptr: nat): Book {
    var i := Find(b.allocs, ptr);
    if i == |b.allocs| then b
    else b.(dev := b.dev.(usage := b.dev.usage - Accounted(b.allocs[i].item)), allocs := Forget(b.allocs, ptr))
  }

  // ----- the hooks -----

  datatype Ledger = Ledger(w: World, allocs: seq<Alloc>, lost: nat)

  function BookOf(l: Ledger): Book { Book(l.w.dev, l.allocs, l.lost) }

  function WithBook(l: Ledger, b: Book): Ledger { Ledger(World(b.dev, l.w.bars), b.allocs, b.lost) }

  datatype Malloced = Malloced(l: Ledger, status: CuResult, ptr: nat)

  /** One try of the true allocator; a success is charged. */
  function TryMalloc(env: Env, l: Ledger, size: nat): Malloced {
    var a := env(l.w.dev.clock);
    var l' := l.(w := l.w.(dev := l.w.dev.(clock := l.w.dev.clock + 1)));
    if a.result.Success? then Malloced(WithBook(l', Charged(env, BookOf(l'), a.value, size)), Success, a.value)
    else Malloced(l', a.result, 0)
  }

  /** `headroom` is 128 MiB for the plain allocator and nothing for the stream-ordered one. */
  function Malloc(env: Env, l: Ledger, size: nat, headroom: nat): (r: Malloced)
    requires AllWf(l.w.bars)
    ensures AllWf(r.l.w.bars)
  {
    var first := TryMalloc(env, l.(w := MakeRoom(env, l.w, size + headroom).w), size);
    if first.status.Success? then first
    else TryMalloc(env, first.l.(w := FreePages(first.l.w, size + headroom).w), size)
  }

  function Free(env: Env, l: Ledger, ptr: nat): Malloced {
    if ptr == 0 then Malloced(l, Success, 0) else
    var a := env(l.w.dev.clock);
    var l' := l.(w := l.w.(dev := l.w.dev.(clock := l.w.dev.clock + 1)));
    if a.result.Success? then Malloced(WithBook(l', Credited(BookOf(l'), ptr)), Success, 0)
    else Malloced(l', a.result, 0)
  }

  class SizeEntry {
    const ptr: nat
    const size: nat
    var next: SizeEntry?

    constructor (ptr: nat, size: nat, next: SizeEntry?)
      ensures this.ptr == ptr && this.size == size && this.next == next
    {
      this.ptr, this.size, this.next := ptr, size, next;
    }
  }

  ghost predicate Chained(head: SizeEntry?, nodes: seq<SizeEntry>)
    reads nodes`next
  {
    && head == (if nodes == [] then null else nodes[0])
    && forall i {:trigger nodes[i].next} :: 0 <= i < |nodes| ==>
         nodes[i].next == if i + 1 < |nodes| then nodes[i + 1] else null
  }

  ghost function Filing(): Scheme<SizeEntry, nat> {
    Scheme(BUCKETS, SizeHash, (n: SizeEntry) => n.ptr, (n: SizeEntry, size) => n.size == size)
  }

  ghost predicate Holds(repr: set<object>, chains: seq<seq<SizeEntry>>) {
    forall h, i :: 0 <= h < |chains| && 0 <= i < |chains[h]| ==> chains[h][i] in repr
  }

  lemma ChainedPush(entry: SizeEntry, nodes: seq<SizeEntry>)
    requires Chained(entry.next, nodes)
    ensures Chained(entry, [entry] + nodes)
  {
  }

  class SizeTable {
    const table: array<SizeEntry?>
    ghost var chains: seq<seq<SizeEntry>>
    ghost var allocs: seq<Alloc>
    ghost var lost: nat
    ghost var Repr: set<object>

    constructor ()
      ensures Valid() && fresh(Repr) && allocs == [] && lost == 0
    {
      table := new SizeEntry?[BUCKETS](_ => null);
      chains := seq(BUCKETS, _ => []);
      allocs, lost := [], 0;
      new;
      Repr := {this, table};
    }

    ghost predicate Valid()
      reads this, Repr
    {
      && this in Repr && table in Repr && table.Length == BUCKETS == |chains|
      && Holds(Repr, chains) && Filed(Filing(), chains, allocs)
      && forall h :: 0 <= h < BUCKETS ==> Chained(table[h], chains[h])
    }

    ghost function Books(dev: Device): Book
      reads this, dev
    {
      Book(dev.View(), allocs, lost)
    }

    method AccountAlloc(dev: Device, ptr: nat, size: nat)
      requires Valid() && dev !in Repr
      modifies Repr, dev
      ensures Valid() && fresh(Repr - old(Repr))
      ensures Books(dev) == Charged(dev.env, old(Books(dev)), ptr, size)
    {
      hide Filed, SizeHash;
      dev.usage := dev.usage + Accounted(size);
      var host := dev.Ask();
      if host.result.Success? {
        Push(ptr, size);
      } else {
        lost := lost + Accounted(size);
      }
    }

    method Push(ptr: nat, size: nat)
      requires Valid()
      modifies Repr
      ensures Valid() && fresh(Repr - old(Repr)) && lost == old(lost)
      ensures allocs == [Entry(ptr, size)] + old(allocs)
    {
      hide Filed, SizeHash;
      var h := SizeHash(ptr);
      var entry := new SizeEntry(ptr, size, table[h]);
      ChainedPush(entry, chains[h]);
      table[h] := entry;
      FiledPush(Filing(), chains, allocs, entry, Entry(ptr, size));
      chains := chains[h := [entry] + chains[h]];
      allocs := [Entry(ptr, size)] + allocs;
      Repr := Repr + {entry};
    }

    method AccountFree(dev: Device, ptr: nat)
      requires Valid() && dev !in Repr
      modifies Repr, dev
      ensures Valid() && Repr == old(Repr)
      ensures Books(dev) == Credited(old(Books(dev)), ptr)
    {
      hide Filed, SizeHash;
      var h := SizeHash(ptr);
      var entry := table[h];
      var prev: SizeEntry? := null;
      ghost var c, i := chains[h], 0;
      while entry != null && entry.ptr != ptr
        invariant i <= |c| && entry == (if i < |c| then c[i] else null) && prev == (if i == 0 then null else c[i - 1])
        invariant forall j :: 0 <= j < i ==> c[j].ptr != ptr
        decreases |c| - i
      {
        prev := entry;
        entry := entry.next;
        i := i + 1;
      }
      if entry != null {
        FiledUnlink(Filing(), chains, allocs, ptr, i);
        Unlink(h, prev, entry, i);
        allocs := Forget(allocs, ptr);
        dev.usage := dev.usage - Accounted(entry.size);
        return;
      }
      FiledMissing(Filing(), chains, allocs, ptr);
    }

    /** Bypass one entry: through the node before it, or through the bucket itself. */
    method Unlink(h: nat, prev: SizeEntry?, entry: SizeEntry, ghost i: nat)
      requires Valid() && h < BUCKETS && i < |chains[h]| && entry == chains[h][i]
      requires prev == if i == 0 then null else chains[h][i - 1]
      modifies Repr
      ensures chains == old(chains)[h := Without(old(chains)[h], i)] && Holds(Repr, chains)
      ensures Repr == old(Repr) && allocs == old(allocs) && lost == old(lost)
      ensures forall k :: 0 <= k < BUCKETS ==> Chained(table[k], chains[k])
    {
      hide Filed, SizeHash;
      ghost var c := chains[h];
      if prev == null {
        table[h] := entry.next;
      } else {
        Alone(Filing(), chains, allocs, h, i - 1);
        prev.next := entry.next;
      }
      chains := chains[h := Without(c, i)];
    }
  }

  ghost function LedgerOf(v: VbarList, t: SizeTable): Ledger
    reads v, v.device, t
  {
    Ledger(v.World(), t.allocs, t.lost)
  }

  ghost predicate Ready(v: VbarList, t: SizeTable)
    reads v, v.Repr, t, t.Repr
  {
    v.Valid() && t.Valid() && v.Repr !! t.Repr && v.device !in t.Repr
  }

  method TrueMalloc(v: VbarList, t: SizeTable, size: nat) returns (status: CuResult, ptr: nat)
    requires Ready(v, t)
    modifies t.Repr, v.device
    ensures Ready(v, t) && v.SameList() && fresh(t.Repr - old(t.Repr))
    ensures Malloced(LedgerOf(v, t), status, ptr) == TryMalloc(v.device.env, old(LedgerOf(v, t)), size)
  {
    hide VbarList.Valid, SizeTable.Valid;
    v.At(0);
    var a := v.device.Ask();
    status, ptr := a.result, 0;
    if status.Success? {
      ptr := a.value;
      t.AccountAlloc(v.device, ptr, size);
    }
  }

  method MallocWith(v: VbarList, t: SizeTable, size: nat, headroom: nat) returns (status: CuResult, ptr: nat)
    requires Ready(v, t)
    modifies v.Repr, t.Repr, v.device
    ensures Ready(v, t) && v.SameList() && fresh(t.Repr - old(t.Repr))
    ensures AllWf(old(v.bars))
    ensures Malloced(LedgerOf(v, t), status, ptr) == Malloc(v.device.env, old(LedgerOf(v, t)), size, headroom)
  {
    hide VbarList.Valid, TryMalloc, Filed, Holds, Chained;
    v.At(0);
    var left := v.MakeRoom(size + headroom);
    status, ptr := TrueMalloc(v, t, size);
    if !status.Success? {
      left := v.VbarsFree(size + headroom);
      status, ptr := TrueMalloc(v, t, size);
    }
  }

  method AimdoCudaMalloc(v: VbarList, t: SizeTable, size: nat) returns (status: CuResult, ptr: nat)
    requires Ready(v, t)
    modifies v.Repr, t.Repr, v.device
    ensures Ready(v, t) && v.SameList() && fresh(t.Repr - old(t.Repr))
    ensures AllWf(old(v.bars))
    ensures Malloced(LedgerOf(v, t), status, ptr) == Malloc(v.device.env, old(LedgerOf(v, t)), size, MALLOC_HEADROOM)
  {
    status, ptr := MallocWith(v, t, size, MALLOC_HEADROOM);
  }

  method AimdoCudaMallocAsync(v: VbarList, t: SizeTable, size: nat) returns (status: CuResult, ptr: nat)
    requires Ready(v, t)
    modifies v.Repr, t.Repr, v.device
    ensures Ready(v, t) && v.SameList() && fresh(t.Repr - old(t.Repr))
    ensures AllWf(old(v.bars))
    ensures Malloced(LedgerOf(v, t), status, ptr) == Malloc(v.device.env, old(LedgerOf(v, t)), size, 0)
  {
    status, ptr := MallocWith(v, t, size, 0);
  }

  /** Both frees: the true free first, then the accounting. */
  method AimdoCudaFree(v: VbarList, t: SizeTable, ptr: nat) returns (status: CuResult)
    requires Ready(v, t)
    modifies t.Repr, v.device
    ensures Ready(v, t) && v.SameList() && t.Repr == old(t.Repr)
    ensures Malloced(LedgerOf(v, t), status, 0) == Free(v.device.env, old(LedgerOf(v, t)), ptr)
  {
    hide VbarList.Valid, SizeTable.Valid, Credited;
    v.At(0);
    if ptr == 0 {
      return Success;
    }
    var a := v.device.Ask();
    status := a.result;
    if status.Success? {
      t.AccountFree(v.device, ptr);
    }
  }
}
