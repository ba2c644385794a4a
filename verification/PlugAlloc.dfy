/** The plugin allocator: a chained table of the buffers it has handed out. */
module PlugAlloc {
  import opened Chains
  import opened Plat
  import opened Residency
  import opened ModelVbar
  import opened VramBuf

  const BUCKETS: nat := 4096

  function VmmHash(ptr: nat): (h: nat)
    ensures h < BUCKETS
  {
    ptr / 2097152 % BUCKETS
  }

  /** The buffers handed out, latest first; the key is the address. */
  datatype Plugged = Plugged(w: World, bufs: seq<Entry<Buf>>, ptr: nat)

  function AllocFn(env: Env, w: World, bufs: seq<Entry<Buf>>, own: int, size: nat, device: int): (r: Plugged)
    requires AllWf(w.bars)
    ensures AllWf(r.w.bars)
  {
    if device != own then Plugged(w, bufs, 0) else
    match CreateBuffer(env, w.dev, device, size)
    case NotCreated(d) => Plugged(World(d, w.bars), bufs, 0)
    case Created(d, b) =>
      var g := GrowBuffer(env, World(d, w.bars), b, size);
      if g.ok then Plugged(g.w, [Entry(b.base, g.buf)] + bufs, b.base)
      else Plugged(World(DestroyBuffer(g.w.dev, g.buf), g.w.bars), bufs, 0)
  }

  function FreeFn(w: World, bufs: seq<Entry<Buf>>, own: int, ptr: nat, device: int): Plugged {
    if ptr == 0 || device != own || Find(bufs, ptr) == |bufs| then Plugged(w, bufs, 0)
    else Plugged(World(DestroyBuffer(w.dev, bufs[Find(bufs, ptr)].item), w.bars), Forget(bufs, ptr), 0)
  }

  lemma {:induction false} SameKeys<S, T>(xs: seq<Entry<S>>, ys: seq<Entry<T>>, key: nat)
    requires |xs| == |ys| && forall i :: 0 <= i < |xs| ==> xs[i].key == ys[i].key
    ensures Find(xs, key) == Find(ys, key)
  {
    if xs != [] {
      SameKeys(xs[1..], ys[1..], key);
    }
  }

  ghost predicate Chained(head: VramBuffer?, nodes: seq<VramBuffer>)
    reads nodes`next
  {
    && head == (if nodes == [] then null else nodes[0])
    && forall i {:trigger nodes[i].next} :: 0 <= i < |nodes| ==>
         nodes[i].next == if i + 1 < |nodes| then nodes[i + 1] else null
  }

  lemma ChainedPush(node: VramBuffer, nodes: seq<VramBuffer>)
    requires Chained(node.next, nodes)
    ensures Chained(node, [node] + nodes)
  {
  }

  ghost predicate Holds(repr: set<object>, chains: seq<seq<VramBuffer>>) {
    forall h, i :: 0 <= h < |chains| && 0 <= i < |chains[h]| ==> chains[h][i] in repr && chains[h][i].handles in repr
  }

  ghost function Filing(): Scheme<VramBuffer, VramBuffer> {
    Scheme(BUCKETS, VmmHash, (n: VramBuffer) => n.basePtr, (n: VramBuffer, m: VramBuffer) => n == m)
  }

  class VmmTable {
    const own: int
    const table: array<VramBuffer?>
    ghost var chains: seq<seq<VramBuffer>>
    /** The buffers as objects and as values, latest first. */
    ghost var nodes: seq<Entry<VramBuffer>>
    ghost var bufs: seq<Entry<Buf>>
    ghost var Repr: set<object>

    constructor (own: int)
      ensures Valid() && fresh(Repr) && bufs == [] && this.own == own
    {
      this.own := own;
      table := new VramBuffer?[BUCKETS](_ => null);
      chains := seq(BUCKETS, _ => []);
      nodes, bufs := [], [];
      new;
      Repr := {this, table};
    }

    ghost predicate Live(i: nat)
      reads this, Repr
      requires i < |nodes| && i < |bufs| && nodes[i].item in Repr && nodes[i].item.handles in Repr
    {
      && nodes[i].key == bufs[i].key == nodes[i].item.basePtr && nodes[i].item.device == own
      && nodes[i].item.Shows(bufs[i].item)
    }

    ghost predicate Valid()
      reads this, Repr
    {
      && this in Repr && table in Repr && table.Length == BUCKETS == |chains| && |nodes| == |bufs|
      && Holds(Repr, chains) && Filed(Filing(), chains, nodes)
      && (forall i :: 0 <= i < |nodes| ==> nodes[i].item in Repr && nodes[i].item.handles in Repr && Live(i))
      && forall h :: 0 <= h < BUCKETS ==> Chained(table[h], chains[h])
    }

    /** A new buffer goes to the front of its bucket. */
    method Push(entry: VramBuffer, ghost b: Buf)
      requires Valid() && entry !in Repr && entry.handles !in Repr && entry.Shows(b) && entry.device == own
      modifies Repr, entry`next
      ensures Valid() && Repr == old(Repr) + {entry, entry.handles}
      ensures bufs == [Entry(entry.basePtr, b)] + old(bufs)
    {
      hide Filed, VmmHash, Tiled;
      var h := VmmHash(entry.basePtr);
      entry.next := table[h];
      ChainedPush(entry, chains[h]);
      table[h] := entry;
      FiledPush(Filing(), chains, nodes, entry, Entry(entry.basePtr, entry));
      chains := chains[h := [entry] + chains[h]];
      nodes, bufs := [Entry(entry.basePtr, entry)] + nodes, [Entry(entry.basePtr, b)] + bufs;
      Repr := Repr + {entry, entry.handles};
      forall i | 0 < i < |nodes|
        ensures nodes[i].item in Repr && nodes[i].item.handles in Repr && Live(i)
      {
        assert nodes[i] == old(nodes)[i - 1];
      }
    }

    /** The loop of `free_fn`: walk the bucket, unlink the first buffer for this address and device. */
    method Take(ptr: nat) returns (entry: VramBuffer?)
      requires Valid()
      modifies Repr
      ensures Valid() && Repr == old(Repr)
      ensures if entry == null then Find(old(bufs), ptr) == |old(bufs)| && bufs == old(bufs)
              else && Find(old(bufs), ptr) < |old(bufs)| && bufs == Forget(old(bufs), ptr)
                   && entry in Repr && entry.handles in Repr && entry.Shows(old(bufs)[Find(old(bufs), ptr)].item)
    {
      hide Filed, VmmHash, Tiled;
      var h := VmmHash(ptr);
      entry := table[h];
      var prev: VramBuffer? := null;
      ghost var c, i := chains[h], 0;
      forall j | 0 <= j < |c|
        ensures c[j].device == own
      {
        InTable(h, j);
      }
      while entry != null && (entry.basePtr != ptr || entry.device != own)
        invariant i <= |c| && entry == (if i < |c| then c[i] else null) && prev == (if i == 0 then null else c[i - 1])
        invariant forall j :: 0 <= j < i ==> c[j].basePtr != ptr
        decreases |c| - i
      {
        prev := entry;
        entry := entry.next;
        i := i + 1;
      }
      if entry != null {
        Delist(h, prev, entry, i);
      } else {
        SameKeys(nodes, bufs, ptr);
        FiledMissing(Filing(), chains, nodes, ptr);
      }
    }

    method Delist(h: nat, prev: VramBuffer?, entry: VramBuffer, ghost i: nat)
      requires Valid() && h == VmmHash(entry.basePtr) && i < |chains[h]| && entry == chains[h][i]
      requires prev == if i == 0 then null else chains[h][i - 1]
      requires forall j :: 0 <= j < i ==> chains[h][j].basePtr != entry.basePtr
      modifies Repr
      ensures Valid() && Repr == old(Repr)
      ensures var k := Find(old(bufs), entry.basePtr);
              k < |old(bufs)| && bufs == Forget(old(bufs), entry.basePtr) && entry.Shows(old(bufs)[k].item)
    {
      hide Filed, VmmHash, Tiled;
      ghost var ptr := entry.basePtr;
      SameKeys(nodes, bufs, ptr);
      FiledUnlink(Filing(), chains, nodes, ptr, i);
      ghost var k := Find(nodes, ptr);
      assert Live(k);
      Unlink(h, prev, entry, i);
      nodes, bufs := Without(nodes, k), Without(bufs, k);
      forall j | 0 <= j < |nodes|
        ensures nodes[j].item in Repr && nodes[j].item.handles in Repr && Live(j)
      {
        var j' := if j < k then j else j + 1;
        assert nodes[j] == old(nodes)[j'] && bufs[j] == old(bufs)[j'] && old(Live(j'));
      }
    }

    method Unlink(h: nat, prev: VramBuffer?, entry: VramBuffer, ghost i: nat)
      requires Valid() && h < BUCKETS && i < |chains[h]| && entry == chains[h][i]
      requires prev == if i == 0 then null else chains[h][i - 1]
      modifies this`chains, table, chains[h]`next
      ensures chains == old(chains)[h := Without(old(chains)[h], i)] && Holds(Repr, chains)
      ensures forall k :: 0 <= k < BUCKETS ==> Chained(table[k], chains[k])
    {
      hide Filed, VmmHash;
      ghost var c := chains[h];
      if prev == null {
        table[h] := entry.next;
      } else {
        Alone(Filing(), chains, nodes, h, i - 1);
        prev.next := entry.next;
      }
      chains := chains[h := Without(c, i)];
    }

    /** Every buffer in a chain belongs to this device. */
    lemma InTable(h: nat, i: nat)
      requires Valid() && h < BUCKETS && i < |chains[h]|
      ensures chains[h][i].device == own
    {
      hide VmmHash;
      assert Lists(Filing(), chains[h], Bucket(nodes, VmmHash, h), h);
      BucketIn(nodes, VmmHash, h, i);
    }
  }

  ghost predicate Ready(v: VbarList, t: VmmTable)
    reads v, v.Repr, t, t.Repr
  {
    v.Valid() && t.Valid() && v.Repr !! t.Repr && v.device !in t.Repr
  }

  method PluginAlloc(v: VbarList, t: VmmTable, size: nat, device: int) returns (ptr: nat)
    requires Ready(v, t)
    modifies v.Repr, v.device, t.Repr
    ensures Ready(v, t) && v.SameList() && fresh(t.Repr - old(t.Repr))
    ensures AllWf(old(v.bars))
    ensures Plugged(v.World(), t.bufs, ptr) == AllocFn(v.device.env, old(v.World()), old(t.bufs), t.own, size, device)
  {
    hide VbarList.Valid, CreateBuffer, GrowBuffer, DestroyBuffer, Filed, Holds, Chained, VmmTable.Live, Tiled;
    v.At(0);
    if device != t.own {
      return 0;
    }
    var entry := VrambufCreate(v.device, device, size);
    if entry == null {
      return 0;
    }
    ghost var b :|
      entry.Shows(b)
      && CreateBuffer(v.device.env, old(v.device.View()), device, size) == Created(v.device.View(), b);
    var ok;
    ok, b := entry.Grow(v, size, b);
    v.At(0);
    if !ok {
      entry.Destroy(v.device, b);
      return 0;
    }
    t.Push(entry, b);
    ptr := entry.basePtr;
  }

  method PluginFree(v: VbarList, t: VmmTable, ptr: nat, device: int)
    requires Ready(v, t)
    modifies v.device, t.Repr
    ensures Ready(v, t) && v.SameList() && t.Repr == old(t.Repr)
    ensures Plugged(v.World(), t.bufs, 0) == FreeFn(old(v.World()), old(t.bufs), t.own, ptr, device)
  {
    hide VbarList.Valid, DestroyBuffer, Filed, Holds, Chained, VmmTable.Live, Tiled;
    v.At(0);
    if ptr == 0 || device != t.own {
      return;
    }
    var entry := t.Take(ptr);
    if entry != null {
      entry.Destroy(v.device, old(t.bufs)[Find(old(t.bufs), ptr)].item);
    }
  }
}
