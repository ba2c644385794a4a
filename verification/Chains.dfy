/** Hash tables with chained buckets, seen as one list of entries, latest first. */
module Chains {

  datatype Entry<T> = Entry(key: nat, item: T)

  function Without<T>(s: seq<T>, k: nat): seq<T>
    requires k < |s|
  {
    s[..k] + s[k + 1..]
  }

  /** The latest entry for a key. */
  function Find<T>(xs: seq<Entry<T>>, key: nat): (i: nat)
    ensures i <= |xs| && (i < |xs| ==> xs[i].key == key)
  {
    if xs == [] || xs[0].key == key then 0 else 1 + Find(xs[1..], key)
  }

  /** Without the latest entry for a key, if there is one. */
  function Forget<T>(xs: seq<Entry<T>>, key: nat): seq<Entry<T>> {
    var i := Find(xs, key);
    if i < |xs| then Without(xs, i) else xs
  }

  function Bucket<T>(xs: seq<Entry<T>>, hash: nat -> nat, h: nat): seq<Entry<T>> {
    if xs == [] then []
    else (if hash(xs[0].key) == h then [xs[0]] else []) + Bucket(xs[1..], hash, h)
  }

  lemma {:induction false} FindIsFirst<T>(xs: seq<Entry<T>>, key: nat, i: nat)
    requires i <= |xs| && (i < |xs| ==> xs[i].key == key)
    requires forall j :: 0 <= j < i ==> xs[j].key != key
    ensures Find(xs, key) == i
  {
    if i > 0 {
      FindIsFirst(xs[1..], key, i - 1);
    }
  }

  lemma {:induction false} BucketIn<T>(xs: seq<Entry<T>>, hash: nat -> nat, h: nat, i: nat)
    requires i < |Bucket(xs, hash, h)|
    ensures Bucket(xs, hash, h)[i] in xs
  {
    if hash(xs[0].key) != h {
      BucketIn(xs[1..], hash, h, i);
    } else if i > 0 {
      BucketIn(xs[1..], hash, h, i - 1);
    }
  }

  lemma FindCons<T>(x: Entry<T>, xs: seq<Entry<T>>, key: nat)
    ensures Find([x] + xs, key) == if x.key == key then 0 else 1 + Find(xs, key)
  {
    assert ([x] + xs)[1..] == xs;
  }

  lemma WithoutCons<T>(x: T, xs: seq<T>, i: nat)
    requires i < |xs|
    ensures Without([x] + xs, i + 1) == [x] + Without(xs, i)
  {
  }

  lemma WithoutFirst<T>(x: T, xs: seq<T>)
    ensures Without([x] + xs, 0) == xs
  {
  }

  lemma ForgetCons<T>(x: Entry<T>, xs: seq<Entry<T>>, key: nat)
    ensures Find([x] + xs, key) == if x.key == key then 0 else 1 + Find(xs, key)
    ensures Forget([x] + xs, key) == if x.key == key then xs else [x] + Forget(xs, key)
  {
    hide Find, Without;
    FindCons(x, xs, key);
    if x.key == key {
      WithoutFirst(x, xs);
    } else if Find(xs, key) < |xs| {
      WithoutCons(x, xs, Find(xs, key));
    }
  }

  lemma BucketCons<T>(x: Entry<T>, xs: seq<Entry<T>>, hash: nat -> nat, h: nat)
    ensures Bucket([x] + xs, hash, h) == (if hash(x.key) == h then [x] else []) + Bucket(xs, hash, h)
  {
    assert ([x] + xs)[1..] == xs;
  }

  /** Looking in the key's own bucket finds what looking everywhere would. */
  lemma {:induction false} FindInBucket<T>(xs: seq<Entry<T>>, hash: nat -> nat, key: nat)
    ensures var b := Bucket(xs, hash, hash(key));
            && (Find(xs, key) < |xs| <==> Find(b, key) < |b|)
            && (Find(b, key) < |b| ==> b[Find(b, key)] == xs[Find(xs, key)])
  {
    if xs != [] {
      var x, rest := xs[0], xs[1..];
      assert xs == [x] + rest;
      FindInBucket(rest, hash, key);
      BucketCons(x, rest, hash, hash(key));
      ForgetCons(x, rest, key);
      ForgetCons(x, Bucket(rest, hash, hash(key)), key);
      assert [] + Bucket(rest, hash, hash(key)) == Bucket(rest, hash, hash(key));
    }
  }

  /** Removing from the key's own bucket is removing from the whole table. */
  lemma {:induction false} ForgetInBucket<T>(xs: seq<Entry<T>>, hash: nat -> nat, key: nat, h: nat)
    ensures Bucket(Forget(xs, key), hash, h) ==
            if h == hash(key) then Forget(Bucket(xs, hash, h), key) else Bucket(xs, hash, h)
  {
    if xs != [] {
      var x, rest := xs[0], xs[1..];
      assert xs == [x] + rest;
      ForgetInBucket(rest, hash, key, h);
      BucketCons(x, rest, hash, h);
      BucketCons(x, Forget(rest, key), hash, h);
      ForgetCons(x, rest, key);
      ForgetCons(x, Bucket(rest, hash, h), key);
      assert [] + Bucket(rest, hash, h) == Bucket(rest, hash, h);
    }
  }

  // ----- the chains themselves -----

  /** How a table files its nodes: the bucket of a key, the key of a node, and when a node stands for an item. */
  datatype Scheme<!N, !T> = Scheme(buckets: nat, hash: nat -> nat, keyOf: N -> nat, same: (N, T) -> bool)

  /** The nodes of one bucket: distinct, all of this bucket, standing for these entries in this order. */
  ghost predicate Lists<N, T>(s: Scheme<N, T>, nodes: seq<N>, xs: seq<Entry<T>>, h: nat) {
    && |nodes| == |xs|
    && (forall i :: 0 <= i < |nodes| ==>
         s.keyOf(nodes[i]) == xs[i].key && s.same(nodes[i], xs[i].item) && s.hash(s.keyOf(nodes[i])) == h)
    && forall i, j :: 0 <= i < j < |nodes| ==> nodes[i] != nodes[j]
  }

  ghost predicate Filed<N, T>(s: Scheme<N, T>, chains: seq<seq<N>>, xs: seq<Entry<T>>) {
    |chains| == s.buckets && forall h :: 0 <= h < s.buckets ==> Lists(s, chains[h], Bucket(xs, s.hash, h), h)
  }

  lemma FiledPush<N, T>(s: Scheme<N, T>, chains: seq<seq<N>>, xs: seq<Entry<T>>, node: N, x: Entry<T>)
    requires Filed(s, chains, xs) && s.keyOf(node) == x.key && s.same(node, x.item) && s.hash(x.key) < s.buckets
    requires node !in chains[s.hash(x.key)]
    ensures var h := s.hash(x.key); Filed(s, chains[h := [node] + chains[h]], [x] + xs)
  {
    hide Bucket;
    var h := s.hash(x.key);
    forall k | 0 <= k < s.buckets
      ensures Lists(s, chains[h := [node] + chains[h]][k], Bucket([x] + xs, s.hash, k), k)
    {
      BucketCons(x, xs, s.hash, k);
      assert Lists(s, chains[k], Bucket(xs, s.hash, k), k);
    }
  }

  lemma ListsUnlink<N, T>(s: Scheme<N, T>, nodes: seq<N>, xs: seq<Entry<T>>, h: nat, key: nat, i: nat)
    requires Lists(s, nodes, xs, h) && i < |nodes| && Find(xs, key) == i
    ensures Lists(s, Without(nodes, i), Forget(xs, key), h)
  {
    hide Find;
  }

  /** The first node for a key in its own bucket is the latest entry for it. */
  lemma FiledFinds<N, T>(s: Scheme<N, T>, chains: seq<seq<N>>, xs: seq<Entry<T>>, key: nat, i: nat)
    requires Filed(s, chains, xs) && s.hash(key) < s.buckets
    requires var c := chains[s.hash(key)];
             i < |c| && s.keyOf(c[i]) == key && forall j :: 0 <= j < i ==> s.keyOf(c[j]) != key
    ensures Find(xs, key) < |xs| && s.same(chains[s.hash(key)][i], xs[Find(xs, key)].item)
    ensures Find(Bucket(xs, s.hash, s.hash(key)), key) == i
  {
    hide Bucket, Find;
    var h := s.hash(key);
    var b := Bucket(xs, s.hash, h);
    assert Lists(s, chains[h], b, h);
    FindIsFirst(b, key, i);
    FindInBucket(xs, s.hash, key);
  }

  /** Unlinking that node forgets that entry. */
  lemma FiledUnlink<N, T>(s: Scheme<N, T>, chains: seq<seq<N>>, xs: seq<Entry<T>>, key: nat, i: nat)
    requires Filed(s, chains, xs) && s.hash(key) < s.buckets
    requires var c := chains[s.hash(key)];
             i < |c| && s.keyOf(c[i]) == key && forall j :: 0 <= j < i ==> s.keyOf(c[j]) != key
    ensures var h := s.hash(key);
            && Find(xs, key) < |xs| && s.same(chains[h][i], xs[Find(xs, key)].item)
            && Filed(s, chains[h := Without(chains[h], i)], Forget(xs, key))
  {
    hide Bucket, Find, Lists, Forget, Without;
    var h := s.hash(key);
    FiledFinds(s, chains, xs, key, i);
    forall k | 0 <= k < s.buckets
      ensures Lists(s, chains[h := Without(chains[h], i)][k], Bucket(Forget(xs, key), s.hash, k), k)
    {
      ForgetInBucket(xs, s.hash, key, k);
      assert Lists(s, chains[k], Bucket(xs, s.hash, k), k);
      if k == h {
        ListsUnlink(s, chains[h], Bucket(xs, s.hash, h), h, key, i);
      }
    }
  }

  lemma FiledMissing<N, T>(s: Scheme<N, T>, chains: seq<seq<N>>, xs: seq<Entry<T>>, key: nat)
    requires Filed(s, chains, xs) && s.hash(key) < s.buckets
    requires forall j :: 0 <= j < |chains[s.hash(key)]| ==> s.keyOf(chains[s.hash(key)][j]) != key
    ensures Find(xs, key) == |xs|
  {
    hide Bucket;
    var b := Bucket(xs, s.hash, s.hash(key));
    assert Lists(s, chains[s.hash(key)], b, s.hash(key));
    FindIsFirst(b, key, |b|);
    FindInBucket(xs, s.hash, key);
  }

  /** A node stands at one place of one chain. */
  lemma Alone<N, T>(s: Scheme<N, T>, chains: seq<seq<N>>, xs: seq<Entry<T>>, h: nat, i: nat)
    requires Filed(s, chains, xs) && h < s.buckets && i < |chains[h]|
    ensures forall k, j :: 0 <= k < s.buckets && 0 <= j < |chains[k]| && chains[k][j] == chains[h][i] ==>
              k == h && j == i
  {
    hide Bucket;
    forall k, j | 0 <= k < s.buckets && 0 <= j < |chains[k]| && chains[k][j] == chains[h][i]
      ensures k == h && j == i
    {
      assert Lists(s, chains[h], Bucket(xs, s.hash, h), h) && Lists(s, chains[k], Bucket(xs, s.hash, k), k);
    }
  }
}
