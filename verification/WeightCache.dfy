/** The client's weight cache: copy a weight only when its fault signature changed, and always read what was written. */
module WeightCache {
  import opened Chains
  import opened Plat
  import opened Residency
  import opened FaultFacts
  import opened System
  import opened Evolution
  import opened Soundness
  import opened Runs

  // ----- tensors in a VBAR -----

  datatype Tensor = Tensor(offset: nat, size: nat) {
    predicate Has(x: int) { offset <= x < offset + size }
  }

  datatype Slot = Placed(t: Tensor, next: nat) | NoSpace(next: nat)

  /** Bump allocation at 512-byte steps; a refused request still rounds the offset up. */
  function Place(offset: nat, maxSize: nat, size: nat): Slot {
    var start := (offset + 511) / 512 * 512;
    if start + size > maxSize then NoSpace(start) else Placed(Tensor(start, size), start + size)
  }

  /** The next multiple of 512 from here on. */
  predicate NextStep(offset: nat, start: nat) { start % 512 == 0 && offset <= start < offset + 512 }

  /** A tensor is placed exactly if it fits behind the next 512-byte step, and then starts there with the size asked
      for. */
  lemma PlaceMeans(offset: nat, maxSize: nat, size: nat)
    ensures exists start: nat :: NextStep(offset, start)
              && Place(offset, maxSize, size) ==
                 if start + size <= maxSize then Placed(Tensor(start, size), start + size) else NoSpace(start)
  {
    assert NextStep(offset, (offset + 511) / 512 * 512);
  }

  function PlaceAll(offset: nat, maxSize: nat, sizes: seq<nat>): seq<Tensor>
    decreases |sizes|
  {
    if sizes == [] then [] else
    match Place(offset, maxSize, sizes[0])
    case NoSpace(next) => PlaceAll(next, maxSize, sizes[1..])
    case Placed(t, next) => [t] + PlaceAll(next, maxSize, sizes[1..])
  }

  ghost predicate Apart(a: Tensor, b: Tensor) { forall x :: a.Has(x) ==> !b.Has(x) }

  ghost predicate PlacedFrom(ts: seq<Tensor>, offset: nat, maxSize: nat) {
    && (forall i :: 0 <= i < |ts| ==> offset <= ts[i].offset && ts[i].offset + ts[i].size <= maxSize)
    && forall i, j :: 0 <= i < j < |ts| ==> Apart(ts[i], ts[j])
  }

  /** Tensors placed one after another never share a byte, though they may share a page, and all fit. */
  lemma {:induction false} PlacedApart(offset: nat, maxSize: nat, sizes: seq<nat>)
    ensures PlacedFrom(PlaceAll(offset, maxSize, sizes), offset, maxSize)
    decreases |sizes|
  {
    if sizes != [] {
      var slot := Place(offset, maxSize, sizes[0]);
      var rest := PlaceAll(slot.next, maxSize, sizes[1..]);
      PlacedApart(slot.next, maxSize, sizes[1..]);
      match slot
      case NoSpace(_) => assert PlaceAll(offset, maxSize, sizes) == rest;
      case Placed(t, next) =>
        forall i | 0 <= i < |rest|
          ensures Apart(t, rest[i])
        {
          assert next <= rest[i].offset;
        }
        assert PlaceAll(offset, maxSize, sizes) == [t] + rest;
    }
  }

  // ----- memory -----

  type Memory = nat -> int

  /** A page keeps its bytes as long as it stays mapped where it is; unmapped or mapped afresh, they are junk. */
  function Settle(b: Bar, b': Bar, mem: Memory, junk: Memory): Memory {
    (x: nat) =>
      if x / VBAR_PAGE < |b.pages| && x / VBAR_PAGE < |b'.pages| && b'.pages[x / VBAR_PAGE].handle != 0
         && b'.pages[x / VBAR_PAGE].serial == b.pages[x / VBAR_PAGE].serial
      then mem(x) else junk(x)
  }

  function Write(mem: Memory, t: Tensor, data: Memory): Memory {
    (x: nat) => if t.Has(x) then data(x) else mem(x)
  }

  /** What the client keeps for a tensor: the signature, and (for the proof) the serials it stands for. */
  datatype Cached = Cached(signature: seq<nat>, serials: seq<nat>)

  /** `open` are the layers between their fault and their unpin, in the order they began. */
  datatype Client = Client(s: State, mem: Memory, cache: map<Tensor, Cached>, open: seq<Tensor>)

  function First(t: Tensor): nat { t.offset / VBAR_PAGE }

  function End(t: Tensor): nat { PagesUp(t.offset + t.size) }

  predicate Covers(t: Tensor, q: int) { First(t) <= q < End(t) }

  /** The tensor's pages are all resident and have the serials recorded for them. */
  ghost predicate Unmoved(b: Bar, t: Tensor, c: Cached) {
    End(t) <= |b.pages| && |c.serials| == End(t) - First(t)
    && forall q :: Covers(t, q) ==> b.pages[q].handle != 0 && b.pages[q].serial == c.serials[q - First(t)]
  }

  /** A cache entry is faithful: its signature is that of its serials, serials only grow, and as long as its pages have
      not moved the tensor's bytes are its data. */
  ghost predicate Faithful(b: Bar, mem: Memory, t: Tensor, c: Cached, data: Memory) {
    && End(t) <= |b.pages| && |c.serials| == |c.signature| == End(t) - First(t)
    && (forall q :: Covers(t, q) ==> c.serials[q - First(t)] <= b.pages[q].serial)
    && (forall i :: 0 <= i < |c.serials| ==> c.signature[i] == c.serials[i] % SIGNATURE_SPAN)
    && (Unmoved(b, t, c) ==> forall x :: t.Has(x) ==> mem(x) == data(x))
  }

  lemma PageOfByte(t: Tensor, x: nat)
    requires t.Has(x)
    ensures Covers(t, x / VBAR_PAGE)
  {
  }

  /** An operation of the engine keeps an entry faithful. */
  lemma SettleFaithful(b: Bar, b': Bar, mem: Memory, junk: Memory, t: Tensor, c: Cached, data: Memory)
    requires Faithful(b, mem, t, c, data) && |b'.pages| == |b.pages|
    requires forall q :: 0 <= q < |b.pages| ==> Aged(b.pages[q], b'.pages[q])
    ensures Faithful(b', Settle(b, b', mem, junk), t, c, data)
  {
    if Unmoved(b', t, c) {
      assert Unmoved(b, t, c);
      forall x: nat | t.Has(x)
        ensures Settle(b, b', mem, junk)(x) == data(x)
      {
        PageOfByte(t, x);
      }
    }
  }

  /** Writing a tensor keeps the entries of the tensors apart from it. */
  lemma WriteFaithful(b: Bar, mem: Memory, t: Tensor, data: Memory, o: Tensor, c: Cached, other: Memory)
    requires Faithful(b, mem, o, c, other) && Apart(t, o)
    ensures Faithful(b, Write(mem, t, data), o, c, other)
  {
  }

  // ----- what a signature tells -----

  /** Each page of the tensor was mapped a multiple of 2^32 times since it was cached. */
  ghost predicate Wrapped(b: Bar, t: Tensor, c: Cached) {
    End(t) <= |b.pages| && |c.serials| == End(t) - First(t)
    && forall q :: Covers(t, q) ==> (b.pages[q].serial - c.serials[q - First(t)]) % SIGNATURE_SPAN == 0
  }

  lemma SameResidue(a: nat, b: nat)
    requires b <= a
    ensures a % SIGNATURE_SPAN == b % SIGNATURE_SPAN <==> (a - b) % SIGNATURE_SPAN == 0
  {
  }

  /** A new signature equals the cached one exactly if each page was mapped a multiple of 2^32 times in between. */
  lemma SignatureCollides(b: Bar, mem: Memory, t: Tensor, c: Cached, data: Memory, signature: seq<nat>)
    requires Faithful(b, mem, t, c, data) && Signed(b, First(t), End(t), signature)
    ensures signature == c.signature <==> Wrapped(b, t, c)
  {
    forall q | Covers(t, q)
      ensures signature[q - First(t)] == c.signature[q - First(t)] <==>
              (b.pages[q].serial - c.serials[q - First(t)]) % SIGNATURE_SPAN == 0
    {
      SameResidue(b.pages[q].serial, c.serials[q - First(t)]);
    }
    if Wrapped(b, t, c) {
      forall i | 0 <= i < |signature|
        ensures signature[i] == c.signature[i]
      {
        assert Covers(t, First(t) + i);
      }
    }
  }

  /** Equal signatures mean that no page of the tensor moved, if each was mapped fewer than 2^32 times in between. */
  lemma SignatureTells(b: Bar, mem: Memory, t: Tensor, c: Cached, data: Memory, signature: seq<nat>)
    requires Faithful(b, mem, t, c, data) && Signed(b, First(t), End(t), signature)
    requires forall q :: Covers(t, q) ==> b.pages[q].serial - c.serials[q - First(t)] < SIGNATURE_SPAN
    ensures signature == c.signature <==> Unmoved(b, t, c)
  {
    SignatureCollides(b, mem, t, c, data, signature);
  }

  // ----- a client at work -----

  /** One operation of anyone else: other models, other allocators, or this VBAR's own calls. */
  ghost function Engine(env: Env, c: Client, id: nat, op: Op, junk: Memory): Client
    requires Sound(c.s) && Alive(c.s, id) && op != FreeVbar(id)
  {
    NextBar(env, c.s, op, id);
    var s' := Next(env, c.s, op);
    c.(s := s', mem := Settle(BarOf(c.s, id), BarOf(s', id), c.mem, junk))
  }

  function Serials(b: Bar, t: Tensor): seq<nat> {
    if First(t) <= End(t) <= |b.pages| then
      seq<nat>(End(t) - First(t), i requires 0 <= i < End(t) - First(t) => b.pages[First(t) + i].serial)
    else []
  }

  /** After a successful fault: reuse the tensor if the signature is the cached one, else copy its data in and
      remember the new signature. */
  ghost function Load(c: Client, id: nat, t: Tensor, signature: seq<nat>, data: Memory): Client
    requires Alive(c.s, id)
  {
    if t in c.cache && c.cache[t].signature == signature then c
    else c.(mem := Write(c.mem, t, data), cache := c.cache[t := Cached(signature, Serials(BarOf(c.s, id), t))])
  }

  /** How many open layers use page q. */
  function OpenOn(open: seq<Tensor>, q: int): nat {
    if open == [] then 0 else (if Covers(open[0], q) then 1 else 0) + OpenOn(open[1..], q)
  }

  /** Every open layer has its pin on each of its pages. */
  ghost predicate Pinning(b: Bar, open: seq<Tensor>) {
    forall q :: 0 <= q < |b.pages| ==> OpenOn(open, q) <= b.pages[q].pins
  }

  /** Every cached tensor is faithful, no two weights share a byte, every open layer holds its pins and its tensor has
      not moved. */
  ghost predicate Coherent(c: Client, id: nat, weights: map<Tensor, Memory>) {
    && Sound(c.s) && Alive(c.s, id)
    && (forall t :: t in c.cache ==> t in weights && Faithful(BarOf(c.s, id), c.mem, t, c.cache[t], weights[t]))
    && (forall t, o :: t in weights && o in weights && t != o ==> Apart(t, o))
    && Pinning(BarOf(c.s, id), c.open)
    && forall t :: t in c.open ==> t in c.cache && Unmoved(BarOf(c.s, id), t, c.cache[t])
  }

  /** Every open layer can use its weight now: the whole tensor is resident, and its bytes are its data. */
  ghost predicate Served(c: Client, id: nat, weights: map<Tensor, Memory>)
    requires Alive(c.s, id)
  {
    forall t :: t in c.open ==>
      && t in weights && End(t) <= |BarOf(c.s, id).pages|
      && (forall q :: Covers(t, q) ==> BarOf(c.s, id).pages[q].handle != 0)
      && forall x :: t.Has(x) ==> c.mem(x) == weights[t](x)
  }

  lemma CoherentServes(c: Client, id: nat, weights: map<Tensor, Memory>)
    requires Coherent(c, id, weights)
    ensures Sound(c.s) && Alive(c.s, id) && Served(c, id, weights)
  {
    hide Sound, Locate;
  }

  // ----- counting open layers -----

  lemma {:induction false} OpenOnMember(open: seq<Tensor>, t: Tensor, q: int)
    requires t in open && Covers(t, q)
    ensures OpenOn(open, q) > 0
  {
    if open[0] != t {
      OpenOnMember(open[1..], t, q);
    }
  }

  lemma {:induction false} OpenOnWithout(open: seq<Tensor>, i: nat, q: int)
    requires i < |open|
    ensures OpenOn(open, q) == OpenOn(Without(open, i), q) + if Covers(open[i], q) then 1 else 0
  {
    if i == 0 {
      assert Without(open, 0) == open[1..];
    } else {
      OpenOnWithout(open[1..], i - 1, q);
      assert Without(open, i)[1..] == Without(open[1..], i - 1);
    }
  }

  // ----- while layers are open -----

  /** The operation undoes no pin of an open layer, and wraps no counter: an unpin of this VBAR leaves each page as many
      pins as open layers use it. */
  ghost predicate Sustains(b: Bar, open: seq<Tensor>, op: Op) {
    && op != FreeVbar(b.id)
    && (op.FaultVbar? && op.id == b.id ==> PinRoom(b, op.offset, op.size))
    && (op.UnpinVbar? && op.id == b.id ==>
          forall q :: 0 <= q < |b.pages| && InRange(q, op.offset, op.size) && OpenOn(open, q) > 0 ==>
            OpenOn(open, q) < b.pages[q].pins)
  }

  lemma SustainedPage(b: Bar, b': Bar, open: seq<Tensor>, op: Op, ok: bool, q: nat)
    requires Evolves(op, ok, b, b') && q < |b.pages| && Pages(b)
    requires Pinning(b, open) && Sustains(b, open, op)
    ensures q < |b'.pages| && OpenOn(open, q) <= b'.pages[q].pins
    ensures OpenOn(open, q) > 0 ==> Intact(b.pages[q], b'.pages[q]) && b'.pages[q].handle != 0
  {
    assert OpenOn(open, q) <= b.pages[q].pins;
  }

  lemma SustainedTensor(b: Bar, b': Bar, open: seq<Tensor>, op: Op, ok: bool, t: Tensor, c: Cached)
    requires Evolves(op, ok, b, b') && Pages(b)
    requires Pinning(b, open) && Sustains(b, open, op) && t in open && Unmoved(b, t, c)
    ensures Unmoved(b', t, c)
  {
    hide Evolves, Pinning, Sustains;
    EvolvesAges(op, ok, b, b');
    forall q | Covers(t, q)
      ensures b'.pages[q].handle != 0 && b'.pages[q].serial == c.serials[q - First(t)]
    {
      OpenOnMember(open, t, q);
      SustainedPage(b, b', open, op, ok, q);
    }
  }

  lemma EvolvesAges(op: Op, ok: bool, b: Bar, b': Bar)
    requires Evolves(op, ok, b, b')
    ensures |b'.pages| == |b.pages| && forall q :: 0 <= q < |b.pages| ==> Aged(b.pages[q], b'.pages[q])
  {
  }

  lemma BarPages(s: State, id: nat)
    requires Sound(s) && Alive(s, id)
    ensures Pages(BarOf(s, id)) && BarOf(s, id).id == id
  {
    hide Accounted, AllTiled, Ids;
  }

  lemma EngineCoherent(env: Env, c: Client, id: nat, op: Op, junk: Memory, weights: map<Tensor, Memory>)
    requires Coherent(c, id, weights) && Sustains(BarOf(c.s, id), c.open, op) && op != FreeVbar(id)
    ensures Coherent(Engine(env, c, id, op, junk), id, weights)
  {
    hide Sound, Next, Locate, Settle, Faithful, Evolves, Sustains, Unmoved, Pages;
    NextBar(env, c.s, op, id);
    BarPages(c.s, id);
    var s' := Next(env, c.s, op);
    var b, b', ok := BarOf(c.s, id), BarOf(s', id), Ok(env, c.s, op);
    EvolvesAges(op, ok, b, b');
    forall t | t in c.cache
      ensures Faithful(b', Settle(b, b', c.mem, junk), t, c.cache[t], weights[t])
    {
      SettleFaithful(b, b', c.mem, junk, t, c.cache[t], weights[t]);
    }
    forall t | t in c.open
      ensures Unmoved(b', t, c.cache[t])
    {
      SustainedTensor(b, b', c.open, op, ok, t, c.cache[t]);
    }
    forall q | 0 <= q < |b'.pages|
      ensures OpenOn(c.open, q) <= b'.pages[q].pins
    {
      SustainedPage(b, b', c.open, op, ok, q);
    }
  }

  // ----- a layer begins -----

  /** No wrapped signature passes for an old one. */
  ghost predicate Telling(b: Bar, t: Tensor, c: Cached) { Wrapped(b, t, c) ==> Unmoved(b, t, c) }

  /** After a successful fault and the conditional copy the tensor is cached and has not moved since. */
  lemma LoadCoherent(c: Client, id: nat, t: Tensor, signature: seq<nat>, weights: map<Tensor, Memory>)
    requires Coherent(c, id, weights) && t in weights
    requires Signed(BarOf(c.s, id), First(t), End(t), signature)
    requires t in c.cache ==> Telling(BarOf(c.s, id), t, c.cache[t])
    ensures var c' := Load(c, id, t, signature, weights[t]);
            Coherent(c', id, weights) && t in c'.cache && Unmoved(BarOf(c.s, id), t, c'.cache[t])
  {
    hide Sound, Locate, Faithful, Signed, Apart, Write, Telling, Unmoved, Pinning;
    var b := BarOf(c.s, id);
    if t in c.cache && c.cache[t].signature == signature {
      Reused(b, c.mem, t, c.cache[t], weights[t], signature);
    } else {
      FreshFaithful(b, c.mem, t, signature, weights[t]);
      forall o | o in c.cache && o != t
        ensures Faithful(b, Write(c.mem, t, weights[t]), o, c.cache[o], weights[o])
      {
        WriteFaithful(b, c.mem, t, weights[t], o, c.cache[o], weights[o]);
      }
    }
  }

  lemma Reused(b: Bar, mem: Memory, t: Tensor, c: Cached, data: Memory, signature: seq<nat>)
    requires Faithful(b, mem, t, c, data) && Signed(b, First(t), End(t), signature) && Telling(b, t, c)
    requires c.signature == signature
    ensures Unmoved(b, t, c)
  {
    SignatureCollides(b, mem, t, c, data, signature);
  }

  lemma FreshFaithful(b: Bar, mem: Memory, t: Tensor, signature: seq<nat>, data: Memory)
    requires Signed(b, First(t), End(t), signature)
    ensures Faithful(b, Write(mem, t, data), t, Cached(signature, Serials(b, t)), data)
    ensures Unmoved(b, t, Cached(signature, Serials(b, t)))
  {
  }

  /** A tensor that has not moved is not copied again: nothing is written and its entry stays. */
  lemma LoadReuses(c: Client, id: nat, t: Tensor, signature: seq<nat>, weights: map<Tensor, Memory>)
    requires Coherent(c, id, weights) && t in c.cache
    requires Signed(BarOf(c.s, id), First(t), End(t), signature) && Unmoved(BarOf(c.s, id), t, c.cache[t])
    ensures Load(c, id, t, signature, weights[t]) == c
  {
    hide Sound, Locate, Faithful, Signed, Unmoved;
    Unwrapped(BarOf(c.s, id), t, c.cache[t]);
    SignatureCollides(BarOf(c.s, id), c.mem, t, c.cache[t], weights[t], signature);
  }

  lemma Unwrapped(b: Bar, t: Tensor, c: Cached)
    requires Unmoved(b, t, c)
    ensures Wrapped(b, t, c)
  {
  }

  /** A tensor that was never cached, or whose signature changed, is copied: its bytes are its data afterwards. */
  lemma LoadCopies(c: Client, id: nat, t: Tensor, signature: seq<nat>, data: Memory)
    requires Alive(c.s, id) && (t in c.cache ==> c.cache[t].signature != signature)
    ensures var c' := Load(c, id, t, signature, data);
            && t in c'.cache && c'.cache[t].signature == signature
            && (forall x :: t.Has(x) ==> c'.mem(x) == data(x)) && (forall x: nat :: !t.Has(x) ==> c'.mem(x) == c.mem(x))
  {
  }

  function FaultOf(id: nat, t: Tensor): Op { FaultVbar(id, t.offset, t.size) }

  function UnpinOf(id: nat, t: Tensor): Op { UnpinVbar(id, t.offset, t.size) }

  ghost function SignatureOf(env: Env, s: State, id: nat, t: Tensor): seq<nat>
    requires Sound(s) && Alive(s, id)
  {
    SoundReady(s);
    Fault(env, s.w, Locate(s.w.bars, id), t.offset, t.size).signature
  }

  /** A layer begins: fault, and on success load and stay open. */
  ghost function Begin(env: Env, c: Client, id: nat, t: Tensor, junk: Memory, data: Memory): Client
    requires Sound(c.s) && Alive(c.s, id)
  {
    NextBar(env, c.s, FaultOf(id, t), id);
    var c1 := Engine(env, c, id, FaultOf(id, t), junk);
    if !Ok(env, c.s, FaultOf(id, t)) then c1 else
    var c2 := Load(c1, id, t, SignatureOf(env, c.s, id, t), data);
    c2.(open := c2.open + [t])
  }

  lemma FaultSigns(env: Env, s: State, id: nat, t: Tensor)
    requires Sound(s) && Alive(s, id) && Ok(env, s, FaultOf(id, t))
    ensures Alive(Next(env, s, FaultOf(id, t)), id)
    ensures Signed(BarOf(Next(env, s, FaultOf(id, t)), id), First(t), End(t), SignatureOf(env, s, id, t))
  {
    hide Sound, Next, Locate, Fault;
    SoundReady(s);
    FaultedBar(env, s, id, t.offset, t.size);
    SuccessIsSound(env, s.w, Locate(s.w.bars, id), t.offset, t.size);
  }

  lemma {:induction false} OpenOnMore(open: seq<Tensor>, t: Tensor, q: int)
    ensures OpenOn(open + [t], q) == OpenOn(open, q) + if Covers(t, q) then 1 else 0
  {
    if open != [] {
      OpenOnMore(open[1..], t, q);
      assert (open + [t])[1..] == open[1..] + [t];
    }
  }

  /** The fault of a layer that begins gives it its pin on each page. */
  lemma FaultPins(b: Bar, b': Bar, open: seq<Tensor>, t: Tensor)
    requires Evolves(FaultOf(b.id, t), true, b, b') && Pinning(b, open) && PinRoom(b, t.offset, t.size)
    ensures Pinning(b', open + [t])
  {
    forall q | 0 <= q < |b'.pages|
      ensures OpenOn(open + [t], q) <= b'.pages[q].pins
    {
      OpenOnMore(open, t, q);
      assert OpenOn(open, q) <= b.pages[q].pins;
    }
  }

  lemma BeginCoherent(env: Env, c: Client, id: nat, t: Tensor, junk: Memory, weights: map<Tensor, Memory>)
    requires Coherent(c, id, weights) && t in weights && PinRoom(BarOf(c.s, id), t.offset, t.size)
    requires Alive(Next(env, c.s, FaultOf(id, t)), id)
    requires t in c.cache ==> Telling(BarOf(Next(env, c.s, FaultOf(id, t)), id), t, c.cache[t])
    ensures Coherent(Begin(env, c, id, t, junk, weights[t]), id, weights)
    ensures Ok(env, c.s, FaultOf(id, t)) ==> t in Begin(env, c, id, t, junk, weights[t]).open
  {
    hide Sound, Next, Locate, Settle, Faithful, Signed, Telling, Apart, Evolves, Unmoved, PinRoom, Pages;
    var op := FaultOf(id, t);
    NextBar(env, c.s, op, id);
    BarPages(c.s, id);
    EngineCoherent(env, c, id, op, junk, weights);
    if Ok(env, c.s, op) {
      var c1 := Engine(env, c, id, op, junk);
      FaultSigns(env, c.s, id, t);
      LoadCoherent(c1, id, t, SignatureOf(env, c.s, id, t), weights);
      FaultPins(BarOf(c.s, id), BarOf(c1.s, id), c.open, t);
    }
  }

  // ----- a layer finishes -----

  /** A layer is done with its weight: unpin. */
  ghost function Finish(env: Env, c: Client, id: nat, i: nat, junk: Memory): Client
    requires Sound(c.s) && Alive(c.s, id) && i < |c.open|
  {
    Engine(env, c.(open := Without(c.open, i)), id, UnpinOf(id, c.open[i]), junk)
  }

  /** Its unpin undoes no other layer's pin. */
  lemma FinishSustains(b: Bar, open: seq<Tensor>, i: nat)
    requires i < |open| && Pinning(b, open)
    ensures Pinning(b, Without(open, i)) && Sustains(b, Without(open, i), UnpinOf(b.id, open[i]))
  {
    forall q | 0 <= q < |b.pages|
      ensures OpenOn(Without(open, i), q) + (if Covers(open[i], q) then 1 else 0) <= b.pages[q].pins
    {
      OpenOnWithout(open, i, q);
      assert OpenOn(open, q) <= b.pages[q].pins;
    }
  }

  lemma FinishCoherent(env: Env, c: Client, id: nat, i: nat, junk: Memory, weights: map<Tensor, Memory>)
    requires Coherent(c, id, weights) && i < |c.open|
    ensures Coherent(Finish(env, c, id, i, junk), id, weights)
  {
    hide Sound, Locate, Faithful, Apart, Unmoved, Sustains, Pinning, Engine, Pages;
    BarPages(c.s, id);
    FinishSustains(BarOf(c.s, id), c.open, i);
    EngineCoherent(env, c.(open := Without(c.open, i)), id, UnpinOf(id, c.open[i]), junk, weights);
  }

  // ----- whole runs -----

  /** What happens to a client: an operation of the engine, a layer that begins, or an open layer that finishes. */
  datatype Event = Other(op: Op, junk: Memory) | Beginning(t: Tensor, junk: Memory) | Finishing(i: nat, junk: Memory)

  /** The event is one of a correct program: it unpins only what it pinned, frees no VBAR in use, and no counter or
      signature wraps around. */
  ghost predicate Careful(env: Env, c: Client, id: nat, e: Event, weights: map<Tensor, Memory>)
    requires Sound(c.s) && Alive(c.s, id)
  {
    match e
    case Other(op, _) => op != FreeVbar(id) && Sustains(BarOf(c.s, id), c.open, op)
    case Beginning(t, _) =>
      && t in weights && PinRoom(BarOf(c.s, id), t.offset, t.size)
      && var s' := Next(env, c.s, FaultOf(id, t));
         t in c.cache && Alive(s', id) ==> Telling(BarOf(s', id), t, c.cache[t])
    case Finishing(i, _) => i < |c.open|
  }

  ghost function Work(env: Env, c: Client, id: nat, e: Event, weights: map<Tensor, Memory>): Client
    requires Sound(c.s) && Alive(c.s, id) && Careful(env, c, id, e, weights)
  {
    match e
    case Other(op, junk) => Engine(env, c, id, op, junk)
    case Beginning(t, junk) => Begin(env, c, id, t, junk, weights[t])
    case Finishing(i, junk) => Finish(env, c, id, i, junk)
  }

  /** The pins of the VBAR are those of the open layers and no others. */
  ghost predicate ExactPins(b: Bar, open: seq<Tensor>) {
    forall q :: 0 <= q < |b.pages| ==> b.pages[q].pins == OpenOn(open, q)
  }

  lemma FaultExact(b: Bar, b': Bar, open: seq<Tensor>, t: Tensor, ok: bool)
    requires Evolves(FaultOf(b.id, t), ok, b, b') && ExactPins(b, open) && PinRoom(b, t.offset, t.size)
    ensures ExactPins(b', if ok then open + [t] else open)
  {
    forall q | 0 <= q < |b'.pages|
      ensures b'.pages[q].pins == OpenOn(if ok then open + [t] else open, q)
    {
      OpenOnMore(open, t, q);
      assert b.pages[q].pins == OpenOn(open, q);
    }
  }

  lemma UnpinExact(b: Bar, b': Bar, open: seq<Tensor>, i: nat, ok: bool)
    requires i < |open| && Evolves(UnpinOf(b.id, open[i]), ok, b, b') && ExactPins(b, open)
    ensures ExactPins(b', Without(open, i))
  {
    forall q | 0 <= q < |b'.pages|
      ensures b'.pages[q].pins == OpenOn(Without(open, i), q)
    {
      OpenOnWithout(open, i, q);
      assert b.pages[q].pins == OpenOn(open, q);
    }
  }

  lemma OtherExact(b: Bar, b': Bar, open: seq<Tensor>, op: Op, ok: bool)
    requires Evolves(op, ok, b, b') && ExactPins(b, open) && Neutral(op, b.id)
    ensures ExactPins(b', open)
  {
    forall q | 0 <= q < |b'.pages|
      ensures b'.pages[q].pins == OpenOn(open, q)
    {
      assert b.pages[q].pins == OpenOn(open, q);
    }
  }

  /** No pin leaks: as long as only layers pin and unpin a VBAR, each page has exactly one pin for each open layer
      that uses it, so none is left when the last one finishes. */
  lemma NoPinLeaks(env: Env, c: Client, id: nat, e: Event, weights: map<Tensor, Memory>)
    requires Sound(c.s) && Alive(c.s, id) && Careful(env, c, id, e, weights)
    requires ExactPins(BarOf(c.s, id), c.open) && (e.Other? ==> Neutral(e.op, id))
    ensures var c' := Work(env, c, id, e, weights); Alive(c'.s, id) && ExactPins(BarOf(c'.s, id), c'.open)
  {
    hide Sound, Next, Locate, Telling, Sustains, PinRoom, Evolves, ExactPins, Neutral, Pages;
    BarPages(c.s, id);
    var op := match e case Other(op, _) => op case Beginning(t, _) => FaultOf(id, t)
              case Finishing(i, _) => UnpinOf(id, c.open[i]);
    NextBar(env, c.s, op, id);
    var b, b', ok := BarOf(c.s, id), BarOf(Next(env, c.s, op), id), Ok(env, c.s, op);
    match e
    case Other(_, _) => OtherExact(b, b', c.open, op, ok);
    case Beginning(t, _) => FaultExact(b, b', c.open, t, ok);
    case Finishing(i, _) => UnpinExact(b, b', c.open, i, ok);
  }

  lemma WorkCoherent(env: Env, c: Client, id: nat, e: Event, weights: map<Tensor, Memory>)
    requires Coherent(c, id, weights) && Sound(c.s) && Alive(c.s, id) && Careful(env, c, id, e, weights)
    ensures Coherent(Work(env, c, id, e, weights), id, weights)
  {
    hide Sound, Next, Locate, Coherent, Telling, Engine, Begin, Finish, Sustains, PinRoom;
    match e
    case Other(op, junk) => EngineCoherent(env, c, id, op, junk, weights);
    case Beginning(t, junk) =>
      NextBar(env, c.s, FaultOf(id, t), id);
      BeginCoherent(env, c, id, t, junk, weights);
    case Finishing(i, junk) => FinishCoherent(env, c, id, i, junk, weights);
  }

  /** Every open layer is served now, and after each event of a run as long as the events are careful. */
  ghost predicate AlwaysServed(env: Env, c: Client, id: nat, es: seq<Event>, weights: map<Tensor, Memory>)
    decreases |es|
  {
    && Sound(c.s) && Alive(c.s, id) && Served(c, id, weights)
    && (es != [] && Careful(env, c, id, es[0], weights) ==>
          AlwaysServed(env, Work(env, c, id, es[0], weights), id, es[1..], weights))
  }

  /** Over any run, with any number of layers open at once, on shared pages too, and anyone's allocations, faults and
      evictions in between: from its fault to its unpin every layer has its own weight in memory, whole and unchanged.
      */
  lemma {:induction false} EveryLayerReadsItsData(env: Env, c: Client, id: nat, es: seq<Event>,
                                                  weights: map<Tensor, Memory>)
    requires Coherent(c, id, weights)
    ensures AlwaysServed(env, c, id, es, weights)
    decreases |es|
  {
    hide Sound, Next, Locate, Coherent, Careful, Work, Served;
    CoherentServes(c, id, weights);
    if es != [] && Careful(env, c, id, es[0], weights) {
      WorkCoherent(env, c, id, es[0], weights);
      EveryLayerReadsItsData(env, Work(env, c, id, es[0], weights), id, es[1..], weights);
    }
  }

  /** A client with nothing cached and nothing open. */
  function NewClient(s: State, mem: Memory): Client { Client(s, mem, map[], []) }

  lemma NewClientCoherent(s: State, mem: Memory, id: nat, weights: map<Tensor, Memory>)
    requires Sound(s) && Alive(s, id)
    requires forall t, o :: t in weights && o in weights && t != o ==> Apart(t, o)
    ensures Coherent(NewClient(s, mem), id, weights)
  {
  }

  /** From the start: weights placed in a VBAR one after another, in any state of the context. */
  lemma PlacedWeightsAreServed(env: Env, s: State, mem: Memory, id: nat, maxSize: nat, sizes: seq<nat>, es: seq<Event>,
                               weights: map<Tensor, Memory>)
    requires Sound(s) && Alive(s, id) && forall t :: t in weights ==> t in PlaceAll(0, maxSize, sizes)
    ensures AlwaysServed(env, NewClient(s, mem), id, es, weights)
  {
    hide Sound, Locate, PlaceAll, AlwaysServed, Apart;
    var ts := PlaceAll(0, maxSize, sizes);
    PlacedApart(0, maxSize, sizes);
    forall t, o | t in weights && o in weights && t != o
      ensures Apart(t, o)
    {
      var i :| 0 <= i < |ts| && ts[i] == t;
      var j :| 0 <= j < |ts| && ts[j] == o;
      ApartBoth(ts, 0, maxSize, i, j);
    }
    NewClientCoherent(s, mem, id, weights);
    EveryLayerReadsItsData(env, NewClient(s, mem), id, es, weights);
  }

  lemma ApartBoth(ts: seq<Tensor>, offset: nat, maxSize: nat, i: nat, j: nat)
    requires PlacedFrom(ts, offset, maxSize) && i < |ts| && j < |ts| && i != j
    ensures Apart(ts[i], ts[j])
  {
    if i > j {
      assert Apart(ts[j], ts[i]);
    }
  }
}
