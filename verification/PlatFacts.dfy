/** What a poll, a reservation and a mapping transaction mean, in terms of what the environment answers. */
module PlatFacts {
  import opened Plat

  /** Rounding up: the first multiple of the unit from x on. */
  lemma AlignUpMeans(x: nat, unit: nat)
    requires unit > 0
    ensures x <= AlignUp(x, unit) < x + unit
    ensures exists k: nat :: AlignUp(x, unit) == k * unit
  {
    var y := x + unit - 1;
    assert y == y / unit * unit + y % unit;
    assert AlignUp(x, unit) == (y / unit) * unit;
  }

  /** Until the next poll, a zero deficit means exactly that the request, the headroom and all usage fit the card, and
      that the request and the usage gained since the last poll fit what the driver last reported: a due poll starts
      the count anew even if it fails, one that is not due does not. */
  lemma PollTracksUsage(env: Env, d: Dev, later: Dev, size: nat)
    requires later.deficitSync == Poll(env, d).deficitSync && later.lastCheck == Poll(env, d).lastCheck
    ensures var a := env(d.clock);
            Deficit(later, size) == 0 <==>
            && later.usage + size + VRAM_HEADROOM <= later.capacity
            && if d.stamp <= a.tick < d.stamp + POLL_TICKS then later.usage - d.lastCheck + size <= -d.deficitSync
               else if a.result.Success? then later.usage - d.usage + size + VRAM_HEADROOM <= a.value
               else later.usage - d.usage + size <= -d.deficitSync
  {
  }

  /** A poll asks once, touches nothing but the budget's own figures, and rests for 2000 ticks once it was due. */
  lemma PollRests(env: Env, d: Dev)
    ensures var d' := Poll(env, d);
            && d'.capacity == d.capacity && d'.usage == d.usage && d'.gpu == d.gpu && d'.clock == d.clock + 1
            && var t := env(d.clock).tick;
               && (!(d.stamp <= t < d.stamp + POLL_TICKS) ==>
                     (t <= env(d'.clock).tick < t + POLL_TICKS ==> Poll(env, d') == d'.(clock := d'.clock + 1)))
               && (d.stamp <= t < d.stamp + POLL_TICKS ==> d' == d.(clock := d.clock + 1))
  {
  }

  /** A handle the driver may hand out. */
  predicate Usable(d: Dev, a: Answer) { a.result.Success? && a.value != 0 && a.value !in d.gpu.live }

  /** A mapping transaction succeeds exactly if all three calls do, with the handle handed out; otherwise its error is
      that of the first call to fail, and no further call is made. */
  lemma StoogesAnswers(env: Env, d: Dev, va: int, size: int)
    ensures var t := Stooges(env, d, va, size);
            var first, second, third := env(d.clock), env(d.clock + 1), env(d.clock + 2);
            if !first.result.Success? then t.err == first.result && t.dev.clock == d.clock + 1
            else if !Usable(d, first) then t.err == OtherError && t.dev.clock == d.clock + 1
            else if !second.result.Success? then t.err == second.result && t.dev.clock == d.clock + 2
            else t.err == third.result && t.dev.clock == d.clock + 3 && (t.err.Success? ==> t.handle == first.value)
  {
  }

  /** A reservation succeeds exactly if the driver grants an address apart from every other reservation. */
  lemma ReserveAnswers(env: Env, d: Dev, size: nat)
    ensures var r := Reserve(env, d, size);
            var a := env(d.clock);
            && (r.err.Success? <==>
                  a.result.Success? && a.value != 0 && forall o :: o in d.gpu.spaces ==> Space(a.value, size).Apart(o))
            && r.dev == d.(clock := d.clock + 1, gpu := r.dev.gpu)
            && r.dev.gpu == (if r.err.Success? then d.gpu.(spaces := d.gpu.spaces + {Space(a.value, size)}) else d.gpu)
            && (r.err.Success? ==> r.handle == a.value)
            && (!a.result.Success? ==> r.err == a.result)
  {
  }
}
