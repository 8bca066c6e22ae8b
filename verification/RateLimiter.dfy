/** The sliding-window limiter: a pruned queue of recent hits that decides as the full history would. */
module RateLimiter {

  // ---------------------------------------------------------------- deciding from the full history

  /** The hits no older than `window` at `now`. */
  function Recent(hits: seq<real>, now: real, window: real): seq<real> {
    if hits == [] then []
    else
      var last := hits[|hits| - 1];
      Recent(hits[..|hits| - 1], now, window) + if now - last <= window then [last] else []
  }

  /** The runs allowed out of those asked for at `times`: each if fewer than `max` allowed ones are recent. */
  function Allowed(times: seq<real>, max: nat, window: real): seq<real> {
    if times == [] then []
    else
      var earlier, now := Allowed(times[..|times| - 1], max, window), times[|times| - 1];
      if |Recent(earlier, now, window)| < max then earlier + [now] else earlier
  }

  predicate Ordered(times: seq<real>) {
    forall i, j :: 0 <= i < j < |times| ==> times[i] <= times[j]
  }

  function CountIn(hits: seq<real>, from: real, to: real): nat {
    if hits == [] then 0
    else CountIn(hits[..|hits| - 1], from, to) + if from <= hits[|hits| - 1] <= to then 1 else 0
  }

  lemma {:induction false} AllowedAreAsked(times: seq<real>, max: nat, window: real)
    requires Ordered(times)
    ensures Ordered(Allowed(times, max, window))
    ensures forall i :: 0 <= i < |Allowed(times, max, window)| ==>
          times != [] && Allowed(times, max, window)[i] <= times[|times| - 1]
  {
    if times != [] { AllowedAreAsked(times[..|times| - 1], max, window); }
  }

  lemma {:induction false} CountedAreRecent(hits: seq<real>, from: real, now: real, window: real)
    requires now <= from + window
    ensures CountIn(hits, from, from + window) <= |Recent(hits, now, window)|
  {
    if hits != [] { CountedAreRecent(hits[..|hits| - 1], from, now, window); }
  }

  /** No interval of the window's length holds more than `max` allowed runs. */
  lemma {:induction false} NoWindowOverflows(times: seq<real>, max: nat, window: real, from: real)
    ensures CountIn(Allowed(times, max, window), from, from + window) <= max
  {
    if times != [] {
      var earlier, now := Allowed(times[..|times| - 1], max, window), times[|times| - 1];
      NoWindowOverflows(times[..|times| - 1], max, window, from);
      assert (earlier + [now])[..|earlier|] == earlier;
      if now <= from + window { CountedAreRecent(earlier, from, now, window); }
    }
  }

  // ---------------------------------------------------------------- deciding from the queue

  predicate Stale(hits: seq<real>, now: real, window: real) {
    forall i :: 0 <= i < |hits| ==> now - hits[i] > window
  }

  /** Of an ordered history whose first part is stale and whose second starts with a hit that is not, the
      second part is what is recent. */
  lemma {:induction false} RecentIsTheRest(dropped: seq<real>, kept: seq<real>, now: real, window: real)
    requires Stale(dropped, now, window) && Ordered(kept) && (kept != [] ==> now - kept[0] <= window)
    ensures Recent(dropped + kept, now, window) == kept
  {
    if kept != [] {
      var n := |kept| - 1;
      assert (dropped + kept)[..|dropped + kept| - 1] == dropped + kept[..n];
      RecentIsTheRest(dropped, kept[..n], now, window);
      assert kept[0] <= kept[n];
    } else {
      assert dropped + kept == dropped;
      NothingRecent(dropped, now, window);
    }
  }

  lemma {:induction false} NothingRecent(hits: seq<real>, now: real, window: real)
    requires Stale(hits, now, window)
    ensures Recent(hits, now, window) == []
  {
    if hits != [] { NothingRecent(hits[..|hits| - 1], now, window); }
  }

  lemma OrderedTail(a: seq<real>, b: seq<real>)
    requires Ordered(a + b)
    ensures Ordered(b)
  {
    assert forall i :: 0 <= i < |b| ==> b[i] == (a + b)[|a| + i];
  }

  lemma OrderedSnoc(times: seq<real>, now: real)
    requires Ordered(times) && (times != [] ==> times[|times| - 1] <= now)
    ensures Ordered(times + [now])
  {
    forall i | 0 <= i < |times| ensures times[i] <= now {
      assert i == |times| - 1 || times[i] <= times[|times| - 1];
    }
  }

  lemma AllowedSnoc(times: seq<real>, now: real, max: nat, window: real)
    ensures Allowed(times + [now], max, window) ==
            var earlier := Allowed(times, max, window);
            if |Recent(earlier, now, window)| < max then earlier + [now] else earlier
  {
    assert (times + [now])[..|times|] == times;
  }

  class RateLimiter {
    const max: nat
    const window: real
    var hits: seq<real>
    /** Every moment a run was asked for, and the allowed ones dropped from the queue since. */
    ghost var times: seq<real>
    ghost var dropped: seq<real>

    ghost predicate Valid()
      reads this
    {
      && Ordered(times)
      && dropped + hits == Allowed(times, max, window)
      && (times == [] ==> dropped == [])
      && (times != [] ==> Stale(dropped, times[|times| - 1], window))
    }

    constructor (max: nat, window: real)
      ensures this.max == max && this.window == window && times == [] && Valid()
    {
      this.max, this.window := max, window;
      hits, times, dropped := [], [], [];
    }

    /** Drops from the front what is too old at `now`. */
    method Prune(now: real)
      requires Valid() && (times != [] ==> times[|times| - 1] <= now)
      modifies this`hits, this`dropped
      ensures dropped + hits == Allowed(times, max, window) && Stale(dropped, now, window)
      ensures hits == Recent(Allowed(times, max, window), now, window)
    {
      ghost var all := Allowed(times, max, window);
      while hits != [] && now - hits[0] > window
        invariant dropped + hits == all && Stale(dropped, now, window)
        decreases |hits|
      {
        assert hits == [hits[0]] + hits[1..];
        assert dropped + hits == dropped + [hits[0]] + hits[1..];
        dropped, hits := dropped + [hits[0]], hits[1..];
      }
      AllowedAreAsked(times, max, window);
      OrderedTail(dropped, hits);
      RecentIsTheRest(dropped, hits, now, window);
    }

    /** `now` comes from a monotonic clock. The answer is that of the full history. */
    method Allow(now: real) returns (ok: bool)
      requires Valid() && (times != [] ==> times[|times| - 1] <= now)
      modifies this
      ensures Valid() && times == old(times) + [now]
      ensures ok <==> |Recent(Allowed(old(times), max, window), now, window)| < max
      ensures Allowed(times, max, window) == Allowed(old(times), max, window) + if ok then [now] else []
    {
      Prune(now);
      ok := |hits| < max;
      Note(now, ok);
    }

    method Note(now: real, ok: bool)
      requires Ordered(times) && (times != [] ==> times[|times| - 1] <= now)
      requires dropped + hits == Allowed(times, max, window) && Stale(dropped, now, window)
      requires ok <==> |Recent(Allowed(times, max, window), now, window)| < max
      modifies this`hits, this`times
      ensures Valid() && times == old(times) + [now]
      ensures Allowed(times, max, window) == Allowed(old(times), max, window) + if ok then [now] else []
    {
      ghost var all := Allowed(times, max, window);
      AllowedSnoc(times, now, max, window);
      OrderedSnoc(times, now);
      times := times + [now];
      if ok {
        hits := hits + [now];
        assert dropped + hits == all + [now];
      } else {
        assert all + [] == all;
      }
    }
  }
}
