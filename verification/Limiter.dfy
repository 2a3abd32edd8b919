/**
 * The sliding-window limiter (pwa/services/ratelimit.py): pruned deques and a
 * periodic sweep that must answer every query as the full history would.
 */
module RateLimiter {
  import opened Common

  /** One recorded event. */
  datatype Hit = Hit(key: string, at: real)

  // ---------------------------------------------------------------- the full history

  function Times(history: seq<Hit>, key: string): seq<real> {
    if history == [] then []
    else
      var h, earlier := history[|history| - 1], Times(history[..|history| - 1], key);
      if h.key == key then earlier + [h.at] else earlier
  }

  /** The times after `cutoff`, in order. */
  function After(times: seq<real>, cutoff: real): seq<real> {
    if times == [] then []
    else
      var t, earlier := times[|times| - 1], After(times[..|times| - 1], cutoff);
      if cutoff < t then earlier + [t] else earlier
  }

  /** The answer of a limiter that forgot nothing: seconds to wait, or none. */
  function Naive(history: seq<Hit>, key: string, limit: int, window: real, now: real): Option<int> {
    Wait(After(Times(history, key), now - window), limit, window, now)
  }

  /** The seconds to wait when `q` is what the window holds. */
  function Wait(q: seq<real>, limit: int, window: real, now: real): Option<int> {
    if q == [] || |q| < limit then None else Some(Max(1, (q[0] + window - now).Floor + 1))
  }

  predicate Sorted(q: seq<real>) {
    forall i, j :: 0 <= i < j < |q| ==> q[i] <= q[j]
  }

  predicate Before(q: seq<real>, now: real) {
    forall i :: 0 <= i < |q| ==> q[i] <= now
  }

  // ---------------------------------------------------------------- filtering

  lemma AfterAppend(q: seq<real>, t: real, c: real)
    ensures After(q + [t], c) == if c < t then After(q, c) + [t] else After(q, c)
  {
  }

  /** What an earlier cut kept is all a later cut needs. */
  lemma {:induction false} AfterTwice(q: seq<real>, c: real, d: real)
    requires c <= d
    ensures After(After(q, c), d) == After(q, d)
  {
    if q != [] {
      AfterTwice(q[..|q| - 1], c, d);
      AfterAppend(After(q[..|q| - 1], c), q[|q| - 1], d);
    }
  }

  lemma {:induction false} AfterSorted(q: seq<real>, c: real)
    requires Sorted(q)
    ensures Sorted(After(q, c)) && |After(q, c)| <= |q|
    ensures forall i :: 0 <= i < |After(q, c)| ==> After(q, c)[i] in q && c < After(q, c)[i]
  {
    if q != [] {
      AfterSorted(q[..|q| - 1], c);
    }
  }

  /** Popping an old head changes no later answer. */
  lemma {:induction false} PopHead(q: seq<real>, c: real)
    requires q != [] && q[0] <= c
    ensures After(q[1..], c) == After(q, c)
  {
    if |q| == 1 {
      assert After(q, c) == After([], c);
    } else {
      PopHead(q[..|q| - 1], c);
      assert q[1..][..|q| - 2] == q[..|q| - 1][1..];
    }
  }

  lemma {:induction false} AllKept(q: seq<real>, c: real)
    requires forall i :: 0 <= i < |q| ==> c < q[i]
    ensures After(q, c) == q
  {
    if q != [] {
      AllKept(q[..|q| - 1], c);
    }
  }

  lemma TimesAppend(history: seq<Hit>, h: Hit, key: string)
    ensures Times(history + [h], key) == if h.key == key then Times(history, key) + [h.at] else Times(history, key)
  {
  }

  /** A stored deque stands for a key's full history from `cutoff` on. */
  ghost predicate Stands(q: seq<real>, times: seq<real>, cutoff: real) {
    After(q, cutoff) == After(times, cutoff)
  }

  lemma StandsLater(q: seq<real>, times: seq<real>, c: real, d: real)
    requires Stands(q, times, c) && c <= d
    ensures Stands(q, times, d)
  {
    AfterTwice(q, c, d);
    AfterTwice(times, c, d);
  }

  function Stored(events: map<string, seq<real>>, key: string): seq<real> {
    if key in events then events[key] else []
  }

  /** An empty deque leaves the dictionary. */
  function Put(events: map<string, seq<real>>, key: string, q: seq<real>): map<string, seq<real>> {
    if q == [] then events - {key} else events[key := q]
  }

  ghost predicate Good(q: seq<real>, times: seq<real>, window: real, now: real) {
    Sorted(q) && Before(q, now) && Stands(q, times, now - window)
  }

  ghost predicate AllGood(events: map<string, seq<real>>, history: seq<Hit>, window: real, now: real) {
    forall key :: Good(Stored(events, key), Times(history, key), window, now)
  }

  lemma GoodPut(events: map<string, seq<real>>, history: seq<Hit>, window: real, now: real, key: string, q: seq<real>)
    requires AllGood(events, history, window, now) && Good(q, Times(history, key), window, now)
    ensures AllGood(Put(events, key, q), history, window, now) && Stored(Put(events, key, q), key) == q
  {
  }

  lemma GoodOneMore(q: seq<real>, times: seq<real>, window: real, now: real)
    requires Good(q, times, window, now)
    ensures Good(q + [now], times + [now], window, now)
  {
  }

  lemma GoodAppend(events: map<string, seq<real>>, history: seq<Hit>, window: real, now: real, key: string)
    requires AllGood(events, history, window, now)
    ensures AllGood(events[key := Stored(events, key) + [now]], history + [Hit(key, now)], window, now)
  {
    var later := events[key := Stored(events, key) + [now]];
    forall other ensures Good(Stored(later, other), Times(history + [Hit(key, now)], other), window, now) {
      assert Good(Stored(events, other), Times(history, other), window, now);
      TimesAppend(history, Hit(key, now), other);
      if other == key {
        GoodOneMore(Stored(events, key), Times(history, key), window, now);
      } else {
        assert Stored(later, other) == Stored(events, other);
      }
    }
  }

  /** Reading the clock ages every deque but changes none of them. */
  lemma GoodLater(events: map<string, seq<real>>, history: seq<Hit>, window: real, now: real, later: real)
    requires AllGood(events, history, window, now) && now <= later
    ensures AllGood(events, history, window, later)
  {
    forall key ensures Good(Stored(events, key), Times(history, key), window, later) {
      assert Good(Stored(events, key), Times(history, key), window, now);
      StandsLater(Stored(events, key), Times(history, key), now - window, later - window);
    }
  }

  const SWEEP_EVERY := 1000

  /** Old heads leave the deque one by one. */
  method DropOld(stored: seq<real>, ghost times: seq<real>, window: real, now: real) returns (q: seq<real>)
    requires Good(stored, times, window, now)
    ensures Good(q, times, window, now) && q == After(times, now - window)
  {
    q := stored;
    while q != [] && q[0] <= now - window
      invariant Good(q, times, window, now)
    {
      PopHead(q, now - window);
      q := q[1..];
    }
    AllKept(q, now - window);
  }

  class Limiter {
    const limit: int
    const window: real
    var events: map<string, seq<real>>
    var sinceSweep: nat

    /** Every event added since the last reset, and the last time the clock was read. */
    ghost var history: seq<Hit>
    ghost var latest: real

    ghost predicate Valid()
      reads this
    {
      AllGood(events, history, window, latest)
    }

    constructor (limit: int, window: real, ghost now: real)
      ensures Valid() && history == [] && latest == now && this.limit == limit && this.window == window
    {
      this.limit, this.window := limit, window;
      events, sinceSweep := map[], 0;
      history, latest := [], now;
    }

    /** `_prune`: old events leave the front of the deque. */
    method Prune(key: string, now: real) returns (q: seq<real>)
      requires Valid() && latest == now
      modifies this`events
      ensures Valid() && q == Stored(events, key) && q == After(Times(history, key), now - window)
      ensures events == Put(old(events), key, q)
    {
      q := DropOld(Stored(events, key), Times(history, key), window, now);
      GoodPut(events, history, window, now, key, q);
      events := Put(events, key, q);
    }

    /** `retry_after`: the same answer as the full history gives. */
    method RetryAfter(key: string, now: real) returns (wait: Option<int>)
      requires Valid() && latest <= now
      modifies this
      ensures Valid() && latest == now && history == old(history)
      ensures wait == Naive(history, key, limit, window, now)
    {
      GoodLater(events, history, window, latest, now);
      latest := now;
      var q := Prune(key, now);
      wait := Wait(q, limit, window, now);
    }

    /** `add`: one more event, and every thousandth time a sweep over all keys. */
    method Add(key: string, now: real)
      requires Valid() && latest <= now
      modifies this
      ensures Valid() && latest == now && history == old(history) + [Hit(key, now)]
    {
      GoodLater(events, history, window, latest, now);
      GoodAppend(events, history, window, now, key);
      events := events[key := Stored(events, key) + [now]];
      history, latest := history + [Hit(key, now)], now;
      sinceSweep := sinceSweep + 1;
      if sinceSweep >= SWEEP_EVERY {
        sinceSweep := 0;
        Sweep(now);
      }
    }

    /** After a sweep no key is kept for an empty window. */
    method Sweep(now: real)
      requires Valid() && latest == now
      modifies this`events
      ensures Valid() && forall key :: key in events ==> events[key] != []
    {
      var left := events.Keys;
      while left != {}
        invariant Valid()
        invariant forall key :: key in events && key !in left ==> events[key] != []
        decreases left
      {
        var key :| key in left;
        var q := Prune(key, now);
        left := left - {key};
      }
    }

    method Reset()
      requires Valid()
      modifies this`events, this`history
      ensures Valid() && history == []
    {
      events, history := map[], [];
    }
  }

  /** `take`: refuse when the limit is used up, else count the attempt; the clock is read once for each. */
  method Take(limiter: Limiter, key: string, now: real, later: real) returns (refused: Option<int>)
    requires limiter.Valid() && limiter.latest <= now <= later
    modifies limiter
    ensures limiter.Valid() && limiter.latest == if refused.Some? then now else later
    ensures refused == Naive(old(limiter.history), key, limiter.limit, limiter.window, now)
    ensures limiter.history == if refused.Some? then old(limiter.history) else old(limiter.history) + [Hit(key, later)]
  {
    refused := limiter.RetryAfter(key, now);
    if refused.None? {
      limiter.Add(key, later);
    }
  }

  // ---------------------------------------------------------------- what the limit means

  /** Histories in which every event was accepted by `take`, under a clock that does not go back. */
  predicate Taken(history: seq<Hit>, limit: int, window: real) {
    history == [] ||
    var earlier, h := history[..|history| - 1], history[|history| - 1];
    && Taken(earlier, limit, window)
    && (earlier != [] ==> earlier[|earlier| - 1].at <= h.at)
    && Naive(earlier, h.key, limit, window, h.at).None?
  }

  /** The events of `key` in the half-open window of the given length that ends with `t`. */
  function Within(history: seq<Hit>, key: string, window: real, t: real): set<nat> {
    set i | 0 <= i < |history| && history[i].key == key && t - window < history[i].at <= t
  }

  lemma LastOfWithin(history: seq<Hit>, key: string, window: real, t: real)
    requires history != []
    ensures var n, h := |history| - 1, history[|history| - 1];
      && n !in Within(history[..n], key, window, t)
      && Within(history, key, window, t) == Within(history[..n], key, window, t)
           + if h.key == key && t - window < h.at <= t then {n} else {}
  {
  }

  lemma {:induction false} WithinIsAfter(history: seq<Hit>, key: string, window: real, t: real, c: real)
    requires c <= t - window
    ensures |Within(history, key, window, t)| <= |After(Times(history, key), c)|
    ensures c == t - window && (forall i :: 0 <= i < |history| ==> history[i].at <= t) ==>
      |Within(history, key, window, t)| == |After(Times(history, key), c)|
  {
    if history != [] {
      var earlier, h := history[..|history| - 1], history[|history| - 1];
      LastOfWithin(history, key, window, t);
      WithinIsAfter(earlier, key, window, t, c);
      if h.key == key {
        AfterAppend(Times(earlier, key), h.at, c);
      }
    }
  }

  /** A key is told to wait if and only if the window up to now holds as many of its events as the limit, or one for a limit below one. */
  lemma RefusedExactly(history: seq<Hit>, key: string, limit: int, window: real, now: real)
    requires forall i :: 0 <= i < |history| ==> history[i].at <= now
    ensures Naive(history, key, limit, window, now).Some? <==> |Within(history, key, window, now)| >= Max(1, limit)
  {
    WithinIsAfter(history, key, window, now, now - window);
  }

  /** No window of the configured length ever holds more accepted events than the limit; a limit of zero lets one through. */
  lemma {:induction false} LimitHolds(history: seq<Hit>, key: string, limit: int, window: real, t: real)
    requires Taken(history, limit, window)
    ensures |Within(history, key, window, t)| <= Max(1, limit)
  {
    if history != [] {
      var earlier, h := history[..|history| - 1], history[|history| - 1];
      LimitHolds(earlier, key, limit, window, t);
      LastOfWithin(history, key, window, t);
      if h.key == key && t - window < h.at <= t {
        WithinIsAfter(earlier, key, window, t, h.at - window);
      }
    }
  }

  lemma {:induction false} TakenTimes(history: seq<Hit>, key: string, limit: int, window: real, now: real)
    requires Taken(history, limit, window) && (history != [] ==> history[|history| - 1].at <= now)
    ensures Sorted(Times(history, key)) && Before(Times(history, key), now)
  {
    if history != [] {
      var earlier, h := history[..|history| - 1], history[|history| - 1];
      TakenTimes(earlier, key, limit, window, h.at);
    }
  }

  lemma {:induction false} LaterIsFewer(q: seq<real>, c: real, d: real)
    requires c <= d
    ensures |After(q, d)| <= |After(q, c)|
  {
    if q != [] {
      LaterIsFewer(q[..|q| - 1], c, d);
    }
  }

  /** An attempt counted by `take`, a moment after it was let through, is one the limit allows. */
  lemma TakeKeepsTaken(history: seq<Hit>, key: string, limit: int, window: real, now: real, later: real)
    requires Taken(history, limit, window) && (history != [] ==> history[|history| - 1].at <= now) && now <= later
    requires Naive(history, key, limit, window, now).None?
    ensures Taken(history + [Hit(key, later)], limit, window)
  {
    LaterIsFewer(Times(history, key), now - window, later - window);
    assert (history + [Hit(key, later)])[..|history|] == history;
  }

  /** Under `take` alone a key never has more than its limit in the window. */
  lemma {:induction false} AtMostLimit(history: seq<Hit>, key: string, limit: int, window: real, now: real)
    requires Taken(history, limit, window) && (history != [] ==> history[|history| - 1].at <= now)
    ensures |After(Times(history, key), now - window)| <= Max(1, limit)
  {
    if history != [] {
      var earlier, h := history[..|history| - 1], history[|history| - 1];
      AtMostLimit(earlier, key, limit, window, h.at);
      LaterIsFewer(Times(earlier, key), h.at - window, now - window);
      if h.key == key {
        AfterAppend(Times(earlier, key), h.at, now - window);
      }
    }
  }

  lemma {:induction false} DropsFirst(q: seq<real>, c: real)
    requires q != [] && Sorted(q) && q[0] <= c
    ensures |After(q, c)| < |q|
  {
    PopHead(q, c);
    AfterSorted(q[1..], c);
  }

  lemma WholeSeconds(x: real)
    requires 0.0 < x
    ensures var wait := Max(1, x.Floor + 1); wait == x.Floor + 1 && x < wait as real <= x + 1.0
  {
  }

  /** A later cut that takes the head leaves fewer. */
  lemma Accepted(times: seq<real>, q: seq<real>, c: real, d: real)
    requires q == After(times, c) && Sorted(q) && q != [] && c <= d && q[0] <= d
    ensures |After(times, d)| < |q|
  {
    AfterTwice(times, c, d);
    DropsFirst(q, d);
  }

  /** What `take` leaves of a key in the window: no more than the limit, all of it recent. */
  lemma Recent(history: seq<Hit>, key: string, limit: int, window: real, now: real)
    requires Taken(history, limit, window) && (history != [] ==> history[|history| - 1].at <= now)
    ensures var q := After(Times(history, key), now - window);
      Sorted(q) && |q| <= Max(1, limit) && (q != [] ==> 0.0 < q[0] + window - now)
  {
    TakenTimes(history, key, limit, window, now);
    AfterSorted(Times(history, key), now - window);
    AtMostLimit(history, key, limit, window, now);
  }

  /** A refused key that waits the seconds it was told, with nothing added meanwhile, is accepted. */
  lemma WaitIsEnough(history: seq<Hit>, key: string, limit: int, window: real, now: real, wait: int)
    requires Taken(history, limit, window) && (history != [] ==> history[|history| - 1].at <= now)
    requires Naive(history, key, limit, window, now) == Some(wait)
    ensures Naive(history, key, limit, window, now + wait as real).None?
  {
    var q := After(Times(history, key), now - window);
    Recent(history, key, limit, window, now);
    WholeSeconds(q[0] + window - now);
    Accepted(Times(history, key), q, now - window, now + wait as real - window);
  }

  lemma AllLater(q: seq<real>, c: real)
    requires Sorted(q) && q != [] && c < q[0]
    ensures After(q, c) == q
  {
    AllKept(q, c);
  }

  /** Until its oldest event leaves the window a key's record is unchanged. */
  lemma StillKept(times: seq<real>, q: seq<real>, window: real, now: real, sooner: real)
    requires q == After(times, now - window) && Sorted(q) && q != [] && now <= sooner < q[0] + window
    ensures After(times, sooner - window) == q
  {
    AfterTwice(times, now - window, sooner - window);
    AllLater(q, sooner - window);
  }

  /** The wait ends after the oldest event leaves the window, by at most a second. */
  lemma WaitIsTight(history: seq<Hit>, key: string, limit: int, window: real, now: real, wait: int)
    requires Taken(history, limit, window) && (history != [] ==> history[|history| - 1].at <= now)
    requires Naive(history, key, limit, window, now) == Some(wait)
    ensures After(Times(history, key), now - window) != []
    ensures var oldest := After(Times(history, key), now - window)[0];
      oldest + window < now + wait as real <= oldest + window + 1.0
  {
    Recent(history, key, limit, window, now);
    WholeSeconds(After(Times(history, key), now - window)[0] + window - now);
  }

  /** A refused key stays refused until its oldest event leaves the window. */
  lemma RefusedUntilThen(history: seq<Hit>, key: string, limit: int, window: real, now: real, sooner: real)
    requires Taken(history, limit, window) && (history != [] ==> history[|history| - 1].at <= now)
    requires Naive(history, key, limit, window, now).Some?
    requires now <= sooner < After(Times(history, key), now - window)[0] + window
    ensures Naive(history, key, limit, window, sooner).Some?
  {
    Recent(history, key, limit, window, now);
    StillKept(Times(history, key), After(Times(history, key), now - window), window, now, sooner);
  }
}
