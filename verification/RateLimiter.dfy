/**
 * The sliding-window limiter on pairing attempts: a pruned and swept map that answers as if it had kept every
 * attempt it ever allowed.
 */
module RateLimiter {
  import opened Common

  const SWEEP_THRESHOLD: nat := 1024
  const PAIR_ATTEMPTS_PER_WINDOW := 5
  const PAIR_RATE_WINDOW := 60_000_000_000

  type Key = string

  /** Nanoseconds. */
  type Time = int

  datatype Attempt = Attempt(key: Key, at: Time)

  // -- the full history ---------------------------------------------------------------------

  /** When the attempts of a key were allowed. */
  function Times(log: seq<Attempt>, key: Key): seq<Time> {
    if log == [] then []
    else Times(log[..|log| - 1], key) + (if log[|log| - 1].key == key then [log[|log| - 1].at] else [])
  }

  /** Those later than the cutoff. */
  function After(ts: seq<Time>, cutoff: Time): seq<Time> {
    if ts == [] then []
    else After(ts[..|ts| - 1], cutoff) + (if ts[|ts| - 1] > cutoff then [ts[|ts| - 1]] else [])
  }

  /** How many attempts of the key were allowed in (from, to]. */
  function Allowed(log: seq<Attempt>, key: Key, from: Time, to: Time): nat {
    if log == [] then 0
    else
      var a := log[|log| - 1];
      Allowed(log[..|log| - 1], key, from, to) + if a.key == key && from < a.at <= to then 1 else 0
  }

  /** Fewer than `limit` attempts of the key lie in the window that ends now. */
  predicate Within(log: seq<Attempt>, key: Key, now: Time, limit: int, window: int) {
    |After(Times(log, key), now - window)| < limit
  }

  /** Every attempt in the log was allowed by that rule, under a clock that never runs backwards. */
  predicate Legal(log: seq<Attempt>, limit: int, window: int) {
    log == [] || (
      var init, a := log[..|log| - 1], log[|log| - 1];
      && Legal(init, limit, window)
      && Within(init, a.key, a.at, limit, window)
      && (init != [] ==> init[|init| - 1].at <= a.at))
  }

  lemma {:induction false} LatestIsLast(log: seq<Attempt>, limit: int, window: int, i: nat)
    requires Legal(log, limit, window) && i < |log|
    ensures log[i].at <= log[|log| - 1].at
  {
    if i < |log| - 1 {
      LatestIsLast(log[..|log| - 1], limit, window, i);
    }
    hide Within;
  }

  lemma AfterAppend(ts: seq<Time>, t: Time, cutoff: Time)
    ensures After(ts + [t], cutoff) == After(ts, cutoff) + (if t > cutoff then [t] else [])
  {
    assert (ts + [t])[..|ts|] == ts;
  }

  lemma TimesAppend(log: seq<Attempt>, a: Attempt, key: Key)
    ensures Times(log + [a], key) == Times(log, key) + (if a.key == key then [a.at] else [])
  {
    assert (log + [a])[..|log|] == log;
  }

  /** Pruning twice is pruning once, at the later cutoff. */
  lemma {:induction false} AfterAfter(ts: seq<Time>, early: Time, late: Time)
    requires early <= late
    ensures After(After(ts, early), late) == After(ts, late)
  {
    if ts != [] {
      var front, t := ts[..|ts| - 1], ts[|ts| - 1];
      AfterAfter(front, early, late);
      AfterAppend(After(front, early), t, late);
      assert After(front, early) + [] == After(front, early) && After(front, late) + [] == After(front, late);
    }
  }

  lemma {:induction false} CountedAreAfter(log: seq<Attempt>, key: Key, from: Time, to: Time, cutoff: Time)
    requires cutoff <= from
    ensures Allowed(log, key, from, to) <= |After(Times(log, key), cutoff)|
  {
    if log != [] {
      var init, a := log[..|log| - 1], log[|log| - 1];
      assert log == init + [a];
      CountedAreAfter(init, key, from, to, cutoff);
      TimesAppend(init, a, key);
      if a.key == key {
        AfterAppend(Times(init, key), a.at, cutoff);
      } else {
        assert Times(init, key) + [] == Times(init, key);
      }
    }
  }

  /** No interval (s, s + window] ever holds more than `limit` allowed attempts of one key. */
  lemma {:induction false} NoWindowOverflows(log: seq<Attempt>, limit: int, window: int, key: Key, s: Time)
    requires Legal(log, limit, window)
    ensures Allowed(log, key, s, s + window) <= if limit < 0 then 0 else limit
  {
    if log != [] {
      var init, a := log[..|log| - 1], log[|log| - 1];
      NoWindowOverflows(init, limit, window, key, s);
      if a.key == key && s < a.at <= s + window {
        CountedAreAfter(init, key, s, s + window, a.at - window);
      }
    }
  }

  /** The budget the daemon gives one source address: never more than five pairing attempts in any one minute. */
  lemma FiveAMinute(log: seq<Attempt>, key: Key, s: Time)
    requires Legal(log, PAIR_ATTEMPTS_PER_WINDOW, PAIR_RATE_WINDOW)
    ensures Allowed(log, key, s, s + 60 * 1_000_000_000) <= 5
  {
    NoWindowOverflows(log, PAIR_ATTEMPTS_PER_WINDOW, PAIR_RATE_WINDOW, key, s);
  }

  // -- the map -----------------------------------------------------------------------------------

  type Hits = map<Key, seq<Time>>

  function HitsOf(hits: Hits, k: Key): seq<Time> {
    if k in hits then hits[k] else []
  }

  /** Two maps that hold the same attempts, as far as the cutoff lets anyone see. */
  ghost predicate SameAfter(hits: Hits, more: Hits, cutoff: Time) {
    forall k :: After(HitsOf(hits, k), cutoff) == After(HitsOf(more, k), cutoff)
  }

  /** The map agrees with the full history on everything later than the cutoff. */
  ghost predicate Faithful(hits: Hits, log: seq<Attempt>, cutoff: Time) {
    forall k :: After(HitsOf(hits, k), cutoff) == After(Times(log, k), cutoff)
  }

  /** A later cutoff sees the same attempts in the map as in the history. */
  lemma FaithfulLater(hits: Hits, log: seq<Attempt>, early: Time, late: Time)
    requires Faithful(hits, log, early) && early <= late
    ensures Faithful(hits, log, late)
  {
    forall k ensures After(HitsOf(hits, k), late) == After(Times(log, k), late) {
      AfterAfter(HitsOf(hits, k), early, late);
      AfterAfter(Times(log, k), early, late);
    }
    hide After, Times;
  }

  lemma PrunedIsSame(hits: Hits, key: Key, cutoff: Time)
    ensures SameAfter(hits[key := After(HitsOf(hits, key), cutoff)], hits, cutoff)
    ensures After(HitsOf(hits, key), cutoff) == [] ==> SameAfter(hits - {key}, hits, cutoff)
  {
    AfterAfter(HitsOf(hits, key), cutoff, cutoff);
    assert After([], cutoff) == [];
    hide After;
  }

  lemma RecordedIsFaithful(hits: Hits, log: seq<Attempt>, key: Key, now: Time, cutoff: Time)
    requires Faithful(hits, log, cutoff)
    ensures Faithful(hits[key := HitsOf(hits, key) + [now]], log + [Attempt(key, now)], cutoff)
  {
    forall k ensures After(HitsOf(hits[key := HitsOf(hits, key) + [now]], k), cutoff)
        == After(Times(log + [Attempt(key, now)], k), cutoff) {
      TimesAppend(log, Attempt(key, now), k);
      if k == key {
        AfterAppend(HitsOf(hits, key), now, cutoff);
        AfterAppend(Times(log, key), now, cutoff);
      } else {
        assert Times(log, k) + [] == Times(log, k);
      }
    }
    hide After, Times;
  }

  lemma SameIsFaithful(hits: Hits, more: Hits, log: seq<Attempt>, cutoff: Time)
    requires Faithful(more, log, cutoff) && SameAfter(hits, more, cutoff)
    ensures Faithful(hits, log, cutoff)
  {
    hide After, Times;
  }

  /** What pruning one key, and recording an attempt on top of it, leave true of the map. */
  lemma PruneFacts(hits: Hits, log: seq<Attempt>, key: Key, early: Time, cutoff: Time)
    requires Faithful(hits, log, early) && early <= cutoff
    ensures After(HitsOf(hits, key), cutoff) == After(Times(log, key), cutoff)
    ensures Faithful(hits[key := After(HitsOf(hits, key), cutoff)], log, cutoff)
  {
    FaithfulLater(hits, log, early, cutoff);
    PrunedIsSame(hits, key, cutoff);
    SameIsFaithful(hits[key := After(HitsOf(hits, key), cutoff)], hits, log, cutoff);
    hide After, Times;
  }

  lemma LegalAppend(log: seq<Attempt>, a: Attempt, limit: int, window: int)
    requires Legal(log, limit, window) && Within(log, a.key, a.at, limit, window)
        && (log != [] ==> log[|log| - 1].at <= a.at)
    ensures Legal(log + [a], limit, window)
  {
    assert (log + [a])[..|log|] == log;
    hide Within;
  }

  // -- the limiter --------------------------------------------------------------------------------

  class Limiter {
    const limit: int
    const window: int
    var hits: Hits
    ghost var log: seq<Attempt>
    ghost var clock: Time

    ghost predicate Valid()
      reads this
    {
      && Legal(log, limit, window)
      && (log != [] ==> log[|log| - 1].at <= clock)
      && Faithful(hits, log, clock - window)
    }

    constructor (limit: int, window: int, now: Time)
      ensures Valid() && log == [] && clock == now && this.limit == limit && this.window == window
    {
      this.limit, this.window, hits, log, clock := limit, window, map[], [], now;
    }

    static method Prune(times: seq<Time>, cutoff: Time) returns (out: seq<Time>)
      ensures out == After(times, cutoff)
    {
      if |times| == 0 { return []; }
      out := [];
      for i := 0 to |times|
        invariant out == After(times[..i], cutoff)
      {
        assert times[..i + 1] == times[..i] + [times[i]];
        AfterAppend(times[..i], times[i], cutoff);
        if times[i] > cutoff { out := out + [times[i]]; }
      }
      assert times[..|times|] == times;
    }

    /** allow: yes exactly when fewer than `limit` attempts of the key were allowed in the window that ends now. */
    method Allow(key: Key, now: Time) returns (ok: bool)
      requires Valid() && now >= clock
      modifies this
      ensures Valid() && clock == now
      ensures ok <==> Within(old(log), key, now, limit, window)
      ensures log == if ok then old(log) + [Attempt(key, now)] else old(log)
      ensures ok && |hits| > SWEEP_THRESHOLD ==> Swept(hits, now - window, key)
    {
      hide After, Times, SameAfter, Faithful, Legal, Swept;
      var cutoff := now - window;
      PruneFacts(hits, log, key, clock - window, cutoff);
      var kept := Prune(HitsOf(hits, key), cutoff);
      clock := now;
      hits := hits[key := kept];
      if |kept| >= limit { return false; }
      RecordedIsFaithful(hits, log, key, now, cutoff);
      LegalAppend(log, Attempt(key, now), limit, window);
      hits := hits[key := kept + [now]];
      log := log + [Attempt(key, now)];
      if |hits| > SWEEP_THRESHOLD {
        ghost var before := hits;
        SweepLocked(cutoff, key);
        SameIsFaithful(hits, before, log, cutoff);
      }
      return true;
    }

    /** remaining: what is left of the budget; it records nothing. */
    method Remaining(key: Key, now: Time) returns (left: int)
      requires Valid() && now >= clock
      modifies this
      ensures Valid() && clock == now && log == old(log)
      ensures left == if Within(log, key, now, limit, window) then limit - |After(Times(log, key), now - window)| else 0
    {
      hide After, Times, SameAfter, Faithful, Legal;
      var cutoff := now - window;
      PruneFacts(hits, log, key, clock - window, cutoff);
      var kept := Prune(HitsOf(hits, key), cutoff);
      clock := now;
      hits := hits[key := kept];
      if |kept| >= limit { return 0; }
      return limit - |kept|;
    }

    /** sweepLocked: drops the keys with nothing left in the window, except the one just written. */
    method SweepLocked(cutoff: Time, keep: Key)
      modifies this`hits
      ensures SameAfter(hits, old(hits), cutoff)
      ensures Swept(hits, cutoff, keep)
    {
      var todo := hits.Keys;
      hide After;
      while todo != {}
        invariant SameAfter(hits, old(hits), cutoff)
        invariant forall k :: k in todo ==> k in hits
        invariant forall k :: k in hits && k != keep && k !in todo ==> After(hits[k], cutoff) != []
        decreases todo
      {
        var k :| k in todo;
        todo := todo - {k};
        if k == keep { continue; }
        var kept := Prune(hits[k], cutoff);
        PrunedIsSame(hits, k, cutoff);
        AfterAfter(hits[k], cutoff, cutoff);
        if |kept| == 0 {
          hits := hits - {k};
        } else {
          hits := hits[k := kept];
        }
      }
    }
  }

  /** Every key but one still has an attempt in the window. */
  predicate Swept(hits: Hits, cutoff: Time, keep: Key) {
    forall k :: k in hits && k != keep ==> After(hits[k], cutoff) != []
  }
}
