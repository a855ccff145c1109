/** The sliding-window limiter in front of the login and refresh endpoints
    (internal/httpx/ratelimit.go). Instants and durations are nanoseconds. */
module RateLimiter {

  const SECOND: int := 1_000_000_000
  const AUTH_LOGIN_PER_MINUTE: nat := 10
  const AUTH_REFRESH_PER_MINUTE: nat := 30
  const SWEEP_THRESHOLD: nat := 10000

  // ----- Which bucket a request falls into -----

  datatype Bucket = Unlimited | Limited(key: string, limit: nat)

  function RateKey(ip: string, scope: string): string {
    ip + "|" + scope
  }

  function AuthRateKey(verb: string, path: string, ip: string): Bucket {
    if verb != "POST" then Unlimited
    else if path == "/api/auth/login" || path == "/api/portal/login" then
      Limited(RateKey(ip, "login"), AUTH_LOGIN_PER_MINUTE)
    else if path == "/api/auth/refresh" then
      Limited(RateKey(ip, "refresh"), AUTH_REFRESH_PER_MINUTE)
    else Unlimited
  }

  /** One key always comes with one limit, whatever the addresses look like. */
  lemma OneLimitPerKey(v1: string, p1: string, ip1: string, v2: string, p2: string, ip2: string)
    requires AuthRateKey(v1, p1, ip1).Limited? && AuthRateKey(v2, p2, ip2).Limited?
    requires AuthRateKey(v1, p1, ip1).key == AuthRateKey(v2, p2, ip2).key
    ensures AuthRateKey(v1, p1, ip1).limit == AuthRateKey(v2, p2, ip2).limit
  {
    var k1, k2 := AuthRateKey(v1, p1, ip1).key, AuthRateKey(v2, p2, ip2).key;
    assert k1[|k1| - 1] == if AuthRateKey(v1, p1, ip1).limit == AUTH_LOGIN_PER_MINUTE then 'n' else 'h';
    assert k2[|k2| - 1] == if AuthRateKey(v2, p2, ip2).limit == AUTH_LOGIN_PER_MINUTE then 'n' else 'h';
  }

  /** The quotas: ten calls to either login, thirty to the refresh, and no limit on anything else. */
  lemma QuotaOfEachPath(verb: string, path: string, ip: string)
    ensures var b := AuthRateKey(verb, path, ip);
            && (b.Limited? <==> verb == "POST" && path in {"/api/auth/login", "/api/portal/login", "/api/auth/refresh"})
            && (b.Limited? && path in {"/api/auth/login", "/api/portal/login"} ==> b.limit == 10)
            && (b.Limited? && path == "/api/auth/refresh" ==> b.limit == 30)
  {
    assert "/api/auth/refresh"[10] != "/api/auth/login"[10];
    assert "/api/portal/login"[5] != "/api/auth/refresh"[5];
  }

  /** Two limited requests share a key exactly when they share the address and are both logins or both
      refreshes. */
  lemma OneKeyPerAddressAndScope(v1: string, p1: string, ip1: string, v2: string, p2: string, ip2: string)
    requires AuthRateKey(v1, p1, ip1).Limited? && AuthRateKey(v2, p2, ip2).Limited?
    ensures AuthRateKey(v1, p1, ip1).key == AuthRateKey(v2, p2, ip2).key
            <==> ip1 == ip2 && (p1 == "/api/auth/refresh" <==> p2 == "/api/auth/refresh")
  {
    QuotaOfEachPath(v1, p1, ip1);
    QuotaOfEachPath(v2, p2, ip2);
    KeysDiffer(ip1, if p1 == "/api/auth/refresh" then "refresh" else "login",
               ip2, if p2 == "/api/auth/refresh" then "refresh" else "login");
  }

  lemma KeysDiffer(ip1: string, scope1: string, ip2: string, scope2: string)
    requires scope1 in {"login", "refresh"} && scope2 in {"login", "refresh"}
    ensures RateKey(ip1, scope1) == RateKey(ip2, scope2) <==> ip1 == ip2 && scope1 == scope2
  {
    var k1, k2 := RateKey(ip1, scope1), RateKey(ip2, scope2);
    assert k1[|k1| - 1] == scope1[|scope1| - 1] && k2[|k2| - 1] == scope2[|scope2| - 1];
    assert "login"[4] == 'n' && "refresh"[6] == 'h';
    if k1 == k2 {
      assert ip1 == k1[..|ip1|] && ip2 == k2[..|ip2|];
    }
  }

  // ----- Specification: decisions over the whole, unbounded history -----

  datatype Call<K> = Call(key: K, at: int, limit: nat, admitted: bool)

  datatype History<K> = Start | Then(before: History<K>, last: Call<K>)

  /** Instants of the admitted calls of `key`, oldest first. */
  function Admitted<K(==)>(history: History<K>, key: K): seq<int> {
    match history
    case Start => []
    case Then(before, c) =>
      if c.key == key && c.admitted then Admitted(before, key) + [c.at] else Admitted(before, key)
  }

  /** The instants strictly after `cutoff`, order kept. */
  function After(times: seq<int>, cutoff: int): seq<int> {
    if times == [] then []
    else if times[0] > cutoff then [times[0]] + After(times[1..], cutoff)
    else After(times[1..], cutoff)
  }

  /** The instant of the last call of `key`, admitted or not (0 before the first). */
  function Latest<K(==)>(history: History<K>, key: K): int {
    match history
    case Start => 0
    case Then(before, c) => if c.key == key then c.at else Latest(before, key)
  }

  function Keys<K>(history: History<K>): set<K> {
    match history
    case Start => {}
    case Then(before, c) => Keys(before) + {c.key}
  }

  /** The instants the limiter still counts of `key` at a cutoff: of the admitted calls, those after the
      cutoff and also after the cutoff of every later call of the key, since each call discards. */
  function Kept<K(==)>(history: History<K>, key: K, window: int, cutoff: int): seq<int> {
    match history
    case Start => []
    case Then(before, c) =>
      if c.key != key then Kept(before, key, window, cutoff)
      else
        var earlier := Kept(before, key, window, Max(cutoff, c.at - window));
        if c.admitted && c.at > cutoff then earlier + [c.at] else earlier
  }

  function Max(a: int, b: int): int {
    if a < b then b else a
  }

  /** A history the limiter can produce, whatever the clock does. */
  predicate Limits<K(==)>(history: History<K>, window: int) {
    match history
    case Start => true
    case Then(before, c) =>
      Limits(before, window) && (c.admitted <==> |Kept(before, c.key, window, c.at - window)| < c.limit)
  }

  /** The clock of `key` has not run backwards. */
  predicate NotBefore<K(==)>(history: History<K>, key: K, now: int) {
    key in Keys(history) ==> Latest(history, key) <= now
  }

  /** No key ever saw the clock run backwards. */
  predicate Steady<K(==)>(history: History<K>) {
    match history
    case Start => true
    case Then(before, c) => Steady(before) && NotBefore(before, c.key, c.at)
  }

  /** A history in which clock readings of one key never decrease and each call was admitted
      exactly when fewer than `limit` admitted calls of its key lie in (at - window, at]. */
  predicate Run<K(==)>(history: History<K>, window: int) {
    match history
    case Start => true
    case Then(before, c) => Run(before, window) && Decided(before, c, window)
  }

  predicate Decided<K(==)>(before: History<K>, c: Call<K>, window: int) {
    && NotBefore(before, c.key, c.at)
    && (c.admitted <==> |After(Admitted(before, c.key), c.at - window)| < c.limit)
  }

  /** No admission after the cutoff has yet met a call of its key a whole window later. */
  predicate NothingForgotten<K(==)>(history: History<K>, key: K, window: int, cutoff: int) {
    match history
    case Start => true
    case Then(before, c) =>
      && NothingForgotten(before, key, window, cutoff)
      && (c.key == key ==> forall t <- Admitted(before, key) :: t > cutoff ==> c.at < t + window)
  }

  predicate Faithful<K(==)>(history: History<K>, key: K, window: int, now: int) {
    NothingForgotten(history, key, window, now - window) || (Steady(history) && NotBefore(history, key, now))
  }

  /** What is stored of `key`: the instants counted at its latest call, and that call if admitted. */
  function Remembered<K(==)>(history: History<K>, key: K, window: int): seq<int> {
    if key in Keys(history) then Kept(history, key, window, Latest(history, key) - window) else []
  }

  function Lookup<K(==)>(stored: map<K, seq<int>>, key: K): seq<int> {
    if key in stored then stored[key] else []
  }

  /** Per key, never empty, exactly what the limiter still counts. */
  predicate Summarises<K(==)>(stored: map<K, seq<int>>, history: History<K>, window: int) {
    && stored.Keys == Keys(history)
    && forall k :: k in stored ==> stored[k] == Remembered(history, k, window) && stored[k] != []
  }

  /** Whole seconds the caller is told to wait. */
  function RetryAfter(oldest: int, window: int, now: int): (seconds: int)
    ensures 2 <= seconds
  {
    var wait := oldest + window - now;
    (if wait < SECOND then SECOND else wait) / SECOND + 1
  }

  /** 0 admits; a positive answer is the Retry-After value. */
  function Verdict(recent: seq<int>, limit: nat, window: int, now: int): int
    requires 0 < limit
  {
    if |recent| < limit then 0 else RetryAfter(recent[0], window, now)
  }

  /** What remains stored after the decision. */
  function Noted(recent: seq<int>, limit: nat, now: int): seq<int> {
    if |recent| < limit then recent + [now] else recent
  }

  // ----- The limiter itself -----

  /** A Go slice header: several headers may share one backing array. */
  datatype Slice = Slice(data: array<int>, length: nat)

  ghost predicate Holding(s: Slice, times: seq<int>)
    reads s.data
  {
    s.length <= s.data.Length && s.data[..s.length] == times
  }

  class AuthRateLimiter<K(==,!new)> {
    var hits: map<K, Slice>
    const window: int
    ghost var stored: map<K, seq<int>>
    ghost var history: History<K>

    ghost function Buffers(): set<array<int>>
      reads this`hits
    {
      set k | k in hits :: hits[k].data
    }

    /** The headers hold `stored`, and no two keys share an array. */
    ghost predicate Holds()
      reads this`hits, this`stored, Buffers()
    {
      && hits.Keys == stored.Keys
      && (forall k :: k in hits ==> Holding(hits[k], stored[k]))
      && (forall k, m :: k in hits && m in hits && k != m ==> hits[k].data != hits[m].data)
    }

    ghost predicate Valid()
      reads this, Buffers()
    {
      0 < window && Holds() && Limits(history, window) && Summarises(stored, history, window)
    }

    constructor (window: int)
      requires 0 < window
      ensures Valid() && history == Start && this.window == window
    {
      this.window := window;
      hits := map[];
      stored := map[];
      history := Start;
    }

    /** Keeps, in place, the instants after `cutoff`. */
    method Compact(s: Slice, cutoff: int) returns (kept: nat)
      requires s.length <= s.data.Length
      modifies s.data
      ensures kept <= s.length
      ensures s.data[..kept] == After(old(s.data[..s.length]), cutoff)
    {
      kept := 0;
      ghost var was := s.data[..s.length];
      assert After(was[..0], cutoff) == [];
      hide After;
      for i := 0 to s.length
        invariant kept <= i
        invariant s.data[..kept] == After(was[..i], cutoff)
        invariant forall k :: i <= k < s.length ==> s.data[k] == was[k]
      {
        assert was[..i + 1] == was[..i] + [was[i]];
        AfterSnoc(was[..i], was[i], cutoff);
        if s.data[i] > cutoff {
          s.data[kept] := s.data[i];
          kept := kept + 1;
        }
      }
      assert was[..s.length] == was;
    }

    /** `append(s, t)`: reuses spare capacity, reallocates otherwise. */
    method Append(s: Slice, t: int) returns (r: Slice)
      requires s.length <= s.data.Length
      modifies s.data
      ensures r.length == s.length + 1 <= r.data.Length
      ensures r.data[..r.length] == old(s.data[..s.length]) + [t]
      ensures r.data == s.data || fresh(r.data)
    {
      if s.length < s.data.Length {
        s.data[s.length] := t;
        r := Slice(s.data, s.length + 1);
      } else {
        var grown := new int[2 * s.length + 1];
        forall i | 0 <= i < s.length {
          grown[i] := s.data[i];
        }
        grown[s.length] := t;
        r := Slice(grown, s.length + 1);
        assert grown[..s.length] == old(s.data[..s.length]);
      }
    }

    /** The stored slice of a key, or an empty one with an array of its own. */
    method Open(key: K) returns (s: Slice)
      requires Holds()
      ensures Holding(s, Lookup(stored, key))
      ensures if key in hits then s == hits[key] else fresh(s.data)
    {
      if key in hits {
        s := hits[key];
      } else {
        var none := new int[0];
        s := Slice(none, 0);
      }
    }

    /** Compacts the slice in place and appends `now` when the quota allows. */
    method Decide(s: Slice, ghost times: seq<int>, limit: nat, now: int) returns (r: Slice, retryAfter: int)
      requires Holding(s, times) && 0 < limit
      modifies s.data
      ensures r.data == s.data || fresh(r.data)
      ensures var recent := After(times, now - window);
              retryAfter == Verdict(recent, limit, window, now) && Holding(r, Noted(recent, limit, now))
    {
      var kept := Compact(s, now - window);
      if kept >= limit {
        retryAfter := RetryAfter(s.data[0], window, now);
        r := Slice(s.data, kept);
      } else {
        retryAfter := 0;
        r := Append(Slice(s.data, kept), now);
      }
    }

    /** The decision on the stored instants alone. */
    method Record(key: K, limit: nat, now: int) returns (retryAfter: int)
      requires Holds() && 0 < limit
      modifies this`hits, this`stored, Buffers()
      ensures Holds() && fresh(Buffers() - old(Buffers()))
      ensures var recent := After(Lookup(old(stored), key), now - window);
              && retryAfter == Verdict(recent, limit, window, now)
              && stored == old(stored)[key := Noted(recent, limit, now)]
    {
      hide Holding, After, Verdict, Noted;
      var s := Open(key);
      ghost var times := Lookup(stored, key);
      s, retryAfter := Decide(s, times, limit, now);
      assert forall k :: k in hits && k != key ==> hits[k].data != s.data && Holding(hits[k], stored[k]);
      Store(key, s, Noted(After(times, now - window), limit, now));
    }

    method Store(key: K, s: Slice, ghost times: seq<int>)
      requires hits.Keys == stored.Keys && Holding(s, times)
      requires forall k :: k in hits && k != key ==> hits[k].data != s.data && Holding(hits[k], stored[k])
      requires forall k, m :: k in hits && m in hits && k != m ==> hits[k].data != hits[m].data
      modifies this`hits, this`stored
      ensures Holds() && hits == old(hits)[key := s] && stored == old(stored)[key := times]
    {
      hide Holding;
      hits := hits[key := s];
      stored := stored[key := times];
    }

    method RecordAndSweep(key: K, limit: nat, now: int) returns (retryAfter: int)
      requires Holds() && 0 < limit && forall k :: k in stored ==> stored[k] != []
      modifies this`hits, this`stored, Buffers()
      ensures Holds() && fresh(Buffers() - old(Buffers()))
      ensures var recent := After(Lookup(old(stored), key), now - window);
              && retryAfter == Verdict(recent, limit, window, now)
              && stored == old(stored)[key := Noted(recent, limit, now)]
    {
      retryAfter := Record(key, limit, now);
      Sweep();
    }

    /** One request on `key` at `now`: 0 admits it, a positive result is the Retry-After value. The
        verdict counts the instants that no call has discarded; it is the verdict of the whole history
        while nothing in the window was discarded, in particular when the clock never ran backwards. */
    method Allow(key: K, limit: nat, now: int) returns (retryAfter: int)
      requires Valid() && 0 < limit
      modifies this, Buffers()
      ensures Valid() && fresh(Buffers() - old(Buffers()))
      ensures history == Then(old(history), Call(key, now, limit, retryAfter == 0))
      ensures var recent := Kept(old(history), key, window, now - window);
              retryAfter == Verdict(recent, limit, window, now)
      ensures Faithful(old(history), key, window, now) ==>
              var recent := After(Admitted(old(history), key), now - window);
              retryAfter == Verdict(recent, limit, window, now)
    {
      hide Admitted, Kept, Limits, After, Lookup, Latest, Keys, Remembered, NothingForgotten, Steady;
      ghost var recent := Kept(history, key, window, now - window);
      ghost var after := Then(history, Call(key, now, limit, |recent| < limit));
      ghost var summary := stored[key := Noted(recent, limit, now)];
      Advance(stored, history, key, now, limit, window);
      assert Faithful(history, key, window, now) ==> recent == After(Admitted(history, key), now - window) by {
        CountsTheHistory(history, key, window, now);
      }
      retryAfter := RecordAndSweep(key, limit, now);
      assert stored == summary;
      history := after;
    }

    /** The opportunistic clean-up of a crowded map drops the keys whose list is empty;
        no list ever is, so it evicts nothing. */
    method Sweep()
      requires Holds() && forall k :: k in stored ==> stored[k] != []
      modifies this`hits
      ensures hits == old(hits) && Holds()
    {
      if |hits| > SWEEP_THRESHOLD {
        DropEmpty();
      }
    }

    method DropEmpty()
      modifies this`hits
      ensures hits == map k | k in old(hits) && old(hits)[k].length != 0 :: old(hits)[k]
    {
      var todo := hits.Keys;
      while todo != {}
        invariant todo <= hits.Keys <= old(hits).Keys
        invariant hits == map k | k in old(hits) && (k in todo || old(hits)[k].length != 0) :: old(hits)[k]
      {
        var k :| k in todo;
        if hits[k].length == 0 {
          hits := map m | m in hits && m != k :: hits[m];
        }
        todo := todo - {k};
      }
    }
  }

  // ----- How the specification functions move with the history -----

  lemma {:induction false} AfterTwice(times: seq<int>, c1: int, c2: int)
    requires c1 <= c2
    ensures After(After(times, c1), c2) == After(times, c2)
  {
    if times != [] {
      AfterTwice(times[1..], c1, c2);
      if times[0] > c1 {
        assert After(times, c1)[1..] == After(times[1..], c1);
      }
    }
  }

  lemma {:induction false} UnseenKeepsNothing<K>(history: History<K>, key: K, window: int, cutoff: int)
    requires key !in Keys(history)
    ensures Kept(history, key, window, cutoff) == []
  {
    match history
    case Start =>
    case Then(before, _) => UnseenKeepsNothing(before, key, window, cutoff);
  }

  lemma {:induction false} AfterSnoc(times: seq<int>, t: int, cutoff: int)
    ensures After(times + [t], cutoff) == if t > cutoff then After(times, cutoff) + [t] else After(times, cutoff)
  {
    if times == [] {
      assert (times + [t])[1..] == [];
    } else {
      assert (times + [t])[1..] == times[1..] + [t];
      AfterSnoc(times[1..], t, cutoff);
    }
  }

  lemma {:induction false} AfterKept<K>(history: History<K>, key: K, window: int, c1: int, c2: int)
    ensures After(Kept(history, key, window, c1), c2) == Kept(history, key, window, Max(c1, c2))
  {
    match history
    case Start =>
    case Then(before, c) =>
      if c.key != key {
        AfterKept(before, key, window, c1, c2);
      } else {
        AfterKept(before, key, window, Max(c1, c.at - window), c2);
        AfterSnoc(Kept(before, key, window, Max(c1, c.at - window)), c.at, c2);
        assert Max(Max(c1, c2), c.at - window) == Max(Max(c1, c.at - window), c2);
      }
  }

  lemma {:induction false} LatestCutsNoMore<K>(history: History<K>, key: K, window: int, cutoff: int)
    requires 0 < window && key in Keys(history)
    ensures Kept(history, key, window, Max(Latest(history, key) - window, cutoff)) == Kept(history, key, window, cutoff)
  {
    var before, c := history.before, history.last;
    if c.key != key {
      LatestCutsNoMore(before, key, window, cutoff);
    } else {
      assert Max(Max(c.at - window, cutoff), c.at - window) == Max(cutoff, c.at - window);
    }
  }

  lemma RememberedAfter<K>(history: History<K>, key: K, now: int, window: int)
    requires 0 < window
    ensures After(Remembered(history, key, window), now - window) == Kept(history, key, window, now - window)
  {
    if key in Keys(history) {
      AfterKept(history, key, window, Latest(history, key) - window, now - window);
      LatestCutsNoMore(history, key, window, now - window);
    } else {
      UnseenKeepsNothing(history, key, window, now - window);
    }
  }

  lemma SummarisesSnoc<K(!new)>(stored: map<K, seq<int>>, history: History<K>, c: Call<K>, window: int)
    requires 0 < window && 0 < c.limit
    requires Summarises(stored, history, window) && Limits(Then(history, c), window)
    ensures var recent := Kept(history, c.key, window, c.at - window);
            Summarises(stored[c.key := if c.admitted then recent + [c.at] else recent], Then(history, c), window)
  {
    forall k {
      RememberedSnoc(history, c, window, k);
    }
  }

  lemma RememberedSnoc<K>(history: History<K>, c: Call<K>, window: int, key: K)
    requires 0 < window
    ensures key != c.key ==> Remembered(Then(history, c), key, window) == Remembered(history, key, window)
    ensures var recent := Kept(history, key, window, c.at - window);
            key == c.key ==> Remembered(Then(history, c), key, window) == if c.admitted then recent + [c.at] else recent
  {
  }

  /** A call decided from what is stored is decided from what the history leaves to count. */
  lemma Advance<K(!new)>(stored: map<K, seq<int>>, history: History<K>, key: K, now: int, limit: nat, window: int)
    requires 0 < limit && 0 < window
    requires Limits(history, window) && Summarises(stored, history, window)
    ensures var recent := After(Lookup(stored, key), now - window);
            var after := Then(history, Call(key, now, limit, |recent| < limit));
            && recent == Kept(history, key, window, now - window)
            && Limits(after, window)
            && Summarises(stored[key := Noted(recent, limit, now)], after, window)
  {
    var recent := After(Lookup(stored, key), now - window);
    var c := Call(key, now, limit, |recent| < limit);
    RememberedAfter(history, key, now, window);
    SummarisesSnoc(stored, history, c, window);
  }

  // ----- When the stored window counts like the whole history -----

  lemma {:induction false} FullLengthKeepsAll(times: seq<int>, cutoff: int)
    requires |After(times, cutoff)| == |times|
    ensures After(times, cutoff) == times
  {
    if times != [] {
      AfterIsSubsequence(times[1..], cutoff);
      FullLengthKeepsAll(times[1..], cutoff);
    }
  }

  /** The limiter never counts an instant that the history does not, and it counts all of them exactly
      when none in the window was discarded by a call of the key a whole window later. */
  lemma {:induction false} CountsLikeHistoryIff<K>(history: History<K>, key: K, window: int, cutoff: int)
    ensures var kept, all := Kept(history, key, window, cutoff), After(Admitted(history, key), cutoff);
            && |kept| <= |all|
            && (kept == all <==> NothingForgotten(history, key, window, cutoff))
  {
    match history
    case Start =>
    case Then(before, c) =>
      CountsLikeHistoryIff(before, key, window, cutoff);
      if c.key == key {
        EarlierCountIff(before, key, window, cutoff, c.at - window);
        AfterSnoc(Admitted(before, key), c.at, cutoff);
        SameEnd(Kept(before, key, window, Max(cutoff, c.at - window)), After(Admitted(before, key), cutoff), c.at);
      }
  }

  lemma SameEnd(a: seq<int>, b: seq<int>, t: int)
    ensures a + [t] == b + [t] <==> a == b
  {
    if a + [t] == b + [t] {
      assert a == (a + [t])[..|a|] == (b + [t])[..|b|] == b;
    }
  }

  lemma EarlierCountIff<K>(before: History<K>, key: K, window: int, cutoff: int, later: int)
    requires var kept, all := Kept(before, key, window, cutoff), After(Admitted(before, key), cutoff);
             |kept| <= |all| && (kept == all <==> NothingForgotten(before, key, window, cutoff))
    ensures var kept, all := Kept(before, key, window, Max(cutoff, later)), After(Admitted(before, key), cutoff);
            && |kept| <= |all|
            && (kept == all <==> NothingForgotten(before, key, window, cutoff)
                                 && forall t <- Admitted(before, key) :: t > cutoff ==> t > later)
  {
    var kept, all := Kept(before, key, window, cutoff), After(Admitted(before, key), cutoff);
    AfterKept(before, key, window, cutoff, later);
    AfterIsSubsequence(kept, later);
    AfterIsSubsequence(Admitted(before, key), cutoff);
    if After(kept, later) == all {
      FullLengthKeepsAll(kept, later);
    } else if kept == all && forall t <- Admitted(before, key) :: t > cutoff ==> t > later {
      AfterKeepsAll(kept, later);
    }
  }

  lemma {:induction false} SteadyForgetsNothing<K>(history: History<K>, key: K, window: int, now: int)
    requires Steady(history) && NotBefore(history, key, now)
    ensures NothingForgotten(history, key, window, now - window)
  {
    match history
    case Start =>
    case Then(before, _) => SteadyForgetsNothing(before, key, window, now);
  }

  lemma CountsTheHistory<K>(history: History<K>, key: K, window: int, now: int)
    ensures Faithful(history, key, window, now) ==>
              Kept(history, key, window, now - window) == After(Admitted(history, key), now - window)
  {
    CountsLikeHistoryIff(history, key, window, now - window);
    if Steady(history) && NotBefore(history, key, now) {
      SteadyForgetsNothing(history, key, window, now);
    }
  }

  /** While the clock does not run backwards, the limiter decides every call by the whole history. */
  lemma {:induction false} SteadyRunCountsTheHistory<K>(history: History<K>, window: int)
    requires Steady(history) && Limits(history, window)
    ensures Run(history, window)
  {
    match history
    case Start =>
    case Then(before, c) =>
      SteadyRunCountsTheHistory(before, window);
      SteadyForgetsNothing(before, c.key, window, c.at);
      CountsLikeHistoryIff(before, c.key, window, c.at - window);
  }

  // ----- What a run guarantees -----

  /** How many of the instants lie in (from, upTo]. */
  function CountIn(times: seq<int>, from: int, upTo: int): nat {
    if times == [] then 0
    else (if from < times[0] <= upTo then 1 else 0) + CountIn(times[1..], from, upTo)
  }

  predicate LimitedTo<K(==)>(history: History<K>, key: K, limit: nat) {
    match history
    case Start => true
    case Then(before, c) => LimitedTo(before, key, limit) && (c.key == key ==> c.limit == limit)
  }

  lemma {:induction false} CountInSnoc(times: seq<int>, t: int, from: int, upTo: int)
    ensures CountIn(times + [t], from, upTo) == CountIn(times, from, upTo) + if from < t <= upTo then 1 else 0
  {
    if times == [] {
      assert (times + [t])[1..] == [];
    } else {
      assert (times + [t])[1..] == times[1..] + [t];
      CountInSnoc(times[1..], t, from, upTo);
    }
  }

  lemma {:induction false} CountInBound(times: seq<int>, from: int, upTo: int, cutoff: int)
    requires cutoff <= from
    ensures CountIn(times, from, upTo) <= |After(times, cutoff)|
  {
    if times != [] {
      CountInBound(times[1..], from, upTo, cutoff);
    }
  }

  /** No interval of one window length, wherever it is placed, holds more than `limit` admissions. */
  lemma {:induction false} QuotaInEveryWindow<K>(history: History<K>, key: K, limit: nat, window: int, upTo: int)
    requires 0 < window && Run(history, window) && LimitedTo(history, key, limit)
    ensures CountIn(Admitted(history, key), upTo - window, upTo) <= limit
  {
    match history
    case Start =>
    case Then(before, c) =>
      QuotaInEveryWindow(before, key, limit, window, upTo);
      if c.key == key && c.admitted {
        var earlier := Admitted(before, key);
        CountInSnoc(earlier, c.at, upTo - window, upTo);
        if c.at <= upTo {
          CountInBound(earlier, upTo - window, upTo, c.at - window);
        }
      }
  }

  predicate Sorted(times: seq<int>) {
    forall i, j :: 0 <= i < j < |times| ==> times[i] <= times[j]
  }

  lemma {:induction false} AdmittedSorted<K>(history: History<K>, key: K, window: int)
    requires Run(history, window)
    ensures Sorted(Admitted(history, key))
    ensures forall t :: t in Admitted(history, key) ==> key in Keys(history) && t <= Latest(history, key)
  {
    match history
    case Start =>
    case Then(before, c) =>
      AdmittedSorted(before, key, window);
      var times := Admitted(before, key);
      assert forall i :: 0 <= i < |times| ==> times[i] in times;
  }

  lemma HeadOrTail(times: seq<int>)
    requires times != []
    ensures times == [times[0]] + times[1..] && times[0] in times
    ensures forall t :: t in times <==> t == times[0] || t in times[1..]
  {
    assert times == [times[0]] + times[1..];
  }

  lemma {:induction false} AfterIsSubsequence(times: seq<int>, cutoff: int)
    ensures |After(times, cutoff)| <= |times|
    ensures Sorted(times) ==> Sorted(After(times, cutoff))
    ensures forall t :: t in After(times, cutoff) <==> t in times && t > cutoff
  {
    if times != [] {
      var rest := After(times[1..], cutoff);
      AfterIsSubsequence(times[1..], cutoff);
      HeadOrTail(times);
      if Sorted(times) {
        assert forall t :: t in times[1..] ==> times[0] <= t;
        assert forall i :: 0 <= i < |rest| ==> rest[i] in rest;
      }
    }
  }

  lemma {:induction false} AfterKeepsAll(times: seq<int>, cutoff: int)
    requires forall t :: t in times ==> t > cutoff
    ensures After(times, cutoff) == times
  {
    if times != [] {
      HeadOrTail(times);
      AfterKeepsAll(times[1..], cutoff);
    }
  }

  lemma {:induction false} CountInAll(times: seq<int>, from: int, upTo: int)
    requires forall t :: t in times ==> t <= upTo
    ensures CountIn(times, from, upTo) == |After(times, from)|
  {
    if times != [] {
      HeadOrTail(times);
      CountInAll(times[1..], from, upTo);
    }
  }

  lemma HeadLeaves(times: seq<int>, cutoff: int)
    requires times != [] && times[0] <= cutoff
    ensures After(times, cutoff) == After(times[1..], cutoff)
  {
  }

  /** After a rejection at `now`, as long as no further call of the key is admitted, a call at
      `later` is admitted exactly from the instant the oldest counted admission leaves the window;
      the advertised delay reaches that instant and overshoots it by at most one second. */
  lemma RetryAfterIsTight<K>(history: History<K>, key: K, limit: nat, window: int, now: int, later: int)
    requires SECOND <= window && 0 < limit && now <= later
    requires Run(history, window) && LimitedTo(history, key, limit)
    requires Decided(history, Call(key, now, limit, false), window)
    ensures var recent := After(Admitted(history, key), now - window);
            && |recent| == limit
            && var seconds := RetryAfter(recent[0], window, now);
            && (|After(Admitted(history, key), later - window)| < limit <==> recent[0] + window <= later)
            && (now + seconds * SECOND <= later ==> recent[0] + window <= later)
            && 2 <= seconds <= window / SECOND + 1
            && (now + SECOND <= recent[0] + window ==> now + (seconds - 1) * SECOND <= recent[0] + window)
  {
    hide Admitted, After, CountIn, LimitedTo, Run, RetryAfter, Sorted;
    var times := Admitted(history, key);
    var recent := After(times, now - window);
    AdmittedSorted(history, key, window);
    CountInAll(times, now - window, now);
    QuotaInEveryWindow(history, key, limit, window, now);
    AfterIsSubsequence(times, now - window);
    AfterTwice(times, now - window, later - window);
    assert recent[0] in recent && recent[0] in times;
    if recent[0] + window <= later {
      HeadLeaves(recent, later - window);
      AfterIsSubsequence(recent[1..], later - window);
    } else {
      AfterKeepsAll(recent, later - window);
    }
    WaitBounds(recent[0], window, now);
  }

  lemma WaitBounds(oldest: int, window: int, now: int)
    requires SECOND <= window && now - window < oldest <= now
    ensures var seconds := RetryAfter(oldest, window, now);
            && oldest + window < now + seconds * SECOND
            && 2 <= seconds <= window / SECOND + 1
            && (now + SECOND <= oldest + window ==> now + (seconds - 1) * SECOND <= oldest + window)
  {
  }

  /** The calls of one key, everything else removed. */
  function Only<K(==)>(history: History<K>, key: K): History<K> {
    match history
    case Start => Start
    case Then(before, c) => if c.key == key then Then(Only(before, key), c) else Only(before, key)
  }

  /** Keys do not interfere: dropping the traffic of all other keys changes no decision. */
  lemma {:induction false} KeysDoNotInterfere<K>(history: History<K>, key: K, window: int)
    ensures Limits(history, window) ==> Limits(Only(history, key), window)
    ensures forall cutoff :: Kept(Only(history, key), key, window, cutoff) == Kept(history, key, window, cutoff)
    ensures Admitted(Only(history, key), key) == Admitted(history, key)
  {
    match history
    case Start =>
    case Then(before, c) => KeysDoNotInterfere(before, key, window);
  }

  // ----- Requests -----

  /** The requests that reach the service, in order. */
  datatype Traffic = Quiet | Arrives(before: Traffic, verb: string, path: string, ip: string, at: int)

  /** The history of the limiter behind them, each limited request decided as it comes. */
  function Log(t: Traffic, window: int): History<string> {
    match t
    case Quiet => Start
    case Arrives(before, verb, path, ip, at) =>
      var h := Log(before, window);
      match AuthRateKey(verb, path, ip)
      case Unlimited => h
      case Limited(key, limit) => Then(h, Call(key, at, limit, |Kept(h, key, window, at - window)| < limit))
  }

  /** The verdict on one more request. */
  predicate Admits(t: Traffic, verb: string, path: string, ip: string, at: int, window: int) {
    match AuthRateKey(verb, path, ip)
    case Unlimited => true
    case Limited(key, limit) => |Kept(Log(t, window), key, window, at - window)| < limit
  }

  /** What one address sends. */
  function From(t: Traffic, ip: string): Traffic {
    match t
    case Quiet => Quiet
    case Arrives(before, verb, path, ip', at) =>
      if ip' == ip then Arrives(From(before, ip), verb, path, ip', at) else From(before, ip)
  }

  /** The middleware, with a window of one minute: zero passes the request on. */
  method RateLimitAuth(lim: AuthRateLimiter<string>, ghost t: Traffic, verb: string, path: string, ip: string, now: int)
    returns (retryAfter: int)
    requires lim.Valid() && lim.window == 60_000_000_000 && lim.history == Log(t, lim.window)
    modifies lim, lim.Buffers()
    ensures lim.Valid() && lim.history == Log(Arrives(t, verb, path, ip, now), lim.window)
    ensures fresh(lim.Buffers() - old(lim.Buffers()))
    ensures retryAfter == 0 <==> Admits(t, verb, path, ip, now, 60_000_000_000)
  {
    hide Kept, RetryAfter, Faithful, Limits, Summarises, AuthRateKey;
    var bucket := AuthRateKey(verb, path, ip);
    if bucket.Unlimited? {
      return 0;
    }
    QuotaOfEachPath(verb, path, ip);
    retryAfter := lim.Allow(bucket.key, bucket.limit, now);
  }

  lemma {:induction false} LogIsALimiterRun(t: Traffic, window: int)
    ensures Limits(Log(t, window), window)
  {
    match t
    case Quiet =>
    case Arrives(before, _, _, _, _) => LogIsALimiterRun(before, window);
  }

  lemma {:induction false} OthersDoNotCount(t: Traffic, verb: string, path: string, ip: string,
                                            window: int, cutoff: int)
    requires AuthRateKey(verb, path, ip).Limited?
    ensures var key := AuthRateKey(verb, path, ip).key;
            Kept(Log(From(t, ip), window), key, window, cutoff) == Kept(Log(t, window), key, window, cutoff)
    decreases t, 1
  {
    if t.Arrives? && AuthRateKey(t.verb, t.path, t.ip).Limited? {
      var key, k := AuthRateKey(verb, path, ip).key, AuthRateKey(t.verb, t.path, t.ip).key;
      OneKeyPerAddressAndScope(verb, path, ip, t.verb, t.path, t.ip);
      OthersDoNotCount(t.before, verb, path, ip, window, cutoff);
      if t.ip == ip {
        OthersDoNotCount(t.before, t.verb, t.path, ip, window, t.at - window);
        OthersDoNotCount(t.before, verb, path, ip, window, Max(cutoff, t.at - window));
      }
    } else if t.Arrives? {
      OthersDoNotCount(t.before, verb, path, ip, window, cutoff);
    }
  }

  /** One address is judged by its own requests alone: dropping the requests of all others changes no verdict. */
  lemma AddressesDoNotInterfere(t: Traffic, verb: string, path: string, ip: string, at: int, window: int)
    ensures Admits(From(t, ip), verb, path, ip, at, window) <==> Admits(t, verb, path, ip, at, window)
  {
    if AuthRateKey(verb, path, ip).Limited? {
      OthersDoNotCount(t, verb, path, ip, window, at - window);
    }
  }

  /** A clock that runs backwards can make the limiter admit too much: with quota 2 and a window of 10,
      calls at 0, 10 and 9 are all admitted although the window of the last holds both others. */
  lemma BackwardClockUndercounts<K>(key: K)
    ensures var two := Then(Then(Start, Call(key, 0, 2, true)), Call(key, 10, 2, true));
            && Limits(Then(two, Call(key, 9, 2, true)), 10)
            && |After(Admitted(two, key), 9 - 10)| == 2
            && !NothingForgotten(two, key, 10, 9 - 10)
  {
    var one := Then(Start, Call(key, 0, 2, true));
    var two := Then(one, Call(key, 10, 2, true));
    assert Kept(Start, key, 10, 0) == [] && Kept(one, key, 10, 0) == [];
    assert Max(-1, 10 - 10) == 0 && Kept(two, key, 10, -1) == [10];
    assert Limits(one, 10) && Limits(two, 10) by {
      assert Limits(History<K>.Start, 10) && |Kept(Start, key, 10, -10)| == 0 && |Kept(one, key, 10, 0)| == 0;
    }
    assert Admitted(Start, key) == [] && Admitted(one, key) == [0];
    assert Admitted(two, key) == [0] + [10];
    AfterKeepsAll([0, 10], -1);
    CountsLikeHistoryIff(two, key, 10, -1);
  }
}
