/** The event de-duplication guard: a map from key to expiry, swept lazily.

    The reference is a log that never forgets: an event is a duplicate exactly when its
    key was accepted less than `ttl` ago. */
module Deduplication {
  import opened Common

  datatype Arrival = Arrival(key: string, at: int)

  const SWEEP_THRESHOLD: nat := 1024

  ghost predicate Ordered(calls: seq<Arrival>) {
    forall i, j :: 0 <= i < j < |calls| ==> calls[i].at <= calls[j].at
  }

  // ---------- the reference: an unswept log ----------

  ghost predicate Duplicate(log: seq<Arrival>, ttl: int, key: string, now: int) {
    exists a :: a in log && a.key == key && now - a.at < ttl
  }

  /** The arrivals the log accepts out of a sequence of calls. */
  ghost function Log(ttl: int, calls: seq<Arrival>): (log: seq<Arrival>) {
    if calls == [] then []
    else
      var n := |calls| - 1;
      Logged(Log(ttl, calls[..n]), ttl, calls[n])
  }

  ghost function Logged(log: seq<Arrival>, ttl: int, c: Arrival): seq<Arrival> {
    if Duplicate(log, ttl, c.key, c.at) then log else log + [c]
  }

  ghost function KeysSince(log: seq<Arrival>, from: int): set<string> {
    set a | a in log && a.at >= from :: a.key
  }

  // ---------- the implementation's memory ----------

  predicate Fresh(seen: map<string, int>, key: string, now: int) {
    !(key in seen && now < seen[key])
  }

  function Unexpired(seen: map<string, int>, now: int): map<string, int> {
    map k | k in seen && !(now > seen[k]) :: seen[k]
  }

  function Swept(seen: map<string, int>, now: int): map<string, int> {
    if |seen| >= SWEEP_THRESHOLD then Unexpired(seen, now) else seen
  }

  function Marked(seen: map<string, int>, ttl: int, key: string, now: int): map<string, int> {
    if Fresh(seen, key, now) then Swept(seen, now)[key := now + ttl] else seen
  }

  function Seen(ttl: int, calls: seq<Arrival>): map<string, int> {
    if calls == [] then map[]
    else
      var n := |calls| - 1;
      Marked(Seen(ttl, calls[..n]), ttl, calls[n].key, calls[n].at)
  }

  // ---------- refinement ----------

  /** Every entry stems from an accepted arrival, and no arrival of the last ttl is missing. */
  ghost predicate Tracks(seen: map<string, int>, log: seq<Arrival>, ttl: int, now: int) {
    (forall k :: k in seen ==> Arrival(k, seen[k] - ttl) in log) &&
    (forall a :: a in log && now <= a.at + ttl ==> a.key in seen && seen[a.key] >= a.at + ttl) &&
    (forall a :: a in log ==> a.at <= now)
  }

  lemma {:induction false} TracksDecides(seen: map<string, int>, log: seq<Arrival>, ttl: int, then_: int, key: string,
                                         now: int)
    requires Tracks(seen, log, ttl, then_) && then_ <= now
    ensures Fresh(seen, key, now) <==> !Duplicate(log, ttl, key, now)
    ensures Tracks(seen, log, ttl, now)
  {
    if key in seen && now < seen[key] {
      assert Arrival(key, seen[key] - ttl) in log;
    }
  }

  lemma {:induction false} EntriesStep(seen: map<string, int>, log: seq<Arrival>, ttl: int, c: Arrival)
    requires Tracks(seen, log, ttl, c.at) && Fresh(seen, c.key, c.at)
    ensures var seen' := Marked(seen, ttl, c.key, c.at);
            forall k :: k in seen' ==> Arrival(k, seen'[k] - ttl) in log + [c]
  {
    var seen' := Marked(seen, ttl, c.key, c.at);
    forall k | k in seen' ensures Arrival(k, seen'[k] - ttl) in log + [c] {
      if k == c.key {
        assert Arrival(k, seen'[k] - ttl) == c;
        assert c in [c];
      } else {
        assert Arrival(k, seen[k] - ttl) in log;
      }
    }
  }

  lemma {:induction false} UnexpiredStep(seen: map<string, int>, log: seq<Arrival>, ttl: int, c: Arrival, a: Arrival)
    requires ttl > 0 && Tracks(seen, log, ttl, c.at) && Fresh(seen, c.key, c.at)
    requires a in log + [c]
    ensures a.at <= c.at
    ensures var seen' := Marked(seen, ttl, c.key, c.at);
            c.at <= a.at + ttl ==> a.key in seen' && seen'[a.key] >= a.at + ttl
  {
    assert a == c || a in log;
  }

  lemma {:induction false} TracksStep(seen: map<string, int>, log: seq<Arrival>, ttl: int, c: Arrival)
    requires ttl > 0 && Tracks(seen, log, ttl, c.at)
    requires Fresh(seen, c.key, c.at) && !Duplicate(log, ttl, c.key, c.at)
    ensures Tracks(Marked(seen, ttl, c.key, c.at), Logged(log, ttl, c), ttl, c.at)
  {
    EntriesStep(seen, log, ttl, c);
    forall a | a in log + [c]
      ensures a.at <= c.at
      ensures c.at <= a.at + ttl ==>
              a.key in Marked(seen, ttl, c.key, c.at) && Marked(seen, ttl, c.key, c.at)[a.key] >= a.at + ttl
    {
      UnexpiredStep(seen, log, ttl, c, a);
    }
  }

  lemma {:induction false} TracksCall(seen: map<string, int>, log: seq<Arrival>, ttl: int, c: Arrival)
    requires ttl > 0 && Tracks(seen, log, ttl, c.at)
    ensures Tracks(Marked(seen, ttl, c.key, c.at), Logged(log, ttl, c), ttl, c.at)
  {
    assert Fresh(seen, c.key, c.at) <==> !Duplicate(log, ttl, c.key, c.at) by {
      TracksDecides(seen, log, ttl, c.at, c.key, c.at);
    }
    if Fresh(seen, c.key, c.at) {
      TracksStep(seen, log, ttl, c);
    }
  }

  lemma {:induction false} SeenTracksLog(ttl: int, calls: seq<Arrival>, now: int)
    requires ttl > 0 && Ordered(calls) && (calls != [] ==> calls[|calls| - 1].at <= now)
    ensures Tracks(Seen(ttl, calls), Log(ttl, calls), ttl, now)
  {
    if calls != [] {
      var n := |calls| - 1;
      var c := calls[n];
      SeenTracksLog(ttl, calls[..n], c.at);
      TracksCall(Seen(ttl, calls[..n]), Log(ttl, calls[..n]), ttl, c);
      TracksDecides(Seen(ttl, calls), Log(ttl, calls), ttl, c.at, c.key, now);
    }
  }

  /** The swept map answers every call as the unswept log does. */
  lemma {:induction false} AnswersLikeTheLog(ttl: int, calls: seq<Arrival>, key: string, now: int)
    requires ttl > 0 && Ordered(calls) && (calls != [] ==> calls[|calls| - 1].at <= now)
    ensures Fresh(Seen(ttl, calls), key, now) <==> !Duplicate(Log(ttl, calls), ttl, key, now)
  {
    SeenTracksLog(ttl, calls, now);
    TracksDecides(Seen(ttl, calls), Log(ttl, calls), ttl, now, key, now);
  }

  // ---------- memory bound ----------

  function Max(a: int, b: int): int {
    if a >= b then a else b
  }

  /** The sweep threshold or the number of keys accepted since `now - ttl`. */
  ghost function Bound(ttl: int, calls: seq<Arrival>, now: int): int {
    Max(1024, |KeysSince(Log(ttl, calls), now - ttl)|)
  }

  lemma {:induction false} BoundStep(seen: map<string, int>, log: seq<Arrival>, ttl: int, c: Arrival)
    requires ttl > 0 && Tracks(seen, log, ttl, c.at) && Fresh(seen, c.key, c.at)
    ensures |Marked(seen, ttl, c.key, c.at)| <=
            Max(SWEEP_THRESHOLD, |KeysSince(Logged(log, ttl, c), c.at - ttl)|)
  {
    if |seen| < SWEEP_THRESHOLD {
      assert seen[c.key := c.at + ttl].Keys == seen.Keys + {c.key};
    } else {
      SweptKeysAreRecent(seen, log, ttl, c);
      SubsetSize(Marked(seen, ttl, c.key, c.at).Keys, KeysSince(Logged(log, ttl, c), c.at - ttl));
    }
  }

  lemma {:induction false} SweptKeysAreRecent(seen: map<string, int>, log: seq<Arrival>, ttl: int, c: Arrival)
    requires ttl > 0 && Tracks(seen, log, ttl, c.at) && Fresh(seen, c.key, c.at)
    requires |seen| >= SWEEP_THRESHOLD
    ensures Marked(seen, ttl, c.key, c.at).Keys <= KeysSince(Logged(log, ttl, c), c.at - ttl)
  {
    TracksCall(seen, log, ttl, c);
    var seen', log' := Marked(seen, ttl, c.key, c.at), Logged(log, ttl, c);
    forall k | k in seen'.Keys ensures k in KeysSince(log', c.at - ttl) {
      assert Arrival(k, seen'[k] - ttl) in log';
    }
  }

  lemma {:induction false} OneMoreCall(ttl: int, calls: seq<Arrival>, c: Arrival)
    ensures Seen(ttl, calls + [c]) == Marked(Seen(ttl, calls), ttl, c.key, c.at)
    ensures Log(ttl, calls + [c]) == Logged(Log(ttl, calls), ttl, c)
  {
    assert (calls + [c])[..|calls|] == calls;
  }

  /** Immediately after an accepting call the map holds at most the threshold or the
      keys accepted in the last ttl. */
  lemma {:induction false} BoundAfterAccept(ttl: int, calls: seq<Arrival>, c: Arrival)
    requires ttl > 0 && Ordered(calls) && (calls != [] ==> calls[|calls| - 1].at <= c.at)
    requires Fresh(Seen(ttl, calls), c.key, c.at)
    ensures |Seen(ttl, calls + [c])| <= Bound(ttl, calls + [c], c.at)
  {
    OneMoreCall(ttl, calls, c);
    assert |Marked(Seen(ttl, calls), ttl, c.key, c.at)| <=
           Max(SWEEP_THRESHOLD, |KeysSince(Logged(Log(ttl, calls), ttl, c), c.at - ttl)|) by {
      SeenTracksLog(ttl, calls, c.at);
      BoundStep(Seen(ttl, calls), Log(ttl, calls), ttl, c);
    }
  }

  /** In every state the bound holds as of the last accepted arrival, because a rejected
      call neither sweeps nor inserts. */
  lemma {:induction false} BoundSinceLastAccept(ttl: int, calls: seq<Arrival>)
    requires ttl > 0 && Ordered(calls)
    ensures calls != [] ==> Log(ttl, calls) != []
    ensures calls != [] ==>
            |Seen(ttl, calls)| <= Bound(ttl, calls, Log(ttl, calls)[|Log(ttl, calls)| - 1].at)
  {
    if calls != [] {
      var n := |calls| - 1;
      assert calls == calls[..n] + [calls[n]];
      AnswersLikeTheLog(ttl, calls[..n], calls[n].key, calls[n].at);
      if Fresh(Seen(ttl, calls[..n]), calls[n].key, calls[n].at) {
        BoundAfterAccept(ttl, calls[..n], calls[n]);
      } else {
        assert n > 0;
        BoundSinceLastAccept(ttl, calls[..n]);
      }
    }
  }

  // ---------- exactly when the bound holds ----------

  /** The keys accepted in the last ttl are the keys of the entries not yet expired. */
  lemma {:induction false} RecentKeysAreUnexpired(seen: map<string, int>, log: seq<Arrival>, ttl: int, now: int)
    requires Tracks(seen, log, ttl, now)
    ensures KeysSince(log, now - ttl) == Unexpired(seen, now).Keys
  {
    forall k | k in KeysSince(log, now - ttl) ensures k in Unexpired(seen, now) {
      var a :| a in log && a.at >= now - ttl && a.key == k;
      assert now <= a.at + ttl;
    }
    forall k | k in Unexpired(seen, now).Keys ensures k in KeysSince(log, now - ttl) {
      assert Arrival(k, seen[k] - ttl) in log;
    }
  }

  lemma {:induction false} StrictSubsetSize<T>(a: set<T>, b: set<T>)
    requires a < b
    ensures |a| < |b|
  {
    assert a + (b - a) == b;
  }

  lemma {:induction false} UnexpiredSize(seen: map<string, int>, now: int)
    ensures |Unexpired(seen, now)| <= |seen|
    ensures |seen| <= |Unexpired(seen, now)| <==> forall k :: k in seen ==> now <= seen[k]
  {
    var kept := Unexpired(seen, now);
    SubsetSize(kept.Keys, seen.Keys);
    if forall k :: k in seen ==> now <= seen[k] {
      assert kept == seen;
    } else {
      var k :| k in seen && now > seen[k];
      assert k in seen.Keys && k !in kept.Keys;
      StrictSubsetSize(kept.Keys, seen.Keys);
    }
  }

  /** At any clock reading the map is within the bound exactly when it is no larger than the
      sweep threshold or holds no expired entry. */
  lemma {:induction false} BoundHoldsExactly(ttl: int, calls: seq<Arrival>, now: int)
    requires ttl > 0 && Ordered(calls) && (calls != [] ==> calls[|calls| - 1].at <= now)
    ensures |Seen(ttl, calls)| <= Bound(ttl, calls, now) <==>
            |Seen(ttl, calls)| <= 1024 ||
            forall k :: k in Seen(ttl, calls) ==> now <= Seen(ttl, calls)[k]
  {
    var seen := Seen(ttl, calls);
    SeenTracksLog(ttl, calls, now);
    RecentKeysAreUnexpired(seen, Log(ttl, calls), ttl, now);
    UnexpiredSize(seen, now);
    assert |Unexpired(seen, now).Keys| == |Unexpired(seen, now)|;
  }

  // ---------- the bound does not hold as of a rejected call ----------

  function NthKey(i: nat): (k: string)
    ensures |k| == i
  {
    seq(i, _ => 'k')
  }

  function Burst(n: nat): (calls: seq<Arrival>)
    ensures |calls| == n
  {
    seq(n, i requires 0 <= i => Arrival(NthKey(i), 0))
  }

  lemma {:induction false} BurstFillsMap(ttl: int, n: nat)
    requires ttl > 0 && n <= SWEEP_THRESHOLD
    ensures forall k :: k in Seen(ttl, Burst(n)) ==> Seen(ttl, Burst(n))[k] == ttl && |k| < n
    ensures |Seen(ttl, Burst(n))| == n
  {
    if n > 0 {
      BurstFillsMap(ttl, n - 1);
      assert Burst(n) == Burst(n - 1) + [Arrival(NthKey(n - 1), 0)];
      OneMoreCall(ttl, Burst(n - 1), Arrival(NthKey(n - 1), 0));
      var before := Seen(ttl, Burst(n - 1));
      assert NthKey(n - 1) !in before;
      assert Seen(ttl, Burst(n)) == before[NthKey(n - 1) := ttl];
    }
  }

  /** 1024 keys at time 0 and one at ttl - 1 leave 1025 entries.  Repeating the last key
      at ttl + 1 is rejected without a sweep, when a single key was accepted in the last
      ttl: the map is over the bound as of that call. */
  lemma {:induction false} RejectedCallCanExceedBound(ttl: int)
    returns (calls: seq<Arrival>, c: Arrival)
    requires ttl > 2
    ensures Ordered(calls + [c]) && !Fresh(Seen(ttl, calls), c.key, c.at)
    ensures |Seen(ttl, calls + [c])| > Bound(ttl, calls + [c], c.at)
  {
    var n := SWEEP_THRESHOLD;
    var b := Arrival(NthKey(n), ttl - 1);
    calls, c := Burst(n) + [b], Arrival(NthKey(n), ttl + 1);
    BurstFillsMap(ttl, n);
    BurstThenOne(ttl, Seen(ttl, Burst(n)), b, c);
    OneMoreCall(ttl, Burst(n), b);
    OneMoreCall(ttl, calls, c);
    OnlyTheLastKeyIsRecent(ttl, calls, c);
  }

  lemma {:induction false} BurstThenOne(ttl: int, full: map<string, int>, b: Arrival, c: Arrival)
    requires ttl > 2 && |full| == SWEEP_THRESHOLD && b.key !in full && b.at == ttl - 1
    requires c.key == b.key && c.at == ttl + 1
    requires forall k :: k in full ==> full[k] == ttl
    ensures var seen := Marked(full, ttl, b.key, b.at);
            |seen| == SWEEP_THRESHOLD + 1 && !Fresh(seen, c.key, c.at) && Marked(seen, ttl, c.key, c.at) == seen
  {
    assert Unexpired(full, b.at) == full;
    assert Marked(full, ttl, b.key, b.at) == full[b.key := 2 * ttl - 1];
  }

  lemma {:induction false} OnlyTheLastKeyIsRecent(ttl: int, calls: seq<Arrival>, c: Arrival)
    requires ttl > 2 && |calls| > 0 && c.at == ttl + 1 && calls[|calls| - 1].key == c.key
    requires forall i :: 0 <= i < |calls| - 1 ==> calls[i].at == 0
    ensures |KeysSince(Log(ttl, calls + [c]), c.at - ttl)| <= 1
  {
    var all := calls + [c];
    LogComesFromCalls(ttl, all);
    var recent := KeysSince(Log(ttl, all), c.at - ttl);
    forall k | k in recent ensures k in {c.key} {
      var a :| a in Log(ttl, all) && a.at >= c.at - ttl && a.key == k;
      var j :| 0 <= j < |all| && all[j] == a;
      assert j >= |calls| - 1;
    }
    SubsetSize(recent, {c.key});
  }

  lemma {:induction false} LogComesFromCalls(ttl: int, calls: seq<Arrival>)
    ensures forall a :: a in Log(ttl, calls) ==> a in calls
  {
    if calls != [] {
      LogComesFromCalls(ttl, calls[..|calls| - 1]);
    }
  }

  lemma {:induction false} CallFacts(ttl: int, calls: seq<Arrival>, c: Arrival)
    requires ttl > 0 && Ordered(calls) && (calls != [] ==> calls[|calls| - 1].at <= c.at)
    ensures Ordered(calls + [c])
    ensures Seen(ttl, calls + [c]) == Marked(Seen(ttl, calls), ttl, c.key, c.at)
    ensures Fresh(Seen(ttl, calls), c.key, c.at) <==> !Duplicate(Log(ttl, calls), ttl, c.key, c.at)
    ensures Fresh(Seen(ttl, calls), c.key, c.at) ==> |Seen(ttl, calls + [c])| <= Bound(ttl, calls + [c], c.at)
  {
    assert Fresh(Seen(ttl, calls), c.key, c.at) <==> !Duplicate(Log(ttl, calls), ttl, c.key, c.at) by {
      AnswersLikeTheLog(ttl, calls, c.key, c.at);
    }
    assert Seen(ttl, calls + [c]) == Marked(Seen(ttl, calls), ttl, c.key, c.at) by {
      OneMoreCall(ttl, calls, c);
    }
    if Fresh(Seen(ttl, calls), c.key, c.at) {
      BoundAfterAccept(ttl, calls, c);
    }
    OrderedAppend(calls, c);
  }

  lemma {:induction false} OrderedAppend(calls: seq<Arrival>, c: Arrival)
    requires Ordered(calls) && (calls != [] ==> calls[|calls| - 1].at <= c.at)
    ensures Ordered(calls + [c])
  {}

  // ---------- the guard itself ----------

  class Deduper {
    const ttl: int
    var seen: map<string, int>
    ghost var calls: seq<Arrival>

    ghost predicate Valid()
      reads this
    {
      ttl > 0 && Ordered(calls) && seen == Seen(ttl, calls)
    }

    /** A non-positive ttl falls back to one hour, given here in the caller's unit. */
    constructor (ttl: int, hour: int)
      requires hour > 0
      ensures Valid() && calls == [] && this.ttl == if ttl <= 0 then hour else ttl
    {
      this.ttl := if ttl <= 0 then hour else ttl;
      seen, calls := map[], [];
    }

    method ShouldProcess(key: string, now: int) returns (ok: bool)
      requires Valid() && (calls != [] ==> calls[|calls| - 1].at <= now)
      modifies this
      ensures Valid() && calls == old(calls) + [Arrival(key, now)]
      ensures ok <==> !Duplicate(Log(ttl, old(calls)), ttl, key, now)
      ensures ok ==> |seen| <= Bound(ttl, calls, now)
    {
      ghost var before := seen;
      CallFacts(ttl, calls, Arrival(key, now));
      calls := calls + [Arrival(key, now)];
      if key in seen && now < seen[key] {
        return false;
      }
      if |seen| >= SWEEP_THRESHOLD {
        Sweep(now);
      }
      seen := seen[key := now + ttl];
      assert seen == Marked(before, ttl, key, now);
      return true;
    }

    /** Visit the keys in whatever order the map yields them, deleting expired ones. */
    method Sweep(now: int)
      modifies this`seen
      ensures seen == Unexpired(old(seen), now)
    {
      ghost var start := seen;
      var todo := seen.Keys;
      while todo != {}
        invariant todo <= seen.Keys
        invariant forall k :: k in start ==> (k in seen <==> k in todo || !(now > start[k]))
        invariant forall k :: k in seen ==> k in start && seen[k] == start[k]
        decreases todo
      {
        var k :| k in todo;
        todo := todo - {k};
        if now > seen[k] {
          seen := seen - {k};
        }
      }
    }
  }
}
