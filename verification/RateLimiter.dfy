/** The sliding-window cap on diagnosis starts.

    The first part is the specification: what the limiter answers is a function of the
    full history of accepted starts.  The class below keeps only the recent starts,
    compacting its backing array in place, and is proved to give the same answers. */
module RateLimiting {

  /** A list that grows by one element or stays as it is. */
  function Grown(starts: seq<int>, grows: bool, t: int): seq<int> {
    if grows then starts + [t] else starts
  }

  /** The starts strictly after `cutoff`, in order. */
  function After(starts: seq<int>, cutoff: int): (r: seq<int>)
    ensures |r| <= |starts|
  {
    if starts == [] then []
    else
      var n := |starts| - 1;
      Grown(After(starts[..n], cutoff), starts[n] > cutoff, starts[n])
  }

  predicate NonDecreasing(times: seq<int>) {
    forall i, j :: 0 <= i < j < |times| ==> times[i] <= times[j]
  }

  /** How many of the starts lie in the half-open interval [from, from + length). */
  function CountFrom(starts: seq<int>, from: int, length: int): nat {
    if starts == [] then 0
    else
      var n := |starts| - 1;
      CountFrom(starts[..n], from, length) + if from <= starts[n] < from + length then 1 else 0
  }

  /** The same for the interval (to - length, to]. */
  function CountUpTo(starts: seq<int>, to: int, length: int): nat {
    if starts == [] then 0
    else
      var n := |starts| - 1;
      CountUpTo(starts[..n], to, length) + if to - length < starts[n] <= to then 1 else 0
  }

  /** One call on the limiter's own memory: purge, compare, record. */
  function Purged(starts: seq<int>, window: int, now: int): seq<int> {
    After(starts, now - window)
  }

  predicate Admits(limit: int, window: int, starts: seq<int>, now: int) {
    limit <= 0 || |Purged(starts, window, now)| < limit
  }

  function Recorded(limit: int, window: int, starts: seq<int>, now: int): seq<int> {
    if limit <= 0 then starts
    else Grown(Purged(starts, window, now), Admits(limit, window, starts, now), now)
  }

  /** The limiter's memory after calls at the given clock readings. */
  function Memory(limit: int, window: int, calls: seq<int>): seq<int> {
    if calls == [] then []
    else
      var n := |calls| - 1;
      Recorded(limit, window, Memory(limit, window, calls[..n]), calls[n])
  }

  predicate CallAdmitted(limit: int, window: int, calls: seq<int>, i: nat)
    requires i < |calls|
  {
    Admits(limit, window, Memory(limit, window, calls[..i]), calls[i])
  }

  /** Every start ever accepted, oldest first. */
  function Accepted(limit: int, window: int, calls: seq<int>): seq<int> {
    if calls == [] then []
    else
      var n := |calls| - 1;
      Grown(Accepted(limit, window, calls[..n]), CallAdmitted(limit, window, calls, n), calls[n])
  }

  // ---------- filtering ----------

  lemma {:induction false} AfterAppend(starts: seq<int>, t: int, cutoff: int)
    ensures After(starts + [t], cutoff) == Grown(After(starts, cutoff), t > cutoff, t)
  {
    assert (starts + [t])[..|starts|] == starts;
  }

  lemma {:induction false} AfterAfter(starts: seq<int>, early: int, late: int)
    requires early <= late
    ensures After(After(starts, early), late) == After(starts, late)
  {
    if starts != [] {
      var n := |starts| - 1;
      AfterAfter(starts[..n], early, late);
      if starts[n] > early {
        AfterAppend(After(starts[..n], early), starts[n], late);
      }
    }
  }

  lemma {:induction false} WindowFitsAfter(starts: seq<int>, from: int, length: int, cutoff: int)
    requires cutoff < from
    ensures CountFrom(starts, from, length) <= |After(starts, cutoff)|
  {
    if starts != [] {
      WindowFitsAfter(starts[..|starts| - 1], from, length, cutoff);
    }
  }

  lemma {:induction false} CountUpToIsAfter(starts: seq<int>, to: int, length: int)
    requires forall i :: 0 <= i < |starts| ==> starts[i] <= to
    ensures CountUpTo(starts, to, length) == |After(starts, to - length)|
  {
    if starts != [] {
      CountUpToIsAfter(starts[..|starts| - 1], to, length);
    }
  }

  // ---------- what a whole sequence of calls guarantees ----------

  /** What one call leaves behind is unaffected by purging again at the same reading. */
  lemma {:induction false} RecordedIsRecent(limit: int, window: int, memory: seq<int>, at: int)
    requires limit > 0 && window > 0
    ensures After(Recorded(limit, window, memory, at), at - window) == Recorded(limit, window, memory, at)
  {
    var kept := Purged(memory, window, at);
    AfterAfter(memory, at - window, at - window);
    if Admits(limit, window, memory, at) {
      AfterAppend(kept, at, at - window);
    }
  }

  /** One call keeps the memory equal to the filtered history. */
  lemma {:induction false} PurgeStep(limit: int, window: int, memory: seq<int>, history: seq<int>, at: int)
    requires limit > 0 && window > 0
    requires Purged(memory, window, at) == After(history, at - window) && |Purged(memory, window, at)| <= limit
    ensures |Recorded(limit, window, memory, at)| <= limit
    ensures Recorded(limit, window, memory, at) ==
            After(Grown(history, Admits(limit, window, memory, at), at), at - window)
  {
    if Admits(limit, window, memory, at) {
      AfterAppend(history, at, at - window);
    }
  }

  /** So does purging later on. */
  lemma {:induction false} LaterPurge(limit: int, window: int, memory: seq<int>, history: seq<int>, at: int, now: int)
    requires limit > 0 && window > 0 && at <= now
    requires Purged(memory, window, at) == After(history, at - window) && |Purged(memory, window, at)| <= limit
    ensures |Recorded(limit, window, memory, at)| <= limit
    ensures Purged(Recorded(limit, window, memory, at), window, now) ==
            After(Grown(history, Admits(limit, window, memory, at), at), now - window)
  {
    PurgeStep(limit, window, memory, history, at);
    AfterAfter(Grown(history, Admits(limit, window, memory, at), at), at - window, now - window);
  }

  /** The last call of a sequence. */
  lemma {:induction false} LastCall(limit: int, window: int, calls: seq<int>, n: nat)
    requires n + 1 == |calls|
    ensures Memory(limit, window, calls) == Recorded(limit, window, Memory(limit, window, calls[..n]), calls[n])
    ensures Accepted(limit, window, calls) ==
            Grown(Accepted(limit, window, calls[..n]),
                  Admits(limit, window, Memory(limit, window, calls[..n]), calls[n]), calls[n])
  {}

  /** Purging the limiter's memory at a clock reading is filtering the full history of
      accepted starts at that reading; at most `limit` starts are ever remembered. */
  lemma {:induction false} PurgeIsFilteredHistory(limit: int, window: int, calls: seq<int>, now: int)
    requires limit > 0 && window > 0 && NonDecreasing(calls) && (calls != [] ==> calls[|calls| - 1] <= now)
    ensures Purged(Memory(limit, window, calls), window, now) ==
            After(Accepted(limit, window, calls), now - window)
    ensures |Memory(limit, window, calls)| <= limit
    decreases |calls|
  {
    if calls != [] {
      var n := |calls| - 1;
      PurgeIsFilteredHistory(limit, window, calls[..n], calls[n]);
      LaterPurge(limit, window, Memory(limit, window, calls[..n]), Accepted(limit, window, calls[..n]), calls[n], now);
      LastCall(limit, window, calls, n);
    }
  }

  /** The compacted memory is the full history filtered to the current window. */
  lemma {:induction false} MemoryIsFilteredHistory(limit: int, window: int, calls: seq<int>)
    requires limit > 0 && window > 0 && calls != [] && NonDecreasing(calls)
    ensures Memory(limit, window, calls) ==
            After(Accepted(limit, window, calls), calls[|calls| - 1] - window)
  {
    var n := |calls| - 1;
    PurgeIsFilteredHistory(limit, window, calls, calls[n]);
    RecordedIsRecent(limit, window, Memory(limit, window, calls[..n]), calls[n]);
  }

  /** No interval of one window length, open on either side, holds more than `limit`
      accepted starts. */
  lemma {:induction false} WindowNeverOverfull(limit: int, window: int, calls: seq<int>, at: int)
    requires limit > 0 && window > 0 && NonDecreasing(calls)
    ensures CountFrom(Accepted(limit, window, calls), at, window) <= limit
    ensures CountUpTo(Accepted(limit, window, calls), at, window) <= limit
  {
    if calls != [] {
      var n := |calls| - 1;
      var before, t := Accepted(limit, window, calls[..n]), calls[n];
      WindowNeverOverfull(limit, window, calls[..n], at);
      if CallAdmitted(limit, window, calls, n) {
        PurgeIsFilteredHistory(limit, window, calls[..n], t);
        WindowStep(limit, window, before, t, at);
      }
    }
  }

  lemma {:induction false} WindowStep(limit: int, window: int, before: seq<int>, t: int, at: int)
    requires window > 0 && |After(before, t - window)| < limit
    requires CountFrom(before, at, window) <= limit && CountUpTo(before, at, window) <= limit
    ensures CountFrom(before + [t], at, window) <= limit
    ensures CountUpTo(before + [t], at, window) <= limit
  {
    assert (before + [t])[..|before|] == before;
    if at <= t < at + window {
      WindowFitsAfter(before, at, window, t - window);
    }
    if at - window < t <= at {
      WindowUpToFitsAfter(before, at, window, t - window);
    }
  }

  lemma {:induction false} WindowUpToFitsAfter(starts: seq<int>, to: int, length: int, cutoff: int)
    requires cutoff <= to - length
    ensures CountUpTo(starts, to, length) <= |After(starts, cutoff)|
  {
    if starts != [] {
      WindowUpToFitsAfter(starts[..|starts| - 1], to, length, cutoff);
    }
  }

  lemma {:induction false} AcceptedAreCalls(limit: int, window: int, calls: seq<int>, bound: int)
    requires forall i :: 0 <= i < |calls| ==> calls[i] <= bound
    ensures forall i :: 0 <= i < |Accepted(limit, window, calls)| ==> Accepted(limit, window, calls)[i] <= bound
  {
    if calls != [] {
      AcceptedAreCalls(limit, window, calls[..|calls| - 1], bound);
    }
  }

  lemma {:induction false} AdmittedExactlyWhenRoom(limit: int, window: int, calls: seq<int>, now: int)
    requires limit > 0 && window > 0 && NonDecreasing(calls) && (calls != [] ==> calls[|calls| - 1] <= now)
    ensures Admits(limit, window, Memory(limit, window, calls), now) <==>
            CountUpTo(Accepted(limit, window, calls), now, window) < limit
    ensures CountUpTo(Accepted(limit, window, calls), now, window) <= limit
  {
    PurgeIsFilteredHistory(limit, window, calls, now);
    AcceptedAreCalls(limit, window, calls, now);
    CountUpToIsAfter(Accepted(limit, window, calls), now, window);
  }

  /** A call is denied exactly when `limit` accepted starts lie in (now - window, now]. */
  lemma {:induction false} DeniedExactlyWhenFull(limit: int, window: int, calls: seq<int>, i: nat)
    requires limit > 0 && window > 0 && NonDecreasing(calls) && i < |calls|
    ensures !CallAdmitted(limit, window, calls, i) <==>
            CountUpTo(Accepted(limit, window, calls[..i]), calls[i], window) == limit
  {
    AdmittedExactlyWhenRoom(limit, window, calls[..i], calls[i]);
  }

  lemma {:induction false} OneMoreCall(limit: int, window: int, calls: seq<int>, now: int)
    requires window > 0 && NonDecreasing(calls) && (calls != [] ==> calls[|calls| - 1] <= now)
    ensures NonDecreasing(calls + [now])
    ensures Memory(limit, window, calls + [now]) == Recorded(limit, window, Memory(limit, window, calls), now)
    ensures Admits(limit, window, Memory(limit, window, calls), now) <==>
            limit <= 0 || CountUpTo(Accepted(limit, window, calls), now, window) < limit
    ensures Accepted(limit, window, calls + [now]) ==
            Grown(Accepted(limit, window, calls), Admits(limit, window, Memory(limit, window, calls), now), now)
  {
    AppendedCall(limit, window, calls, now);
    if limit > 0 {
      AdmittedExactlyWhenRoom(limit, window, calls, now);
    }
  }

  lemma {:induction false} AppendedCall(limit: int, window: int, calls: seq<int>, now: int)
    ensures Memory(limit, window, calls + [now]) == Recorded(limit, window, Memory(limit, window, calls), now)
    ensures Accepted(limit, window, calls + [now]) ==
            Grown(Accepted(limit, window, calls), Admits(limit, window, Memory(limit, window, calls), now), now)
  {
    var all := calls + [now];
    assert all[..|calls|] == calls && all[|calls|] == now;
    LastCall(limit, window, all, |calls|);
  }

  // ---------- the limiter itself ----------

  /** The starts live in the first `len` cells of `buf`, as a slice over its backing
      array.  `calls` is the log of clock readings, kept for the specification only. */
  class RateLimiter {
    const limit: int
    const window: int
    var buf: array<int>
    var len: nat
    ghost var calls: seq<int>

    /** The remembered starts. */
    function Starts(): seq<int>
      reads this, buf
    {
      if len <= buf.Length then buf[..len] else []
    }

    ghost predicate Valid()
      reads this, buf
    {
      len <= buf.Length && window > 0 && NonDecreasing(calls) &&
      (limit > 0 ==> Starts() == Memory(limit, window, calls))
    }

    constructor (limit: int, window: int)
      requires window > 0
      ensures Valid() && this.limit == limit && this.window == window && calls == [] && fresh(buf) && Starts() == []
    {
      this.limit, this.window := limit, window;
      buf, len := new int[4], 0;
      calls := [];
    }

    /** Whether another start may happen at `now`: yes exactly when fewer than `limit`
        starts were accepted in (now - window, now]. */
    method Allow(now: int) returns (ok: bool)
      requires Valid() && (calls != [] ==> calls[|calls| - 1] <= now)
      modifies this, buf
      ensures Valid() && calls == old(calls) + [now] && (buf == old(buf) || fresh(buf))
      ensures ok <==> limit <= 0 || CountUpTo(Accepted(limit, window, old(calls)), now, window) < limit
      ensures Accepted(limit, window, calls) == Grown(Accepted(limit, window, old(calls)), ok, now)
      ensures ok == Admits(limit, window, old(Starts()), now)
      ensures Starts() == Recorded(limit, window, old(Starts()), now)
    {
      OneMoreCall(limit, window, calls, now);
      if limit <= 0 {
        ok := true;
      } else {
        ok := Record(now);
      }
      calls := calls + [now];
    }

    /** Purge, compare, record. */
    method Record(now: int) returns (ok: bool)
      requires len <= buf.Length && limit > 0
      modifies this`len, this`buf, buf
      ensures len <= buf.Length && (buf == old(buf) || fresh(buf))
      ensures ok == Admits(limit, window, old(buf[..len]), now)
      ensures buf[..len] == Recorded(limit, window, old(buf[..len]), now)
    {
      Compact(now - window);
      ok := len < limit;
      if ok {
        Append(now);
      }
    }

    /** `keep := starts[:0]` filled from `starts` itself: reads run ahead of writes. */
    method Compact(cutoff: int)
      requires len <= buf.Length
      modifies this`len, buf
      ensures len <= buf.Length && buf[..len] == After(old(buf[..len]), cutoff)
    {
      ghost var starts := buf[..len];
      var n, kept := len, 0;
      for i := 0 to n
        invariant len == n && kept <= i
        invariant buf[..kept] == After(starts[..i], cutoff)
        invariant forall j :: i <= j < n ==> buf[j] == starts[j]
      {
        var t := buf[i];
        assert starts[..i + 1][..i] == starts[..i] && starts[..i + 1][i] == t;
        if t > cutoff {
          ghost var done := buf[..kept];
          buf[kept] := t;
          kept := kept + 1;
          assert buf[..kept] == done + [t];
        }
      }
      assert starts[..n] == starts;
      len := kept;
    }

    /** Go's append: write in place while capacity lasts, otherwise move to a larger array. */
    method Append(t: int)
      requires len <= buf.Length
      modifies this`len, this`buf, buf
      ensures len <= buf.Length && (buf == old(buf) || fresh(buf))
      ensures buf[..len] == old(buf[..len]) + [t]
    {
      if len == buf.Length {
        var larger := new int[2 * buf.Length + 1];
        forall i | 0 <= i < len {
          larger[i] := buf[i];
        }
        assert larger[..len] == buf[..len];
        buf := larger;
      }
      buf[len] := t;
      len := len + 1;
    }
  }
}
