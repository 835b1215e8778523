/**
 The per-chat rate limiter of internal/ratelimit/ratelimit.go.  Times and the interval are integers
 (nanoseconds).  The clock is read before the lock, so the times of a chat may come out of order.
 */
module RateLimit {

  type ChatId = string
  type Time = int

  datatype Arrival = Arrival(chat: ChatId, now: Time)

  predicate Accepts(interval: int, last: map<ChatId, Time>, a: Arrival) {
    interval == 0 || a.chat !in last || a.now - last[a.chat] >= interval
  }

  /** The `last` map after a sequence of Allow calls. */
  function Last(interval: int, arrivals: seq<Arrival>): map<ChatId, Time> {
    if arrivals == [] then map[]
    else
      var n := |arrivals| - 1;
      var m := Last(interval, arrivals[..n]);
      if interval != 0 && Accepts(interval, m, arrivals[n]) then m[arrivals[n].chat := arrivals[n].now] else m
  }

  /** The times of the accepted messages of a chat, in the order of the calls. */
  function AcceptedTimes(interval: int, arrivals: seq<Arrival>, c: ChatId): seq<Time> {
    if arrivals == [] then []
    else
      var n := |arrivals| - 1;
      var a := arrivals[n];
      AcceptedTimes(interval, arrivals[..n], c) +
        if a.chat == c && Accepts(interval, Last(interval, arrivals[..n]), a) then [a.now] else []
  }

  /** The times of the messages of a chat. */
  function TimesOf(arrivals: seq<Arrival>, c: ChatId): seq<Time> {
    if arrivals == [] then []
    else
      var n := |arrivals| - 1;
      TimesOf(arrivals[..n], c) + if arrivals[n].chat == c then [arrivals[n].now] else []
  }

  class Limiter {
    const interval: int
    var last: map<ChatId, Time>
    ghost var calls: seq<Arrival>

    ghost predicate Valid()
      reads this
    {
      last == Last(interval, calls)
    }

    constructor (interval: int)
      ensures Valid() && this.interval == interval && calls == []
    {
      this.interval, last, calls := interval, map[], [];
    }

    /** One call; `now` is the clock read before the lock. */
    method Allow(chat: ChatId, now: Time) returns (ok: bool)
      requires Valid()
      modifies this
      ensures Valid() && calls == old(calls) + [Arrival(chat, now)]
      ensures forall c :: AcceptedTimes(interval, calls, c) ==
                          old(AcceptedTimes(interval, calls, c)) + if ok && c == chat then [now] else []
    {
      ghost var before := calls;
      calls := calls + [Arrival(chat, now)];
      assert calls[..|calls| - 1] == before;
      if interval == 0 { return true; }
      if chat in last && now - last[chat] < interval { return false; }
      last := last[chat := now];
      return true;
    }
  }

  // ---- One chat at a time -------------------------------------------------------------------

  /** Take a time when it is far enough after the last one taken. */
  function Greedy(interval: int, ts: seq<Time>): seq<Time> {
    if ts == [] then []
    else
      TakeIfFar(interval, Greedy(interval, ts[..|ts| - 1]), ts[|ts| - 1])
  }

  function TakeIfFar(interval: int, g: seq<Time>, t: Time): seq<Time> {
    if g == [] || t - g[|g| - 1] >= interval then g + [t] else g
  }

  lemma GreedyAppend(interval: int, ts: seq<Time>, t: Time)
    ensures Greedy(interval, ts + [t]) == TakeIfFar(interval, Greedy(interval, ts), t)
  {
    assert (ts + [t])[..|ts|] == ts;
  }

  /** `last` holds the latest accepted time of each chat that has one. */
  lemma {:induction false} LastIsLatest(interval: int, arrivals: seq<Arrival>, c: ChatId)
    requires interval != 0
    ensures var g := AcceptedTimes(interval, arrivals, c);
      if g == [] then c !in Last(interval, arrivals)
      else c in Last(interval, arrivals) && Last(interval, arrivals)[c] == g[|g| - 1]
  {
    if arrivals == [] {
    } else {
      LastIsLatest(interval, arrivals[..|arrivals| - 1], c);
    }
  }

  lemma OneMoreArrival(interval: int, arrivals: seq<Arrival>, c: ChatId)
    requires interval != 0 && arrivals != []
    ensures
      var n := |arrivals| - 1;
      var a, g := arrivals[n], AcceptedTimes(interval, arrivals[..n], c);
      AcceptedTimes(interval, arrivals, c) == if a.chat == c then TakeIfFar(interval, g, a.now) else g
  {
    LastIsLatest(interval, arrivals[..|arrivals| - 1], c);
  }

  lemma OneMoreTime(interval: int, arrivals: seq<Arrival>, c: ChatId)
    requires arrivals != []
    ensures
      var n := |arrivals| - 1;
      var a, g := arrivals[n], Greedy(interval, TimesOf(arrivals[..n], c));
      Greedy(interval, TimesOf(arrivals, c)) == if a.chat == c then TakeIfFar(interval, g, a.now) else g
  {
    var n := |arrivals| - 1;
    GreedyAppend(interval, TimesOf(arrivals[..n], c), arrivals[n].now);
    assert TimesOf(arrivals[..n], c) + [] == TimesOf(arrivals[..n], c);
  }

  /** Other chats do not matter: a chat's accepted times are the greedy choice among its own times. */
  lemma {:induction false} ChatsAreIndependent(interval: int, arrivals: seq<Arrival>, c: ChatId)
    requires interval != 0
    ensures AcceptedTimes(interval, arrivals, c) == Greedy(interval, TimesOf(arrivals, c))
  {
    if arrivals == [] {
    } else {
      ChatsAreIndependent(interval, arrivals[..|arrivals| - 1], c);
      OneMoreArrival(interval, arrivals, c);
      OneMoreTime(interval, arrivals, c);
    }
  }

  /** Interval 0 lets every message pass. */
  lemma {:induction false} ZeroDisables(arrivals: seq<Arrival>, c: ChatId)
    ensures AcceptedTimes(0, arrivals, c) == TimesOf(arrivals, c)
  {
    if arrivals == [] {
    } else {
      ZeroDisables(arrivals[..|arrivals| - 1], c);
    }
  }

  // ---- Spacing, for times in any order ------------------------------------------------------

  ghost predicate Spaced(interval: int, g: seq<Time>) {
    forall i :: 0 < i < |g| ==> g[i] - g[i - 1] >= interval
  }

  lemma {:induction false} GreedyIsSpaced(interval: int, ts: seq<Time>)
    ensures Spaced(interval, Greedy(interval, ts))
  {
    if ts == [] {
    } else {
      GreedyIsSpaced(interval, ts[..|ts| - 1]);
    }
  }

  /** The accepted times of a chat increase by at least the interval, whatever order the calls come in. */
  lemma AcceptedAreSpaced(interval: int, arrivals: seq<Arrival>, c: ChatId)
    requires interval > 0
    ensures Spaced(interval, AcceptedTimes(interval, arrivals, c))
  {
    ChatsAreIndependent(interval, arrivals, c);
    GreedyIsSpaced(interval, TimesOf(arrivals, c));
  }

  /** How many of the given times lie in a window. */
  function InWindow(g: seq<Time>, from: Time, length: nat): nat {
    if g == [] then 0
    else InWindow(g[..|g| - 1], from, length) + if from <= g[|g| - 1] <= from + length then 1 else 0
  }

  lemma {:induction false} SpacedIncreases(interval: int, g: seq<Time>, i: nat, j: nat)
    requires interval > 0 && Spaced(interval, g) && i <= j < |g|
    ensures g[i] <= g[j]
    decreases j
  {
    if i == j {
    } else {
      SpacedIncreases(interval, g, i, j - 1);
    }
  }

  lemma {:induction false} NoneBefore(g: seq<Time>, from: Time, length: nat)
    requires forall i :: 0 <= i < |g| ==> g[i] < from
    ensures InWindow(g, from, length) == 0
  {
    if g == [] {
    } else {
      NoneBefore(g[..|g| - 1], from, length);
    }
  }

  lemma {:induction false} WindowSpan(interval: int, g: seq<Time>, from: Time, length: nat)
    requires interval > 0 && Spaced(interval, g)
    ensures InWindow(g, from, length) > 0 ==>
      (InWindow(g, from, length) - 1) * interval <= length
      && (g[|g| - 1] <= from + length ==> (InWindow(g, from, length) - 1) * interval <= g[|g| - 1] - from)
  {
    if g == [] {
    } else {
      var n := |g| - 1;
      var k := InWindow(g[..n], from, length);
      WindowSpan(interval, g[..n], from, length);
      if from <= g[n] <= from + length && k > 0 {
        Distribute(k - 1, interval);
        assert g[n] - g[n - 1] >= interval;
      } else if g[n] < from {
        forall i | 0 <= i < n ensures g[..n][i] < from {
          SpacedIncreases(interval, g, i, n);
        }
        NoneBefore(g[..n], from, length);
      }
    }
  }

  lemma Distribute(k: int, d: int)
    ensures (k + 1) * d == k * d + d
  {
  }

  lemma Quotient(k: nat, d: nat, n: nat)
    requires d > 0 && k * d <= n
    ensures k <= n / d
  {
    var q := n / d;
    assert n < (q + 1) * d;
    assert (k - q - 1) * d < 0;
  }

  /** Any window of length L holds at most L / interval + 1 accepted messages of a chat. */
  lemma WindowBound(interval: int, arrivals: seq<Arrival>, c: ChatId, from: Time, length: nat)
    requires interval > 0
    ensures InWindow(AcceptedTimes(interval, arrivals, c), from, length) <= length / interval + 1
  {
    var g := AcceptedTimes(interval, arrivals, c);
    AcceptedAreSpaced(interval, arrivals, c);
    WindowSpan(interval, g, from, length);
    if InWindow(g, from, length) > 0 {
      Quotient(InWindow(g, from, length) - 1, interval, length);
    }
  }

  // ---- Optimality, for times in order -------------------------------------------------------

  /** `s` is what is left of `ts` after dropping some messages. */
  ghost predicate Subsequence(s: seq<Time>, ts: seq<Time>) {
    if ts == [] then s == []
    else
      var n := |ts| - 1;
      Subsequence(s, ts[..n]) || (s != [] && s[|s| - 1] == ts[n] && Subsequence(s[..|s| - 1], ts[..n]))
  }

  ghost predicate Nondecreasing(ts: seq<Time>) {
    forall i, j :: 0 <= i < j < |ts| ==> ts[i] <= ts[j]
  }

  lemma {:induction false} GreedyIsSubsequence(interval: int, ts: seq<Time>)
    ensures Subsequence(Greedy(interval, ts), ts)
    ensures forall t :: t in Greedy(interval, ts) ==> t in ts
  {
    if ts == [] {
    } else {
      var n := |ts| - 1;
      GreedyIsSubsequence(interval, ts[..n]);
      assert ts == ts[..n] + [ts[n]];
      var g := Greedy(interval, ts[..n]);
      assert (g + [ts[n]])[..|g|] == g;
    }
  }

  lemma AheadStep(interval: int, g: seq<Time>, s: seq<Time>, t: Time)
    requires interval > 0 && |s| <= |g| && (|s| == |g| && g != [] ==> g[|g| - 1] <= s[|s| - 1])
    requires s != [] ==> t - s[|s| - 1] >= interval
    requires g != [] ==> g[|g| - 1] <= t
    ensures var g' := TakeIfFar(interval, g, t);
      |s| + 1 <= |g'| && (|s| + 1 == |g'| ==> g'[|g'| - 1] <= t)
  {
  }

  /** The greedy choice stays ahead: as many messages as any spaced choice, and the last one no later. */
  lemma {:induction false} GreedyStaysAhead(interval: int, ts: seq<Time>, s: seq<Time>)
    requires interval > 0 && Nondecreasing(ts) && Subsequence(s, ts) && Spaced(interval, s)
    ensures var g := Greedy(interval, ts);
      |s| <= |g| && (|s| == |g| && g != [] ==> g[|g| - 1] <= s[|s| - 1])
  {
    if ts == [] {
    } else {
      var n := |ts| - 1;
      var g := Greedy(interval, ts[..n]);
      if Subsequence(s, ts[..n]) {
        GreedyStaysAhead(interval, ts[..n], s);
      } else {
        var s' := s[..|s| - 1];
        GreedyStaysAhead(interval, ts[..n], s');
        GreedyIsSubsequence(interval, ts[..n]);
        assert g != [] ==> g[|g| - 1] in ts[..n];
        AheadStep(interval, g, s', ts[n]);
      }
    }
  }

  /**
   For messages in order of time, Allow accepts as many messages of a chat as any choice of its
   messages with gaps of at least the interval, and its own choice is one of those.
   */
  lemma GreedyIsMaximum(interval: int, arrivals: seq<Arrival>, c: ChatId, s: seq<Time>)
    requires interval > 0 && Nondecreasing(TimesOf(arrivals, c))
    ensures Subsequence(AcceptedTimes(interval, arrivals, c), TimesOf(arrivals, c))
    ensures Spaced(interval, AcceptedTimes(interval, arrivals, c))
    ensures Subsequence(s, TimesOf(arrivals, c)) && Spaced(interval, s) ==>
      |s| <= |AcceptedTimes(interval, arrivals, c)|
  {
    ChatsAreIndependent(interval, arrivals, c);
    GreedyIsSubsequence(interval, TimesOf(arrivals, c));
    GreedyIsSpaced(interval, TimesOf(arrivals, c));
    if Subsequence(s, TimesOf(arrivals, c)) && Spaced(interval, s) {
      GreedyStaysAhead(interval, TimesOf(arrivals, c), s);
    }
  }
}
