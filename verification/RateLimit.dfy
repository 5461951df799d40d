/**
 * The sliding-window limiter: a sorted set trimmed on every call stands in for the whole admission
 * history, bounds every window, and wastes nothing.
 */
module RateLimit {
  import opened Sums

  // ---------------------------------------------------------------- the specification: the whole history

  function InsideAt(t: int, window: int): int -> int {
    (at: int) => if t - window < at <= t then 1 else 0
  }

  /** How many of the times lie in (t - window, t]. */
  function Within(times: seq<int>, t: int, window: int): int {
    Sum(times, InsideAt(t, window))
  }

  predicate Ordered(times: seq<int>) {
    forall i, j :: 0 <= i < j < |times| ==> times[i] <= times[j]
  }

  /** Which arrivals are admitted when each is admitted exactly if its window still has room. */
  function Picks(arrivals: seq<int>, window: int, limit: int): (picks: seq<bool>)
    ensures |picks| == |arrivals|
  {
    if |arrivals| == 0 then []
    else
      var n := |arrivals| - 1;
      var before := Picks(arrivals[..n], window, limit);
      before + [Within(Taken(arrivals[..n], before), arrivals[n], window) < limit]
  }

  /** The times of the arrivals that are picked. */
  function Taken(arrivals: seq<int>, picks: seq<bool>): (times: seq<int>)
    requires |picks| == |arrivals|
  {
    if |arrivals| == 0 then []
    else
      var n := |arrivals| - 1;
      Taken(arrivals[..n], picks[..n]) + (if picks[n] then [arrivals[n]] else [])
  }

  function Admissions(arrivals: seq<int>, window: int, limit: int): seq<int> {
    Taken(arrivals, Picks(arrivals, window, limit))
  }

  lemma {:induction false} AdmissionsPush(arrivals: seq<int>, now: int, window: int, limit: int)
    ensures var h := Admissions(arrivals, window, limit);
            Admissions(arrivals + [now], window, limit) == if Within(h, now, window) < limit then h + [now] else h
  {
    assert (arrivals + [now])[..|arrivals|] == arrivals;
    var p := Picks(arrivals + [now], window, limit);
    assert p[..|arrivals|] == Picks(arrivals, window, limit);
  }

  // ---------------------------------------------------------------- every window is bounded

  lemma {:induction false} TakenIsIn(arrivals: seq<int>, picks: seq<bool>)
    requires |picks| == |arrivals|
    ensures forall i :: 0 <= i < |Taken(arrivals, picks)| ==> Taken(arrivals, picks)[i] in arrivals
  {
    if |arrivals| > 0 {
      TakenIsIn(arrivals[..|arrivals| - 1], picks[..|arrivals| - 1]);
    }
  }

  lemma {:induction false} TakenOrdered(arrivals: seq<int>, picks: seq<bool>)
    requires |picks| == |arrivals| && Ordered(arrivals)
    ensures Ordered(Taken(arrivals, picks))
  {
    if |arrivals| > 0 {
      TakenOrdered(arrivals[..|arrivals| - 1], picks[..|arrivals| - 1]);
      TakenIsIn(arrivals[..|arrivals| - 1], picks[..|arrivals| - 1]);
    }
  }

  lemma {:induction false} AdmittingKeepsBound(times: seq<int>, now: int, window: int, limit: int, t: int)
    requires forall i :: 0 <= i < |times| ==> times[i] <= now
    requires Within(times, t, window) <= limit && Within(times, now, window) < limit
    ensures Within(times + [now], t, window) <= limit
  {
    SumPush(times, now, InsideAt(t, window));
    if t >= now {
      SumLeq(times, InsideAt(t, window), InsideAt(now, window));
    }
  }

  /** At every instant, not only at arrivals, at most `limit` admissions lie in the window that ends
      there; a negative limit admits nothing. */
  lemma {:induction false} EveryWindowBounded(arrivals: seq<int>, window: int, limit: int, t: int)
    requires Ordered(arrivals)
    ensures Within(Admissions(arrivals, window, limit), t, window) <= if limit > 0 then limit else 0
  {
    if |arrivals| > 0 {
      var n := |arrivals| - 1;
      var a, now := arrivals[..n], arrivals[n];
      assert arrivals == a + [now];
      AdmissionsPush(a, now, window, limit);
      EveryWindowBounded(a, window, limit, t);
      var h := Admissions(a, window, limit);
      if Within(h, now, window) < limit {
        TakenIsIn(a, Picks(a, window, limit));
        SumNonNegative(h, InsideAt(now, window));
        AdmittingKeepsBound(h, now, window, limit, t);
      }
    }
  }

  // ---------------------------------------------------------------- no other selection admits more

  lemma {:induction false} TakenConcat(a: seq<int>, p: seq<bool>, b: seq<int>, q: seq<bool>)
    requires |a| == |p| && |b| == |q|
    ensures Taken(a + b, p + q) == Taken(a, p) + Taken(b, q)
  {
    if |b| == 0 {
      assert a + b == a && p + q == p;
    } else {
      var n := |b| - 1;
      TakenConcat(a, p, b[..n], q[..n]);
      assert (a + b)[..|a + b| - 1] == a + b[..n] && (p + q)[..|p + q| - 1] == p + q[..n];
    }
  }

  lemma {:induction false} SumOne(times: seq<int>, w: int -> int)
    requires forall i :: 0 <= i < |times| ==> w(times[i]) == 1
    ensures Sum(times, w) == |times|
  {
    if |times| > 0 {
      SumOne(times[..|times| - 1], w);
    }
  }

  /** The first arrival inside the window that ends at `now`. */
  function WindowStart(arrivals: seq<int>, now: int, window: int): (j: nat)
    requires Ordered(arrivals)
    ensures j <= |arrivals|
    ensures forall i :: 0 <= i < j ==> arrivals[i] <= now - window
    ensures forall i :: j <= i < |arrivals| ==> arrivals[i] > now - window
  {
    if |arrivals| == 0 || arrivals[|arrivals| - 1] <= now - window then |arrivals|
    else WindowStart(arrivals[..|arrivals| - 1], now, window)
  }

  /** Up to `now`, the picks inside its window are those from the window's first arrival on. */
  lemma {:induction false} WithinIsSuffix(arrivals: seq<int>, picks: seq<bool>, now: int, window: int)
    requires |picks| == |arrivals| && Ordered(arrivals)
    requires forall i :: 0 <= i < |arrivals| ==> arrivals[i] <= now
    ensures var j := WindowStart(arrivals, now, window);
            |Taken(arrivals, picks)| == |Taken(arrivals[..j], picks[..j])| + Within(Taken(arrivals, picks), now, window)
  {
    var j := WindowStart(arrivals, now, window);
    var a, p, b, q := arrivals[..j], picks[..j], arrivals[j..], picks[j..];
    assert arrivals == a + b && picks == p + q;
    TakenConcat(a, p, b, q);
    SumConcat(Taken(a, p), Taken(b, q), InsideAt(now, window));
    TakenIsIn(a, p);
    TakenIsIn(b, q);
    SumZero(Taken(a, p), InsideAt(now, window));
    SumOne(Taken(b, q), InsideAt(now, window));
  }

  lemma {:induction false} PicksPrefix(arrivals: seq<int>, window: int, limit: int, n: nat)
    requires n <= |arrivals|
    ensures Picks(arrivals, window, limit)[..n] == Picks(arrivals[..n], window, limit)
  {
    if n < |arrivals| {
      var m := |arrivals| - 1;
      PicksPrefix(arrivals[..m], window, limit, n);
      assert arrivals[..m][..n] == arrivals[..n];
      assert Picks(arrivals, window, limit)[..m] == Picks(arrivals[..m], window, limit);
      assert Picks(arrivals, window, limit)[..n] == Picks(arrivals, window, limit)[..m][..n];
    } else {
      assert arrivals[..n] == arrivals;
    }
  }

  lemma {:induction false} WithinPrefix(arrivals: seq<int>, picks: seq<bool>, n: nat, t: int, window: int)
    requires |picks| == |arrivals| && n <= |arrivals|
    ensures Within(Taken(arrivals[..n], picks[..n]), t, window) <= Within(Taken(arrivals, picks), t, window)
  {
    assert arrivals == arrivals[..n] + arrivals[n..] && picks == picks[..n] + picks[n..];
    TakenConcat(arrivals[..n], picks[..n], arrivals[n..], picks[n..]);
    var rest := Taken(arrivals[n..], picks[n..]);
    SumConcat(Taken(arrivals[..n], picks[..n]), rest, InsideAt(t, window));
    SumNonNegative(rest, InsideAt(t, window));
  }

  /** Another selection has taken no more than the limiter among the first `n` arrivals. */
  ghost predicate Ahead(arrivals: seq<int>, other: seq<bool>, window: int, limit: int, n: nat)
    requires |other| == |arrivals| && n <= |arrivals|
  {
    |Taken(arrivals[..n], other[..n])| <= |Admissions(arrivals[..n], window, limit)|
  }

  /** If the limiter refuses an arrival that another selection takes, the other was strictly behind. */
  lemma {:induction false} RefusalCatchesUp(arrivals: seq<int>, other: seq<bool>, now: int, window: int, limit: int)
    requires |other| == |arrivals| && Ordered(arrivals) && (window > 0 || limit > 0)
    requires forall i :: 0 <= i < |arrivals| ==> arrivals[i] <= now
    requires Within(Taken(arrivals, other) + [now], now, window) <= limit
    requires Ahead(arrivals, other, window, limit, WindowStart(arrivals, now, window))
    requires Within(Admissions(arrivals, window, limit), now, window) >= limit
    ensures |Taken(arrivals, other)| < |Admissions(arrivals, window, limit)|
  {
    var j := WindowStart(arrivals, now, window);
    WithinIsSuffix(arrivals, Picks(arrivals, window, limit), now, window);
    WithinIsSuffix(arrivals, other, now, window);
    PicksPrefix(arrivals, window, limit, j);
    SumPush(Taken(arrivals, other), now, InsideAt(now, window));
    if window <= 0 {
      SumZero(Admissions(arrivals, window, limit), InsideAt(now, window));
    }
  }

  lemma {:induction false} TakenPush(arrivals: seq<int>, picks: seq<bool>, now: int, pick: bool)
    requires |picks| == |arrivals|
    ensures Taken(arrivals + [now], picks + [pick]) == Taken(arrivals, picks) + (if pick then [now] else [])
  {
    assert (arrivals + [now])[..|arrivals|] == arrivals && (picks + [pick])[..|picks|] == picks;
  }

  lemma {:induction false} PickKeepsAhead(a: seq<int>, o: seq<bool>, now: int, pick: bool, window: int, limit: int)
    requires |o| == |a| && Ordered(a) && (window > 0 || limit > 0)
    requires forall i :: 0 <= i < |a| ==> a[i] <= now
    requires Ahead(a, o, window, limit, |a|) && Ahead(a, o, window, limit, WindowStart(a, now, window))
    requires pick ==> Within(Taken(a, o) + [now], now, window) <= limit
    ensures |Taken(a + [now], o + [pick])| <= |Admissions(a + [now], window, limit)|
  {
    assert a[..|a|] == a && o[..|a|] == o;
    AdmissionsPush(a, now, window, limit);
    TakenPush(a, o, now, pick);
    if pick && Within(Admissions(a, window, limit), now, window) >= limit {
      RefusalCatchesUp(a, o, now, window, limit);
    }
  }

  lemma {:induction false} AheadInPrefix(arrivals: seq<int>, other: seq<bool>, window: int, limit: int, n: nat, m: nat)
    requires |other| == |arrivals| && m <= n <= |arrivals| && Ahead(arrivals, other, window, limit, m)
    ensures Ahead(arrivals[..n], other[..n], window, limit, m)
  {
    assert arrivals[..n][..m] == arrivals[..m] && other[..n][..m] == other[..m];
  }

  lemma {:induction false} StaysAhead(arrivals: seq<int>, other: seq<bool>, window: int, limit: int, n: nat)
    requires |other| == |arrivals| && Ordered(arrivals) && (window > 0 || limit > 0) && n < |arrivals|
    requires Within(Taken(arrivals, other), arrivals[n], window) <= limit
    requires forall m :: 0 <= m <= n ==> Ahead(arrivals, other, window, limit, m)
    ensures Ahead(arrivals, other, window, limit, n + 1)
  {
    var a, o, now := arrivals[..n], other[..n], arrivals[n];
    assert arrivals[..n + 1] == a + [now] && other[..n + 1] == o + [other[n]];
    var j := WindowStart(a, now, window);
    AheadInPrefix(arrivals, other, window, limit, n, n);
    AheadInPrefix(arrivals, other, window, limit, n, j);
    TakenPush(a, o, now, other[n]);
    WithinPrefix(arrivals, other, n + 1, now, window);
    PickKeepsAhead(a, o, now, other[n], window, limit);
  }

  /** Greedy is optimal: after every prefix of the arrivals the limiter has admitted at least as many
      as any selection that never puts more than `limit` into one window. */
  lemma {:induction false} GreedyIsOptimal(arrivals: seq<int>, other: seq<bool>, window: int, limit: int, n: nat)
    requires |other| == |arrivals| && Ordered(arrivals) && (window > 0 || limit != 0) && n <= |arrivals|
    requires forall t :: Within(Taken(arrivals, other), t, window) <= limit
    ensures forall m :: 0 <= m <= n ==> Ahead(arrivals, other, window, limit, m)
  {
    assert Within(Taken(arrivals, other), 0, window) <= limit;
    SumNonNegative(Taken(arrivals, other), InsideAt(0, window));
    if n > 0 {
      GreedyIsOptimal(arrivals, other, window, limit, n - 1);
      StaysAhead(arrivals, other, window, limit, n - 1);
    }
  }

  ghost predicate Optimal(window: int, limit: int) {
    forall arrivals, other ::
      |other| == |arrivals| && Ordered(arrivals) && (forall t :: Within(Taken(arrivals, other), t, window) <= limit) ==>
        |Taken(arrivals, other)| <= |Admissions(arrivals, window, limit)|
  }

  /** The one exception is a limiter of nothing over empty windows, which refuses what would break no bound. */
  lemma {:induction false} OptimalIff(window: int, limit: int)
    ensures Optimal(window, limit) <==> window > 0 || limit != 0
  {
    if window > 0 || limit != 0 {
      forall arrivals: seq<int>, other: seq<bool> |
        |other| == |arrivals| && Ordered(arrivals) && forall t :: Within(Taken(arrivals, other), t, window) <= limit
        ensures |Taken(arrivals, other)| <= |Admissions(arrivals, window, limit)|
      {
        GreedyIsOptimal(arrivals, other, window, limit, |arrivals|);
        assert Ahead(arrivals, other, window, limit, |arrivals|);
        assert arrivals[..|arrivals|] == arrivals && other[..|arrivals|] == other;
      }
    } else {
      TakenPush([], [], 0, true);
      AdmissionsPush([], 0, window, limit);
      assert [] + [0] == [0] && [] + [true] == [true];
      forall t ensures Within([0], t, window) <= limit {
        SumZero([0], InsideAt(t, window));
      }
      assert |Taken([0], [true])| > |Admissions([0], window, limit)|;
    }
  }

  lemma {:induction false} WithinFrom(times: seq<int>, j: nat, now: int, window: int)
    requires j <= |times|
    requires forall i :: 0 <= i < j ==> times[i] <= now - window
    requires forall i :: j <= i < |times| ==> now - window < times[i] <= now
    ensures Within(times, now, window) == |times| - j
  {
    assert times == times[..j] + times[j..];
    SumConcat(times[..j], times[j..], InsideAt(now, window));
    SumZero(times[..j], InsideAt(now, window));
    SumOne(times[j..], InsideAt(now, window));
  }

  /** A set enumerated without repetition has as many elements as the enumeration. */
  lemma {:induction false} SizeOfDistinct(keys: set<string>, names: seq<string>)
    requires forall i, j :: 0 <= i < j < |names| ==> names[i] != names[j]
    requires forall k :: k in keys <==> k in names
    ensures |keys| == |names|
  {
    if |names| > 0 {
      var n := |names| - 1;
      forall k ensures k in keys - {names[n]} <==> k in names[..n] {
        if k in names && k != names[n] {
          var i :| 0 <= i < |names| && names[i] == k;
          assert names[..n][i] == k;
        }
      }
      SizeOfDistinct(keys - {names[n]}, names[..n]);
    } else {
      assert keys == {};
    }
  }

  // ---------------------------------------------------------------- the script

  /** The sorted set holds the admissions from number `from` on, each under its own member, and nothing else. */
  ghost predicate Holds(entries: map<string, int>, history: seq<int>, members: seq<string>, from: nat) {
    && |members| == |history| && from <= |history| && |entries| == |history| - from
    && (forall i :: from <= i < |members| ==> members[i] in entries && entries[members[i]] == history[i])
    && (forall i, j :: from <= i < j < |members| ==> members[i] != members[j])
  }

  /** What ZREMRANGEBYSCORE from 0 to `upTo` leaves. */
  function Trimmed(entries: map<string, int>, upTo: int): map<string, int> {
    map m | m in entries && !(0 <= entries[m] <= upTo) :: entries[m]
  }

  /** Nothing is in the set but the members from `from` on. */
  lemma {:induction false} OnlyMembers(entries: map<string, int>, history: seq<int>, members: seq<string>,
                                       from: nat, k: string)
    requires Holds(entries, history, members, from) && k in entries
    ensures exists i :: from <= i < |members| && members[i] == k
  {
    var names := members[from..];
    var all := set n | n in names;
    SizeOfDistinct(all, names);
    if k !in all {
      SubsetSize(all, entries.Keys - {k});
      assert false;
    }
    var i :| 0 <= i < |names| && names[i] == k;
    assert members[from + i] == k;
  }

  /** Trimming drops exactly the admissions before the window. */
  lemma {:induction false} TrimHolds(entries: map<string, int>, history: seq<int>, members: seq<string>, from: nat,
                                     cut: nat, upTo: int)
    requires Holds(entries, history, members, from) && from <= cut <= |history|
    requires forall i :: 0 <= i < |history| ==> history[i] >= 0
    requires forall i :: 0 <= i < cut ==> history[i] <= upTo
    requires forall i :: cut <= i < |history| ==> history[i] > upTo
    ensures Holds(Trimmed(entries, upTo), history, members, cut)
  {
    var left, names := Trimmed(entries, upTo), members[cut..];
    forall k ensures k in left.Keys <==> k in names {
      if k in left {
        OnlyMembers(entries, history, members, from, k);
        var i :| from <= i < |members| && members[i] == k;
        assert names[i - cut] == k;
      }
    }
    SizeOfDistinct(left.Keys, names);
  }

  lemma {:induction false} AddHolds(entries: map<string, int>, history: seq<int>, members: seq<string>, from: nat,
                                    member: string, now: int)
    requires Holds(entries, history, members, from) && member !in entries
    ensures Holds(entries[member := now], history + [now], members + [member], from)
  {
  }

  /** What is known between calls: `history` is what the specification admits of `arrivals`, and the
      sorted set holds its part, from number `pruned` on, that can still matter. */
  datatype Log = Log(arrivals: seq<int>, history: seq<int>, members: seq<string>, pruned: nat, last: int)

  ghost predicate Tracks(entries: map<string, int>, expires: int, window: nat, limit: int, g: Log) {
    && Ordered(g.arrivals) && (forall i :: 0 <= i < |g.arrivals| ==> 0 <= g.arrivals[i] <= g.last)
    && g.history == Admissions(g.arrivals, window, limit)
    && Holds(entries, g.history, g.members, g.pruned)
    && (forall i :: 0 <= i < g.pruned ==> g.history[i] <= g.last - window)
    && (|g.history| > 0 ==> expires == g.history[|g.history| - 1] + window)
  }

  lemma {:induction false} OrderedPush(times: seq<int>, now: int, last: int)
    requires Ordered(times) && last <= now && forall i :: 0 <= i < |times| ==> 0 <= times[i] <= last
    requires now >= 0
    ensures Ordered(times + [now])
    ensures forall i :: 0 <= i < |times + [now]| ==> 0 <= (times + [now])[i] <= now
  {
  }

  lemma {:induction false} HistoryFacts(arrivals: seq<int>, window: int, limit: int)
    requires Ordered(arrivals)
    ensures Ordered(Admissions(arrivals, window, limit))
    ensures forall i :: 0 <= i < |Admissions(arrivals, window, limit)| ==>
              Admissions(arrivals, window, limit)[i] in arrivals
  {
    TakenOrdered(arrivals, Picks(arrivals, window, limit));
    TakenIsIn(arrivals, Picks(arrivals, window, limit));
  }

  /** Where the script cuts the history, whether or not Redis has dropped an expired key first. */
  lemma {:induction false} CutAt(entries: map<string, int>, expires: int, history: seq<int>, members: seq<string>,
                                 pruned: nat, last: int, now: int, window: nat) returns (cut: nat)
    requires Holds(entries, history, members, pruned) && Ordered(history) && last <= now
    requires forall i :: 0 <= i < |history| ==> 0 <= history[i] <= now
    requires forall i :: 0 <= i < pruned ==> history[i] <= last - window
    requires |history| > 0 ==> expires == history[|history| - 1] + window
    ensures cut <= |history|
    ensures forall i :: 0 <= i < cut ==> history[i] <= now - window
    ensures forall i :: cut <= i < |history| ==> now - window < history[i] <= now
    ensures Holds(Trimmed(entries, now - window), history, members, cut)
    ensures now >= expires ==> Holds(Trimmed(map[], now - window), history, members, cut)
  {
    cut := WindowStart(history, now, window);
    if pruned > 0 {
      assert history[pruned - 1] <= now - window;
    }
    TrimHolds(entries, history, members, pruned, cut, now - window);
    if now >= expires && |history| > 0 {
      assert history[|history| - 1] <= now - window;
    }
  }

  /** The set after the trim, when Redis may have dropped the expired key before. */
  function Kept(entries: map<string, int>, expires: int, now: int, window: nat, gone: bool): map<string, int> {
    Trimmed(if gone && now >= expires then map[] else entries, now - window)
  }

  /** Counting the trimmed set is counting the whole history, and trimming loses nothing that matters. */
  lemma {:induction false} CountIsHistory(entries: map<string, int>, expires: int, window: nat, limit: int, g: Log,
                                          now: int, gone: bool)
    returns (cut: nat)
    requires Tracks(entries, expires, window, limit, g) && now >= g.last && now >= 0
    ensures |Kept(entries, expires, now, window, gone)| == Within(g.history, now, window)
    ensures Holds(Kept(entries, expires, now, window, gone), g.history, g.members, cut)
    ensures forall i :: 0 <= i < cut ==> g.history[i] <= now - window
  {
    HistoryFacts(g.arrivals, window, limit);
    cut := CutAt(entries, expires, g.history, g.members, g.pruned, g.last, now, window);
    WithinFrom(g.history, cut, now, window);
  }

  lemma {:induction false} RefuseTracks(entries: map<string, int>, expires: int, window: nat, limit: int, g: Log,
                                        now: int, gone: bool)
    returns (g': Log)
    requires Tracks(entries, expires, window, limit, g) && now >= g.last && now >= 0
    requires Within(g.history, now, window) >= limit
    ensures Tracks(Kept(entries, expires, now, window, gone), expires, window, limit, g')
    ensures g'.arrivals == g.arrivals + [now] && g'.history == g.history && g'.last == now
  {
    var cut := CountIsHistory(entries, expires, window, limit, g, now, gone);
    g' := Log(g.arrivals + [now], g.history, g.members, cut, now);
    OrderedPush(g.arrivals, now, g.last);
    AdmissionsPush(g.arrivals, now, window, limit);
  }

  lemma {:induction false} AdmitTracks(entries: map<string, int>, expires: int, window: nat, limit: int, g: Log,
                                       now: int, member: string, gone: bool)
    returns (g': Log)
    requires Tracks(entries, expires, window, limit, g) && now >= g.last && now >= 0 && member !in entries
    requires Within(g.history, now, window) < limit
    ensures Tracks(Kept(entries, expires, now, window, gone)[member := now], now + window, window, limit, g')
    ensures g'.arrivals == g.arrivals + [now] && g'.history == g.history + [now] && g'.last == now
  {
    var cut := CountIsHistory(entries, expires, window, limit, g, now, gone);
    g' := Log(g.arrivals + [now], g.history + [now], g.members + [member], cut, now);
    OrderedPush(g.arrivals, now, g.last);
    AdmissionsPush(g.arrivals, now, window, limit);
    AddHolds(Kept(entries, expires, now, window, gone), g.history, g.members, cut, member, now);
  }

  lemma {:induction false} CallTracks(entries: map<string, int>, expires: int, window: nat, limit: int, g: Log,
                                      now: int, member: string, gone: bool)
    returns (g': Log)
    requires Tracks(entries, expires, window, limit, g) && now >= g.last && now >= 0 && member !in entries
    ensures var kept := Kept(entries, expires, now, window, gone);
            && (|kept| < limit <==> Within(g.history, now, window) < limit)
            && (if |kept| < limit then Tracks(kept[member := now], now + window, window, limit, g')
                else Tracks(kept, expires, window, limit, g'))
            && g'.arrivals == g.arrivals + [now] && g'.last == now
            && g'.history == if |kept| < limit then g.history + [now] else g.history
  {
    var cut := CountIsHistory(entries, expires, window, limit, g, now, gone);
    if Within(g.history, now, window) < limit {
      g' := AdmitTracks(entries, expires, window, limit, g, now, member, gone);
    } else {
      g' := RefuseTracks(entries, expires, window, limit, g, now, gone);
    }
  }

  /** The script, atomic inside Redis: trim, count, and if there is room add and renew the expiry.
      `gone` says whether Redis has already dropped an expired key. The decision is that of counting
      the whole history, and neither trimming nor expiry ever changes it. */
  method Script(entries0: map<string, int>, expires0: int, now: int, window: nat, limit: int, member: string,
                gone: bool, ghost g: Log)
    returns (ok: bool, entries: map<string, int>, expires: int, ghost g': Log)
    requires Tracks(entries0, expires0, window, limit, g) && now >= 0 && now >= g.last && member !in entries0
    ensures ok <==> Within(g.history, now, window) < limit
    ensures Tracks(entries, expires, window, limit, g')
    ensures g'.arrivals == g.arrivals + [now] && g'.last == now
    ensures g'.history == if ok then g.history + [now] else g.history
  {
    g' := CallTracks(entries0, expires0, window, limit, g, now, member, gone);
    entries, expires := entries0, expires0;
    if gone && now >= expires {
      entries := map[];
    }
    entries := Trimmed(entries, now - window);
    ok := |entries| < limit;
    if ok {
      entries := entries[member := now];
      expires := now + window;
    }
  }

  /** The limiter of one key: the sorted set (member to score) and when its expiry was last set to. */
  class Limiter {
    const limit: int
    const window: nat
    var entries: map<string, int>
    var expires: int
    ghost var log: Log

    ghost predicate Valid()
      reads this
    {
      Tracks(entries, expires, window, limit, log)
    }

    constructor (limit: int, window: nat)
      ensures Valid() && log.arrivals == log.history == [] && log.last == 0
      ensures this.limit == limit && this.window == window
    {
      this.limit, this.window := limit, window;
      entries, expires, log := map[], 0, Log([], [], [], 0, 0);
    }

    /** Whether an event is admitted now: exactly when the whole history leaves room in its window. */
    method Allow(now: int, member: string, gone: bool) returns (ok: bool)
      requires Valid() && now >= 0 && now >= log.last && member !in entries
      modifies this
      ensures Valid() && log.arrivals == old(log.arrivals) + [now] && log.last == now
      ensures ok <==> Within(old(log.history), now, window) < limit
      ensures log.history == Admissions(log.arrivals, window, limit)
    {
      var kept, until;
      ghost var g;
      ok, kept, until, g := Script(entries, expires, now, window, limit, member, gone, log);
      entries, expires, log := kept, until, g;
    }
  }
}
