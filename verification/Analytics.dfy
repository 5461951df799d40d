/** Per-event aggregation of purchase events arriving on concurrent streams. */
module Analytics {
  import opened Options
  import opened Sums

  datatype Event = Event(event: string, amount: int, quantity: int, at: int)
  datatype Agg = Agg(revenue: int, sold: int, firstAt: int, lastAt: int)

  /** A received message; a message need not carry a time. Times count nanoseconds from 1970. */
  datatype Message = Message(event: string, amount: int, quantity: int, occurred: Option<int>)

  /** The zero time of the server's clock library: midnight, January 1 of year 1. */
  const ZERO_TIME: int := -62_135_596_800_000_000_000

  /** When the message happened: an absent time reads as 1970, and only the zero time gives way to `now`. */
  function When(m: Message, now: int): int {
    var at := if m.occurred.Some? then m.occurred.value else 0;
    if at == ZERO_TIME then now else at
  }

  function Dated(m: Message, now: int): Event {
    Event(m.event, m.amount, m.quantity, When(m, now))
  }

  function AllDated(ms: seq<Message>, clock: nat -> int): seq<Event> {
    seq(|ms|, i requires 0 <= i < |ms| => Dated(ms[i], clock(i)))
  }

  function Amount(event: string): Event -> int {
    (e: Event) => if e.event == event then e.amount else 0
  }

  function Quantity(event: string): Event -> int {
    (e: Event) => if e.event == event then e.quantity else 0
  }

  /** One event folded into the table. */
  function Apply(m: map<string, Agg>, e: Event): map<string, Agg> {
    var a := if e.event in m then m[e.event] else Agg(0, 0, e.at, e.at);
    m[e.event := Agg(a.revenue + e.amount, a.sold + e.quantity,
                     if e.at < a.firstAt then e.at else a.firstAt, if e.at > a.lastAt then e.at else a.lastAt)]
  }

  function Fold(es: seq<Event>): map<string, Agg> {
    if |es| == 0 then map[] else Apply(Fold(es[..|es| - 1]), es[|es| - 1])
  }

  // ---------------------------------------------------------------- what the table means

  ghost predicate Earliest(es: seq<Event>, event: string, t: int) {
    && (exists i :: 0 <= i < |es| && es[i].event == event && es[i].at == t)
    && (forall i :: 0 <= i < |es| && es[i].event == event ==> t <= es[i].at)
  }

  ghost predicate Latest(es: seq<Event>, event: string, t: int) {
    && (exists i :: 0 <= i < |es| && es[i].event == event && es[i].at == t)
    && (forall i :: 0 <= i < |es| && es[i].event == event ==> es[i].at <= t)
  }

  ghost predicate Occurs(es: seq<Event>, event: string) {
    exists i :: 0 <= i < |es| && es[i].event == event
  }

  lemma {:induction false} BoundsPush(es: seq<Event>, e: Event, event: string, first: int, last: int)
    requires Earliest(es, event, first) && Latest(es, event, last) && e.event == event
    ensures Earliest(es + [e], event, if e.at < first then e.at else first)
    ensures Latest(es + [e], event, if e.at > last then e.at else last)
  {
    var all := es + [e];
    assert all[|es|] == e;
    var i :| 0 <= i < |es| && es[i].event == event && es[i].at == first;
    var j :| 0 <= j < |es| && es[j].event == event && es[j].at == last;
    assert all[i] == es[i] && all[j] == es[j];
  }

  lemma {:induction false} BoundsStay(es: seq<Event>, e: Event, event: string, first: int, last: int)
    requires Earliest(es, event, first) && Latest(es, event, last) && e.event != event
    ensures Earliest(es + [e], event, first) && Latest(es + [e], event, last)
  {
    var all := es + [e];
    var i :| 0 <= i < |es| && es[i].event == event && es[i].at == first;
    var j :| 0 <= j < |es| && es[j].event == event && es[j].at == last;
    assert all[i] == es[i] && all[j] == es[j];
  }

  /** The entry of an event, if any, holds its sums and its first and last times. */
  ghost predicate Means(m: map<string, Agg>, es: seq<Event>, event: string) {
    if event in m then
      && m[event].revenue == Sum(es, Amount(event)) && m[event].sold == Sum(es, Quantity(event))
      && Earliest(es, event, m[event].firstAt) && Latest(es, event, m[event].lastAt)
    else !Occurs(es, event) && Sum(es, Amount(event)) == 0 && Sum(es, Quantity(event)) == 0
  }

  lemma {:induction false} ApplyMeans(m: map<string, Agg>, es: seq<Event>, e: Event, event: string)
    requires Means(m, es, event)
    ensures Means(Apply(m, e), es + [e], event)
  {
    SumPush(es, e, Amount(event));
    SumPush(es, e, Quantity(event));
    var all := es + [e];
    assert all[|es|] == e;
    if event in m {
      if e.event == event {
        BoundsPush(es, e, event, m[event].firstAt, m[event].lastAt);
      } else {
        BoundsStay(es, e, event, m[event].firstAt, m[event].lastAt);
      }
    } else {
      assert forall i :: 0 <= i < |es| ==> all[i] == es[i] && es[i].event != event;
    }
  }

  /** An event has an entry exactly when it occurred, holding its sums and its first and last times. */
  lemma {:induction false} FoldMeans(es: seq<Event>, event: string)
    ensures Means(Fold(es), es, event)
    ensures event in Fold(es) <==> Occurs(es, event)
  {
    if |es| > 0 {
      var front, e := es[..|es| - 1], es[|es| - 1];
      FoldMeans(front, event);
      assert es == front + [e];
      ApplyMeans(Fold(front), front, e, event);
    }
  }

  lemma {:induction false} SameElements(xs: seq<Event>, ys: seq<Event>, i: nat)
    requires multiset(xs) == multiset(ys) && i < |xs|
    ensures xs[i] in ys
  {
    assert xs[i] in multiset(xs);
  }

  lemma {:induction false} OccursInAnyOrder(xs: seq<Event>, ys: seq<Event>, event: string)
    requires multiset(xs) == multiset(ys) && Occurs(xs, event)
    ensures Occurs(ys, event)
  {
    var i :| 0 <= i < |xs| && xs[i].event == event;
    SameElements(xs, ys, i);
  }

  lemma {:induction false} BoundsInAnyOrder(xs: seq<Event>, ys: seq<Event>, event: string, a: int, b: int, c: int,
                                            d: int)
    requires multiset(xs) == multiset(ys)
    requires Earliest(xs, event, a) && Earliest(ys, event, b) && Latest(xs, event, c) && Latest(ys, event, d)
    ensures a == b && c == d
  {
    var i :| 0 <= i < |xs| && xs[i].event == event && xs[i].at == a;
    var j :| 0 <= j < |ys| && ys[j].event == event && ys[j].at == b;
    var k :| 0 <= k < |xs| && xs[k].event == event && xs[k].at == c;
    var l :| 0 <= l < |ys| && ys[l].event == event && ys[l].at == d;
    SameElements(xs, ys, i);
    SameElements(ys, xs, j);
    SameElements(xs, ys, k);
    SameElements(ys, xs, l);
  }

  /** The order in which streams interleave does not matter. */
  lemma {:induction false} OrderIndependent(xs: seq<Event>, ys: seq<Event>)
    requires multiset(xs) == multiset(ys)
    ensures Fold(xs) == Fold(ys)
  {
    forall event ensures event in Fold(xs) <==> event in Fold(ys)
      ensures event in Fold(xs) ==> Fold(xs)[event] == Fold(ys)[event]
    {
      FoldMeans(xs, event);
      FoldMeans(ys, event);
      if Occurs(xs, event) {
        OccursInAnyOrder(xs, ys, event);
        SumReorder(xs, ys, Amount(event));
        SumReorder(xs, ys, Quantity(event));
        var a, b := Fold(xs)[event], Fold(ys)[event];
        BoundsInAnyOrder(xs, ys, event, a.firstAt, b.firstAt, a.lastAt, b.lastAt);
      } else if Occurs(ys, event) {
        OccursInAnyOrder(ys, xs, event);
      }
    }
  }

  // ---------------------------------------------------------------- concurrent streams

  datatype StreamPc = Receiving | Counting | Acked(total: int) | Broken

  datatype Stream = Stream(pc: StreamPc, received: int)

  datatype State = State(applied: seq<Event>, byEvent: map<string, Agg>, total: int, streams: seq<Stream>)

  /** A stream receives an event and applies it under the lock, counts it, ends with its
      acknowledgement, or breaks off without one. */
  datatype Label = Open | Receive(i: nat, e: Event) | Count(i: nat) | End(i: nat) | Break(i: nat)

  predicate Enabled(s: State, l: Label) {
    match l
    case Open => true
    case Receive(i, _) => i < |s.streams| && s.streams[i].pc.Receiving?
    case Count(i) => i < |s.streams| && s.streams[i].pc.Counting?
    case End(i) => i < |s.streams| && s.streams[i].pc.Receiving?
    case Break(i) => i < |s.streams| && s.streams[i].pc.Receiving?
  }

  function Next(s: State, l: Label): State
    requires Enabled(s, l)
  {
    match l
    case Open => s.(streams := s.streams + [Stream(Receiving, 0)])
    case Receive(i, e) =>
      s.(applied := s.applied + [e], byEvent := Apply(s.byEvent, e),
         streams := s.streams[i := s.streams[i].(pc := Counting)])
    case Count(i) =>
      s.(total := s.total + 1, streams := s.streams[i := Stream(Receiving, s.streams[i].received + 1)])
    case End(i) => s.(streams := s.streams[i := s.streams[i].(pc := Acked(s.total))])
    case Break(i) => s.(streams := s.streams[i := s.streams[i].(pc := Broken)])
  }

  ghost predicate IsRun(run: seq<State>, labels: seq<Label>) {
    && |run| == |labels| + 1
    && run[0] == State([], map[], 0, [])
    && forall i :: 0 <= i < |labels| ==> Enabled(run[i], labels[i]) && run[i + 1] == Next(run[i], labels[i])
  }

  function Received(): Stream -> int {
    (s: Stream) => s.received
  }

  function Uncounted(): Stream -> int {
    (s: Stream) => if s.pc.Counting? then 1 else 0
  }

  ghost predicate Inv(s: State) {
    && s.byEvent == Fold(s.applied)
    && s.total == Sum(s.streams, Received())
    && |s.applied| == s.total + Sum(s.streams, Uncounted())
    && forall i :: 0 <= i < |s.streams| ==>
         && s.streams[i].received >= 0
         && (s.streams[i].pc.Acked? ==> s.streams[i].received <= s.streams[i].pc.total <= s.total)
  }

  lemma {:induction false} StepKeeps(s: State, l: Label)
    requires Inv(s) && Enabled(s, l)
    ensures Inv(Next(s, l))
  {
    if l.Open? {
      SumPush(s.streams, Stream(Receiving, 0), Received());
      SumPush(s.streams, Stream(Receiving, 0), Uncounted());
    } else {
      var x := Next(s, l).streams[l.i];
      SumUpdate(s.streams, l.i, x, Received());
      SumUpdate(s.streams, l.i, x, Uncounted());
      SumAtLeast(s.streams, l.i, Received());
      if l.Receive? {
        assert (s.applied + [l.e])[..|s.applied|] == s.applied;
      }
    }
  }

  /** In every reachable state the table is the aggregate of the applied events, whatever their order;
      an acknowledged total covers what its stream received and never exceeds what was applied. */
  lemma {:induction false} StreamsAggregate(run: seq<State>, labels: seq<Label>, i: nat, es: seq<Event>)
    requires IsRun(run, labels) && i < |run| && multiset(es) == multiset(run[i].applied)
    ensures run[i].byEvent == Fold(es)
    ensures forall k :: 0 <= k < |run[i].streams| && run[i].streams[k].pc.Acked? ==>
              run[i].streams[k].received <= run[i].streams[k].pc.total <= |run[i].applied|
  {
    InRun(run, labels, i);
    OrderIndependent(es, run[i].applied);
    SumNonNegative(run[i].streams, Uncounted());
  }

  lemma {:induction false} InRun(run: seq<State>, labels: seq<Label>, i: nat)
    requires IsRun(run, labels) && i < |run|
    ensures Inv(run[i])
  {
    if i > 0 {
      InRun(run, labels, i - 1);
      StepKeeps(run[i - 1], labels[i - 1]);
    }
  }

  // ---------------------------------------------------------------- messages without a time

  /** When every time given is after 1970, an event's first time is 1970 exactly when some message of
      the event carries no time: such a message is not dated by the server. */
  lemma {:induction false} UndatedPullsBackIff(ms: seq<Message>, clock: nat -> int, event: string)
    requires forall i :: 0 <= i < |ms| && ms[i].event == event && ms[i].occurred.Some? ==> ms[i].occurred.value > 0
    requires event in Fold(AllDated(ms, clock))
    ensures Fold(AllDated(ms, clock))[event].firstAt >= 0
    ensures Fold(AllDated(ms, clock))[event].firstAt == 0 <==>
              exists i :: 0 <= i < |ms| && ms[i].event == event && ms[i].occurred.None?
  {
    var es := AllDated(ms, clock);
    FoldMeans(es, event);
    forall i | 0 <= i < |es|
      ensures es[i].event == ms[i].event
      ensures es[i].event == event ==> es[i].at >= 0 && (es[i].at == 0 <==> ms[i].occurred.None?)
    {
      assert es[i] == Dated(ms[i], clock(i));
    }
  }

  // ---------------------------------------------------------------- the server's own object

  /** What a message is worth to an event. */
  function Paid(event: string): Message -> int {
    (m: Message) => if m.event == event then m.amount else 0
  }

  function Bought(event: string): Message -> int {
    (m: Message) => if m.event == event then m.quantity else 0
  }

  /** An event's revenue and tickets in the table, 0 for an event it does not have. */
  function Revenue(m: map<string, Agg>, event: string): int {
    if event in m then m[event].revenue else 0
  }

  function Sold(m: map<string, Agg>, event: string): int {
    if event in m then m[event].sold else 0
  }

  /** Messages folded onto earlier events add to each event the sums over its own messages. */
  lemma {:induction false} FoldAdds(before: seq<Event>, ms: seq<Message>, clock: nat -> int, event: string)
    ensures Revenue(Fold(before + AllDated(ms, clock)), event) == Revenue(Fold(before), event) + Sum(ms, Paid(event))
    ensures Sold(Fold(before + AllDated(ms, clock)), event) == Sold(Fold(before), event) + Sum(ms, Bought(event))
  {
    var es := AllDated(ms, clock);
    FoldMeans(before, event);
    FoldMeans(before + es, event);
    SumConcat(before, es, Amount(event));
    SumConcat(before, es, Quantity(event));
    forall i | 0 <= i < |ms| ensures es[i] == Dated(ms[i], clock(i)) {
    }
    SumAcross(es, ms, Amount(event), Paid(event));
    SumAcross(ms, es, Paid(event), Amount(event));
    SumAcross(es, ms, Quantity(event), Bought(event));
    SumAcross(ms, es, Bought(event), Quantity(event));
  }

  class Server {
    var byEvent: map<string, Agg>
    var totalEvents: int

    constructor ()
      ensures byEvent == map[] && totalEvents == 0
    {
      byEvent, totalEvents := map[], 0;
    }

    /** Adds one message to its event and counts it. An absent time is 1970; the zero time, and it alone, gives
        way to the server's clock. */
    method ApplyEvent(m: Message, now: int)
      modifies this
      ensures byEvent == Apply(old(byEvent), Dated(m, now))
      ensures totalEvents == old(totalEvents) + 1
      ensures m.event in byEvent
      ensures Revenue(byEvent, m.event) == Revenue(old(byEvent), m.event) + m.amount
      ensures Sold(byEvent, m.event) == Sold(old(byEvent), m.event) + m.quantity
      ensures var at := if m.occurred.None? then 0
                        else if m.occurred.value == -62_135_596_800_000_000_000 then now
                        else m.occurred.value;
              var agg := byEvent[m.event];
              if m.event in old(byEvent) then
                && agg.firstAt == (if at < old(byEvent)[m.event].firstAt then at else old(byEvent)[m.event].firstAt)
                && agg.lastAt == (if at > old(byEvent)[m.event].lastAt then at else old(byEvent)[m.event].lastAt)
              else agg.firstAt == agg.lastAt == at
      ensures forall e :: e != m.event ==> (e in byEvent <==> e in old(byEvent))
      ensures forall e :: e != m.event && e in byEvent ==> byEvent[e] == old(byEvent)[e]
    {
      var at := 0;
      if m.occurred.Some? {
        at := m.occurred.value;
      }
      if at == ZERO_TIME {
        at := now;
      }
      var agg := if m.event in byEvent then byEvent[m.event] else Agg(0, 0, at, at);
      agg := agg.(revenue := agg.revenue + m.amount, sold := agg.sold + m.quantity);
      if at < agg.firstAt {
        agg := agg.(firstAt := at);
      }
      if at > agg.lastAt {
        agg := agg.(lastAt := at);
      }
      byEvent := byEvent[m.event := agg];
      totalEvents := totalEvents + 1;
    }

    /** One stream alone: whether it ends or breaks off, what it delivered is added to what the table
        already aggregates, message by message to its own event; only a stream that ends is acknowledged, with
        the running total. */
    method RecordStream(ms: seq<Message>, clock: nat -> int, breaks: bool, ghost before: seq<Event>)
      returns (ack: Option<int>)
      requires byEvent == Fold(before) && totalEvents == |before|
      modifies this
      ensures byEvent == Fold(before + AllDated(ms, clock)) && totalEvents == |before| + |ms|
      ensures forall e :: Revenue(byEvent, e) == Revenue(old(byEvent), e) + Sum(ms, Paid(e))
      ensures forall e :: Sold(byEvent, e) == Sold(old(byEvent), e) + Sum(ms, Bought(e))
      ensures ack == if breaks then None else Some(totalEvents)
    {
      ghost var es := AllDated(ms, clock);
      assert before + es[..0] == before;
      for k := 0 to |ms|
        invariant byEvent == Fold(before + es[..k]) && totalEvents == |before| + k
      {
        ApplyEvent(ms[k], clock(k));
        assert (before + es[..k + 1])[..|before| + k] == before + es[..k];
      }
      assert before + es[..|es|] == before + es;
      forall e
        ensures Revenue(byEvent, e) == Revenue(old(byEvent), e) + Sum(ms, Paid(e))
        ensures Sold(byEvent, e) == Sold(old(byEvent), e) + Sum(ms, Bought(e))
      {
        FoldAdds(before, ms, clock, e);
      }
      ack := if breaks then None else Some(totalEvents);
    }

    /** The event's entry, which holds the sums over whatever was folded into the table; 0 without one. */
    method GetStats(event: string) returns (revenue: int, sold: int)
      ensures if event in byEvent then revenue == byEvent[event].revenue && sold == byEvent[event].sold
              else revenue == sold == 0
      ensures forall es :: byEvent == Fold(es) ==> revenue == Sum(es, Amount(event)) && sold == Sum(es, Quantity(event))
    {
      if event in byEvent {
        revenue, sold := byEvent[event].revenue, byEvent[event].sold;
      } else {
        revenue, sold := 0, 0;
      }
      forall es | byEvent == Fold(es) ensures revenue == Sum(es, Amount(event)) && sold == Sum(es, Quantity(event)) {
        FoldMeans(es, event);
      }
    }
  }
}
