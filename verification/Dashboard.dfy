/**
 * Live totals: purchases folded into running counters and fanned out to the watching clients over
 * bounded queues that drop rather than wait.
 */
module Dashboard {
  import opened Sums

  datatype Sale = Sale(event: string, amount: int, quantity: int)

  /** The totals a snapshot carries. */
  datatype Snapshot = Snapshot(event: string, revenue: int, sold: int)

  const QUEUE := 64

  /** A non-blocking send: a full queue drops the message. */
  function Offer(queue: seq<Snapshot>, m: Snapshot): seq<Snapshot> {
    if |queue| < QUEUE then queue + [m] else queue
  }

  /** How an INCRBY ends: answered, after `again` more applications whose replies were lost and made the
      client send it again; or unanswered, applied `times` times all the same. */
  datatype Reply = Answered(again: nat) | Unanswered(times: nat)

  /** How often the increment was applied. */
  function Applied(reply: Reply): nat {
    match reply
    case Answered(again) => again + 1
    case Unanswered(times) => times
  }

  /** A consumed sale and how its two increments ended. */
  datatype Entry = Entry(sale: Sale, revenueReply: Reply, soldReply: Reply)

  function Amount(event: string): Entry -> int {
    (e: Entry) => if e.sale.event == event then e.sale.amount else 0
  }

  function Quantity(event: string): Entry -> int {
    (e: Entry) => if e.sale.event == event then e.sale.quantity else 0
  }

  /** What a sale adds to the counters. */
  function CountedAmount(event: string): Entry -> int {
    (e: Entry) => if e.sale.event == event then Applied(e.revenueReply) * e.sale.amount else 0
  }

  function CountedQuantity(event: string): Entry -> int {
    (e: Entry) => if e.sale.event == event then Applied(e.soldReply) * e.sale.quantity else 0
  }

  /** What the counters are wrong by: lost increments below, repeated ones above. */
  function RevenueDrift(event: string): Entry -> int {
    (e: Entry) => if e.sale.event == event then (Applied(e.revenueReply) - 1) * e.sale.amount else 0
  }

  function SoldDrift(event: string): Entry -> int {
    (e: Entry) => if e.sale.event == event then (Applied(e.soldReply) - 1) * e.sale.quantity else 0
  }

  /** The counter's value as its caller learns it: an error reads as 0. */
  function Answer(reply: Reply, value: int): int {
    if reply.Answered? then value else 0
  }

  /** What is broadcast for sale number `n`. */
  function SnapshotAt(log: seq<Entry>, n: nat): Snapshot
    requires n < |log|
  {
    var event, upTo := log[n].sale.event, log[..n + 1];
    Snapshot(event, Answer(log[n].revenueReply, Sum(upTo, CountedAmount(event))),
             Answer(log[n].soldReply, Sum(upTo, CountedQuantity(event))))
  }

  // ---------------------------------------------------------------- exactly when a snapshot is true

  /** The true totals of an event over the first `n + 1` consumed sales. */
  function TrueSold(log: seq<Entry>, n: nat): int
    requires n < |log|
  {
    Sum(log[..n + 1], Quantity(log[n].sale.event))
  }

  function TrueRevenue(log: seq<Entry>, n: nat): int
    requires n < |log|
  {
    Sum(log[..n + 1], Amount(log[n].sale.event))
  }

  ghost predicate Positive(log: seq<Entry>) {
    forall n :: 0 <= n < |log| ==> log[n].sale.quantity > 0 && log[n].sale.amount >= 0
  }

  /** Every increment of the event's sold counter up to sale `n` was applied exactly once. */
  ghost predicate SoldOnce(log: seq<Entry>, n: nat)
    requires n < |log|
  {
    forall m :: 0 <= m <= n && log[m].sale.event == log[n].sale.event ==> Applied(log[m].soldReply) == 1
  }

  ghost predicate SoldAtMostOnce(log: seq<Entry>, n: nat)
    requires n < |log|
  {
    forall m :: 0 <= m <= n && log[m].sale.event == log[n].sale.event ==> Applied(log[m].soldReply) <= 1
  }

  /** `sold` in a snapshot is the true total exactly when its own increment was answered and what was
      lost before makes up for what was applied again. */
  lemma {:induction false} SoldIsTrueIff(log: seq<Entry>, n: nat)
    requires Positive(log) && n < |log|
    ensures var drift := Sum(log[..n + 1], SoldDrift(log[n].sale.event));
            && SnapshotAt(log, n).sold == (if log[n].soldReply.Answered? then TrueSold(log, n) + drift else 0)
            && (SnapshotAt(log, n).sold == TrueSold(log, n) <==> log[n].soldReply.Answered? && drift == 0)
  {
    var event, upTo := log[n].sale.event, log[..n + 1];
    SumAdd(upTo, CountedQuantity(event), Quantity(event), SoldDrift(event));
    SumAtLeast(upTo, n, Quantity(event));
  }

  /** If no increment of the event was applied more than once, a snapshot never overstates, and its
      `sold` is true exactly when its own increment was answered and none before was lost. */
  lemma {:induction false} SoldIsTrueIffOnce(log: seq<Entry>, n: nat)
    requires Positive(log) && n < |log| && SoldAtMostOnce(log, n)
    ensures SnapshotAt(log, n).sold <= TrueSold(log, n)
    ensures SnapshotAt(log, n).sold == TrueSold(log, n) <==> log[n].soldReply.Answered? && SoldOnce(log, n)
  {
    var event, upTo := log[n].sale.event, log[..n + 1];
    SoldIsTrueIff(log, n);
    SumAtLeast(upTo, n, Quantity(event));
    forall m | 0 <= m <= n
      ensures upTo[m] == log[m] && CountedQuantity(event)(log[m]) <= Quantity(event)(log[m])
      ensures CountedQuantity(event)(log[m]) == Quantity(event)(log[m]) <==>
                log[m].sale.event == event ==> Applied(log[m].soldReply) == 1
    {
    }
    SumEqualIff(upTo, CountedQuantity(event), Quantity(event));
  }

  /** `revenue` in a snapshot is the true total exactly when the answer came and the losses make up for
      the repetitions, or when no answer came and there is no revenue. */
  lemma {:induction false} RevenueIsTrueIff(log: seq<Entry>, n: nat)
    requires n < |log|
    ensures var drift := Sum(log[..n + 1], RevenueDrift(log[n].sale.event));
            && SnapshotAt(log, n).revenue ==
               (if log[n].revenueReply.Answered? then TrueRevenue(log, n) + drift else 0)
            && (SnapshotAt(log, n).revenue == TrueRevenue(log, n) <==>
                  if log[n].revenueReply.Answered? then drift == 0 else TrueRevenue(log, n) == 0)
  {
    var event, upTo := log[n].sale.event, log[..n + 1];
    SumAdd(upTo, CountedAmount(event), Amount(event), RevenueDrift(event));
  }

  // ---------------------------------------------------------------- one consumer, many clients

  /** `since` is how many sales had been consumed at registration; `at` and `lost` number the sales
      whose snapshots were queued and dropped. */
  datatype Client = Client(event: string, member: bool, closed: bool, queue: seq<Snapshot>, got: seq<Snapshot>,
                           since: nat, at: seq<nat>, lost: seq<nat>)

  datatype State = State(log: seq<Entry>, revenue: map<string, int>, sold: map<string, int>, clients: seq<Client>)

  datatype Label = Register(event: string) | Unregister(c: nat) | Consume(entry: Entry) | Receive(c: nat)

  function Counter(m: map<string, int>, k: string): int {
    if k in m then m[k] else 0
  }

  /** The counters after an INCRBY by `n`, as often as it is applied. */
  function Bumped(m: map<string, int>, k: string, n: int, reply: Reply): map<string, int> {
    if Applied(reply) == 0 then m else m[k := Counter(m, k) + Applied(reply) * n]
  }

  ghost predicate Enabled(s: State, l: Label) {
    match l
    case Register(_) => true
    case Unregister(c) => c < |s.clients| && s.clients[c].member
    case Consume(e) => e.sale.quantity > 0 && e.sale.amount >= 0
    case Receive(c) => c < |s.clients| && |s.clients[c].queue| > 0
  }

  /** One client's part of a broadcast of sale number `n`. */
  function Hear(c: Client, m: Snapshot, n: nat): Client {
    if !c.member || c.event != m.event then c
    else if |c.queue| < QUEUE then c.(queue := Offer(c.queue, m), at := c.at + [n])
    else c.(lost := c.lost + [n])
  }

  function Next(s: State, l: Label): State
    requires l.Unregister? ==> l.c < |s.clients|
    requires l.Receive? ==> l.c < |s.clients| && |s.clients[l.c].queue| > 0
  {
    match l
    case Register(event) => s.(clients := s.clients + [Client(event, true, false, [], [], |s.log|, [], [])])
    case Unregister(c) => s.(clients := s.clients[c := s.clients[c].(member := false, closed := true)])
    case Receive(c) =>
      var q := s.clients[c];
      s.(clients := s.clients[c := q.(queue := q.queue[1..], got := q.got + [q.queue[0]])])
    case Consume(e) =>
      var revenue := Bumped(s.revenue, e.sale.event, e.sale.amount, e.revenueReply);
      var sold := Bumped(s.sold, e.sale.event, e.sale.quantity, e.soldReply);
      var m := Snapshot(e.sale.event, Answer(e.revenueReply, Counter(revenue, e.sale.event)),
                        Answer(e.soldReply, Counter(sold, e.sale.event)));
      State(s.log + [e], revenue, sold,
            seq(|s.clients|, i requires 0 <= i < |s.clients| => Hear(s.clients[i], m, |s.log|)))
  }

  /** The dashboard may start over counters that are already running. */
  ghost predicate Init(s: State) {
    CountersOk(s) && Positive(s.log) && s.clients == []
  }

  ghost predicate IsRun(run: seq<State>, labels: seq<Label>) {
    && |run| == |labels| + 1
    && Init(run[0])
    && forall i :: 0 <= i < |labels| ==> Enabled(run[i], labels[i]) && run[i + 1] == Next(run[i], labels[i])
  }

  // ---------------------------------------------------------------- the invariant

  ghost predicate CountersOk(s: State) {
    forall e ::
      && Counter(s.revenue, e) == Sum(s.log, CountedAmount(e))
      && Counter(s.sold, e) == Sum(s.log, CountedQuantity(e))
  }

  /** Queued or received: snapshots of sales of the client's event, in order, each with the true totals. */
  ghost predicate ClientOk(log: seq<Entry>, c: Client) {
    && |c.queue| <= QUEUE && c.closed == !c.member && c.since <= |log|
    && |c.at| == |c.got + c.queue|
    && (forall i :: 0 <= i < |c.at| ==>
          && c.since <= c.at[i] < |log| && log[c.at[i]].sale.event == c.event
          && (c.got + c.queue)[i] == SnapshotAt(log, c.at[i]))
    && (forall i, j :: 0 <= i < j < |c.at| ==> c.at[i] < c.at[j])
    && (c.member ==> forall n :: c.since <= n < |log| && log[n].sale.event == c.event ==> n in c.at || n in c.lost)
  }

  ghost predicate Inv(s: State) {
    && CountersOk(s)
    && Positive(s.log)
    && forall c :: 0 <= c < |s.clients| ==> ClientOk(s.log, s.clients[c])
  }

  lemma {:induction false} CountersKeep(s: State, entry: Entry)
    requires CountersOk(s)
    ensures CountersOk(Next(s, Consume(entry)))
  {
    forall e
      ensures Counter(Next(s, Consume(entry)).revenue, e) == Sum(s.log + [entry], CountedAmount(e))
      ensures Counter(Next(s, Consume(entry)).sold, e) == Sum(s.log + [entry], CountedQuantity(e))
    {
      SumPush(s.log, entry, CountedAmount(e));
      SumPush(s.log, entry, CountedQuantity(e));
    }
  }

  lemma {:induction false} SnapshotStays(log: seq<Entry>, entry: Entry, n: nat)
    requires n < |log|
    ensures SnapshotAt(log + [entry], n) == SnapshotAt(log, n)
  {
    assert (log + [entry])[..n + 1] == log[..n + 1];
  }

  lemma {:induction false} HearKeeps(log: seq<Entry>, entry: Entry, c: Client, m: Snapshot)
    requires ClientOk(log, c) && m == SnapshotAt(log + [entry], |log|)
    ensures ClientOk(log + [entry], Hear(c, m, |log|))
  {
    var log', c' := log + [entry], Hear(c, m, |log|);
    var all := c.got + c.queue;
    assert c'.at != c.at ==> c'.got + c'.queue == all + [m];
    forall i | 0 <= i < |c'.at|
      ensures c.since <= c'.at[i] < |log'| && log'[c'.at[i]].sale.event == c.event
      ensures (c'.got + c'.queue)[i] == SnapshotAt(log', c'.at[i])
    {
      if i < |c.at| {
        SnapshotStays(log, entry, c.at[i]);
        assert (c'.got + c'.queue)[i] == all[i];
      }
    }
    if c.member {
      HearMissesNothing(log, entry, c, m);
    }
  }

  /** Each snapshot of the client's event is queued for it or dropped. */
  lemma {:induction false} HearMissesNothing(log: seq<Entry>, entry: Entry, c: Client, m: Snapshot)
    requires c.member && m.event == entry.sale.event
    requires forall n :: c.since <= n < |log| && log[n].sale.event == c.event ==> n in c.at || n in c.lost
    ensures var log', c' := log + [entry], Hear(c, m, |log|);
            forall n :: c.since <= n < |log'| && log'[n].sale.event == c.event ==> n in c'.at || n in c'.lost
  {
    var log', c' := log + [entry], Hear(c, m, |log|);
    forall n | c.since <= n < |log'| && log'[n].sale.event == c.event ensures n in c'.at || n in c'.lost {
      if n == |log| {
        assert c'.at == c.at + [n] || c'.lost == c.lost + [n];
      } else {
        assert log'[n] == log[n];
      }
    }
  }

  lemma {:induction false} ReceiveKeeps(log: seq<Entry>, c: Client)
    requires ClientOk(log, c) && |c.queue| > 0
    ensures ClientOk(log, c.(queue := c.queue[1..], got := c.got + [c.queue[0]]))
  {
    assert c.got + [c.queue[0]] + c.queue[1..] == c.got + c.queue;
  }

  /** What the counters answer is what the snapshot of the sale is defined to carry. */
  lemma {:induction false} BroadcastIsSnapshot(s: State, e: Entry)
    requires CountersOk(s)
    ensures var s', k := Next(s, Consume(e)), e.sale.event;
            Snapshot(k, Answer(e.revenueReply, Counter(s'.revenue, k)), Answer(e.soldReply, Counter(s'.sold, k))) ==
            SnapshotAt(s'.log, |s.log|)
  {
    assert (s.log + [e])[..|s.log| + 1] == s.log + [e];
    CountersKeep(s, e);
  }

  /** A broadcast tells the true totals exactly when its increments were answered (or the event has no
      revenue to tell) and the losses so far make up for the repetitions. */
  lemma {:induction false} BroadcastIsTrue(s: State, e: Entry)
    requires CountersOk(s) && Positive(s.log) && Enabled(s, Consume(e))
    ensures var s', k := Next(s, Consume(e)), e.sale.event;
            && (Answer(e.soldReply, Counter(s'.sold, k)) == Sum(s'.log, Quantity(k)) <==>
                  e.soldReply.Answered? && Sum(s'.log, SoldDrift(k)) == 0)
            && (Answer(e.revenueReply, Counter(s'.revenue, k)) == Sum(s'.log, Amount(k)) <==>
                  if e.revenueReply.Answered? then Sum(s'.log, RevenueDrift(k)) == 0 else Sum(s'.log, Amount(k)) == 0)
  {
    var log := s.log + [e];
    assert log[..|s.log| + 1] == log;
    BroadcastIsSnapshot(s, e);
    SoldIsTrueIff(log, |s.log|);
    RevenueIsTrueIff(log, |s.log|);
  }

  lemma {:induction false} ConsumeKeeps(s: State, entry: Entry, c: nat)
    requires CountersOk(s) && c < |s.clients| && ClientOk(s.log, s.clients[c])
    ensures ClientOk(s.log + [entry], Next(s, Consume(entry)).clients[c])
  {
    var m := SnapshotAt(s.log + [entry], |s.log|);
    assert Next(s, Consume(entry)).clients[c] == Hear(s.clients[c], m, |s.log|) by {
      BroadcastIsSnapshot(s, entry);
    }
    HearKeeps(s.log, entry, s.clients[c], m);
  }

  lemma {:induction false} StepKeeps(s: State, l: Label)
    requires Inv(s) && Enabled(s, l)
    ensures Inv(Next(s, l))
  {
    match l {
      case Consume(e) =>
        CountersKeep(s, e);
        forall c | 0 <= c < |s.clients| ensures ClientOk(s.log + [e], Next(s, l).clients[c]) {
          ConsumeKeeps(s, e, c);
        }
      case Receive(c) => ReceiveKeeps(s.log, s.clients[c]);
      case _ =>
    }
  }

  lemma {:induction false} Reachable(run: seq<State>, labels: seq<Label>, i: nat)
    requires IsRun(run, labels) && i < |run|
    ensures Inv(run[i])
  {
    if i > 0 {
      Reachable(run, labels, i - 1);
      StepKeeps(run[i - 1], labels[i - 1]);
    }
  }

  // ---------------------------------------------------------------- what every client sees

  lemma {:induction false} CountsUp(e: Entry)
    requires e.sale.quantity > 0
    ensures Applied(e.soldReply) * e.sale.quantity >= 0
    ensures e.soldReply.Answered? ==> Applied(e.soldReply) * e.sale.quantity > 0
  {
  }

  lemma {:induction false} SoldGrows(log: seq<Entry>, m: nat, n: nat)
    requires Positive(log) && m < n < |log| && log[n].sale.event == log[m].sale.event
    requires log[m].soldReply.Answered? && log[n].soldReply.Answered?
    ensures SnapshotAt(log, m).sold < SnapshotAt(log, n).sold
  {
    var w := CountedQuantity(log[n].sale.event);
    assert log[..n + 1] == log[..m + 1] + log[m + 1..n] + [log[n]];
    SumPush(log[..m + 1] + log[m + 1..n], log[n], w);
    SumConcat(log[..m + 1], log[m + 1..n], w);
    forall k | m < k <= n ensures w(log[k]) >= 0 && (k == n ==> w(log[k]) > 0) {
      CountsUp(log[k]);
    }
    SumNonNegative(log[m + 1..n], w);
  }

  /** What a client has received and has queued is a subsequence of its event's snapshots since it
      registered, in order. Among those whose `sold` was answered it strictly increases, whatever else
      was lost; it is true exactly when nothing of it was lost before; and if no snapshot was dropped
      for the client, none is missing while it is registered. */
  lemma {:induction false} ClientSees(run: seq<State>, labels: seq<Label>, i: nat, c: nat)
    requires IsRun(run, labels) && i < |run| && c < |run[i].clients|
    ensures var q := run[i].clients[c]; var seen := q.got + q.queue; var log := run[i].log;
            && |q.at| == |seen|
            && (forall k :: 0 <= k < |seen| ==>
                  && q.since <= q.at[k] < |log| && log[q.at[k]].sale.event == q.event
                  && seen[k] == SnapshotAt(log, q.at[k]))
            && (forall k, m :: 0 <= k < m < |seen| ==> q.at[k] < q.at[m])
            && (forall k, m :: 0 <= k < m < |seen| && log[q.at[k]].soldReply.Answered? &&
                               log[q.at[m]].soldReply.Answered? ==>
                  seen[k].sold < seen[m].sold)
            && (q.member && q.lost == [] ==>
                  forall n :: q.since <= n < |log| && log[n].sale.event == q.event ==> n in q.at)
  {
    Reachable(run, labels, i);
    var q := run[i].clients[c];
    var log := run[i].log;
    assert ClientOk(log, q);
    forall k, m | 0 <= k < m < |q.at| && log[q.at[k]].soldReply.Answered? && log[q.at[m]].soldReply.Answered?
      ensures (q.got + q.queue)[k].sold < (q.got + q.queue)[m].sold
    {
      SoldGrows(log, q.at[k], q.at[m]);
    }
  }

  /** What a client has seen of `sold` is true exactly when it was answered and the losses before it make
      up for the repetitions; with no repetition it never overstates and is true exactly when nothing
      before it was lost. */
  lemma {:induction false} ClientSeesTruthIff(run: seq<State>, labels: seq<Label>, i: nat, c: nat, k: nat)
    requires IsRun(run, labels) && i < |run| && c < |run[i].clients|
    requires k < |run[i].clients[c].got + run[i].clients[c].queue|
    ensures var q := run[i].clients[c]; var seen := q.got + q.queue; var log := run[i].log;
            && k < |q.at| && 0 <= q.at[k] < |log|
            && (seen[k].sold == TrueSold(log, q.at[k]) <==>
                  log[q.at[k]].soldReply.Answered? && Sum(log[..q.at[k] + 1], SoldDrift(q.event)) == 0)
            && (SoldAtMostOnce(log, q.at[k]) ==>
                  && seen[k].sold <= TrueSold(log, q.at[k])
                  && (seen[k].sold == TrueSold(log, q.at[k]) <==>
                        log[q.at[k]].soldReply.Answered? && SoldOnce(log, q.at[k])))
  {
    ClientSees(run, labels, i, c);
    Reachable(run, labels, i);
    SoldIsTrueIff(run[i].log, run[i].clients[c].at[k]);
    if SoldAtMostOnce(run[i].log, run[i].clients[c].at[k]) {
      SoldIsTrueIffOnce(run[i].log, run[i].clients[c].at[k]);
    }
  }

  /** A snapshot is dropped exactly for the clients of its event that have 64 queued, and a broadcast
      only ever sends to open channels. */
  lemma {:induction false} DropsOnlyWhenFull(run: seq<State>, labels: seq<Label>, i: nat, c: nat)
    requires IsRun(run, labels) && i < |labels| && labels[i].Consume? && c < |run[i].clients|
    ensures var q, q' := run[i].clients[c], run[i + 1].clients[c];
            && (q'.lost != q.lost <==> q.member && q.event == labels[i].entry.sale.event && |q.queue| == 64)
            && (q'.queue != q.queue <==> q.member && q.event == labels[i].entry.sale.event && |q.queue| < 64)
            && (q'.queue != q.queue ==> !q.closed)
  {
    Reachable(run, labels, i);
    assert ClientOk(run[i].log, run[i].clients[c]);
  }

  // ---------------------------------------------------------------- from registration to leaving

  lemma {:induction false} ClientAfter(s: State, l: Label, c: nat)
    requires Enabled(s, l) && c < |s.clients|
    ensures c < |Next(s, l).clients|
    ensures var q, q' := s.clients[c], Next(s, l).clients[c];
            && q'.event == q.event && q'.since == q.since && q.lost <= q'.lost
            && (!q.member ==> q'.at == q.at && q'.lost == q.lost && q'.got + q'.queue == q.got + q.queue && !q'.member)
            && (l != Unregister(c) ==> q'.member == q.member && q'.closed == q.closed)
            && (l == Unregister(c) ==> !q'.member && q'.closed)
            && (l == Receive(c) ==> q'.got == q.got + [q.queue[0]] && q'.queue == q.queue[1..])
            && (l != Receive(c) ==> q'.got == q.got && q.queue <= q'.queue)
  {
  }

  /** From its registration until it leaves, a client is a member of its event's group, with an open channel. */
  lemma {:induction false} WatchesUntilLeaving(run: seq<State>, labels: seq<Label>, i: nat, j: nat, c: nat)
    requires IsRun(run, labels) && i < j < |run| && labels[i].Register? && c == |run[i].clients|
    requires forall m :: i < m < j ==> labels[m] != Unregister(c)
    ensures c < |run[j].clients|
    ensures var q := run[j].clients[c];
            q.event == labels[i].event && q.since == |run[i].log| && q.member && !q.closed
    decreases j
  {
    if j > i + 1 {
      WatchesUntilLeaving(run, labels, i, j - 1, c);
      ClientAfter(run[j - 1], labels[j - 1], c);
    }
  }

  /** A client that has left has a closed channel and hears nothing more: of what it had queued it can still
      receive all, in order, and that is all. */
  lemma {:induction false} HearsNothingMore(run: seq<State>, labels: seq<Label>, i: nat, j: nat, c: nat)
    requires IsRun(run, labels) && i < j < |run| && labels[i] == Unregister(c) && c < |run[i].clients|
    ensures c < |run[j].clients|
    ensures var q, q' := run[i].clients[c], run[j].clients[c];
            q'.closed && !q'.member && q'.got + q'.queue == q.got + q.queue && q'.at == q.at && q'.lost == q.lost
    decreases j
  {
    if j > i + 1 {
      HearsNothingMore(run, labels, i, j - 1, c);
      ClientAfter(run[j - 1], labels[j - 1], c);
    }
  }

  // ---------------------------------------------------------------- untrue snapshots

  const ONE := Sale("e", 100, 1)

  /** An increment is lost: the next snapshot, with both replies, tells 1 sold of 2. */
  lemma {:induction false} LossUnderstates() returns (run: seq<State>, labels: seq<Label>)
    ensures IsRun(run, labels)
    ensures |run[|labels|].clients| == 1
    ensures var log, q := run[|labels|].log, run[|labels|].clients[0].queue;
            && |log| == 2 && |q| == 2 && q[1].sold == 1 && TrueSold(log, 1) == 2
            && q[1].revenue == 200 == TrueRevenue(log, 1)
  {
    var lost, fine := Entry(ONE, Answered(0), Unanswered(0)), Entry(ONE, Answered(0), Answered(0));
    var s0 := State([], map[], map[], []);
    var s1 := Next(s0, Register("e"));
    var s2, s3 := Next(s1, Consume(lost)), Next(Next(s1, Consume(lost)), Consume(fine));
    run, labels := [s0, s1, s2, s3], [Register("e"), Consume(lost), Consume(fine)];
    SumPush([], lost, Quantity("e"));
    SumPush([lost], fine, Quantity("e"));
    SumPush([], lost, Amount("e"));
    SumPush([lost], fine, Amount("e"));
    assert [] + [lost] == [lost] && [lost] + [fine] == [lost, fine] == s3.log[..2];
  }

  /** A lost reply makes the client send the increment again: the snapshot tells 2 sold of 1. */
  lemma {:induction false} RepetitionOverstates() returns (run: seq<State>, labels: seq<Label>)
    ensures IsRun(run, labels)
    ensures |run[|labels|].clients| == 1
    ensures var log, q := run[|labels|].log, run[|labels|].clients[0].queue;
            && |log| == 1 && |q| == 1 && q[0].sold == 2 && TrueSold(log, 0) == 1
            && q[0].revenue == 100 == TrueRevenue(log, 0)
  {
    var twice := Entry(ONE, Answered(0), Answered(1));
    var s0 := State([], map[], map[], []);
    var s1 := Next(s0, Register("e"));
    run, labels := [s0, s1, Next(s1, Consume(twice))], [Register("e"), Consume(twice)];
    SumPush([], twice, Quantity("e"));
    SumPush([], twice, Amount("e"));
    assert [] + [twice] == [twice] == run[2].log[..1];
  }
}
