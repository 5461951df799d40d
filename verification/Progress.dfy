/** Deliveries never deadlock and, left to themselves, all finish within a bound. */
module Progress {
  import opened Sums
  import opened Tables
  import opened Webhook
  import opened Protocol
  import opened Guarantees

  predicate Over(pc: Pc) {
    pc.Finished? || pc.Crashed?
  }

  // ---------------------------------------------------------------- a ticket id nobody has used

  function Longest(ts: seq<Ticket>): (n: nat)
    ensures forall k :: 0 <= k < |ts| ==> |ts[k].id| <= n
  {
    if |ts| == 0 then 0
    else
      var n := Longest(ts[..|ts| - 1]);
      if |ts[|ts| - 1].id| > n then |ts[|ts| - 1].id| else n
  }

  function LongestPending(ds: seq<Delivery>): (n: nat)
    ensures forall d, k :: 0 <= d < |ds| && 0 <= k < |ds[d].minted| ==> |ds[d].minted[k].id| <= n
  {
    if |ds| == 0 then 0
    else
      var n := LongestPending(ds[..|ds| - 1]);
      var m := Longest(ds[|ds| - 1].minted);
      if m > n then m else n
  }

  function NewId(s: State): (id: string)
    ensures UnusedId(s, id)
  {
    var n := Longest(s.db.tickets) + LongestPending(s.deliveries) + 1;
    seq(n, i => 'x')
  }

  // ---------------------------------------------------------------- deadlock freedom

  /** How many locks a delivery may still have to wait for. */
  function WaitRank(pc: Pc): nat {
    if pc.LockPurchase? then 2 else if pc.LockTier? then 1 else 0
  }

  /** Whoever holds the lock a delivery waits for has fewer locks left to wait for. */
  lemma {:induction false} BlockerIsCloser(s: State, d: nat) returns (h: nat)
    requires DeliveriesOk(s) && LocksOk(s) && RowsOk(s.db) && d < |s.deliveries|
    requires !Unblocked(s, s.deliveries[d], Good)
    ensures h < |s.deliveries| && !Over(s.deliveries[h].pc)
    ensures WaitRank(s.deliveries[h].pc) < WaitRank(s.deliveries[d].pc)
  {
    if s.deliveries[d].pc.LockPurchase? {
      h := s.rowLocks[Find(s.db.purchases, s.deliveries[d].intent).value];
    } else {
      TierExists(s, d);
      h := s.tierLocks[s.deliveries[d].row.tier];
    }
  }

  lemma {:induction false} TierExists(s: State, d: nat)
    requires DeliveriesOk(s) && RowsOk(s.db) && d < |s.deliveries| && s.deliveries[d].pc.LockTier?
    ensures s.deliveries[d].row.tier < |s.db.tiers|
  {
    assert DeliveryOk(s.db, s.rowLocks, s.tierLocks, d, s.deliveries[d]);
    assert PurchaseOk(s.db.tiers, s.db.purchases[s.deliveries[d].p]);
  }

  /** While any delivery is unfinished, some unfinished delivery can take its next step successfully. */
  lemma {:induction false} SomeoneCanStep(s: State, d: nat) returns (e: nat)
    requires DeliveriesOk(s) && LocksOk(s) && RowsOk(s.db) && d < |s.deliveries| && !Over(s.deliveries[d].pc)
    ensures CanDeliver(s, e, Good, NewId(s))
    decreases WaitRank(s.deliveries[d].pc)
  {
    if Unblocked(s, s.deliveries[d], Good) {
      e := d;
    } else {
      var h := BlockerIsCloser(s, d);
      e := SomeoneCanStep(s, h);
    }
  }

  /** No reachable state is a deadlock. */
  lemma {:induction false} NoDeadlock(run: seq<State>, labels: seq<Label>, i: nat, d: nat) returns (e: nat)
    requires IsRun(run, labels) && i < |run| && d < |run[i].deliveries| && !Over(run[i].deliveries[d].pc)
    ensures CanDeliver(run[i], e, Good, NewId(run[i]))
  {
    Reachable(run, labels, i);
    e := SomeoneCanStep(run[i], d);
  }

  // ---------------------------------------------------------------- termination

  /** An upper bound on the steps a delivery has left when no purchase is for more than `most` tickets. */
  function StepsLeft(w: Delivery, most: nat): nat {
    match w.pc
    case Claim => 11 + most
    case Begin => 10 + most
    case LockPurchase => 9 + most
    case LockTier => 8 + most
    case Mint => if |w.minted| < w.row.quantity then 7 + w.row.quantity - |w.minted| else 7
    case Bump => 7
    case MarkCompleted => 6
    case MarkFailed => 6
    case CommitMint => 5
    case CommitFailed => 5
    case RollBack(_) => 4
    case Invalidate => 4
    case MarkDone(_) => 3
    case Issue => 2
    case Publish => 1
    case Release(_) => 1
    case Finished(_) => 0
    case Crashed => 0
  }

  ghost function Weight(most: nat): Delivery -> int {
    (w: Delivery) => StepsLeft(w, most)
  }

  ghost predicate AtMost(ps: seq<Purchase>, most: nat) {
    forall p :: 0 <= p < |ps| ==> ps[p].quantity <= most
  }

  lemma {:induction false} MoveDescends(db: Db, rl: map<nat, nat>, tl: map<nat, nat>, d: nat, w: Delivery,
                                        reply: Reply, id: string, most: nat)
    requires DeliveryOk(db, rl, tl, d, w) && AtMost(db.purchases, most) && !Over(w.pc)
    requires w.pc.LockTier? ==> w.row.tier < |db.tiers|
    ensures StepsLeft(Moved(db, w, reply, id), most) < StepsLeft(w, most)
  {
  }

  /** The steps all deliveries together have left. */
  ghost function TotalLeft(s: State, most: nat): int {
    Sum(s.deliveries, Weight(most))
  }

  lemma {:induction false} StepDescends(s: State, d: nat, reply: Reply, id: string, most: nat)
    requires DeliveriesOk(s) && RowsOk(s.db) && CanDeliver(s, d, reply, id) && AtMost(s.db.purchases, most)
    ensures TotalLeft(DeliverStep(s, d, reply, id), most) < TotalLeft(s, most)
  {
    var w := s.deliveries[d];
    assert DeliveryOk(s.db, s.rowLocks, s.tierLocks, d, w);
    if w.pc.LockTier? {
      assert PurchaseOk(s.db.tiers, s.db.purchases[w.p]);
    }
    MoveDescends(s.db, s.rowLocks, s.tierLocks, d, w, reply, id, most);
    SumUpdate(s.deliveries, d, Moved(s.db, w, reply, id), Weight(most));
  }

  lemma {:induction false} SizesStay(s: State, d: nat, reply: Reply, id: string, most: nat)
    requires AtMost(s.db.purchases, most) && d < |s.deliveries|
    requires Later(s.db, DeliverStep(s, d, reply, id).db)
    ensures AtMost(DeliverStep(s, d, reply, id).db.purchases, most)
  {
    var db' := DeliverStep(s, d, reply, id).db;
    forall p | 0 <= p < |db'.purchases| ensures db'.purchases[p].quantity <= most {
      assert PurchaseEvolves(s.db.purchases[p], db'.purchases[p]);
    }
  }

  lemma {:induction false} DeliverStepInRun(run: seq<State>, labels: seq<Label>, j: nat, most: nat)
    requires IsRun(run, labels) && j < |labels| && labels[j].Deliver? && AtMost(run[j].db.purchases, most)
    ensures AtMost(run[j + 1].db.purchases, most)
    ensures TotalLeft(run[j + 1], most) < TotalLeft(run[j], most)
  {
    assert StepAt(run, labels, j);
    Reachable(run, labels, j);
    RunStepForward(run, labels, j);
    var l := labels[j];
    StepDescends(run[j], l.d, l.reply, l.id, most);
    SizesStay(run[j], l.d, l.reply, l.id, most);
  }

  /** Once nothing but deliveries moves, the run can go on for at most `TotalLeft` more steps,
      whatever is answered, lost or killed. */
  lemma {:induction false} RunsAreBounded(run: seq<State>, labels: seq<Label>, i: nat, j: nat, most: nat)
    requires IsRun(run, labels) && i <= j < |run| && AtMost(run[i].db.purchases, most)
    requires forall k :: i <= k < j ==> labels[k].Deliver?
    ensures AtMost(run[j].db.purchases, most)
    ensures j - i + TotalLeft(run[j], most) <= TotalLeft(run[i], most)
    ensures 0 <= TotalLeft(run[j], most)
    decreases j - i
  {
    SumNonNegative(run[j].deliveries, Weight(most));
    if i < j {
      RunsAreBounded(run, labels, i, j - 1, most);
      DeliverStepInRun(run, labels, j - 1, most);
    }
  }

  /** A run that cannot be continued by a successful delivery step has finished every delivery. */
  lemma {:induction false} MaximalRunsFinish(run: seq<State>, labels: seq<Label>, d: nat)
    requires IsRun(run, labels) && d < |run[|labels|].deliveries|
    requires forall e, id :: !CanDeliver(run[|labels|], e, Good, id)
    ensures Over(run[|labels|].deliveries[d].pc)
  {
    if !Over(run[|labels|].deliveries[d].pc) {
      var e := NoDeadlock(run, labels, |labels|, d);
    }
  }
}
