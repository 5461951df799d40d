/**
 * The per-buyer, per-event cap across the life cycle of a purchase.
 *
 * A checkout checks the cap in one statement and inserts in another. The cap therefore holds only
 * while no two checkouts of one buyer for one event are between the two; webhooks may interleave freely.
 */
module PurchaseCap {
  import opened Sums
  import opened Tables
  import opened Webhook
  import opened Protocol
  import opened Guarantees

  /** The checkout has passed the cap check and has not inserted its purchase yet. */
  predicate Admitted(b: Checkout) {
    b.pc.CreateIntent? || b.pc.Insert?
  }

  ghost function InFlight(buyer: nat, event: nat): Checkout -> int {
    (b: Checkout) => if Admitted(b) && b.buyer == buyer && b.event == event then b.quantity else 0
  }

  ghost predicate NoOverlap(s: State) {
    forall c, e :: 0 <= c < e < |s.checkouts| && Admitted(s.checkouts[c]) && Admitted(s.checkouts[e]) ==>
      s.checkouts[c].buyer != s.checkouts[e].buyer || s.checkouts[c].event != s.checkouts[e].event
  }

  ghost function Claimed(s: State, buyer: nat, event: nat): int {
    Held(s.db, buyer, event) + Sum(s.checkouts, InFlight(buyer, event))
  }

  ghost predicate CapOk(s: State) {
    forall buyer, event :: Claimed(s, buyer, event) <= s.cap
  }

  function Having(buyer: nat, event: nat, status: Status): Purchase -> int {
    (p: Purchase) => if p.buyer == buyer && p.event == event && p.status == status then p.quantity else 0
  }

  /** What a buyer holds is what is pending and what is completed. */
  lemma {:induction false} HeldIsPendingAndCompleted(db: Db, buyer: nat, event: nat)
    ensures Held(db, buyer, event) ==
            Sum(db.purchases, Having(buyer, event, Pending)) + Sum(db.purchases, Having(buyer, event, Completed))
  {
    SumAdd(db.purchases, HeldBy(buyer, event), Having(buyer, event, Pending), Having(buyer, event, Completed));
  }

  /** Settling never adds to what a buyer holds, because a failed purchase never comes back. */
  lemma {:induction false} SettleHeld(db: Db, p: nat, ids: seq<string>, buyer: nat, event: nat)
    requires RowsOk(db) && FailedDoNotFit(db) && Legal(db, Settle(p, ids))
    ensures Held(SettleDb(db, p, ids), buyer, event) <= Held(db, buyer, event)
  {
    var row := db.purchases[p];
    assert PurchaseOk(db.tiers, row);
    var w := HeldBy(buyer, event);
    SumUpdate(db.purchases, p, row.(status := Failed), w);
    SumUpdate(db.purchases, p, row.(status := Completed), w);
  }

  lemma {:induction false} OpHeld(db: Db, op: Op, buyer: nat, event: nat)
    requires RowsOk(db) && FailedDoNotFit(db) && Legal(db, op) && !op.AddPurchase?
    ensures Held(Run(db, op), buyer, event) <= Held(db, buyer, event)
  {
    if op.Settle? {
      SettleHeld(db, op.p, op.ids, buyer, event);
    }
  }

  /** Every step other than a checkout's leaves the checkouts in flight as they are. */
  lemma {:induction false} OthersKeepFlight(s: State, l: Label, buyer: nat, event: nat)
    requires Enabled(s, l) && !l.Buy?
    ensures Next(s, l).cap == s.cap
    ensures Sum(Next(s, l).checkouts, InFlight(buyer, event)) == Sum(s.checkouts, InFlight(buyer, event))
  {
    if l.Shop? {
      SumPush(s.checkouts, Checkout(l.buyer, l.tier, Wanted(l.quantity), ReadTier, 0, 0, ""), InFlight(buyer, event));
    }
  }

  /** Passing the check: with nobody else in flight, the claim is exactly what the check added up. */
  lemma {:induction false} CheckKeepsCap(s: State, c: nat, reply: Reply, intent: string, buyer: nat, event: nat)
    requires CapOk(s) && CanBuy(s, c, reply) && s.checkouts[c].pc.ReadHeld? && NoOverlap(BuyStep(s, c, reply, intent))
    ensures Claimed(BuyStep(s, c, reply, intent), buyer, event) <= s.cap
  {
    var s' := BuyStep(s, c, reply, intent);
    var b, b' := s.checkouts[c], s'.checkouts[c];
    SumUpdate(s.checkouts, c, b', InFlight(buyer, event));
    if Admitted(b') && b.buyer == buyer && b.event == event {
      forall e | 0 <= e < |s.checkouts| ensures InFlight(buyer, event)(s.checkouts[e]) == 0 {
        if e != c {
          assert s'.checkouts[e] == s.checkouts[e];
        }
      }
      SumZero(s.checkouts, InFlight(buyer, event));
    } else {
      assert Claimed(s, buyer, event) <= s.cap;
    }
  }

  lemma {:induction false} BuyKeepsCap(s: State, c: nat, reply: Reply, intent: string, buyer: nat, event: nat)
    requires CapOk(s) && CheckoutsOk(s) && CanBuy(s, c, reply) && NoOverlap(BuyStep(s, c, reply, intent))
    ensures Claimed(BuyStep(s, c, reply, intent), buyer, event) <= s.cap
  {
    var b := s.checkouts[c];
    assert CheckoutOk(s.db, b);
    if b.pc.ReadHeld? {
      CheckKeepsCap(s, c, reply, intent, buyer, event);
    } else {
      SumUpdate(s.checkouts, c, BuyMove(s.db, s.cap, b, reply, intent), InFlight(buyer, event));
      SumPush(s.db.purchases, NewRow(b), HeldBy(buyer, event));
      assert Claimed(s, buyer, event) <= s.cap;
    }
  }

  lemma {:induction false} OtherKeepsCap(s: State, l: Label, buyer: nat, event: nat)
    requires Inv(s) && CapOk(s) && Enabled(s, l) && !l.Buy?
    ensures Claimed(Next(s, l), buyer, event) <= s.cap == Next(s, l).cap
  {
    StepRefines(s, l);
    OpHeld(s.db, OpOf(s, l), buyer, event);
    OthersKeepFlight(s, l, buyer, event);
    assert Claimed(s, buyer, event) <= s.cap;
  }

  lemma {:induction false} StepKeepsCap(s: State, l: Label)
    requires Inv(s) && CapOk(s) && Enabled(s, l) && NoOverlap(Next(s, l))
    ensures CapOk(Next(s, l))
  {
    forall buyer, event ensures Claimed(Next(s, l), buyer, event) <= Next(s, l).cap {
      if l.Buy? {
        BuyKeepsCap(s, l.c, l.reply, l.intent, buyer, event);
      } else {
        OtherKeepsCap(s, l, buyer, event);
      }
    }
  }

  /** Under any interleaving with webhooks, and with no two checkouts of one buyer for one event
      between check and insert, pending and completed quantities stay within the cap. */
  lemma {:induction false} CapHolds(run: seq<State>, labels: seq<Label>, i: nat)
    requires IsRun(run, labels) && i < |run|
    requires forall buyer, event :: Held(run[0].db, buyer, event) <= run[0].cap
    requires forall k :: 0 <= k <= i ==> NoOverlap(run[k])
    ensures CapOk(run[i])
    ensures forall buyer, event :: Held(run[i].db, buyer, event) <= run[i].cap
  {
    if i == 0 {
      forall buyer, event ensures Claimed(run[0], buyer, event) <= run[0].cap {
        assert Held(run[0].db, buyer, event) <= run[0].cap;
      }
    } else {
      CapHolds(run, labels, i - 1);
      CapStep(run, labels, i - 1);
    }
    Reachable(run, labels, i);
    HeldWithinCap(run[i]);
  }

  lemma {:induction false} CapStep(run: seq<State>, labels: seq<Label>, i: nat)
    requires IsRun(run, labels) && i < |labels| && CapOk(run[i]) && NoOverlap(run[i + 1])
    ensures CapOk(run[i + 1])
  {
    assert StepAt(run, labels, i);
    Reachable(run, labels, i);
    StepKeepsCap(run[i], labels[i]);
  }

  lemma {:induction false} HeldWithinCap(s: State)
    requires CheckoutsOk(s) && CapOk(s)
    ensures forall buyer, event :: Held(s.db, buyer, event) <= s.cap
  {
    forall buyer, event ensures Held(s.db, buyer, event) <= s.cap {
      InFlightIsPositive(s, buyer, event);
      assert Claimed(s, buyer, event) <= s.cap;
    }
  }

  lemma {:induction false} InFlightIsPositive(s: State, buyer: nat, event: nat)
    requires CheckoutsOk(s)
    ensures Sum(s.checkouts, InFlight(buyer, event)) >= 0
  {
    forall c | 0 <= c < |s.checkouts| ensures InFlight(buyer, event)(s.checkouts[c]) >= 0 {
      assert CheckoutOk(s.db, s.checkouts[c]);
    }
    SumNonNegative(s.checkouts, InFlight(buyer, event));
  }
}
