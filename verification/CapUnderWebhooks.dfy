/**
 * What overlapping checkouts can do to the cap while webhooks, other buyers and everybody else act
 * between them: a pending purchase that fails in the meantime makes room for checks that would not
 * have passed before.
 */
module CapUnderWebhooks {
  import opened Sums
  import opened Tables
  import opened Webhook
  import opened Protocol
  import opened PurchaseCap
  import opened CapUnderBurst
  import opened WorstCase

  // ---------------------------------------------------------------- when some pending purchases fail

  /** What the buyer holds if the purchases in `fails` fail. */
  ghost function HeldIf(ps: seq<Purchase>, fails: set<nat>, buyer: nat, event: nat): int {
    Sum(WithFailed(ps, fails), HeldBy(buyer, event))
  }

  /** All of `fails` are pending purchases of the buyer for the event. */
  ghost predicate MayFail(ps: seq<Purchase>, fails: set<nat>, buyer: nat, event: nat) {
    forall p :: p in fails ==>
      p < |ps| && ps[p].status == Pending && ps[p].buyer == buyer && ps[p].event == event
  }

  /** The most the buyer can come to hold if just these fail. */
  ghost function Worst(s: State, fails: set<nat>, buyer: nat, event: nat): int {
    var held := HeldIf(s.db.purchases, fails, buyer, event);
    held + Sum(s.checkouts, Potential(buyer, event, held, s.cap))
  }

  // ---------------------------------------------------------------- no interleaving reaches further

  /** What the first `n` purchases hold. */
  ghost function Floor(ps: seq<Purchase>, n: nat, buyer: nat, event: nat): int
    requires n <= |ps|
  {
    Sum(ps[..n], HeldBy(buyer, event))
  }

  lemma {:induction false} FloorAndRest(ps: seq<Purchase>, n: nat, buyer: nat, event: nat)
    requires n <= |ps|
    ensures Sum(ps, HeldBy(buyer, event)) == Floor(ps, n, buyer, event) + Sum(ps[n..], HeldBy(buyer, event))
  {
    assert ps == ps[..n] + ps[n..];
    SumConcat(ps[..n], ps[n..], HeldBy(buyer, event));
  }

  /** The buyer's checkouts waiting for their check were waiting for it at the start. */
  ghost predicate SameWaiters(start: State, s: State, buyer: nat, event: nat) {
    && |start.checkouts| <= |s.checkouts|
    && forall c :: 0 <= c < |s.checkouts| && s.checkouts[c].buyer == buyer && s.checkouts[c].event == event &&
                   s.checkouts[c].pc.ReadHeld? ==>
         c < |start.checkouts| && s.checkouts[c] == start.checkouts[c]
  }

  /** The bound, for whatever still holds of the purchases there were at the start. */
  ghost predicate Bounded(start: State, s: State, buyer: nat, event: nat) {
    && Later(start.db, s.db) && s.cap == start.cap && SameWaiters(start, s, buyer, event)
    && var floor := Floor(s.db.purchases, |start.db.purchases|, buyer, event);
    Reach(s, buyer, event, floor) <= floor + Sum(start.checkouts, Potential(buyer, event, floor, s.cap))
  }

  lemma {:induction false} RowsHoldLess(a: seq<Purchase>, b: seq<Purchase>, buyer: nat, event: nat)
    requires |a| == |b| && forall p :: 0 <= p < |a| ==> PurchaseEvolves(a[p], b[p]) && a[p].quantity > 0
    ensures Sum(b, HeldBy(buyer, event)) <= Sum(a, HeldBy(buyer, event))
  {
    SumAcross(b, a, HeldBy(buyer, event), HeldBy(buyer, event));
  }

  ghost function Gain(buyer: nat, event: nat, low: int, high: int, cap: int): Checkout -> int {
    (b: Checkout) => Potential(buyer, event, low, cap)(b) - Potential(buyer, event, high, cap)(b)
  }

  lemma {:induction false} GainOfOne(b: Checkout, buyer: nat, event: nat, low: int, high: int, cap: int)
    requires low <= high
    ensures b.quantity > 0 ==> Gain(buyer, event, low, high, cap)(b) >= 0
    ensures !(b.buyer == buyer && b.event == event && b.pc.ReadHeld?) ==> Gain(buyer, event, low, high, cap)(b) == 0
  {
    var w := Gain(buyer, event, low, high, cap);
    assert w(b) == Potential(buyer, event, low, cap)(b) - Potential(buyer, event, high, cap)(b);
  }

  /** A lower floor opens no more to the waiters of now than to those of the start. */
  lemma {:induction false} GainIsBounded(start: State, s: State, buyer: nat, event: nat, low: int, high: int)
    requires SameWaiters(start, s, buyer, event) && low <= high && PositiveQuantities(start)
    ensures Sum(s.checkouts, Gain(buyer, event, low, high, s.cap)) <=
            Sum(start.checkouts, Gain(buyer, event, low, high, s.cap))
  {
    var n := |start.checkouts|;
    var w := Gain(buyer, event, low, high, s.cap);
    assert s.checkouts == s.checkouts[..n] + s.checkouts[n..];
    SumConcat(s.checkouts[..n], s.checkouts[n..], w);
    forall c | 0 <= c < |s.checkouts|
      ensures if c < n then w(s.checkouts[c]) <= w(start.checkouts[c]) else w(s.checkouts[c]) == 0
    {
      GainOfOne(s.checkouts[c], buyer, event, low, high, s.cap);
      if c < n {
        GainOfOne(start.checkouts[c], buyer, event, low, high, s.cap);
      }
    }
    SumAcross(s.checkouts[..n], start.checkouts, w, w);
    SumZero(s.checkouts[n..], w);
  }

  lemma {:induction false} GainSplits(cs: seq<Checkout>, buyer: nat, event: nat, low: int, high: int, cap: int)
    ensures Sum(cs, Potential(buyer, event, low, cap)) ==
            Sum(cs, Potential(buyer, event, high, cap)) + Sum(cs, Gain(buyer, event, low, high, cap))
  {
    SumAdd(cs, Potential(buyer, event, low, cap), Potential(buyer, event, high, cap),
           Gain(buyer, event, low, high, cap));
  }

  /** Purchases that only evolve and checkouts that keep what they may add keep the bound. */
  lemma {:induction false} EvolvingKeepsBound(start: State, s: State, s': State, buyer: nat, event: nat)
    requires Bounded(start, s, buyer, event) && PositiveQuantities(start) && RowsOk(s.db)
    requires Later(s.db, s'.db) && |s'.db.purchases| == |s.db.purchases| && s'.cap == s.cap
    requires SameWaiters(start, s', buyer, event)
    requires forall held :: Sum(s'.checkouts, Potential(buyer, event, held, s.cap)) ==
                            Sum(s.checkouts, Potential(buyer, event, held, s.cap))
    ensures Bounded(start, s', buyer, event)
  {
    var ps, ps', n := s.db.purchases, s'.db.purchases, |start.db.purchases|;
    LaterTransitive(start.db, s.db, s'.db);
    forall p | 0 <= p < |ps| ensures PurchaseEvolves(ps[p], ps'[p]) && ps[p].quantity > 0 {
      assert PurchaseOk(s.db.tiers, ps[p]);
    }
    var high, low := Floor(ps, n, buyer, event), Floor(ps', n, buyer, event);
    RowsHoldLess(ps[..n], ps'[..n], buyer, event);
    RowsHoldLess(ps[n..], ps'[n..], buyer, event);
    FloorAndRest(ps, n, buyer, event);
    FloorAndRest(ps', n, buyer, event);
    GainIsBounded(start, s, buyer, event, low, high);
    GainSplits(s.checkouts, buyer, event, low, high, s.cap);
    GainSplits(start.checkouts, buyer, event, low, high, s.cap);
  }

  /** A checkout outside the burst adds nothing and never will. */
  lemma {:induction false} OutsiderMoves(db: Db, cap: int, b: Checkout, reply: Reply, intent: string, buyer: nat,
                                         event: nat, held: int)
    requires !InBurst(b, buyer, event) && !b.pc.Bought? && !b.pc.Rejected? && (b.buyer == buyer ==> !b.pc.ReadTier?)
    ensures Potential(buyer, event, held, cap)(b) == 0
    ensures Potential(buyer, event, held, cap)(BuyMove(db, cap, b, reply, intent)) == 0
    ensures b.pc.Insert? ==> HeldBy(buyer, event)(NewRow(b)) == 0
  {
  }

  /** A checkout step, the buyer's own or another's. */
  lemma {:induction false} BuyReaches(s: State, c: nat, reply: Reply, intent: string, buyer: nat, event: nat, held: int)
    requires CanBuy(s, c, reply) && PositiveQuantities(s) && Held(s.db, buyer, event) >= held
    requires s.checkouts[c].buyer == buyer ==> !s.checkouts[c].pc.ReadTier?
    ensures Reach(BuyStep(s, c, reply, intent), buyer, event, held) <= Reach(s, buyer, event, held)
  {
    var b := s.checkouts[c];
    if InBurst(b, buyer, event) {
      StepReaches(s, Buy(c, reply, intent), buyer, event, held);
    } else {
      OutsiderBuys(s, c, reply, intent, buyer, event, held);
    }
  }

  lemma {:induction false} OutsiderBuys(s: State, c: nat, reply: Reply, intent: string, buyer: nat, event: nat,
                                        held: int)
    requires CanBuy(s, c, reply) && !InBurst(s.checkouts[c], buyer, event)
    requires s.checkouts[c].buyer == buyer ==> !s.checkouts[c].pc.ReadTier?
    ensures Reach(BuyStep(s, c, reply, intent), buyer, event, held) == Reach(s, buyer, event, held)
  {
    var b := s.checkouts[c];
    OutsiderMoves(s.db, s.cap, b, reply, intent, buyer, event, held);
    SumUpdate(s.checkouts, c, BuyMove(s.db, s.cap, b, reply, intent), Potential(buyer, event, held, s.cap));
    SumPush(s.db.purchases, NewRow(b), HeldBy(buyer, event));
  }

  lemma {:induction false} HeldIsAboveFloor(s: State, n: nat, buyer: nat, event: nat)
    requires RowsOk(s.db) && n <= |s.db.purchases|
    ensures Held(s.db, buyer, event) >= Floor(s.db.purchases, n, buyer, event)
  {
    FloorAndRest(s.db.purchases, n, buyer, event);
    forall p | n <= p < |s.db.purchases| ensures HeldBy(buyer, event)(s.db.purchases[p]) >= 0 {
      assert PurchaseOk(s.db.tiers, s.db.purchases[p]);
    }
    SumNonNegative(s.db.purchases[n..], HeldBy(buyer, event));
  }

  lemma {:induction false} BuyKeepsBound(start: State, s: State, c: nat, reply: Reply, intent: string, buyer: nat,
                                         event: nat)
    requires Bounded(start, s, buyer, event) && PositiveQuantities(s) && RowsOk(s.db) && CanBuy(s, c, reply)
    requires s.checkouts[c].buyer == buyer ==> !s.checkouts[c].pc.ReadTier?
    requires Later(s.db, BuyStep(s, c, reply, intent).db)
    ensures Bounded(start, BuyStep(s, c, reply, intent), buyer, event)
  {
    var s', n := BuyStep(s, c, reply, intent), |start.db.purchases|;
    LaterTransitive(start.db, s.db, s'.db);
    HeldIsAboveFloor(s, n, buyer, event);
    BuyReaches(s, c, reply, intent, buyer, event, Floor(s.db.purchases, n, buyer, event));
    assert s'.db.purchases[..n] == s.db.purchases[..n];
  }

  /** A checkout just started has nothing to add and waits for nothing yet. */
  lemma {:induction false} NewcomersAddNothing(start: State, cs: seq<Checkout>, s: State, buyer: nat, event: nat)
    requires SameWaiters(start, s, buyer, event) && forall c :: 0 <= c < |cs| ==> cs[c].pc.ReadTier?
    ensures SameWaiters(start, s.(checkouts := s.checkouts + cs), buyer, event)
    ensures forall held :: Sum(s.checkouts + cs, Potential(buyer, event, held, s.cap)) ==
                           Sum(s.checkouts, Potential(buyer, event, held, s.cap))
  {
    forall held ensures Sum(s.checkouts + cs, Potential(buyer, event, held, s.cap)) ==
                        Sum(s.checkouts, Potential(buyer, event, held, s.cap))
    {
      SumConcat(s.checkouts, cs, Potential(buyer, event, held, s.cap));
      SumZero(cs, Potential(buyer, event, held, s.cap));
    }
  }

  lemma {:induction false} OthersKeepCheckouts(s: State, l: Label) returns (cs: seq<Checkout>)
    requires Enabled(s, l) && !l.Buy?
    ensures Next(s, l).cap == s.cap && Next(s, l).checkouts == s.checkouts + cs
    ensures forall c :: 0 <= c < |cs| ==> cs[c].pc.ReadTier?
  {
    cs := if l.Shop? then [Checkout(l.buyer, l.tier, Wanted(l.quantity), ReadTier, 0, 0, "")] else [];
  }

  lemma {:induction false} OthersAddNoPurchase(s: State, l: Label)
    requires Inv(s) && Enabled(s, l) && !l.Buy?
    ensures |Next(s, l).db.purchases| == |s.db.purchases|
  {
    StepRefines(s, l);
  }

  lemma {:induction false} QuantitiesArePositive(s: State)
    requires CheckoutsOk(s)
    ensures PositiveQuantities(s)
  {
    forall c | 0 <= c < |s.checkouts| ensures s.checkouts[c].quantity > 0 {
      assert CheckoutOk(s.db, s.checkouts[c]);
    }
  }

  lemma {:induction false} PlayIsBounded(start: State, s: State, labels: seq<Label>, buyer: nat, event: nat)
    requires Inv(start) && Inv(s) && Bounded(start, s, buyer, event) && Play(s, labels, buyer)
    ensures Inv(Played(s, labels, buyer)) && Bounded(start, Played(s, labels, buyer), buyer, event)
    decreases |labels|
  {
    if |labels| > 0 {
      var l := labels[0];
      QuantitiesArePositive(start);
      QuantitiesArePositive(s);
      StepMovesForward(s, l);
      if l.Buy? {
        BuyKeepsBound(start, s, l.c, l.reply, l.intent, buyer, event);
      } else {
        OthersAddNoPurchase(s, l);
        var cs := OthersKeepCheckouts(s, l);
        NewcomersAddNothing(start, cs, s, buyer, event);
        EvolvingKeepsBound(start, s, Next(s, l), buyer, event);
      }
      Protocol.StepKeepsInv(s, l);
      PlayIsBounded(start, Next(s, l), labels[1..], buyer, event);
    }
  }

  lemma {:induction false} StartIsBounded(s: State, buyer: nat, event: nat)
    ensures Bounded(s, s, buyer, event)
  {
    LaterReflexive(s.db);
    assert s.db.purchases[..|s.db.purchases|] == s.db.purchases;
  }

  /** What still holds of the purchases of the start is what is left when those that failed have failed. */
  lemma {:induction false} FloorIsHeldIf(a: seq<Purchase>, b: seq<Purchase>, buyer: nat, event: nat)
    returns (fails: set<nat>)
    requires |a| == |b| && forall p :: 0 <= p < |a| ==> PurchaseEvolves(a[p], b[p])
    ensures MayFail(a, fails, buyer, event) && HeldIf(a, fails, buyer, event) == Sum(b, HeldBy(buyer, event))
  {
    fails := set p: nat | p < |a| && a[p].status == Pending && a[p].buyer == buyer && a[p].event == event &&
                          b[p].status == Failed;
    SumAcross(WithFailed(a, fails), b, HeldBy(buyer, event), HeldBy(buyer, event));
    SumAcross(b, WithFailed(a, fails), HeldBy(buyer, event), HeldBy(buyer, event));
  }

  /** No play brings the buyer above the worst case for the purchases that failed in it. */
  lemma {:induction false} PlayReaches(s: State, labels: seq<Label>, buyer: nat, event: nat) returns (fails: set<nat>)
    requires Inv(s) && Play(s, labels, buyer)
    ensures MayFail(s.db.purchases, fails, buyer, event)
    ensures Held(Played(s, labels, buyer).db, buyer, event) <= Worst(s, fails, buyer, event)
  {
    StartIsBounded(s, buyer, event);
    PlayIsBounded(s, s, labels, buyer, event);
    var end, n := Played(s, labels, buyer), |s.db.purchases|;
    fails := FloorIsHeldIf(s.db.purchases, end.db.purchases[..n], buyer, event);
    PotentialIsPositive(end, buyer, event, Floor(end.db.purchases, n, buyer, event));
  }

  lemma {:induction false} PotentialIsPositive(s: State, buyer: nat, event: nat, held: int)
    requires CheckoutsOk(s)
    ensures Sum(s.checkouts, Potential(buyer, event, held, s.cap)) >= 0
  {
    QuantitiesArePositive(s);
    SumNonNegative(s.checkouts, Potential(buyer, event, held, s.cap));
  }

  // ---------------------------------------------------------------- and some interleaving reaches that far

  lemma {:induction false} BurstIsPlay(s: State, labels: seq<Label>, buyer: nat, event: nat)
    requires Burst(s, labels, buyer, event)
    ensures Play(s, labels, buyer) && Played(s, labels, buyer) == AfterBurst(s, labels, buyer, event)
    decreases |labels|
  {
    if |labels| > 0 {
      BurstIsPlay(BuyStep(s, labels[0].c, labels[0].reply, labels[0].intent), labels[1..], buyer, event);
    }
  }

  lemma {:induction false} KeptIsHeldIf(s: State, s': State, fails: set<nat>, buyer: nat, event: nat)
    requires Keeps(s, s', fails, buyer)
    ensures Held(s'.db, buyer, event) == HeldIf(s.db.purchases, fails, buyer, event)
  {
    var ps', n := s'.db.purchases, |s.db.purchases|;
    FloorAndRest(ps', n, buyer, event);
    SumZero(ps'[n..], HeldBy(buyer, event));
    assert ps'[..n] == WithFailed(s.db.purchases, fails);
  }

  lemma {:induction false} KeptPotential(s: State, s': State, fails: set<nat>, buyer: nat, event: nat, held: int)
    requires Keeps(s, s', fails, buyer)
    ensures Sum(s'.checkouts, Potential(buyer, event, held, s.cap)) ==
              Sum(s.checkouts, Potential(buyer, event, held, s.cap))
  {
    var n, w := |s.checkouts|, Potential(buyer, event, held, s.cap);
    assert s'.checkouts == s.checkouts + s'.checkouts[n..];
    SumConcat(s.checkouts, s'.checkouts[n..], w);
    SumZero(s'.checkouts[n..], w);
  }

  /** The play has used no intent that a waiting checkout of the buyer still needs. */
  lemma {:induction false} KeptIntents(s: State, s': State, fails: set<nat>, buyer: nat, event: nat)
    requires Keeps(s, s', fails, buyer) && FreshIntents(s, buyer, event)
    ensures FreshIntents(s', buyer, event)
  {
    forall c: nat | Waiting(s', c, buyer, event)
      ensures Waiting(s, c, buyer, event) && s'.checkouts[c] == s.checkouts[c]
    {
    }
    forall c: nat | Waiting(s', c, buyer, event) ensures Find(s'.db.purchases, s'.checkouts[c].intent).None? {
      assert Waiting(s, c, buyer, event);
      var f := Find(s'.db.purchases, s'.checkouts[c].intent);
      var g := Find(s.db.purchases, s.checkouts[c].intent);
    }
    forall c: nat, e: nat | Waiting(s', c, buyer, event) && Waiting(s', e, buyer, event) && c != e
      ensures s'.checkouts[c].intent != s'.checkouts[e].intent
    {
      assert Waiting(s, c, buyer, event) && Waiting(s, e, buyer, event);
    }
  }

  /** Once the purchases have failed, all checks before all inserts reach the worst case. */
  lemma {:induction false} BurstAfter(s: State, s': State, fails: set<nat>, buyer: nat, event: nat)
    returns (labels: seq<Label>)
    requires Keeps(s, s', fails, buyer) && FreshIntents(s, buyer, event)
    ensures Play(s', labels, buyer) && Held(Played(s', labels, buyer).db, buyer, event) == Worst(s, fails, buyer, event)
  {
    var held := HeldIf(s.db.purchases, fails, buyer, event);
    KeptIsHeldIf(s, s', fails, buyer, event);
    KeptPotential(s, s', fails, buyer, event, held);
    KeptIntents(s, s', fails, buyer, event);
    labels := CheckThenInsert(s', buyer, event, held, |s'.checkouts|);
    BurstIsPlay(s', labels, buyer, event);
  }

  /** Everybody in flight dies. */
  lemma {:induction false} Clear(s: State, buyer: nat) returns (labels: seq<Label>)
    requires Inv(s) && s.cap > 0
    ensures Play(s, labels, buyer) && Ready(Played(s, labels, buyer)) && Keeps(s, Played(s, labels, buyer), {}, buyer)
  {
    labels := KillAll(s, |s.deliveries|, buyer);
    LaterReflexive(s.db);
  }

  lemma {:induction false} FailThem(s: State, fails: set<nat>, buyer: nat, event: nat) returns (labels: seq<Label>)
    requires Inv(s) && s.cap > 0 && MayFail(s.db.purchases, fails, buyer, event)
    ensures Play(s, labels, buyer) && Keeps(s, Played(s, labels, buyer), fails, buyer)
  {
    var first := Clear(s, buyer);
    StillMayFail(s, Played(s, first, buyer), fails, buyer, event);
    var second := FailAll(Played(s, first, buyer), fails, buyer);
    KeepOn(s, first, second, {}, fails, fails, buyer);
    labels := first + second;
  }

  lemma {:induction false} StillMayFail(s: State, s': State, fails: set<nat>, buyer: nat, event: nat)
    requires Keeps(s, s', {}, buyer) && MayFail(s.db.purchases, fails, buyer, event)
    ensures MayFail(s'.db.purchases, fails, buyer, event)
  {
  }

  /** Whichever pending purchases are to fail, some play reaches the worst case for them. */
  lemma {:induction false} WorstIsReached(s: State, fails: set<nat>, buyer: nat, event: nat)
    returns (labels: seq<Label>)
    requires Inv(s) && s.cap > 0 && FreshIntents(s, buyer, event) && MayFail(s.db.purchases, fails, buyer, event)
    ensures Play(s, labels, buyer) && Held(Played(s, labels, buyer).db, buyer, event) == Worst(s, fails, buyer, event)
  {
    var first := FailThem(s, fails, buyer, event);
    var second := BurstAfter(s, Played(s, first, buyer), fails, buyer, event);
    PlayOn(s, first, second, buyer);
    labels := first + second;
  }

  // ---------------------------------------------------------------- exactly when the cap is safe

  /** Whatever webhooks, other buyers and dying processes do among the buyer's overlapping checkouts, the
      cap holds exactly when, for every choice of the buyer's pending purchases that fail, what is then
      held, what is past its check and what then passes it alone fit together. */
  lemma {:induction false} CapSafeIff(s: State, buyer: nat, event: nat)
    requires Inv(s) && s.cap > 0 && FreshIntents(s, buyer, event)
    ensures (forall labels :: Play(s, labels, buyer) ==> Held(Played(s, labels, buyer).db, buyer, event) <= s.cap)
            <==> (forall fails :: MayFail(s.db.purchases, fails, buyer, event) ==>
                    Worst(s, fails, buyer, event) <= s.cap)
  {
    if forall fails :: MayFail(s.db.purchases, fails, buyer, event) ==> Worst(s, fails, buyer, event) <= s.cap {
      forall labels | Play(s, labels, buyer) ensures Held(Played(s, labels, buyer).db, buyer, event) <= s.cap {
        var fails := PlayReaches(s, labels, buyer, event);
      }
    } else {
      var fails :| MayFail(s.db.purchases, fails, buyer, event) && Worst(s, fails, buyer, event) > s.cap;
      var labels := WorstIsReached(s, fails, buyer, event);
    }
  }

  /** What the buyer holds for good. */
  ghost function CompletedBy(buyer: nat, event: nat): Purchase -> int {
    (p: Purchase) => if p.buyer == buyer && p.event == event && p.status == Completed then p.quantity else 0
  }

  /** Failures take away no more than what is pending. */
  lemma {:induction false} CompletedStay(ps: seq<Purchase>, fails: set<nat>, buyer: nat, event: nat)
    requires MayFail(ps, fails, buyer, event) && forall p :: 0 <= p < |ps| ==> ps[p].quantity > 0
    ensures Sum(ps, CompletedBy(buyer, event)) <= HeldIf(ps, fails, buyer, event) <= Sum(ps, HeldBy(buyer, event))
  {
    SumAcross(WithFailed(ps, fails), ps, HeldBy(buyer, event), HeldBy(buyer, event));
    SumAcross(ps, WithFailed(ps, fails), CompletedBy(buyer, event), HeldBy(buyer, event));
  }

  lemma {:induction false} LessHeldMorePasses(cs: seq<Checkout>, buyer: nat, event: nat, low: int, high: int, cap: int)
    requires low <= high && forall c :: 0 <= c < |cs| ==> cs[c].quantity > 0
    ensures Sum(cs, Potential(buyer, event, high, cap)) <= Sum(cs, Potential(buyer, event, low, cap))
  {
    SumLeq(cs, Potential(buyer, event, high, cap), Potential(buyer, event, low, cap));
  }

  /** A check before the play: if all that is held now fits together with everything that is past its
      check or would pass it over the completed purchases alone, no play breaks the cap. */
  lemma {:induction false} SafeIfCompletedFit(s: State, labels: seq<Label>, buyer: nat, event: nat)
    requires Inv(s) && Play(s, labels, buyer)
    requires Held(s.db, buyer, event) +
             Sum(s.checkouts, Potential(buyer, event, Sum(s.db.purchases, CompletedBy(buyer, event)), s.cap)) <= s.cap
    ensures Held(Played(s, labels, buyer).db, buyer, event) <= s.cap
  {
    var ps := s.db.purchases;
    var fails := PlayReaches(s, labels, buyer, event);
    forall p | 0 <= p < |ps| ensures ps[p].quantity > 0 {
      assert PurchaseOk(s.db.tiers, ps[p]);
    }
    CompletedStay(ps, fails, buyer, event);
    QuantitiesArePositive(s);
    LessHeldMorePasses(s.checkouts, buyer, event, Sum(ps, CompletedBy(buyer, event)),
                       HeldIf(ps, fails, buyer, event), s.cap);
  }
}
