/**
 * What overlapping checkouts can do to the cap.
 *
 * A burst is any interleaving of checkouts of one buyer for one event, all past reading the tier, while
 * nobody else moves.
 * Each check counts only what is already inserted, so a burst can break the cap; it cannot exactly
 * when all that is past its check or passes it alone fits together.
 */
module CapUnderBurst {
  import opened Sums
  import opened Tables
  import opened Webhook
  import opened PurchaseCap

  predicate InBurst(b: Checkout, buyer: nat, event: nat) {
    b.buyer == buyer && b.event == event && (b.pc.ReadHeld? || Admitted(b))
  }

  ghost predicate BurstStep(s: State, l: Label, buyer: nat, event: nat) {
    l.Buy? && CanBuy(s, l.c, l.reply) && InBurst(s.checkouts[l.c], buyer, event)
  }

  ghost predicate Burst(s: State, labels: seq<Label>, buyer: nat, event: nat)
    decreases |labels|
  {
    |labels| > 0 ==>
      BurstStep(s, labels[0], buyer, event) &&
      Burst(BuyStep(s, labels[0].c, labels[0].reply, labels[0].intent), labels[1..], buyer, event)
  }

  ghost function AfterBurst(s: State, labels: seq<Label>, buyer: nat, event: nat): State
    requires Burst(s, labels, buyer, event)
    decreases |labels|
  {
    if |labels| == 0 then s
    else AfterBurst(BuyStep(s, labels[0].c, labels[0].reply, labels[0].intent), labels[1..], buyer, event)
  }

  /** What a checkout may still add when `held` tickets are held from before the burst. */
  ghost function Potential(buyer: nat, event: nat, held: int, cap: int): Checkout -> int {
    (b: Checkout) =>
      if b.buyer == buyer && b.event == event && (Admitted(b) || (b.pc.ReadHeld? && held + b.quantity <= cap))
      then b.quantity else 0
  }

  ghost function Reach(s: State, buyer: nat, event: nat, held: int): int {
    Held(s.db, buyer, event) + Sum(s.checkouts, Potential(buyer, event, held, s.cap))
  }

  ghost predicate PositiveQuantities(s: State) {
    forall c :: 0 <= c < |s.checkouts| ==> s.checkouts[c].quantity > 0
  }

  // ---------------------------------------------------------------- no burst reaches further

  lemma {:induction false} StepReaches(s: State, l: Label, buyer: nat, event: nat, held: int)
    requires BurstStep(s, l, buyer, event) && PositiveQuantities(s) && Held(s.db, buyer, event) >= held
    ensures Reach(BuyStep(s, l.c, l.reply, l.intent), buyer, event, held) <= Reach(s, buyer, event, held)
  {
    var b := s.checkouts[l.c];
    SumUpdate(s.checkouts, l.c, BuyMove(s.db, s.cap, b, l.reply, l.intent), Potential(buyer, event, held, s.cap));
    SumPush(s.db.purchases, NewRow(b), HeldBy(buyer, event));
  }

  lemma {:induction false} StepHoldsOn(s: State, l: Label, buyer: nat, event: nat)
    requires BurstStep(s, l, buyer, event) && PositiveQuantities(s)
    ensures var s' := BuyStep(s, l.c, l.reply, l.intent);
            PositiveQuantities(s') && Held(s'.db, buyer, event) >= Held(s.db, buyer, event) && s'.cap == s.cap
  {
    SumPush(s.db.purchases, NewRow(s.checkouts[l.c]), HeldBy(buyer, event));
  }

  lemma {:induction false} BurstReaches(s: State, labels: seq<Label>, buyer: nat, event: nat, held: int)
    requires Burst(s, labels, buyer, event) && PositiveQuantities(s) && Held(s.db, buyer, event) >= held
    ensures Held(AfterBurst(s, labels, buyer, event).db, buyer, event) <= Reach(s, buyer, event, held)
    decreases |labels|
  {
    if |labels| == 0 {
      forall c | 0 <= c < |s.checkouts| ensures Potential(buyer, event, held, s.cap)(s.checkouts[c]) >= 0 {
        assert s.checkouts[c].quantity > 0;
      }
      SumNonNegative(s.checkouts, Potential(buyer, event, held, s.cap));
    } else {
      StepReaches(s, labels[0], buyer, event, held);
      StepHoldsOn(s, labels[0], buyer, event);
      BurstReaches(BuyStep(s, labels[0].c, labels[0].reply, labels[0].intent), labels[1..], buyer, event, held);
    }
  }

  // ---------------------------------------------------------------- and some burst reaches that far

  function LongestIntent(ps: seq<Purchase>): (n: nat)
    ensures forall p :: 0 <= p < |ps| ==> |ps[p].intent| <= n
  {
    if |ps| == 0 then 0
    else
      var n := LongestIntent(ps[..|ps| - 1]);
      if |ps[|ps| - 1].intent| > n then |ps[|ps| - 1].intent| else n
  }

  /** An intent the provider has not handed out yet. */
  function NewIntent(ps: seq<Purchase>): (intent: string)
    ensures Find(ps, intent).None?
  {
    seq(LongestIntent(ps) + 1, i => 'i')
  }

  /** From checkout `n` on nobody has anything left to add; below, whoever has is past the check. */
  ghost predicate ChecksDone(s: State, buyer: nat, event: nat, held: int, n: nat) {
    && n <= |s.checkouts|
    && (forall c :: n <= c < |s.checkouts| ==> Potential(buyer, event, held, s.cap)(s.checkouts[c]) == 0)
    && (forall c :: 0 <= c < n && Potential(buyer, event, held, s.cap)(s.checkouts[c]) != 0 ==>
          s.checkouts[c].pc.CreateIntent? && InBurst(s.checkouts[c], buyer, event))
  }

  /** A checkout past its check buys: a fresh intent, then the insert. */
  lemma {:induction false} BuyOne(s: State, c: nat, buyer: nat, event: nat, held: int)
    returns (l: Label, m: Label, s': State)
    requires c < |s.checkouts| && s.checkouts[c].pc.CreateIntent? && InBurst(s.checkouts[c], buyer, event)
    ensures BurstStep(s, l, buyer, event)
    ensures var mid := BuyStep(s, l.c, l.reply, l.intent);
            BurstStep(mid, m, buyer, event) && s' == BuyStep(mid, m.c, m.reply, m.intent)
    ensures Reach(s', buyer, event, held) == Reach(s, buyer, event, held) && s'.cap == s.cap
    ensures |s'.checkouts| == |s.checkouts| && Potential(buyer, event, held, s.cap)(s'.checkouts[c]) == 0
    ensures forall e :: 0 <= e < |s.checkouts| && e != c ==> s'.checkouts[e] == s.checkouts[e]
  {
    var intent := NewIntent(s.db.purchases);
    l, m := Buy(c, Good, intent), Buy(c, Good, "");
    var mid := BuyStep(s, c, Good, intent);
    s' := BuyStep(mid, c, Good, "");
    var w := Potential(buyer, event, held, s.cap);
    SumUpdate(s.checkouts, c, mid.checkouts[c], w);
    SumUpdate(mid.checkouts, c, s'.checkouts[c], w);
    SumPush(s.db.purchases, NewRow(mid.checkouts[c]), HeldBy(buyer, event));
  }

  lemma {:induction false} InsertAll(s: State, buyer: nat, event: nat, held: int, n: nat) returns (labels: seq<Label>)
    requires ChecksDone(s, buyer, event, held, n)
    ensures Burst(s, labels, buyer, event)
    ensures Held(AfterBurst(s, labels, buyer, event).db, buyer, event) == Reach(s, buyer, event, held)
    decreases n
  {
    if n == 0 {
      labels := [];
      SumZero(s.checkouts, Potential(buyer, event, held, s.cap));
    } else if Potential(buyer, event, held, s.cap)(s.checkouts[n - 1]) == 0 {
      labels := InsertAll(s, buyer, event, held, n - 1);
    } else {
      var l, m, s' := BuyOne(s, n - 1, buyer, event, held);
      var rest := InsertAll(s', buyer, event, held, n - 1);
      labels := [l, m] + rest;
      assert labels[1..] == [m] + rest && labels[1..][1..] == rest;
    }
  }

  // ---------------------------------------------------------------- those already at their insert

  /** The checkout of the burst has its intent and is about to insert. */
  ghost predicate Waiting(s: State, c: nat, buyer: nat, event: nat) {
    c < |s.checkouts| && s.checkouts[c].pc.Insert? && InBurst(s.checkouts[c], buyer, event)
  }

  /** The provider hands out every intent once. */
  ghost predicate FreshIntents(s: State, buyer: nat, event: nat) {
    && (forall c: nat :: Waiting(s, c, buyer, event) ==> Find(s.db.purchases, s.checkouts[c].intent).None?)
    && (forall c: nat, e: nat :: Waiting(s, c, buyer, event) && Waiting(s, e, buyer, event) && c != e ==>
          s.checkouts[c].intent != s.checkouts[e].intent)
  }

  /** From checkout `n` on, whoever has something to add is about to ask for an intent; below, past the check. */
  ghost predicate WaitingBelow(s: State, buyer: nat, event: nat, held: int, n: nat) {
    && n <= |s.checkouts|
    && (forall c :: 0 <= c < |s.checkouts| && Potential(buyer, event, held, s.cap)(s.checkouts[c]) != 0 ==>
          && InBurst(s.checkouts[c], buyer, event) && Admitted(s.checkouts[c])
          && (c >= n ==> s.checkouts[c].pc.CreateIntent?))
  }

  lemma {:induction false} InsertOne(s: State, c: nat, buyer: nat, event: nat, held: int) returns (l: Label, s': State)
    requires Waiting(s, c, buyer, event) && FreshIntents(s, buyer, event)
    ensures BurstStep(s, l, buyer, event) && s' == BuyStep(s, l.c, l.reply, l.intent)
    ensures Reach(s', buyer, event, held) == Reach(s, buyer, event, held) && s'.cap == s.cap
    ensures FreshIntents(s', buyer, event)
    ensures |s'.checkouts| == |s.checkouts| && s'.checkouts[c].pc.Bought?
    ensures forall e :: 0 <= e < |s.checkouts| && e != c ==> s'.checkouts[e] == s.checkouts[e]
  {
    l := Buy(c, Good, "");
    s' := BuyStep(s, c, Good, "");
    SumUpdate(s.checkouts, c, s'.checkouts[c], Potential(buyer, event, held, s.cap));
    SumPush(s.db.purchases, NewRow(s.checkouts[c]), HeldBy(buyer, event));
    assert s'.db.purchases[..|s.db.purchases|] == s.db.purchases;
    forall e: nat | Waiting(s', e, buyer, event) ensures Find(s'.db.purchases, s'.checkouts[e].intent).None? {
      assert Waiting(s, e, buyer, event);
    }
    forall e: nat, f: nat | Waiting(s', e, buyer, event) && Waiting(s', f, buyer, event) && e != f
      ensures s'.checkouts[e].intent != s'.checkouts[f].intent
    {
      assert Waiting(s, e, buyer, event) && Waiting(s, f, buyer, event);
    }
  }

  /** The waiting ones insert first, then everybody else who is past the check. */
  lemma {:induction false} InsertWaiting(s: State, buyer: nat, event: nat, held: int, n: nat)
    returns (labels: seq<Label>)
    requires WaitingBelow(s, buyer, event, held, n) && FreshIntents(s, buyer, event)
    ensures Burst(s, labels, buyer, event)
    ensures Held(AfterBurst(s, labels, buyer, event).db, buyer, event) == Reach(s, buyer, event, held)
    decreases n
  {
    if n == 0 {
      labels := InsertAll(s, buyer, event, held, |s.checkouts|);
    } else if Waiting(s, n - 1, buyer, event) {
      var l, s' := InsertOne(s, n - 1, buyer, event, held);
      var rest := InsertWaiting(s', buyer, event, held, n - 1);
      labels := [l] + rest;
      assert labels[1..] == rest;
    } else {
      labels := InsertWaiting(s, buyer, event, held, n - 1);
    }
  }

  // ---------------------------------------------------------------- all checks before all inserts

  /** From checkout `n` on, whoever has something to add is past the check; nothing is inserted yet. */
  ghost predicate ChecksDownTo(s: State, buyer: nat, event: nat, held: int, n: nat) {
    && n <= |s.checkouts| && Held(s.db, buyer, event) == held
    && (forall c :: n <= c < |s.checkouts| && Potential(buyer, event, held, s.cap)(s.checkouts[c]) != 0 ==>
          Admitted(s.checkouts[c]))
  }

  /** The check of a checkout that fits alone, while nothing of the burst is inserted yet. */
  lemma {:induction false} CheckOne(s: State, buyer: nat, event: nat, held: int, n: nat) returns (l: Label, s': State)
    requires 0 < n && ChecksDownTo(s, buyer, event, held, n) && FreshIntents(s, buyer, event)
    requires Potential(buyer, event, held, s.cap)(s.checkouts[n - 1]) != 0 && s.checkouts[n - 1].pc.ReadHeld?
    ensures BurstStep(s, l, buyer, event) && s' == BuyStep(s, l.c, l.reply, l.intent)
    ensures ChecksDownTo(s', buyer, event, held, n - 1) && FreshIntents(s', buyer, event)
    ensures Reach(s', buyer, event, held) == Reach(s, buyer, event, held)
  {
    l := Buy(n - 1, Good, "");
    s' := BuyStep(s, n - 1, Good, "");
    SumUpdate(s.checkouts, n - 1, s'.checkouts[n - 1], Potential(buyer, event, held, s.cap));
    forall c: nat ensures Waiting(s', c, buyer, event) == Waiting(s, c, buyer, event) {
    }
  }

  lemma {:induction false} CheckThenInsert(s: State, buyer: nat, event: nat, held: int, n: nat)
    returns (labels: seq<Label>)
    requires ChecksDownTo(s, buyer, event, held, n) && FreshIntents(s, buyer, event)
    ensures Burst(s, labels, buyer, event)
    ensures Held(AfterBurst(s, labels, buyer, event).db, buyer, event) == Reach(s, buyer, event, held)
    decreases n
  {
    if n == 0 {
      labels := InsertWaiting(s, buyer, event, held, |s.checkouts|);
    } else if Potential(buyer, event, held, s.cap)(s.checkouts[n - 1]) != 0 && s.checkouts[n - 1].pc.ReadHeld? {
      var l, s' := CheckOne(s, buyer, event, held, n);
      var rest := CheckThenInsert(s', buyer, event, held, n - 1);
      labels := [l] + rest;
      assert labels[1..] == rest;
    } else {
      labels := CheckThenInsert(s, buyer, event, held, n - 1);
    }
  }

  // ---------------------------------------------------------------- exactly when a burst is harmless

  /** Every burst stays within the cap exactly when what is held, what is past its check and what would
      still pass it alone fit together. */
  lemma {:induction false} BurstSafeIff(s: State, buyer: nat, event: nat)
    requires PositiveQuantities(s) && FreshIntents(s, buyer, event)
    ensures (forall labels :: Burst(s, labels, buyer, event) ==>
               Held(AfterBurst(s, labels, buyer, event).db, buyer, event) <= s.cap)
            <==> Held(s.db, buyer, event) +
                 Sum(s.checkouts, Potential(buyer, event, Held(s.db, buyer, event), s.cap)) <= s.cap
  {
    var held := Held(s.db, buyer, event);
    forall labels | Burst(s, labels, buyer, event)
      ensures Held(AfterBurst(s, labels, buyer, event).db, buyer, event) <= Reach(s, buyer, event, held)
    {
      BurstReaches(s, labels, buyer, event, held);
    }
    var worst := CheckThenInsert(s, buyer, event, held, |s.checkouts|);
  }
}
