/** Every purchase row of every run is the answer to what some buyer asked for, at the tier's price. */
module Orders {
  import opened Options
  import opened Sums
  import opened Tables
  import opened Webhook
  import opened Protocol
  import opened Guarantees

  /** At step `m` somebody asks for what the row is about; a quantity that is not positive means one ticket. */
  ghost predicate AskedAt(labels: seq<Label>, m: nat, buyer: nat, tier: nat, quantity: int) {
    && m < |labels| && labels[m].Shop? && labels[m].buyer == buyer && labels[m].tier == tier
    && quantity == if labels[m].quantity <= 0 then 1 else labels[m].quantity
  }

  // ---------------------------------------------------------------- one step

  /** A step adds at most one row, of a checkout that has been through its reads, and tells its buyer where. */
  lemma {:induction false} RowsAdded(s: State, l: Label)
    requires Inv(s) && Enabled(s, l)
    ensures var s' := Next(s, l);
            if l.Buy? && Inserts(s.db, s.checkouts[l.c], l.reply) then
              var b := s.checkouts[l.c];
              && b.tier < |s.db.tiers| && b.quantity > 0
              && s'.db.purchases == s.db.purchases + [Purchase(b.intent, b.buyer, s.db.tiers[b.tier].event, b.tier,
                                                              s.db.tiers[b.tier].price * b.quantity, b.quantity,
                                                              Pending)]
            else |s'.db.purchases| == |s.db.purchases|
  {
    if l.Buy? {
      assert CheckoutOk(s.db, s.checkouts[l.c]);
    } else {
      StepRefines(s, l);
    }
  }

  /** What a checkout is for never changes, and it is told a row only on inserting it. */
  lemma {:induction false} CheckoutSteps(s: State, l: Label)
    requires Enabled(s, l)
    ensures var s' := Next(s, l);
            && |s.checkouts| <= |s'.checkouts| <= |s.checkouts| + (if l.Shop? then 1 else 0)
            && (forall c :: 0 <= c < |s.checkouts| ==>
                  var b, b' := s.checkouts[c], s'.checkouts[c];
                  && b'.buyer == b.buyer && b'.tier == b.tier && b'.quantity == b.quantity
                  && (b'.pc.Bought? && b' != b ==>
                        && l.Buy? && l.c == c && Inserts(s.db, b, l.reply)
                        && b'.intent == b.intent && b'.pc.p == |s.db.purchases|))
            && (forall c :: |s.checkouts| <= c < |s'.checkouts| ==> !s'.checkouts[c].pc.Bought?)
  {
  }

  // ---------------------------------------------------------------- whole runs

  lemma {:induction false} CheckoutWasAsked(run: seq<State>, labels: seq<Label>, i: nat, c: nat) returns (m: nat)
    requires IsRun(run, labels) && i < |run| && c < |run[i].checkouts|
    ensures m < i
    ensures var b := run[i].checkouts[c]; AskedAt(labels, m, b.buyer, b.tier, b.quantity)
  {
    assert StepAt(run, labels, i - 1);
    CheckoutSteps(run[i - 1], labels[i - 1]);
    if c < |run[i - 1].checkouts| {
      m := CheckoutWasAsked(run, labels, i - 1, c);
    } else {
      m := i - 1;
    }
  }

  /** A row that was not there at the start is for a buyer, a tier and a quantity that somebody asked for before,
      and its amount is the tier's price times that quantity. */
  lemma {:induction false} RowWasAsked(run: seq<State>, labels: seq<Label>, i: nat, p: nat) returns (m: nat)
    requires IsRun(run, labels) && i < |run| && |run[0].db.purchases| <= p < |run[i].db.purchases|
    ensures m < i
    ensures var db := run[i].db; var row := db.purchases[p];
            && AskedAt(labels, m, row.buyer, row.tier, row.quantity) && row.tier < |db.tiers|
            && row.amount == db.tiers[row.tier].price * row.quantity && row.event == db.tiers[row.tier].event
  {
    assert StepAt(run, labels, i - 1);
    Reachable(run, labels, i - 1);
    RowsAdded(run[i - 1], labels[i - 1]);
    RunStepForward(run, labels, i - 1);
    if p < |run[i - 1].db.purchases| {
      m := RowWasAsked(run, labels, i - 1, p);
      assert PurchaseEvolves(run[i - 1].db.purchases[p], run[i].db.purchases[p]);
    } else {
      m := CheckoutWasAsked(run, labels, i - 1, labels[i - 1].c);
    }
    var t := run[i].db.purchases[p].tier;
    assert TierEvolves(run[i - 1].db.tiers[t], run[i].db.tiers[t]);
  }

  /** The row at `p` is what the checkout is for. */
  ghost predicate RowFor(db: Db, p: nat, b: Checkout) {
    && p < |db.purchases|
    && var row := db.purchases[p];
       row.buyer == b.buyer && row.tier == b.tier && row.quantity == b.quantity && row.intent == b.intent
  }

  lemma {:induction false} RowStays(a: Db, b: Db, p: nat, c: Checkout)
    requires Later(a, b) && RowFor(a, p, c)
    ensures RowFor(b, p, c)
  {
    assert PurchaseEvolves(a.purchases[p], b.purchases[p]);
  }

  lemma {:induction false} NowBought(s: State, l: Label, c: nat)
    requires Inv(s) && Enabled(s, l) && c < |Next(s, l).checkouts| && Next(s, l).checkouts[c].pc.Bought?
    requires c < |s.checkouts| ==> Next(s, l).checkouts[c] != s.checkouts[c]
    ensures Next(s, l).checkouts[c].pc.p == |s.db.purchases|
    ensures RowFor(Next(s, l).db, |s.db.purchases|, Next(s, l).checkouts[c])
  {
    RowsAdded(s, l);
    CheckoutSteps(s, l);
  }

  /** A buyer who is told the position of his purchase finds there the row he asked for. */
  lemma {:induction false} BoughtIsThere(run: seq<State>, labels: seq<Label>, i: nat, c: nat)
    requires IsRun(run, labels) && i < |run| && c < |run[i].checkouts| && run[i].checkouts[c].pc.Bought?
    ensures |run[0].db.purchases| <= run[i].checkouts[c].pc.p
    ensures RowFor(run[i].db, run[i].checkouts[c].pc.p, run[i].checkouts[c])
  {
    assert i > 0;
    var s, l := run[i - 1], labels[i - 1];
    assert StepAt(run, labels, i - 1);
    Reachable(run, labels, i - 1);
    if c < |s.checkouts| && run[i].checkouts[c] == s.checkouts[c] {
      BoughtIsThere(run, labels, i - 1, c);
      RunStepForward(run, labels, i - 1);
      RowStays(s.db, run[i].db, s.checkouts[c].pc.p, s.checkouts[c]);
    } else {
      NowBought(s, l, c);
      RunMovesForward(run, labels, 0, i - 1);
    }
  }
}
