/** Plays of the environment: what webhooks, other buyers and dying processes can bring about. */
module WorstCase {
  import opened Options
  import opened Sums
  import opened Tables
  import opened Webhook
  import opened Protocol
  import opened Progress
  import opened CapUnderBurst

  // ---------------------------------------------------------------- plays

  /** Any step at all, except that no further checkout of the buyer comes as far as its check. */
  ghost predicate Allowed(s: State, l: Label, buyer: nat) {
    Enabled(s, l) && !(l.Buy? && s.checkouts[l.c].buyer == buyer && s.checkouts[l.c].pc.ReadTier?)
  }

  ghost predicate Play(s: State, labels: seq<Label>, buyer: nat)
    decreases |labels|
  {
    |labels| > 0 ==> Allowed(s, labels[0], buyer) && Play(Next(s, labels[0]), labels[1..], buyer)
  }

  ghost function Played(s: State, labels: seq<Label>, buyer: nat): State
    requires Play(s, labels, buyer)
    decreases |labels|
  {
    if |labels| == 0 then s else Played(Next(s, labels[0]), labels[1..], buyer)
  }

  lemma {:induction false} PlayOn(s: State, a: seq<Label>, b: seq<Label>, buyer: nat)
    requires Play(s, a, buyer) && Play(Played(s, a, buyer), b, buyer)
    ensures Play(s, a + b, buyer) && Played(s, a + b, buyer) == Played(Played(s, a, buyer), b, buyer)
    decreases |a|
  {
    if |a| == 0 {
      assert a + b == b;
    } else {
      PlayOn(Next(s, a[0]), a[1..], b, buyer);
      assert (a + b)[1..] == a[1..] + b;
    }
  }

  /** The purchases with some of them failed. */
  ghost function WithFailed(ps: seq<Purchase>, fails: set<nat>): seq<Purchase> {
    seq(|ps|, p requires 0 <= p < |ps| => if p in fails then ps[p].(status := Failed) else ps[p])
  }

  // ---------------------------------------------------------------- everybody in flight dies

  ghost predicate Calm(s: State) {
    forall d :: 0 <= d < |s.deliveries| ==> Over(s.deliveries[d].pc)
  }

  /** Same tables, same checkouts. */
  ghost predicate SameShop(s: State, s': State) {
    s'.db == s.db && s'.checkouts == s.checkouts && s'.cap == s.cap
  }

  lemma {:induction false} Dies(s: State, d: nat)
    requires d < |s.deliveries| && !Over(s.deliveries[d].pc)
    ensures CanDeliver(s, d, Died, "")
    ensures var s' := DeliverStep(s, d, Died, "");
            && SameShop(s, s') && s'.deliveries == s.deliveries[d := Left(s.deliveries[d], Crashed)]
  {
  }

  /** One step of a play, then the rest of it. */
  lemma {:induction false} PlayFirst(s: State, l: Label, rest: seq<Label>, buyer: nat)
    requires Allowed(s, l, buyer) && Play(Next(s, l), rest, buyer)
    ensures Play(s, [l] + rest, buyer) && Played(s, [l] + rest, buyer) == Played(Next(s, l), rest, buyer)
  {
    assert ([l] + rest)[1..] == rest;
  }

  lemma {:induction false} KillAll(s: State, n: nat, buyer: nat) returns (labels: seq<Label>)
    requires Inv(s) && n <= |s.deliveries| && forall d :: n <= d < |s.deliveries| ==> Over(s.deliveries[d].pc)
    ensures Play(s, labels, buyer)
    ensures var s' := Played(s, labels, buyer); Inv(s') && Calm(s') && SameShop(s, s')
    decreases n
  {
    if n == 0 {
      labels := [];
    } else if Over(s.deliveries[n - 1].pc) {
      labels := KillAll(s, n - 1, buyer);
    } else {
      var l := Deliver(n - 1, Died, "");
      Dies(s, n - 1);
      Protocol.StepKeepsInv(s, l);
      var rest := KillAll(Next(s, l), n - 1, buyer);
      PlayFirst(s, l, rest, buyer);
      labels := [l] + rest;
    }
  }

  // ---------------------------------------------------------------- one delivery, left alone, settles its purchase

  /** The delivery has not committed yet and nothing has gone wrong. */
  predicate Underway(pc: Pc) {
    pc.Claim? || pc.Begin? || InTx(pc) || AtCommit(pc)
  }

  lemma {:induction false} GoodMove(db: Db, w: Delivery, id: string, p: nat)
    requires Underway(w.pc) && !AtCommit(w.pc) && p < |db.purchases| && db.purchases[p].status != Completed
    requires w.intent == db.purchases[p].intent
    requires forall q :: 0 <= q < |db.purchases| && q != p ==> db.purchases[q].intent != w.intent
    requires w.pc.LockTier? ==> w.row.tier < |db.tiers|
    ensures Underway(Moved(db, w, Good, id).pc) && Moved(db, w, Good, id).intent == w.intent
    ensures EffectOf(db, w, Good) != CommitTx && !EffectOf(db, w, Good).DropCached?
  {
    if w.pc.LockPurchase? {
      assert Find(db.purchases, w.intent) == Some(p);
    }
  }

  /** The only delivery in flight is never blocked. */
  lemma {:induction false} AloneIsFree(s: State, d: nat)
    requires DeliveriesOk(s) && LocksOk(s) && RowsOk(s.db) && d < |s.deliveries|
    requires forall e :: 0 <= e < |s.deliveries| && e != d ==> Over(s.deliveries[e].pc)
    ensures Unblocked(s, s.deliveries[d], Good)
  {
    if !Unblocked(s, s.deliveries[d], Good) {
      var h := BlockerIsCloser(s, d);
    }
  }

  /** The delivery is on its way to settle purchase `p`, alone. */
  ghost predicate Settling(s: State, d: nat, p: nat) {
    && Inv(s) && d < |s.deliveries| && Underway(s.deliveries[d].pc)
    && (forall e :: 0 <= e < |s.deliveries| && e != d ==> Over(s.deliveries[e].pc))
    && p < |s.db.purchases| && s.db.purchases[p].status != Completed
    && s.deliveries[d].intent == s.db.purchases[p].intent
  }

  /** A delivery's step leaves the other deliveries and the checkouts alone. */
  lemma {:induction false} OnlyItself(s: State, d: nat, reply: Reply, id: string)
    requires d < |s.deliveries|
    ensures var s' := DeliverStep(s, d, reply, id);
            && s'.checkouts == s.checkouts && s'.cap == s.cap
            && s'.deliveries == s.deliveries[d := Moved(s.db, s.deliveries[d], reply, id)]
            && (!EffectOf(s.db, s.deliveries[d], reply).CommitTx? ==> s'.db == s.db)
  {
  }

  lemma {:induction false} StepsOn(s: State, d: nat, p: nat, most: nat)
    requires Settling(s, d, p) && !AtCommit(s.deliveries[d].pc) && AtMost(s.db.purchases, most)
    ensures CanDeliver(s, d, Good, NewId(s))
    ensures var s' := DeliverStep(s, d, Good, NewId(s));
            && Settling(s', d, p) && SameShop(s, s')
            && StepsLeft(s'.deliveries[d], most) < StepsLeft(s.deliveries[d], most)
  {
    var w := s.deliveries[d];
    AloneIsFree(s, d);
    MovesOn(s, d, p, NewId(s), most);
    OnlyItself(s, d, Good, NewId(s));
    Protocol.StepKeepsInv(s, Deliver(d, Good, NewId(s)));
  }

  lemma {:induction false} MovesOn(s: State, d: nat, p: nat, id: string, most: nat)
    requires Settling(s, d, p) && !AtCommit(s.deliveries[d].pc) && AtMost(s.db.purchases, most)
    ensures var w, w' := s.deliveries[d], Moved(s.db, s.deliveries[d], Good, id);
            && Underway(w'.pc) && w'.intent == w.intent && StepsLeft(w', most) < StepsLeft(w, most)
            && !EffectOf(s.db, w, Good).CommitTx?
  {
    var w := s.deliveries[d];
    assert DeliveryOk(s.db, s.rowLocks, s.tierLocks, d, w);
    if w.pc.LockTier? {
      assert PurchaseOk(s.db.tiers, s.db.purchases[w.p]);
    }
    GoodMove(s.db, w, id, p);
    MoveDescends(s.db, s.rowLocks, s.tierLocks, d, w, Good, id, most);
  }

  /** What it is about to commit is the settling of `p`. */
  lemma {:induction false} CommitsItsOwn(s: State, d: nat, p: nat)
    requires DeliveriesOk(s) && UniqueIntents(s.db) && d < |s.deliveries| && AtCommit(s.deliveries[d].pc)
    requires p < |s.db.purchases| && s.deliveries[d].intent == s.db.purchases[p].intent
    ensures CanDeliver(s, d, Good, "") && OpOf(s, Deliver(d, Good, "")) == Settle(p, Ids(s.deliveries[d].minted))
  {
    assert DeliveryOk(s.db, s.rowLocks, s.tierLocks, d, s.deliveries[d]);
    assert s.deliveries[d].p == p;
  }

  lemma {:induction false} CommitAlone(s: State, d: nat, p: nat) returns (ids: seq<string>)
    requires Inv(s) && d < |s.deliveries| && AtCommit(s.deliveries[d].pc)
    requires p < |s.db.purchases| && s.deliveries[d].intent == s.db.purchases[p].intent
    ensures CanDeliver(s, d, Good, "") && Legal(s.db, Settle(p, ids))
    ensures var s' := DeliverStep(s, d, Good, "");
            Inv(s') && s'.db == Run(s.db, Settle(p, ids)) && s'.checkouts == s.checkouts && s'.cap == s.cap
  {
    ids := Ids(s.deliveries[d].minted);
    CommitsItsOwn(s, d, p);
    OnlyItself(s, d, Good, "");
    StepRefines(s, Deliver(d, Good, ""));
    Protocol.StepKeepsInv(s, Deliver(d, Good, ""));
  }

  /** The delivery runs on to its commit, and whatever is left of it dies. */
  lemma {:induction false} RunOn(s: State, d: nat, p: nat, most: nat, buyer: nat)
    returns (labels: seq<Label>, ids: seq<string>)
    requires Settling(s, d, p) && AtMost(s.db.purchases, most)
    ensures Play(s, labels, buyer) && Legal(s.db, Settle(p, ids))
    ensures var s' := Played(s, labels, buyer);
            Inv(s') && Calm(s') && s'.db == Run(s.db, Settle(p, ids)) && s'.checkouts == s.checkouts && s'.cap == s.cap
    decreases StepsLeft(s.deliveries[d], most)
  {
    var l, rest;
    if AtCommit(s.deliveries[d].pc) {
      ids := CommitAlone(s, d, p);
      l := Deliver(d, Good, "");
      rest := KillAll(Next(s, l), |Next(s, l).deliveries|, buyer);
    } else {
      StepsOn(s, d, p, most);
      l := Deliver(d, Good, NewId(s));
      rest, ids := RunOn(Next(s, l), d, p, most, buyer);
    }
    PlayFirst(s, l, rest, buyer);
    labels := [l] + rest;
  }

  function MostOf(ps: seq<Purchase>): (most: nat)
    ensures AtMost(ps, most)
  {
    if |ps| == 0 then 0
    else
      var most, last := MostOf(ps[..|ps| - 1]), ps[|ps| - 1].quantity;
      if last > most then last else most
  }

  /** A purchase that is not completed is settled at once, and nothing else happens. */
  lemma {:induction false} SettleNow(s: State, p: nat, buyer: nat) returns (labels: seq<Label>, ids: seq<string>)
    requires Inv(s) && Calm(s) && p < |s.db.purchases| && s.db.purchases[p].status != Completed
    ensures Play(s, labels, buyer) && Legal(s.db, Settle(p, ids))
    ensures var s' := Played(s, labels, buyer);
            Inv(s') && Calm(s') && s'.db == Run(s.db, Settle(p, ids)) && s'.checkouts == s.checkouts && s'.cap == s.cap
  {
    var l := Arrive(s.db.purchases[p].intent);
    Protocol.StepKeepsInv(s, l);
    var rest;
    rest, ids := RunOn(Next(s, l), |s.deliveries|, p, MostOf(s.db.purchases), buyer);
    PlayFirst(s, l, rest, buyer);
    labels := [l] + rest;
  }

  // ---------------------------------------------------------------- strangers buy

  /** A buyer of nothing so far, other than the given one. */
  function Stranger(ps: seq<Purchase>, buyer: nat): (b: nat)
    ensures b > buyer && forall p :: 0 <= p < |ps| ==> ps[p].buyer < b
  {
    if |ps| == 0 then buyer + 1
    else
      var b := Stranger(ps[..|ps| - 1], buyer);
      if ps[|ps| - 1].buyer >= b then ps[|ps| - 1].buyer + 1 else b
  }

  function LongestAsked(cs: seq<Checkout>): (n: nat)
    ensures forall c :: 0 <= c < |cs| ==> |cs[c].intent| <= n
  {
    if |cs| == 0 then 0
    else
      var n := LongestAsked(cs[..|cs| - 1]);
      if |cs[|cs| - 1].intent| > n then |cs[|cs| - 1].intent| else n
  }

  /** An intent neither in the table nor with any checkout. */
  function UnusedIntent(s: State): (intent: string)
    ensures Find(s.db.purchases, intent).None? && forall c :: 0 <= c < |s.checkouts| ==> s.checkouts[c].intent != intent
  {
    seq(LongestIntent(s.db.purchases) + LongestAsked(s.checkouts) + 1, i => 'u')
  }

  /** The purchase of one ticket by checkout `b`. */
  function OneTicket(tiers: seq<Tier>, b: Checkout, intent: string): Purchase
    requires b.tier < |tiers|
  {
    Purchase(intent, b.buyer, tiers[b.tier].event, b.tier, tiers[b.tier].price, 1, Pending)
  }

  function StepsToBuy(pc: CheckoutPc): nat {
    match pc
    case ReadTier => 4
    case ReadHeld => 3
    case CreateIntent => 2
    case Insert => 1
    case _ => 0
  }

  /** The last checkout, of a buyer who holds nothing, buys one ticket. */
  lemma {:induction false} BuyThrough(s: State, cs: seq<Checkout>, b: Checkout, intent: string, buyer: nat)
    returns (labels: seq<Label>)
    requires s.checkouts == cs + [b] && b.buyer != buyer && b.quantity == 1 && s.cap > 0 && b.tier < |s.db.tiers|
    requires StepsToBuy(b.pc) > 0 && (b.pc.Insert? ==> b.intent == intent)
    requires !b.pc.ReadTier? ==> b.event == s.db.tiers[b.tier].event && b.price == s.db.tiers[b.tier].price
    requires Held(s.db, b.buyer, s.db.tiers[b.tier].event) == 0 && Find(s.db.purchases, intent).None?
    ensures Play(s, labels, buyer)
    ensures var s' := Played(s, labels, buyer);
            && s'.db == s.db.(purchases := s.db.purchases + [OneTicket(s.db.tiers, b, intent)])
            && s'.cap == s.cap && s'.deliveries == s.deliveries
            && |s'.checkouts| == |cs| + 1 && s'.checkouts[..|cs|] == cs && s'.checkouts[|cs|].buyer == b.buyer
    decreases StepsToBuy(b.pc)
  {
    var l, b' := Buy(|cs|, Good, intent), BuyMove(s.db, s.cap, b, Good, intent);
    assert s.checkouts[|cs| := b'] == cs + [b'];
    var rest: seq<Label> := [];
    if b.pc.Insert? {
      assert Next(s, l).db.purchases == s.db.purchases + [OneTicket(s.db.tiers, b, intent)];
    } else {
      rest := BuyThrough(Next(s, l), cs, b', intent, buyer);
    }
    PlayFirst(s, l, rest, buyer);
    labels := [l] + rest;
  }

  // ---------------------------------------------------------------- what a play of strangers leaves alone

  /** A reachable-looking state with nothing in flight, in which somebody can buy. */
  ghost predicate Ready(s: State) {
    Inv(s) && Calm(s) && s.cap > 0
  }

  /** Tables and checkouts of the buyer are as they were, but for the purchases in `fails`, now failed. */
  ghost predicate Keeps(s: State, s': State, fails: set<nat>, buyer: nat) {
    && s'.cap == s.cap && Later(s.db, s'.db)
    && (forall p :: 0 <= p < |s.db.purchases| ==>
          s'.db.purchases[p] == if p in fails then s.db.purchases[p].(status := Failed) else s.db.purchases[p])
    && (forall p :: |s.db.purchases| <= p < |s'.db.purchases| ==>
          && s'.db.purchases[p].buyer != buyer
          && forall c :: 0 <= c < |s.checkouts| ==> s.checkouts[c].intent != s'.db.purchases[p].intent)
    && s.checkouts <= s'.checkouts
    && (forall c :: |s.checkouts| <= c < |s'.checkouts| ==> s'.checkouts[c].buyer != buyer)
  }

  lemma {:induction false} KeepsOn(a: State, b: State, c: State, f: set<nat>, g: set<nat>, buyer: nat)
    requires Keeps(a, b, f, buyer) && Keeps(b, c, g, buyer) && forall p :: p in g ==> p < |a.db.purchases|
    ensures Keeps(a, c, f + g, buyer)
  {
    LaterTransitive(a.db, b.db, c.db);
    forall p | |a.db.purchases| <= p < |c.db.purchases|
      ensures c.db.purchases[p].buyer != buyer
      ensures forall k :: 0 <= k < |a.checkouts| ==> a.checkouts[k].intent != c.db.purchases[p].intent
    {
      if p >= |b.db.purchases| {
        assert forall k :: 0 <= k < |a.checkouts| ==> a.checkouts[k] == b.checkouts[k];
      }
    }
  }

  lemma {:induction false} KeepsItself(s: State, buyer: nat)
    ensures Keeps(s, s, {}, buyer)
  {
    LaterReflexive(s.db);
  }

  lemma {:induction false} PlayKeepsInv(s: State, labels: seq<Label>, buyer: nat)
    requires Inv(s) && Play(s, labels, buyer)
    ensures Inv(Played(s, labels, buyer)) && Later(s.db, Played(s, labels, buyer).db)
    decreases |labels|
  {
    if |labels| == 0 {
      LaterReflexive(s.db);
    } else {
      Protocol.StepKeepsInv(s, labels[0]);
      StepMovesForward(s, labels[0]);
      PlayKeepsInv(Next(s, labels[0]), labels[1..], buyer);
      LaterTransitive(s.db, Next(s, labels[0]).db, Played(s, labels, buyer).db);
    }
  }

  /** A stranger orders one ticket. */
  lemma {:induction false} OrderOne(s: State, t: nat, buyer: nat) returns (labels: seq<Label>, row: Purchase)
    requires Ready(s) && t < |s.db.tiers|
    ensures Play(s, labels, buyer)
    ensures row.tier == t && row.quantity == 1 && row.status == Pending && row.buyer != buyer
    ensures forall c :: 0 <= c < |s.checkouts| ==> s.checkouts[c].intent != row.intent
    ensures var s' := Played(s, labels, buyer);
            && Inv(s') && Calm(s') && s'.db == s.db.(purchases := s.db.purchases + [row]) && s'.cap == s.cap
            && s.checkouts <= s'.checkouts && |s'.checkouts| == |s.checkouts| + 1
            && s'.checkouts[|s.checkouts|].buyer != buyer
  {
    var who, intent := Stranger(s.db.purchases, buyer), UnusedIntent(s);
    var b, l := Checkout(who, t, 1, ReadTier, 0, 0, ""), Shop(who, t, 1);
    assert Next(s, l) == s.(checkouts := s.checkouts + [b]);
    SumZero(s.db.purchases, HeldBy(who, s.db.tiers[t].event));
    var rest := BuyThrough(Next(s, l), s.checkouts, b, intent, buyer);
    PlayFirst(s, l, rest, buyer);
    labels, row := [l] + rest, OneTicket(s.db.tiers, b, intent);
    PlayKeepsInv(s, labels, buyer);
  }

  /** One play after another. */
  lemma {:induction false} KeepOn(s: State, a: seq<Label>, b: seq<Label>, f: set<nat>, g: set<nat>, h: set<nat>,
                                  buyer: nat)
    requires h == f + g && Play(s, a, buyer) && Play(Played(s, a, buyer), b, buyer)
    requires Keeps(s, Played(s, a, buyer), f, buyer)
    requires Keeps(Played(s, a, buyer), Played(Played(s, a, buyer), b, buyer), g, buyer)
    requires forall p :: p in g ==> p < |s.db.purchases|
    ensures Play(s, a + b, buyer) && Played(s, a + b, buyer) == Played(Played(s, a, buyer), b, buyer)
    ensures Keeps(s, Played(s, a + b, buyer), h, buyer)
  {
    PlayOn(s, a, b, buyer);
    KeepsOn(s, Played(s, a, buyer), Played(s, a + b, buyer), f, g, buyer);
  }

  /** A new order of one ticket that fits is sold. */
  lemma {:induction false} NewOrderSells(db: Db, row: Purchase, ids: seq<string>)
    requires row.tier < |db.tiers| && row.quantity == 1 && row.status == Pending
    requires db.tiers[row.tier].sold < db.tiers[row.tier].capacity
    ensures var tier, db' := db.tiers[row.tier], SettleDb(db.(purchases := db.purchases + [row]), |db.purchases|, ids);
            && db'.tiers == db.tiers[row.tier := tier.(sold := tier.sold + 1)]
            && db'.purchases == db.purchases + [row.(status := Completed)]
  {
  }

  lemma {:induction false} SaleKeeps(s: State, s': State, row: Purchase, buyer: nat)
    requires s'.cap == s.cap && Later(s.db, s'.db) && s'.db.purchases == s.db.purchases + [row]
    requires row.buyer != buyer && forall c :: 0 <= c < |s.checkouts| ==> s.checkouts[c].intent != row.intent
    requires s.checkouts <= s'.checkouts && |s'.checkouts| == |s.checkouts| + 1
    requires s'.checkouts[|s.checkouts|].buyer != buyer
    ensures Keeps(s, s', {}, buyer)
  {
  }

  /** A stranger buys one ticket of a tier that has some left. */
  lemma {:induction false} SellOne(s: State, t: nat, buyer: nat) returns (labels: seq<Label>)
    requires Ready(s) && t < |s.db.tiers| && s.db.tiers[t].sold < s.db.tiers[t].capacity
    ensures Play(s, labels, buyer) && Ready(Played(s, labels, buyer)) && Keeps(s, Played(s, labels, buyer), {}, buyer)
    ensures Played(s, labels, buyer).db.tiers == s.db.tiers[t := s.db.tiers[t].(sold := s.db.tiers[t].sold + 1)]
  {
    var first, row := OrderOne(s, t, buyer);
    var second, ids := SettleNow(Played(s, first, buyer), |s.db.purchases|, buyer);
    PlayOn(s, first, second, buyer);
    labels := first + second;
    PlayKeepsInv(s, labels, buyer);
    NewOrderSells(s.db, row, ids);
    SaleKeeps(s, Played(s, labels, buyer), row.(status := Completed), buyer);
  }

  /** Strangers buy until `q` more tickets of the tier no longer fit. */
  lemma {:induction false} FillTier(s: State, t: nat, q: int, buyer: nat) returns (labels: seq<Label>)
    requires Ready(s) && t < |s.db.tiers| && q > 0
    ensures Play(s, labels, buyer) && Ready(Played(s, labels, buyer)) && Keeps(s, Played(s, labels, buyer), {}, buyer)
    ensures var tier := Played(s, labels, buyer).db.tiers[t]; tier.sold + q > tier.capacity
    decreases s.db.tiers[t].capacity - s.db.tiers[t].sold
  {
    if s.db.tiers[t].sold + q > s.db.tiers[t].capacity {
      labels := [];
      KeepsItself(s, buyer);
    } else {
      var first := SellOne(s, t, buyer);
      var rest := FillTier(Played(s, first, buyer), t, q, buyer);
      KeepOn(s, first, rest, {}, {}, {}, buyer);
      labels := first + rest;
    }
  }

  lemma {:induction false} FailureKeeps(s: State, s': State, p: nat, ids: seq<string>, buyer: nat)
    requires s'.cap == s.cap && Later(s.db, s'.db) && s'.checkouts == s.checkouts
    requires Legal(s.db, Settle(p, ids)) && !Mints(s.db, p) && s.db.purchases[p].status == Pending
    requires s'.db == Run(s.db, Settle(p, ids))
    ensures Keeps(s, s', {p}, buyer)
  {
  }

  /** A pending purchase that does not fit is made to fail. */
  lemma {:induction false} RefuseOne(s: State, p: nat, buyer: nat) returns (labels: seq<Label>)
    requires Ready(s) && p < |s.db.purchases| && s.db.purchases[p].status == Pending
    requires s.db.purchases[p].tier < |s.db.tiers| && !Mints(s.db, p)
    ensures Play(s, labels, buyer) && Ready(Played(s, labels, buyer)) && Keeps(s, Played(s, labels, buyer), {p}, buyer)
  {
    var ids;
    labels, ids := SettleNow(s, p, buyer);
    PlayKeepsInv(s, labels, buyer);
    FailureKeeps(s, Played(s, labels, buyer), p, ids, buyer);
  }

  predicate Fits(db: Db, row: Purchase) {
    row.tier < |db.tiers| ==> db.tiers[row.tier].sold + row.quantity <= db.tiers[row.tier].capacity
  }

  lemma {:induction false} FilledRefuses(s: State, s': State, p: nat, buyer: nat)
    requires RowsOk(s.db) && p < |s.db.purchases| && Keeps(s, s', {}, buyer) && s.db.purchases[p].status == Pending
    requires !Fits(s'.db, s.db.purchases[p])
    ensures p < |s'.db.purchases| && s'.db.purchases[p].status == Pending
    ensures s'.db.purchases[p].tier < |s'.db.tiers| && !Mints(s'.db, p)
  {
  }

  /** With its tier filled by play `first`, the purchase is made to fail. */
  lemma {:induction false} RefuseAfter(s: State, first: seq<Label>, p: nat, buyer: nat) returns (labels: seq<Label>)
    requires RowsOk(s.db) && p < |s.db.purchases| && s.db.purchases[p].status == Pending
    requires Play(s, first, buyer) && Ready(Played(s, first, buyer)) && Keeps(s, Played(s, first, buyer), {}, buyer)
    requires !Fits(Played(s, first, buyer).db, s.db.purchases[p])
    ensures Play(s, labels, buyer) && Ready(Played(s, labels, buyer)) && Keeps(s, Played(s, labels, buyer), {p}, buyer)
  {
    FilledRefuses(s, Played(s, first, buyer), p, buyer);
    var second := RefuseOne(Played(s, first, buyer), p, buyer);
    KeepOn(s, first, second, {}, {p}, {p}, buyer);
    labels := first + second;
  }

  /** Any pending purchase can be made to fail. */
  lemma {:induction false} FailOne(s: State, p: nat, buyer: nat) returns (labels: seq<Label>)
    requires Ready(s) && p < |s.db.purchases| && s.db.purchases[p].status == Pending
    ensures Play(s, labels, buyer) && Ready(Played(s, labels, buyer)) && Keeps(s, Played(s, labels, buyer), {p}, buyer)
  {
    assert PurchaseOk(s.db.tiers, s.db.purchases[p]);
    labels := FillTier(s, s.db.purchases[p].tier, s.db.purchases[p].quantity, buyer);
    labels := RefuseAfter(s, labels, p, buyer);
  }

  lemma {:induction false} OthersStayPending(s: State, s': State, p: nat, fails: set<nat>, buyer: nat)
    requires Keeps(s, s', {p}, buyer)
    requires forall q :: q in fails ==> q < |s.db.purchases| && s.db.purchases[q].status == Pending
    ensures forall q :: q in fails - {p} ==> q < |s'.db.purchases| && s'.db.purchases[q].status == Pending
  {
  }

  /** So can any number of them, and nothing else happens to the buyer. */
  lemma {:induction false} FailAll(s: State, fails: set<nat>, buyer: nat) returns (labels: seq<Label>)
    requires Ready(s)
    requires forall p :: p in fails ==> p < |s.db.purchases| && s.db.purchases[p].status == Pending
    ensures Play(s, labels, buyer) && Ready(Played(s, labels, buyer)) &&
              Keeps(s, Played(s, labels, buyer), fails, buyer)
    decreases |fails|
  {
    if fails == {} {
      labels := [];
      KeepsItself(s, buyer);
    } else {
      var p :| p in fails;
      labels := FailOne(s, p, buyer);
      OthersStayPending(s, Played(s, labels, buyer), p, fails, buyer);
      var rest := FailAll(Played(s, labels, buyer), fails - {p}, buyer);
      FailRest(s, labels, rest, p, fails, buyer);
      labels := labels + rest;
    }
  }

  lemma {:induction false} FailRest(s: State, first: seq<Label>, rest: seq<Label>, p: nat, fails: set<nat>, buyer: nat)
    requires Play(s, first, buyer) && Play(Played(s, first, buyer), rest, buyer) && p in fails
    requires Keeps(s, Played(s, first, buyer), {p}, buyer)
    requires Keeps(Played(s, first, buyer), Played(Played(s, first, buyer), rest, buyer), fails - {p}, buyer)
    requires forall q :: q in fails ==> q < |s.db.purchases|
    ensures Play(s, first + rest, buyer)
    ensures Played(s, first + rest, buyer) == Played(Played(s, first, buyer), rest, buyer)
    ensures Keeps(s, Played(s, first + rest, buyer), fails, buyer)
  {
    KeepOn(s, first, rest, {p}, fails - {p}, fails, buyer);
  }
}
