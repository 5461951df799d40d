/**
 * The Postgres tables of the platform and the atomic operations its services run on them.
 *
 * A table is a sequence of rows. Rows are never deleted, so a row's position is its primary key,
 * except for tickets, whose random id also leaves the system inside the signed token.
 */
module Tables {
  import opened Sums
  import opened Options

  datatype Status = Pending | Completed | Failed

  datatype Tier = Tier(event: nat, price: int, capacity: int, sold: int)

  datatype Purchase = Purchase(intent: string, buyer: nat, event: nat, tier: nat,
                               amount: int, quantity: int, status: Status)

  datatype TicketStatus = Valid | Scanned | Refunded

  datatype Ticket = Ticket(id: string, tier: nat, event: nat, buyer: nat, purchase: nat,
                           status: TicketStatus, token: Option<string>)

  datatype Db = Db(tiers: seq<Tier>, purchases: seq<Purchase>, tickets: seq<Ticket>)

  /** Every write any service makes, as it looks once committed. */
  datatype Op =
    | NoOp
    | AddTier(tier: Tier)
    | AddPurchase(row: Purchase)
    | Settle(p: nat, ids: seq<string>)
    | SetToken(k: nat, token: string)
    | MarkScanned(k: nat)
    | Refund(k: nat)

  // ---------------------------------------------------------------- what an operation does

  function NewTickets(ids: seq<string>, p: nat, row: Purchase): seq<Ticket> {
    seq(|ids|, i requires 0 <= i < |ids| => Ticket(ids[i], row.tier, row.event, row.buyer, p, Valid, None))
  }

  /** The whole webhook transaction for purchase `p` as one indivisible decision. */
  function SettleDb(db: Db, p: nat, ids: seq<string>): Db
    requires p < |db.purchases| && db.purchases[p].tier < |db.tiers|
  {
    var row := db.purchases[p];
    var tier := db.tiers[row.tier];
    if row.status == Completed then db
    else if tier.sold + row.quantity > tier.capacity then
      db.(purchases := db.purchases[p := row.(status := Failed)])
    else
      Db(db.tiers[row.tier := tier.(sold := tier.sold + row.quantity)],
         db.purchases[p := row.(status := Completed)],
         db.tickets + NewTickets(ids, p, row))
  }

  /** Settling purchase `p` now would mint its tickets. */
  predicate Mints(db: Db, p: nat)
    requires p < |db.purchases| && db.purchases[p].tier < |db.tiers|
  {
    var row := db.purchases[p];
    var tier := db.tiers[row.tier];
    row.status != Completed && tier.sold + row.quantity <= tier.capacity
  }

  ghost predicate FreshIds(db: Db, ids: seq<string>) {
    && (forall i :: 0 <= i < |ids| ==> ids[i] != "")
    && (forall i, j :: 0 <= i < j < |ids| ==> ids[i] != ids[j])
    && (forall i, k :: 0 <= i < |ids| && 0 <= k < |db.tickets| ==> ids[i] != db.tickets[k].id)
  }

  /** The tables' own constraints: foreign keys, uniqueness and checks on the inserted row. */
  ghost predicate Legal(db: Db, op: Op) {
    match op
    case NoOp => true
    case AddTier(t) => t.sold == 0 <= t.capacity && t.price >= 0
    case AddPurchase(r) =>
      && r.tier < |db.tiers| && r.event == db.tiers[r.tier].event
      && r.quantity > 0 && r.amount >= 0 && r.status == Pending
      && forall q :: 0 <= q < |db.purchases| ==> db.purchases[q].intent != r.intent
    case Settle(p, ids) =>
      && p < |db.purchases| && db.purchases[p].tier < |db.tiers|
      && (Mints(db, p) ==> |ids| == db.purchases[p].quantity && FreshIds(db, ids))
    case SetToken(k, _) => k < |db.tickets|
    case MarkScanned(k) => k < |db.tickets|
    case Refund(k) => k < |db.tickets|
  }

  ghost function Run(db: Db, op: Op): Db
    requires Legal(db, op)
  {
    match op
    case NoOp => db
    case AddTier(t) => db.(tiers := db.tiers + [t])
    case AddPurchase(r) => db.(purchases := db.purchases + [r])
    case Settle(p, ids) => SettleDb(db, p, ids)
    case SetToken(k, tok) => db.(tickets := db.tickets[k := db.tickets[k].(token := Some(tok))])
    case MarkScanned(k) => db.(tickets := db.tickets[k := db.tickets[k].(status := Scanned)])
    case Refund(k) => db.(tickets := db.tickets[k := db.tickets[k].(status := Refunded)])
  }

  // ---------------------------------------------------------------- what the tables promise

  ghost function SoldTo(t: nat): Purchase -> int {
    (p: Purchase) => if p.tier == t && p.status == Completed then p.quantity else 0
  }

  ghost function OfTier(t: nat): Ticket -> int {
    (k: Ticket) => if k.tier == t then 1 else 0
  }

  ghost function OfPurchase(p: nat): Ticket -> int {
    (k: Ticket) => if k.purchase == p then 1 else 0
  }

  ghost predicate PurchaseOk(tiers: seq<Tier>, r: Purchase) {
    r.tier < |tiers| && r.event == tiers[r.tier].event && r.quantity > 0 && r.amount >= 0
  }

  ghost predicate TicketOk(purchases: seq<Purchase>, k: Ticket) {
    && k.id != ""
    && k.purchase < |purchases|
    && k.tier == purchases[k.purchase].tier
    && k.event == purchases[k.purchase].event
    && k.buyer == purchases[k.purchase].buyer
  }

  ghost predicate RowsOk(db: Db) {
    && (forall t :: 0 <= t < |db.tiers| ==> db.tiers[t].price >= 0)
    && (forall p :: 0 <= p < |db.purchases| ==> PurchaseOk(db.tiers, db.purchases[p]))
    && (forall k :: 0 <= k < |db.tickets| ==> TicketOk(db.purchases, db.tickets[k]))
  }

  ghost predicate UniqueIntents(db: Db) {
    forall p, q :: 0 <= p < q < |db.purchases| ==> db.purchases[p].intent != db.purchases[q].intent
  }

  ghost predicate UniqueIds(ts: seq<Ticket>) {
    forall i, j :: 0 <= i < j < |ts| ==> ts[i].id != ts[j].id
  }

  /** `sold` counts the tickets of completed purchases, counts the ticket rows, and fits the tier. */
  ghost predicate Conserved(db: Db) {
    forall t :: 0 <= t < |db.tiers| ==>
      && db.tiers[t].sold == Sum(db.purchases, SoldTo(t))
      && db.tiers[t].sold == Sum(db.tickets, OfTier(t))
      && 0 <= db.tiers[t].sold <= db.tiers[t].capacity
  }

  /** A completed purchase has exactly its quantity of tickets; any other has none. */
  ghost predicate ExactlyMinted(db: Db) {
    forall p :: 0 <= p < |db.purchases| ==>
      Sum(db.tickets, OfPurchase(p)) ==
      if db.purchases[p].status == Completed then db.purchases[p].quantity else 0
  }

  /** A failed purchase still does not fit in its tier. */
  ghost predicate FailedDoNotFit(db: Db)
    requires RowsOk(db)
  {
    forall p :: 0 <= p < |db.purchases| && db.purchases[p].status == Failed ==>
      db.tiers[db.purchases[p].tier].sold + db.purchases[p].quantity > db.tiers[db.purchases[p].tier].capacity
  }

  ghost predicate DbInv(db: Db) {
    && RowsOk(db) && UniqueIntents(db) && UniqueIds(db.tickets)
    && Conserved(db) && ExactlyMinted(db) && FailedDoNotFit(db)
  }

  // ---------------------------------------------------------------- proofs, operation by operation

  lemma {:induction false} NewTicketsTotal(ids: seq<string>, p: nat, row: Purchase, w: Ticket -> int, c: int)
    requires forall id :: w(Ticket(id, row.tier, row.event, row.buyer, p, Valid, None)) == c
    ensures Sum(NewTickets(ids, p, row), w) == |ids| * c
  {
    if |ids| > 0 {
      var front := ids[..|ids| - 1];
      NewTicketsTotal(front, p, row, w, c);
      assert NewTickets(ids, p, row)[..|ids| - 1] == NewTickets(front, p, row);
    }
  }

  lemma {:induction false} AddTierConserves(db: Db, tier: Tier)
    requires RowsOk(db) && Conserved(db) && tier.sold == 0 <= tier.capacity
    ensures Conserved(db.(tiers := db.tiers + [tier]))
  {
    var t := |db.tiers|;
    forall p | 0 <= p < |db.purchases| ensures SoldTo(t)(db.purchases[p]) == 0 {
      assert PurchaseOk(db.tiers, db.purchases[p]);
    }
    forall k | 0 <= k < |db.tickets| ensures OfTier(t)(db.tickets[k]) == 0 {
      assert TicketOk(db.purchases, db.tickets[k]) && PurchaseOk(db.tiers, db.purchases[db.tickets[k].purchase]);
    }
    SumZero(db.purchases, SoldTo(t));
    SumZero(db.tickets, OfTier(t));
  }

  lemma {:induction false} AddTierKeeps(db: Db, tier: Tier)
    requires DbInv(db) && tier.sold == 0 <= tier.capacity && tier.price >= 0
    ensures DbInv(db.(tiers := db.tiers + [tier]))
  {
    AddTierConserves(db, tier);
    RowsStay(db, db.(tiers := db.tiers + [tier]));
  }

  /** Rows stay well formed when tiers and purchases only evolve and the new rows are well formed. */
  lemma {:induction false} RowsStay(db: Db, db': Db)
    requires RowsOk(db) && Later(db, db')
    requires forall t :: |db.tiers| <= t < |db'.tiers| ==> db'.tiers[t].price >= 0
    requires forall p :: |db.purchases| <= p < |db'.purchases| ==> PurchaseOk(db.tiers, db'.purchases[p])
    requires forall k :: |db.tickets| <= k < |db'.tickets| ==> TicketOk(db.purchases, db'.tickets[k])
    ensures RowsOk(db')
  {
    forall t | 0 <= t < |db'.tiers| ensures db'.tiers[t].price >= 0 {
      if t < |db.tiers| {
        assert TierEvolves(db.tiers[t], db'.tiers[t]);
      }
    }
    forall p | 0 <= p < |db'.purchases| ensures PurchaseOk(db'.tiers, db'.purchases[p]) {
      if p < |db.purchases| {
        assert PurchaseEvolves(db.purchases[p], db'.purchases[p]) && PurchaseOk(db.tiers, db.purchases[p]);
      }
      var t := db'.purchases[p].tier;
      assert PurchaseOk(db.tiers, db'.purchases[p]);
      assert TierEvolves(db.tiers[t], db'.tiers[t]);
    }
    forall k | 0 <= k < |db'.tickets| ensures TicketOk(db'.purchases, db'.tickets[k]) {
      if k < |db.tickets| {
        assert TicketEvolves(db.tickets[k], db'.tickets[k]) && TicketOk(db.purchases, db.tickets[k]);
      }
      var p := db'.tickets[k].purchase;
      assert TicketOk(db.purchases, db'.tickets[k]);
      assert PurchaseEvolves(db.purchases[p], db'.purchases[p]);
    }
  }

  lemma {:induction false} AddPurchaseConserves(db: Db, row: Purchase)
    requires RowsOk(db) && Conserved(db) && ExactlyMinted(db) && row.status == Pending
    ensures Conserved(db.(purchases := db.purchases + [row]))
    ensures ExactlyMinted(db.(purchases := db.purchases + [row]))
  {
    var ps := db.purchases + [row];
    forall t | 0 <= t < |db.tiers| ensures Sum(ps, SoldTo(t)) == Sum(db.purchases, SoldTo(t)) {
      SumPush(db.purchases, row, SoldTo(t));
    }
    forall k | 0 <= k < |db.tickets| ensures OfPurchase(|db.purchases|)(db.tickets[k]) == 0 {
      assert TicketOk(db.purchases, db.tickets[k]);
    }
    SumZero(db.tickets, OfPurchase(|db.purchases|));
  }

  lemma {:induction false} AddPurchaseKeeps(db: Db, row: Purchase)
    requires DbInv(db) && Legal(db, AddPurchase(row))
    ensures DbInv(db.(purchases := db.purchases + [row]))
  {
    AddPurchaseConserves(db, row);
    RowsStay(db, db.(purchases := db.purchases + [row]));
  }

  lemma {:induction false} TicketUpdateKeeps(db: Db, k: nat, row: Ticket)
    requires DbInv(db) && k < |db.tickets|
    requires row == db.tickets[k].(status := row.status, token := row.token)
    ensures DbInv(db.(tickets := db.tickets[k := row]))
  {
    var db' := db.(tickets := db.tickets[k := row]);
    assert TicketOk(db.purchases, db.tickets[k]);
    forall t | 0 <= t < |db.tiers| ensures Sum(db'.tickets, OfTier(t)) == Sum(db.tickets, OfTier(t)) {
      SumUpdate(db.tickets, k, row, OfTier(t));
    }
    forall p | 0 <= p < |db.purchases|
      ensures Sum(db'.tickets, OfPurchase(p)) == Sum(db.tickets, OfPurchase(p))
    {
      SumUpdate(db.tickets, k, row, OfPurchase(p));
    }
  }

  lemma {:induction false} FailConserves(db: Db, p: nat, failed: Purchase)
    requires Conserved(db) && ExactlyMinted(db) && p < |db.purchases| && db.purchases[p].status != Completed
    requires failed == db.purchases[p].(status := Failed)
    ensures Conserved(db.(purchases := db.purchases[p := failed]))
    ensures ExactlyMinted(db.(purchases := db.purchases[p := failed]))
  {
    var ps := db.purchases[p := failed];
    forall t | 0 <= t < |db.tiers| ensures Sum(ps, SoldTo(t)) == Sum(db.purchases, SoldTo(t)) {
      SumUpdate(db.purchases, p, failed, SoldTo(t));
    }
  }

  lemma {:induction false} RefuseKeeps(db: Db, p: nat)
    requires DbInv(db) && p < |db.purchases| && db.purchases[p].tier < |db.tiers|
    requires !Mints(db, p) && db.purchases[p].status != Completed
    ensures DbInv(db.(purchases := db.purchases[p := db.purchases[p].(status := Failed)]))
  {
    var failed := db.purchases[p].(status := Failed);
    FailConserves(db, p, failed);
    RowsStay(db, db.(purchases := db.purchases[p := failed]));
  }

  lemma {:induction false} MintConserves(db: Db, p: nat, ids: seq<string>)
    requires DbInv(db) && Legal(db, Settle(p, ids)) && Mints(db, p)
    ensures Conserved(SettleDb(db, p, ids))
  {
    var row := db.purchases[p];
    var db' := SettleDb(db, p, ids);
    forall t | 0 <= t < |db.tiers|
      ensures Sum(db'.purchases, SoldTo(t)) ==
              Sum(db.purchases, SoldTo(t)) + (if t == row.tier then row.quantity else 0)
      ensures Sum(db'.tickets, OfTier(t)) ==
              Sum(db.tickets, OfTier(t)) + (if t == row.tier then row.quantity else 0)
    {
      SumUpdate(db.purchases, p, row.(status := Completed), SoldTo(t));
      SumConcat(db.tickets, NewTickets(ids, p, row), OfTier(t));
      NewTicketsTotal(ids, p, row, OfTier(t), if t == row.tier then 1 else 0);
    }
  }

  lemma {:induction false} MintIsExact(db: Db, p: nat, ids: seq<string>)
    requires DbInv(db) && Legal(db, Settle(p, ids)) && Mints(db, p)
    ensures ExactlyMinted(SettleDb(db, p, ids))
  {
    var row := db.purchases[p];
    var db' := SettleDb(db, p, ids);
    forall q | 0 <= q < |db.purchases|
      ensures Sum(db'.tickets, OfPurchase(q)) ==
              Sum(db.tickets, OfPurchase(q)) + (if q == p then row.quantity else 0)
    {
      SumConcat(db.tickets, NewTickets(ids, p, row), OfPurchase(q));
      NewTicketsTotal(ids, p, row, OfPurchase(q), if q == p then 1 else 0);
    }
  }

  lemma {:induction false} MintKeepsRows(db: Db, p: nat, ids: seq<string>)
    requires DbInv(db) && Legal(db, Settle(p, ids)) && Mints(db, p)
    ensures RowsOk(SettleDb(db, p, ids)) && FailedDoNotFit(SettleDb(db, p, ids))
  {
    var row := db.purchases[p];
    var db' := SettleDb(db, p, ids);
    assert PurchaseOk(db.tiers, row);
    forall k | |db.tickets| <= k < |db'.tickets| ensures TicketOk(db.purchases, db'.tickets[k]) {
      assert db'.tickets[k] == NewTickets(ids, p, row)[k - |db.tickets|];
    }
    RowsStay(db, db');
    forall q | 0 <= q < |db'.purchases| && db'.purchases[q].status == Failed
      ensures db'.tiers[db'.purchases[q].tier].sold + db'.purchases[q].quantity >
              db'.tiers[db'.purchases[q].tier].capacity
    {
      assert db.purchases[q].status == Failed;
      assert TierEvolves(db.tiers[db.purchases[q].tier], db'.tiers[db.purchases[q].tier]);
    }
  }

  lemma {:induction false} MintKeepsIds(db: Db, p: nat, ids: seq<string>)
    requires UniqueIds(db.tickets) && FreshIds(db, ids) && p < |db.purchases|
    ensures UniqueIds(db.tickets + NewTickets(ids, p, db.purchases[p]))
  {
  }

  lemma {:induction false} SettleKeeps(db: Db, p: nat, ids: seq<string>)
    requires DbInv(db) && Legal(db, Settle(p, ids))
    ensures DbInv(SettleDb(db, p, ids))
  {
    if Mints(db, p) {
      MintConserves(db, p, ids);
      MintIsExact(db, p, ids);
      MintKeepsRows(db, p, ids);
      MintKeepsIds(db, p, ids);
    } else if db.purchases[p].status != Completed {
      RefuseKeeps(db, p);
    }
  }

  /** Every committed write keeps every promise of the tables. */
  lemma {:induction false} OpKeepsInv(db: Db, op: Op)
    requires DbInv(db) && Legal(db, op)
    ensures DbInv(Run(db, op))
  {
    match op
    case NoOp =>
    case AddTier(t) => AddTierKeeps(db, t);
    case AddPurchase(r) => AddPurchaseKeeps(db, r);
    case Settle(p, ids) => SettleKeeps(db, p, ids);
    case SetToken(k, tok) => TicketUpdateKeeps(db, k, db.tickets[k].(token := Some(tok)));
    case MarkScanned(k) => TicketUpdateKeeps(db, k, db.tickets[k].(status := Scanned));
    case Refund(k) => TicketUpdateKeeps(db, k, db.tickets[k].(status := Refunded));
  }

  // ---------------------------------------------------------------- how the tables may evolve

  /** What one purchase row may become: only a pending row changes, and only its status. */
  predicate PurchaseEvolves(a: Purchase, b: Purchase) {
    b == a.(status := b.status) && (a.status != Pending ==> b.status == a.status)
  }

  predicate TierEvolves(a: Tier, b: Tier) {
    b == a.(sold := b.sold) && a.sold <= b.sold
  }

  predicate TicketEvolves(a: Ticket, b: Ticket) {
    && b == a.(status := b.status, token := b.token)
    && (a.token.Some? ==> b.token.Some?)
  }

  /** `b` is a later state of the same tables. */
  ghost predicate Later(a: Db, b: Db) {
    && |a.tiers| <= |b.tiers| && |a.purchases| <= |b.purchases| && |a.tickets| <= |b.tickets|
    && (forall t :: 0 <= t < |a.tiers| ==> TierEvolves(a.tiers[t], b.tiers[t]))
    && (forall p :: 0 <= p < |a.purchases| ==> PurchaseEvolves(a.purchases[p], b.purchases[p]))
    && (forall k :: 0 <= k < |a.tickets| ==> TicketEvolves(a.tickets[k], b.tickets[k]))
  }

  lemma {:induction false} SettleMovesForward(db: Db, p: nat, ids: seq<string>)
    requires DbInv(db) && Legal(db, Settle(p, ids))
    ensures Later(db, SettleDb(db, p, ids))
  {
    assert PurchaseOk(db.tiers, db.purchases[p]);
    if !Mints(db, p) {
      assert SettleDb(db, p, ids).tiers == db.tiers && SettleDb(db, p, ids).tickets == db.tickets;
    }
  }

  lemma {:induction false} OpMovesForward(db: Db, op: Op)
    requires DbInv(db) && Legal(db, op)
    ensures Later(db, Run(db, op))
  {
    if op.Settle? {
      SettleMovesForward(db, op.p, op.ids);
    }
  }

  lemma {:induction false} LaterReflexive(a: Db)
    ensures Later(a, a)
  {
  }

  lemma {:induction false} LaterTransitive(a: Db, b: Db, c: Db)
    requires Later(a, b) && Later(b, c)
    ensures Later(a, c)
  {
    forall p | 0 <= p < |a.purchases| ensures PurchaseEvolves(a.purchases[p], c.purchases[p]) {
      assert PurchaseEvolves(a.purchases[p], b.purchases[p]) && PurchaseEvolves(b.purchases[p], c.purchases[p]);
    }
    forall t | 0 <= t < |a.tiers| ensures TierEvolves(a.tiers[t], c.tiers[t]) {
      assert TierEvolves(a.tiers[t], b.tiers[t]) && TierEvolves(b.tiers[t], c.tiers[t]);
    }
    forall k | 0 <= k < |a.tickets| ensures TicketEvolves(a.tickets[k], c.tickets[k]) {
      assert TicketEvolves(a.tickets[k], b.tickets[k]) && TicketEvolves(b.tickets[k], c.tickets[k]);
    }
  }

  // ---------------------------------------------------------------- whole histories

  ghost predicate LegalAll(db: Db, ops: seq<Op>)
    decreases |ops|
  {
    |ops| > 0 ==> Legal(db, ops[0]) && LegalAll(Run(db, ops[0]), ops[1..])
  }

  ghost function Replay(db: Db, ops: seq<Op>): Db
    requires LegalAll(db, ops)
    decreases |ops|
  {
    if |ops| == 0 then db else Replay(Run(db, ops[0]), ops[1..])
  }

  lemma {:induction false} ReplayPush(db: Db, ops: seq<Op>, op: Op)
    requires LegalAll(db, ops) && Legal(Replay(db, ops), op)
    ensures LegalAll(db, ops + [op]) && Replay(db, ops + [op]) == Run(Replay(db, ops), op)
    decreases |ops|
  {
    if |ops| == 0 {
      assert (ops + [op])[1..] == [];
    } else {
      ReplayPush(Run(db, ops[0]), ops[1..], op);
      assert (ops + [op])[1..] == ops[1..] + [op];
    }
  }

  /** Whatever writes are committed, in whatever order: nothing is oversold, every completed
      purchase has exactly its tickets, and a purchase that failed or completed stays so. */
  lemma {:induction false} HistorySafe(db: Db, ops: seq<Op>)
    requires DbInv(db) && LegalAll(db, ops)
    ensures DbInv(Replay(db, ops)) && Later(db, Replay(db, ops))
    decreases |ops|
  {
    if |ops| > 0 {
      var mid := Run(db, ops[0]);
      OpKeepsInv(db, ops[0]);
      OpMovesForward(db, ops[0]);
      HistorySafe(mid, ops[1..]);
      LaterTransitive(db, mid, Replay(db, ops));
    }
  }
}
