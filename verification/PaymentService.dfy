/**
 * The payment service as its code runs when one caller is alone: statement by statement, with the
 * mint loop and private writes, against the atomic decision `SettleDb` that the concurrent system refines too.
 */
module PaymentService {
  import opened Options
  import opened Sums
  import opened Tables
  import opened Webhook
  import opened ExpiringKeys

  /** What the connection will do to a call: how many statements get through, how the commit is
      answered, whether the cache key is deleted. */
  datatype Link = Link(trips: nat, commit: Reply, del: Reply)

  predicate IdTaken(ts: seq<Ticket>, id: string) {
    id == "" || exists k :: 0 <= k < |ts| && ts[k].id == id
  }

  class Service {
    var tiers: seq<Tier>
    var purchases: seq<Purchase>
    var tickets: seq<Ticket>
    var cached: map<nat, int>
    var published: seq<nat>
    var purchaseCap: int
    const claims: IdempotencyStore

    ghost function Committed(): Db
      reads this
    {
      Db(tiers, purchases, tickets)
    }

    constructor (claims: IdempotencyStore)
      ensures Committed() == Db([], [], []) && cached == map[] && published == [] && purchaseCap == 10
      ensures this.claims == claims
    {
      tiers, purchases, tickets, cached, published, purchaseCap := [], [], [], map[], [], 10;
      this.claims := claims;
    }

    method SetPurchaseCap(n: int)
      modifies this`purchaseCap
      ensures purchaseCap == if n > 0 then n else old(purchaseCap)
    {
      if n > 0 {
        purchaseCap := n;
      }
    }

    /** The tier exists, the cap leaves room, the provider gives an intent, and it is a new one. */
    ghost predicate Accepts(buyer: nat, tierId: nat, quantity: int, intent: Option<string>)
      reads this
    {
      && tierId < |tiers| && intent.Some? && Find(purchases, intent.value).None?
      && Held(Committed(), buyer, tiers[tierId].event) + (if quantity <= 0 then 1 else quantity) <= purchaseCap
    }

    /** Creates the pending purchase exactly when it is acceptable, both reads get through and the insert
        takes effect, also when its reply is lost. It is for the quantity asked, one when none is asked, at the
        tier's price for each; the buyer then holds no more than the cap. */
    method Checkout(buyer: nat, tierId: nat, quantity: int, intent: Option<string>, trips: nat, insert: Reply)
      returns (r: Option<nat>)
      requires DbInv(Committed())
      modifies this`purchases
      ensures DbInv(Committed())
      ensures r.Some? <==> old(Accepts(buyer, tierId, quantity, intent)) && trips >= 2 && insert.Good?
      ensures r.Some? ==> r.value == |old(purchases)|
      ensures if old(Accepts(buyer, tierId, quantity, intent)) && trips >= 2 && (insert.Good? || insert.LostAck?) then
                var tier, q := tiers[tierId], if quantity <= 0 then 1 else quantity;
                var row := Purchase(intent.value, buyer, tier.event, tierId, tier.price * q, q, Pending);
                && Legal(old(Committed()), AddPurchase(row)) && purchases == old(purchases) + [row]
                && Held(Committed(), buyer, tier.event) <= purchaseCap
              else purchases == old(purchases)
    {
      r := None;
      if trips < 1 || tierId >= |tiers| {
        return;
      }
      var tier := tiers[tierId];
      if trips < 2 {
        return;
      }
      var held := Held(Db(tiers, purchases, tickets), buyer, tier.event);
      var q := if quantity <= 0 then 1 else quantity;
      if held + q > purchaseCap || intent.None? {
        return;
      }
      var row := Purchase(intent.value, buyer, tier.event, tierId, tier.price * q, q, Pending);
      if Find(purchases, intent.value).Some? || !(insert.Good? || insert.LostAck?) {
        return;
      }
      OrderKeeps(Committed(), row);
      if insert.Good? {
        r := Some(|purchases|);
      }
      purchases := purchases + [row];
    }

    /** The mint loop: one insert per ticket, stopping at the first that fails. It succeeds exactly when as many
        statements get through as there are tickets, with ids that are new. */
    method InsertTickets(p: nat, row: Purchase, trips: int, ids: seq<string>) returns (ok: bool, mine: seq<Ticket>)
      requires row.quantity > 0
      ensures ok <==> trips >= row.quantity && |ids| >= row.quantity && FreshIds(Committed(), ids[..row.quantity])
      ensures ok ==> mine == NewTickets(ids[..row.quantity], p, row)
    {
      mine := [];
      var i := 0;
      while i < row.quantity
        invariant 0 <= i <= row.quantity && i <= |ids| && (i > 0 ==> trips >= i)
        invariant mine == NewTickets(ids[..i], p, row)
        invariant FreshIds(Committed(), ids[..i])
      {
        if trips <= i || i >= |ids| || IdTaken(tickets + mine, ids[i]) {
          IdClash(Committed(), ids, i, row.quantity, p, row, mine);
          return false, mine;
        }
        NextIdFresh(Committed(), ids, i, p, row, mine);
        mine := mine + [Ticket(ids[i], row.tier, row.event, row.buyer, p, Valid, None)];
        assert mine == NewTickets(ids[..i + 1], p, row);
        i := i + 1;
      }
      ok := true;
    }

    /** The branch without enough capacity: mark failed, commit. */
    method Refuse(p: nat, link: Link, ghost ids: seq<string>) returns (res: Outcome)
      requires DbInv(Committed()) && p < |purchases| && purchases[p].tier < |tiers|
      requires purchases[p].status != Completed && !Mints(Committed(), p)
      modifies this`purchases
      ensures DbInv(Committed())
      ensures res == if link.trips >= 3 && link.commit.Good? then SoldOut else DbError
      ensures if link.trips >= 3 && Reaches(link.commit) then Settles(old(Committed()), p, ids, Committed())
              else Committed() == old(Committed())
    {
      if link.trips < 3 || !Reaches(link.commit) {
        return DbError;
      }
      OpKeepsInv(Committed(), Settle(p, Used(Committed(), p, ids)));
      purchases := purchases[p := purchases[p].(status := Failed)];
      return if link.commit.Good? then SoldOut else DbError;
    }

    /** The branch with enough capacity: mint, bump `sold`, mark completed, commit, drop the cached count. */
    method MintAll(p: nat, link: Link, ids: seq<string>) returns (res: Outcome)
      requires DbInv(Committed()) && p < |purchases| && purchases[p].tier < |tiers| && Mints(Committed(), p)
      modifies this`tiers, this`purchases, this`tickets, this`cached
      ensures DbInv(Committed())
      ensures res == if old(CanMint(Committed(), p, link.trips, ids)) && link.commit.Good?
                     then Created(old(purchases)[p].quantity) else DbError
      ensures if old(CanMint(Committed(), p, link.trips, ids)) && Reaches(link.commit)
              then Settles(old(Committed()), p, ids, Committed()) else Committed() == old(Committed())
      ensures cached == if res.Created? && !link.del.Bad? then old(cached) - {old(purchases)[p].tier} else old(cached)
    {
      ghost var db := Committed();
      var row, tier := purchases[p], tiers[purchases[p].tier];
      assert row.quantity > 0 by {
        assert PurchaseOk(db.tiers, row);
      }
      var ok, mine := InsertTickets(p, row, link.trips - 2, ids);
      assert ok && link.trips >= row.quantity + 4 <==> CanMint(db, p, link.trips, ids);
      if !ok || link.trips < row.quantity + 4 || !Reaches(link.commit) {
        return DbError;
      }
      tiers := tiers[row.tier := tier.(sold := tier.sold + row.quantity)];
      purchases := purchases[p := row.(status := Completed)];
      tickets := tickets + mine;
      MintSettles(db, p, ids, Committed());
      if !link.commit.Good? {
        return DbError;
      }
      if !link.del.Bad? {
        cached := cached - {row.tier};
      }
      return Created(row.quantity);
    }

    /** The webhook transaction. The answer is the one the tables call for, unless a statement does not get
        through or the commit is not acknowledged; then it is an error, and the tables stand where they
        stood or, after a commit that took effect, where the one atomic decision puts them. */
    method ProcessInTx(intent: string, link: Link, ids: seq<string>) returns (res: Outcome)
      requires DbInv(Committed())
      modifies this`tiers, this`purchases, this`tickets, this`cached
      ensures Answers(old(Committed()), intent, ids, res, Committed())
      ensures res.DbError? <==> Errs(old(Committed()), intent, link, ids)
      ensures Unhindered(old(Committed()), intent, link, ids) ==> !res.DbError?
      ensures res.DbError? ==> AfterError(old(Committed()), intent, link, ids, Committed())
      ensures cached == if res.Created? && !link.del.Bad? then old(cached) - {TierOf(old(purchases), intent)}
                        else old(cached)
    {
      if Unhindered(Committed(), intent, link, ids) {
        UnhinderedGetsThrough(Committed(), intent, link, ids);
      }
      if link.trips < 1 {
        return DbError;
      }
      var found := Find(purchases, intent);
      if found.None? {
        return NotFound;
      }
      var p := found.value;
      assert PurchaseOk(tiers, purchases[p]);
      if purchases[p].status == Completed {
        return AlreadyDone;
      }
      if link.trips < 2 {
        return DbError;
      }
      var tier := tiers[purchases[p].tier];
      if tier.sold + purchases[p].quantity > tier.capacity {
        res := Refuse(p, link, ids);
      } else {
        res := MintAll(p, link, ids);
      }
    }

    /** The webhook: claim, transaction, then mark done or release, then publish; `claim` and `last` say
        how the two calls on the store end. A live claim, or its own claim sent again, answers without
        touching the tables; otherwise the transaction decides, with or without the store, and the answer is
        the one the tables call for unless the database fails. An error leaves the intent free to be retried
        and any other answer leaves it marked, if the last call takes effect. */
    method ProcessPaymentSucceeded(intent: string, now: int, claim: Reply, last: Reply, link: Link, ids: seq<string>,
                                   sent: bool)
      returns (res: Outcome)
      requires DbInv(Committed())
      modifies this`tiers, this`purchases, this`tickets, this`cached, this`published, claims
      ensures res.ClaimTaken? <==> claim.Taken? || (claim.Good? && Live(old(claims.keys), intent, now))
      ensures res.ClaimTaken? ==> Committed() == old(Committed()) && cached == old(cached)
      ensures res.ClaimTaken? ==> claims.keys == After(old(claims.keys), Acquire(intent, now), CLAIM_TTL)
      ensures !res.ClaimTaken? ==> Answers(old(Committed()), intent, ids, res, Committed())
      ensures !res.ClaimTaken? ==> (res.DbError? <==> Errs(old(Committed()), intent, link, ids))
      ensures Unhindered(old(Committed()), intent, link, ids) ==> !res.DbError?
      ensures !res.ClaimTaken? && !res.DbError? ==> IsVerdict(old(Committed()), intent, res)
      ensures res.DbError? ==> AfterError(old(Committed()), intent, link, ids, Committed())
      ensures cached == if res.Created? && !link.del.Bad? then old(cached) - {TierOf(old(purchases), intent)}
                        else old(cached)
      ensures !res.ClaimTaken? && Reaches(last) ==>
                claims.keys == if res.Created? || res.AlreadyDone?
                               then old(claims.keys)[intent := Entry("done", now + CLAIM_TTL)]
                               else old(claims.keys) - {intent}
      ensures !res.ClaimTaken? && !Reaches(last) ==>
                claims.keys == if Reaches(claim) then After(old(claims.keys), Acquire(intent, now), CLAIM_TTL)
                               else old(claims.keys)
      ensures published == old(published) + (if res.Created? && sent then [Find(old(purchases), intent).value] else [])
    {
      var go := Claim(intent, now, claim);
      if !go {
        return ClaimTaken;
      }
      res := Proceed(intent, now, last, link, ids, sent);
    }

    /** The transaction, the last call on the store, and the publication. */
    method Proceed(intent: string, now: int, last: Reply, link: Link, ids: seq<string>, sent: bool)
      returns (res: Outcome)
      requires DbInv(Committed())
      modifies this`tiers, this`purchases, this`tickets, this`cached, this`published, claims
      ensures Answers(old(Committed()), intent, ids, res, Committed()) && !res.ClaimTaken?
      ensures res.DbError? <==> Errs(old(Committed()), intent, link, ids)
      ensures Unhindered(old(Committed()), intent, link, ids) ==> !res.DbError?
      ensures !res.DbError? ==> IsVerdict(old(Committed()), intent, res)
      ensures res.DbError? ==> AfterError(old(Committed()), intent, link, ids, Committed())
      ensures cached == if res.Created? && !link.del.Bad? then old(cached) - {TierOf(old(purchases), intent)}
                        else old(cached)
      ensures claims.keys == if !Reaches(last) then old(claims.keys)
                             else if res.Created? || res.AlreadyDone?
                             then old(claims.keys)[intent := Entry("done", now + CLAIM_TTL)]
                             else old(claims.keys) - {intent}
      ensures published == old(published) + (if res.Created? && sent then [Find(old(purchases), intent).value] else [])
    {
      ghost var db := Committed();
      var found := Find(purchases, intent);
      res := ProcessInTx(intent, link, ids);
      if !res.DbError? {
        AnswerIsVerdict(db, intent, ids, res, Committed());
      }
      Conclude(intent, now, last, res.NotFound? || res.SoldOut? || res.DbError?);
      if res.Created? && sent {
        published := published + [found.value];
      }
    }

    /** Claims the intent; an error of the store lets the delivery go ahead. */
    method Claim(intent: string, now: int, claim: Reply) returns (go: bool)
      modifies claims
      ensures go <==> !(claim.Taken? || (claim.Good? && Live(old(claims.keys), intent, now)))
      ensures claims.keys == if Reaches(claim) then After(old(claims.keys), Acquire(intent, now), CLAIM_TTL)
                             else old(claims.keys)
    {
      go := true;
      if Reaches(claim) {
        var granted := claims.TryAcquire(intent, now);
        go := claim.LostAck? || (claim.Good? && granted);
      }
    }

    /** Marks the claim done, or releases it after a failure. */
    method Conclude(intent: string, now: int, last: Reply, failed: bool)
      modifies claims
      ensures claims.keys == if !Reaches(last) then old(claims.keys)
                             else if failed then old(claims.keys) - {intent}
                             else old(claims.keys)[intent := Entry("done", now + CLAIM_TTL)]
    {
      if Reaches(last) && failed {
        claims.Drop(intent, now);
      } else if Reaches(last) {
        claims.SetDone(intent, now);
      }
    }
  }

  /** The call takes effect on the store; `Taken` is a claim applied, sent again, and answered by its own key. */
  predicate Reaches(reply: Reply) {
    !reply.Bad? && !reply.Died?
  }

  // ---------------------------------------------------------------- what an answer means

  /** The ids a mint of purchase `p` would use. */
  ghost function Used(db: Db, p: nat, ids: seq<string>): seq<string>
    requires p < |db.purchases| && db.purchases[p].tier < |db.tiers|
  {
    if Mints(db, p) && 0 <= db.purchases[p].quantity <= |ids| then ids[..db.purchases[p].quantity] else []
  }

  ghost predicate Settles(db: Db, p: nat, ids: seq<string>, db': Db)
    requires p < |db.purchases| && db.purchases[p].tier < |db.tiers|
  {
    var op := Settle(p, Used(db, p, ids));
    Legal(db, op) && db' == Run(db, op)
  }

  /** A new row at its tier's price keeps the tables and raises what the buyer holds by its quantity. */
  lemma {:induction false} OrderKeeps(db: Db, row: Purchase)
    requires DbInv(db) && row.tier < |db.tiers| && Find(db.purchases, row.intent).None? && row.status == Pending
    requires row.quantity > 0 && row.event == db.tiers[row.tier].event
    requires row.amount == db.tiers[row.tier].price * row.quantity
    ensures Legal(db, AddPurchase(row)) && DbInv(db.(purchases := db.purchases + [row]))
    ensures Held(db.(purchases := db.purchases + [row]), row.buyer, row.event) ==
            Held(db, row.buyer, row.event) + row.quantity
  {
    assert row.amount >= 0;
    OpKeepsInv(db, AddPurchase(row));
    SumPush(db.purchases, row, HeldBy(row.buyer, row.event));
  }

  /** The loop's tickets and the two updates, committed together, are the atomic decision. */
  lemma {:induction false} MintSettles(db: Db, p: nat, ids: seq<string>, db': Db)
    requires DbInv(db) && p < |db.purchases| && db.purchases[p].tier < |db.tiers| && Mints(db, p)
    requires var row := db.purchases[p]; var tier := db.tiers[row.tier];
             && 0 < row.quantity <= |ids| && FreshIds(db, ids[..row.quantity])
             && db'.tiers == db.tiers[row.tier := tier.(sold := tier.sold + row.quantity)]
             && db'.purchases == db.purchases[p := row.(status := Completed)]
             && db'.tickets == db.tickets + NewTickets(ids[..row.quantity], p, row)
    ensures Settles(db, p, ids, db') && DbInv(db')
  {
    OpKeepsInv(db, Settle(p, Used(db, p, ids)));
  }

  /** `res` is an honest answer for a call that turned `db` into `db'`. */
  ghost predicate Answers(db: Db, intent: string, ids: seq<string>, res: Outcome, db': Db)
    requires RowsOk(db)
  {
    match Find(db.purchases, intent)
    case None => db' == db && (res.NotFound? || res.DbError?)
    case Some(p) =>
      assert PurchaseOk(db.tiers, db.purchases[p]);
      var row := db.purchases[p];
      match res
      case Created(n) => Mints(db, p) && n == row.quantity && Settles(db, p, ids, db')
      case SoldOut => row.status != Completed && !Mints(db, p) && Settles(db, p, ids, db')
      case AlreadyDone => row.status == Completed && db' == db
      case DbError => db' == db || Settles(db, p, ids, db')
      case NotFound => false
      case ClaimTaken => false
  }

  /** Every honest answer leaves consistent tables, later than the ones it found. */
  lemma {:induction false} AnswersKeep(db: Db, intent: string, ids: seq<string>, res: Outcome, db': Db)
    requires DbInv(db) && Answers(db, intent, ids, res, db')
    ensures DbInv(db') && Later(db, db')
  {
    if db' == db {
      LaterReflexive(db);
    } else {
      var p := Find(db.purchases, intent).value;
      assert PurchaseOk(db.tiers, db.purchases[p]);
      OpKeepsInv(db, Settle(p, Used(db, p, ids)));
      OpMovesForward(db, Settle(p, Used(db, p, ids)));
    }
  }

  /** The connection lets the whole transaction through and the database draws fresh ids. */
  ghost predicate Unhindered(db: Db, intent: string, link: Link, ids: seq<string>) {
    && link.commit.Good? && FreshIds(db, ids) && link.trips >= 3
    && (Find(db.purchases, intent).Some? ==>
          var row := db.purchases[Find(db.purchases, intent).value];
          link.trips >= row.quantity + 4 && |ids| >= row.quantity)
  }

  lemma {:induction false} UnhinderedGetsThrough(db: Db, intent: string, link: Link, ids: seq<string>)
    requires RowsOk(db) && Unhindered(db, intent, link, ids)
    ensures !Errs(db, intent, link, ids)
  {
    if Find(db.purchases, intent).Some? {
      var p := Find(db.purchases, intent).value;
      assert PurchaseOk(db.tiers, db.purchases[p]);
    }
  }

  /** Enough statements get through to mint purchase `p`, and the database draws new ids for its tickets. */
  ghost predicate CanMint(db: Db, p: nat, trips: nat, ids: seq<string>)
    requires p < |db.purchases| && db.purchases[p].quantity > 0
  {
    var q := db.purchases[p].quantity;
    trips >= q + 4 && |ids| >= q && FreshIds(db, ids[..q])
  }

  /** Every statement that the tables call for gets through, the commit left aside: one for a purchase that is
      missing or completed, three to refuse, four and one per ticket to mint. */
  ghost predicate Through(db: Db, intent: string, trips: nat, ids: seq<string>)
    requires RowsOk(db)
  {
    match Find(db.purchases, intent)
    case None => trips >= 1
    case Some(p) =>
      assert PurchaseOk(db.tiers, db.purchases[p]);
      if db.purchases[p].status == Completed then trips >= 1
      else if Mints(db, p) then CanMint(db, p, trips, ids)
      else trips >= 3
  }

  /** The intent's purchase is still to be settled. */
  ghost predicate Open(db: Db, intent: string) {
    Find(db.purchases, intent).Some? && db.purchases[Find(db.purchases, intent).value].status != Completed
  }

  /** The database fails the call: a statement does not get through, or a commit there is to make is not
      acknowledged. */
  ghost predicate Errs(db: Db, intent: string, link: Link, ids: seq<string>)
    requires RowsOk(db)
  {
    !Through(db, intent, link.trips, ids) || (Open(db, intent) && !link.commit.Good?)
  }

  /** What the tables call for: a purchase that is missing, completed, does not fit, or fits. */
  ghost predicate IsVerdict(db: Db, intent: string, res: Outcome)
    requires RowsOk(db)
  {
    match Find(db.purchases, intent)
    case None => res == NotFound
    case Some(p) =>
      assert PurchaseOk(db.tiers, db.purchases[p]);
      var row := db.purchases[p];
      var tier := db.tiers[row.tier];
      res == if row.status == Completed then AlreadyDone
             else if tier.sold + row.quantity <= tier.capacity then Created(row.quantity)
             else SoldOut
  }

  lemma {:induction false} AnswerIsVerdict(db: Db, intent: string, ids: seq<string>, res: Outcome, db': Db)
    requires RowsOk(db) && Answers(db, intent, ids, res, db') && !res.DbError?
    ensures IsVerdict(db, intent, res)
  {
  }

  /** After an error the open purchase is settled if all got through and the commit took effect; else nothing
      is changed. */
  ghost predicate AfterError(db: Db, intent: string, link: Link, ids: seq<string>, db': Db)
    requires RowsOk(db)
  {
    if Open(db, intent) && Through(db, intent, link.trips, ids) && Reaches(link.commit) then
      var p := Find(db.purchases, intent).value;
      assert PurchaseOk(db.tiers, db.purchases[p]);
      Settles(db, p, ids, db')
    else
      db' == db
  }

  /** The tier of the intent's purchase, if there is one. */
  function TierOf(ps: seq<Purchase>, intent: string): nat {
    match Find(ps, intent)
    case None => 0
    case Some(p) => ps[p].tier
  }

  /** Two deliveries of one intent, in either order and with any errors in between, cannot both
      report `Created`: the second finds the purchase completed. */
  lemma {:induction false} SecondCallDoesNothing(db: Db, intent: string, ids: seq<string>, res: Outcome, mid: Db,
                                                 later: Db, ids': seq<string>, res': Outcome, db': Db)
    requires RowsOk(db) && Answers(db, intent, ids, res, mid) && res.Created?
    requires RowsOk(later) && UniqueIntents(later) && Later(mid, later) && Answers(later, intent, ids', res', db')
    ensures res'.AlreadyDone? || res'.DbError?
    ensures db' == later
  {
    var p := Find(db.purchases, intent).value;
    assert PurchaseOk(db.tiers, db.purchases[p]);
    assert mid.purchases[p].status == Completed;
    assert PurchaseEvolves(mid.purchases[p], later.purchases[p]);
    assert Find(later.purchases, intent) == Some(p);
  }

  lemma {:induction false} IdClash(db: Db, ids: seq<string>, i: nat, q: nat, p: nat, row: Purchase,
                                   mine: seq<Ticket>)
    requires i < q && i <= |ids| && mine == NewTickets(ids[..i], p, row)
    ensures q <= |ids| && IdTaken(db.tickets + mine, ids[i]) ==> !FreshIds(db, ids[..q])
  {
    if q <= |ids| && IdTaken(db.tickets + mine, ids[i]) {
      assert ids[..q][i] == ids[i];
    }
    if q <= |ids| && IdTaken(db.tickets + mine, ids[i]) && ids[i] != "" {
      var k :| 0 <= k < |db.tickets + mine| && (db.tickets + mine)[k].id == ids[i];
      if k >= |db.tickets| {
        assert mine[k - |db.tickets|].id == ids[k - |db.tickets|] == ids[..q][k - |db.tickets|];
      }
    }
  }

  lemma {:induction false} NextIdFresh(db: Db, ids: seq<string>, i: nat, p: nat, row: Purchase, mine: seq<Ticket>)
    requires i < |ids| && mine == NewTickets(ids[..i], p, row) && FreshIds(db, ids[..i])
    requires !IdTaken(db.tickets + mine, ids[i])
    ensures FreshIds(db, ids[..i + 1])
  {
    var all := db.tickets + mine;
    forall k | 0 <= k < |db.tickets| ensures db.tickets[k].id != ids[i] {
      assert all[k] == db.tickets[k];
    }
    forall j | 0 <= j < i ensures ids[j] != ids[i] {
      assert all[|db.tickets| + j].id == ids[j];
    }
  }
}
