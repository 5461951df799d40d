/**
 * Payments as a transition system: webhook deliveries, checkouts and inventory readers interleave
 * over one database and one Redis, one round trip per step.
 *
 * Every choice the environment makes is part of the step's label: which actor moves, whether a
 * reply is lost, whether Redis says the claim key exists, when the process dies. A step is then a
 * function of the state and its label. The claim key itself is not part of the state: Redis may
 * answer SETNX in any way at any time, so nothing proved here can rest on it.
 *
 * A Redis client whose reply is lost sends its command again. A SET may thus be applied more than once
 * (`Refill`); a repeated DEL is covered by `Expire`.
 */
module Webhook {
  import opened Options
  import opened Sums
  import opened Tables

  /** What a delivery reports. `ClaimTaken` and `AlreadyDone` are the two "already done" answers. */
  datatype Outcome = Created(minted: int) | AlreadyDone | ClaimTaken | NotFound | SoldOut | DbError

  /** The next round trip of a delivery. */
  datatype Pc =
    | Claim | Begin
    | LockPurchase | LockTier
    | MarkFailed | CommitFailed
    | Mint | Bump | MarkCompleted | CommitMint
    | RollBack(why: Outcome)
    | Invalidate | MarkDone(result: Outcome) | Issue | Publish | Release(why: Outcome)
    | Finished(result: Outcome) | Crashed

  /** A delivery, what it has read, and its uncommitted writes. */
  datatype Delivery = Delivery(intent: string, pc: Pc, p: nat, row: Purchase, tier: Tier,
                               minted: seq<Ticket>, rowWrite: Option<Purchase>, tierWrite: Option<Tier>)

  datatype CheckoutPc = ReadTier | ReadHeld | CreateIntent | Insert | Bought(p: nat) | Rejected

  datatype Checkout = Checkout(buyer: nat, tier: nat, quantity: int, pc: CheckoutPc,
                               event: nat, price: int, intent: string)

  datatype ReaderPc = Get | Select | Fill(remaining: int) | Served(remaining: int, cached: bool) | Missing

  datatype Reader = Reader(tier: nat, pc: ReaderPc)

  datatype State = State(db: Db, rowLocks: map<nat, nat>, tierLocks: map<nat, nat>,
                         deliveries: seq<Delivery>, checkouts: seq<Checkout>, readers: seq<Reader>,
                         cache: map<nat, int>, published: seq<nat>, cap: int)

  /** How a round trip ends: as asked, key already there, without effect, with an effect whose
      reply is lost, or with the death of the calling process. */
  datatype Reply = Good | Taken | Bad | LostAck | Died

  datatype Label =
    | Arrive(intent: string)
    | Deliver(d: nat, reply: Reply, id: string)
    | Shop(buyer: nat, tier: nat, quantity: int)
    | Buy(c: nat, reply: Reply, intent: string)
    | Look(tier: nat)
    | Read(r: nat, reply: Reply)
    | Refill(r: nat)
    | Expire(tier: nat)
    | Other(op: Op)

  const NO_ROW := Purchase("", 0, 0, 0, 0, 0, Pending)
  const NO_TIER := Tier(0, 0, 0, 0)

  // ---------------------------------------------------------------- webhook deliveries

  function Find(ps: seq<Purchase>, intent: string): (r: Option<nat>)
    ensures r.Some? ==> r.value < |ps| && ps[r.value].intent == intent
    ensures r.None? ==> forall i :: 0 <= i < |ps| ==> ps[i].intent != intent
  {
    if |ps| == 0 then None
    else if ps[|ps| - 1].intent == intent then Some(|ps| - 1)
    else Find(ps[..|ps| - 1], intent)
  }

  ghost predicate UnusedId(s: State, id: string) {
    && id != ""
    && (forall k :: 0 <= k < |s.db.tickets| ==> s.db.tickets[k].id != id)
    && (forall d, k :: 0 <= d < |s.deliveries| && 0 <= k < |s.deliveries[d].minted| ==>
          s.deliveries[d].minted[k].id != id)
  }

  /** A delivery blocks only on a row lock held by another transaction. */
  ghost predicate Unblocked(s: State, w: Delivery, reply: Reply) {
    && (w.pc.LockPurchase? && reply.Good? && Find(s.db.purchases, w.intent).Some? ==>
          Find(s.db.purchases, w.intent).value !in s.rowLocks)
    && (w.pc.LockTier? && reply.Good? ==> w.row.tier < |s.db.tiers| && w.row.tier !in s.tierLocks)
  }

  ghost predicate CanDeliver(s: State, d: nat, reply: Reply, id: string) {
    && d < |s.deliveries|
    && var w := s.deliveries[d];
    && !w.pc.Finished? && !w.pc.Crashed?
    && (reply.Taken? ==> w.pc.Claim?)
    && Unblocked(s, w, reply)
    && (w.pc.Mint? && reply.Good? ==> UnusedId(s, id))
  }

  function Unlocked(locks: map<nat, nat>, d: nat): map<nat, nat> {
    map k | k in locks && locks[k] != d :: locks[k]
  }

  /** Installs the transaction's row versions over whatever is committed now. */
  function Overlay(db: Db, w: Delivery): Db {
    Db(if w.tierWrite.Some? && w.row.tier < |db.tiers| then db.tiers[w.row.tier := w.tierWrite.value] else db.tiers,
       if w.rowWrite.Some? && w.p < |db.purchases| then db.purchases[w.p := w.rowWrite.value] else db.purchases,
       db.tickets + w.minted)
  }

  function AfterInsert(w: Delivery): Pc {
    if |w.minted| < w.row.quantity then Mint else Bump
  }

  /** The delivery after locking purchase `p`: its status decides what comes next. */
  function WithPurchase(w: Delivery, p: nat, row: Purchase): Delivery {
    w.(pc := if row.status == Completed then RollBack(AlreadyDone) else LockTier, p := p, row := row)
  }

  /** The delivery after locking its tier: the capacity check decides what comes next. */
  function WithTier(w: Delivery, tier: Tier): Delivery {
    w.(pc := if tier.sold + w.row.quantity > tier.capacity then MarkFailed else AfterInsert(w), tier := tier)
  }

  /** The delivery after its next write statement, against the row versions committed now. */
  function Written(db: Db, w: Delivery, id: string): Delivery {
    var row := if w.p < |db.purchases| then db.purchases[w.p] else w.row;
    var tier := if w.row.tier < |db.tiers| then db.tiers[w.row.tier] else w.tier;
    match w.pc
    case MarkFailed => w.(pc := CommitFailed, rowWrite := Some(row.(status := Failed)))
    case Mint =>
      var v := w.(minted := w.minted + [Ticket(id, w.row.tier, w.row.event, w.row.buyer, w.p, Valid, None)]);
      v.(pc := AfterInsert(v))
    case Bump => w.(pc := MarkCompleted, tierWrite := Some(tier.(sold := tier.sold + w.row.quantity)))
    case MarkCompleted => w.(pc := CommitMint, rowWrite := Some(row.(status := Completed)))
    case _ => w
  }

  predicate InTx(pc: Pc) {
    pc.LockPurchase? || pc.LockTier? || pc.MarkFailed? || pc.Mint? || pc.Bump? || pc.MarkCompleted?
  }

  predicate AtCommit(pc: Pc) {
    pc.CommitFailed? || pc.CommitMint?
  }

  /** The transaction is over: its private writes are gone. */
  function Left(w: Delivery, pc: Pc): Delivery {
    w.(pc := pc, minted := [], rowWrite := None, tierWrite := None)
  }

  /** A statement inside the transaction that succeeds. */
  function InTxMove(db: Db, w: Delivery, id: string): Delivery {
    if w.pc.LockPurchase? then
      match Find(db.purchases, w.intent)
      case None => w.(pc := RollBack(NotFound))
      case Some(p) => WithPurchase(w, p, db.purchases[p])
    else if w.pc.LockTier? then
      if w.row.tier < |db.tiers| then WithTier(w, db.tiers[w.row.tier]) else w
    else Written(db, w, id)
  }

  /** The round trips before the transaction and after it. */
  function OuterPc(w: Delivery, reply: Reply): Pc {
    match w.pc
    case Claim => if reply.Taken? then Finished(ClaimTaken) else Begin
    case Begin => if reply.Good? then LockPurchase else Release(DbError)
    case Invalidate => MarkDone(Created(w.row.quantity))
    case MarkDone(r) => if r.Created? then Issue else Finished(r)
    case Issue => Publish
    case Publish => Finished(Created(w.row.quantity))
    case Release(why) => Finished(why)
    case _ => w.pc
  }

  /** What a step makes of the delivery itself; any error inside the transaction leads to the rollback. */
  function Moved(db: Db, w: Delivery, reply: Reply, id: string): Delivery {
    if reply.Died? then Left(w, Crashed)
    else if InTx(w.pc) then
      if reply.Good? then InTxMove(db, w, id) else w.(pc := RollBack(DbError))
    else if AtCommit(w.pc) then
      Left(w, if !reply.Good? then Release(DbError) else if w.pc.CommitFailed? then Release(SoldOut) else Invalidate)
    else if w.pc.RollBack? then
      Left(w, if w.pc.why == AlreadyDone then MarkDone(AlreadyDone) else Release(w.pc.why))
    else w.(pc := OuterPc(w, reply))
  }

  /** What a step does to the state shared with others. */
  datatype Effect =
    | Nothing | TakeRow(p: nat) | TakeTier(t: nat) | EndTx | CommitTx | DropCached(t: nat) | Announce(p: nat)

  function EffectOf(db: Db, w: Delivery, reply: Reply): Effect {
    if reply.Died? || w.pc.RollBack? || (AtCommit(w.pc) && reply.Bad?) then EndTx
    else if AtCommit(w.pc) then CommitTx
    else if w.pc.LockPurchase? && reply.Good? && Find(db.purchases, w.intent).Some?
    then TakeRow(Find(db.purchases, w.intent).value)
    else if w.pc.LockTier? && reply.Good? then TakeTier(w.row.tier)
    else if w.pc.Invalidate? && !reply.Bad? then DropCached(w.row.tier)
    else if w.pc.Publish? && !reply.Bad? then Announce(w.p)
    else Nothing
  }

  function Apply(s: State, d: nat, w: Delivery, e: Effect): State {
    match e
    case Nothing => s
    case TakeRow(p) => s.(rowLocks := s.rowLocks[p := d])
    case TakeTier(t) => s.(tierLocks := s.tierLocks[t := d])
    case EndTx => s.(rowLocks := Unlocked(s.rowLocks, d), tierLocks := Unlocked(s.tierLocks, d))
    case CommitTx =>
      s.(db := Overlay(s.db, w), rowLocks := Unlocked(s.rowLocks, d), tierLocks := Unlocked(s.tierLocks, d))
    case DropCached(t) => s.(cache := s.cache - {t})
    case Announce(p) => s.(published := s.published + [p])
  }

  function DeliverStep(s: State, d: nat, reply: Reply, id: string): State
    requires d < |s.deliveries|
  {
    var w := s.deliveries[d];
    Apply(s, d, w, EffectOf(s.db, w, reply)).(deliveries := s.deliveries[d := Moved(s.db, w, reply, id)])
  }

  // ---------------------------------------------------------------- checkouts

  function HeldBy(buyer: nat, event: nat): Purchase -> int {
    (p: Purchase) => if p.buyer == buyer && p.event == event && p.status != Failed then p.quantity else 0
  }

  function Held(db: Db, buyer: nat, event: nat): int {
    Sum(db.purchases, HeldBy(buyer, event))
  }

  /** A non-positive quantity means one ticket. */
  function Wanted(quantity: int): int {
    if quantity <= 0 then 1 else quantity
  }

  ghost predicate CanBuy(s: State, c: nat, reply: Reply) {
    c < |s.checkouts| && !s.checkouts[c].pc.Bought? && !s.checkouts[c].pc.Rejected? && !reply.Taken?
  }

  function NewRow(c: Checkout): Purchase {
    Purchase(c.intent, c.buyer, c.event, c.tier, c.price * c.quantity, c.quantity, Pending)
  }

  /** The insert takes effect: it is executed and its intent is not already in the table. */
  predicate Inserts(db: Db, b: Checkout, reply: Reply) {
    b.pc.Insert? && (reply.Good? || reply.LostAck?) && Find(db.purchases, b.intent).None?
  }

  function BuyMove(db: Db, cap: int, b: Checkout, reply: Reply, intent: string): Checkout {
    if !reply.Good? then b.(pc := Rejected) else
    match b.pc
    case ReadTier =>
      if b.tier >= |db.tiers| then b.(pc := Rejected)
      else b.(pc := ReadHeld, event := db.tiers[b.tier].event, price := db.tiers[b.tier].price)
    case ReadHeld =>
      b.(pc := if Held(db, b.buyer, b.event) + b.quantity > cap then Rejected else CreateIntent)
    case CreateIntent => b.(pc := Insert, intent := intent)
    case Insert => b.(pc := if Inserts(db, b, reply) then Bought(|db.purchases|) else Rejected)
    case _ => b
  }

  function BuyStep(s: State, c: nat, reply: Reply, intent: string): State
    requires c < |s.checkouts|
  {
    var b := s.checkouts[c];
    s.(db := if Inserts(s.db, b, reply) then s.db.(purchases := s.db.purchases + [NewRow(b)]) else s.db,
       checkouts := s.checkouts[c := BuyMove(s.db, s.cap, b, reply, intent)])
  }

  // ---------------------------------------------------------------- inventory readers

  function Remaining(tier: Tier): int {
    if tier.capacity - tier.sold < 0 then 0 else tier.capacity - tier.sold
  }

  ghost predicate CanRead(s: State, r: nat, reply: Reply) {
    r < |s.readers| && !s.readers[r].pc.Served? && !s.readers[r].pc.Missing? && !reply.Taken?
  }

  function ReadStep(s: State, r: nat, reply: Reply): State
    requires r < |s.readers|
  {
    var q := s.readers[r];
    if reply.Died? then s.(readers := s.readers[r := q.(pc := Missing)]) else
    match q.pc
    case Get =>
      var pc := if reply.Good? && q.tier in s.cache then Served(s.cache[q.tier], true) else Select;
      s.(readers := s.readers[r := q.(pc := pc)])
    case Select =>
      var pc := if reply.Good? && q.tier < |s.db.tiers| then Fill(Remaining(s.db.tiers[q.tier])) else Missing;
      s.(readers := s.readers[r := q.(pc := pc)])
    case Fill(n) =>
      var s' := s.(readers := s.readers[r := q.(pc := Served(n, false))]);
      if reply.Bad? then s' else s'.(cache := s.cache[q.tier := n])
    case _ => s
  }

  // ---------------------------------------------------------------- the whole system

  ghost predicate Enabled(s: State, l: Label) {
    match l
    case Arrive(_) => true
    case Deliver(d, reply, id) => CanDeliver(s, d, reply, id)
    case Shop(_, _, _) => true
    case Buy(c, reply, _) => CanBuy(s, c, reply)
    case Look(_) => true
    case Read(r, reply) => CanRead(s, r, reply)
    case Refill(r) => r < |s.readers| && s.readers[r].pc.Fill?
    case Expire(_) => true
    case Other(op) => (op.AddTier? || op.SetToken? || op.MarkScanned? || op.Refund?) && Legal(s.db, op)
  }

  ghost function Next(s: State, l: Label): State
    requires Enabled(s, l)
  {
    match l
    case Arrive(intent) =>
      s.(deliveries := s.deliveries + [Delivery(intent, Claim, 0, NO_ROW, NO_TIER, [], None, None)])
    case Deliver(d, reply, id) => DeliverStep(s, d, reply, id)
    case Shop(buyer, tier, quantity) =>
      s.(checkouts := s.checkouts + [Checkout(buyer, tier, Wanted(quantity), ReadTier, 0, 0, "")])
    case Buy(c, reply, intent) => BuyStep(s, c, reply, intent)
    case Look(tier) => s.(readers := s.readers + [Reader(tier, Get)])
    case Read(r, reply) => ReadStep(s, r, reply)
    case Refill(r) => s.(cache := s.cache[s.readers[r].tier := s.readers[r].pc.remaining])
    case Expire(tier) => s.(cache := s.cache - {tier})
    case Other(op) => s.(db := Run(s.db, op))
  }

  /** The service starts on consistent tables, with nothing in flight and an empty cache. */
  ghost predicate Init(s: State) {
    DbInv(s.db) && s.rowLocks == map[] && s.tierLocks == map[] && s.deliveries == [] &&
    s.checkouts == [] && s.readers == [] && s.cache == map[] && s.published == []
  }

  ghost predicate StepAt(run: seq<State>, labels: seq<Label>, i: nat)
    requires |run| == |labels| + 1
  {
    i < |labels| && Enabled(run[i], labels[i]) && run[i + 1] == Next(run[i], labels[i])
  }

  ghost predicate IsRun(run: seq<State>, labels: seq<Label>) {
    && |run| == |labels| + 1
    && Init(run[0])
    && forall i :: 0 <= i < |labels| ==> StepAt(run, labels, i)
  }

  lemma {:induction false} RunPrefix(run: seq<State>, labels: seq<Label>)
    requires IsRun(run, labels) && |labels| > 0
    ensures IsRun(run[..|labels|], labels[..|labels| - 1])
  {
    var shorter, fewer := run[..|labels|], labels[..|labels| - 1];
    forall i | 0 <= i < |fewer| ensures StepAt(shorter, fewer, i) {
      assert StepAt(run, labels, i);
    }
  }

  lemma {:induction false} Extend(run: seq<State>, labels: seq<Label>, l: Label)
    returns (run': seq<State>, labels': seq<Label>)
    requires IsRun(run, labels) && Enabled(run[|labels|], l)
    ensures IsRun(run', labels') && run' == run + [Next(run[|labels|], l)] && labels' == labels + [l]
  {
    run', labels' := run + [Next(run[|labels|], l)], labels + [l];
    forall i | 0 <= i < |labels'| ensures StepAt(run', labels', i) {
      if i < |labels| {
        assert StepAt(run, labels, i);
      }
    }
  }
}
