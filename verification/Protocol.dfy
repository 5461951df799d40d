/**
 * What every interleaving of the payment system keeps, and the refinement it rests on: whatever
 * the deliveries do with their locks, private writes, crashes and lost replies, the committed
 * tables move only by the atomic operations of `Tables`.
 */
module Protocol {
  import opened Options
  import opened Tables
  import opened Webhook

  // ---------------------------------------------------------------- the invariant

  predicate HoldsRow(pc: Pc) {
    pc.LockTier? || HoldsTier(pc)
  }

  predicate HoldsTier(pc: Pc) {
    pc.MarkFailed? || pc.CommitFailed? || InMint(pc)
  }

  predicate InMint(pc: Pc) {
    pc.Mint? || pc.Bump? || pc.MarkCompleted? || pc.CommitMint?
  }

  /** The delivery has seen its own minting commit succeed. */
  predicate Settled(pc: Pc) {
    pc.Invalidate? || pc.Issue? || pc.Publish? ||
    (pc.MarkDone? && pc.result.Created?) || (pc.Finished? && pc.result.Created?)
  }

  /** The delivery has read `completed` under the row lock. */
  predicate SawCompleted(pc: Pc) {
    (pc.RollBack? && pc.why.AlreadyDone?) || (pc.MarkDone? && !pc.result.Created?) ||
    (pc.Finished? && pc.result.AlreadyDone?)
  }

  function Ids(ts: seq<Ticket>): seq<string> {
    seq(|ts|, i requires 0 <= i < |ts| => ts[i].id)
  }

  ghost predicate RowLocked(db: Db, locks: map<nat, nat>, d: nat, w: Delivery) {
    && w.p in locks && locks[w.p] == d
    && w.p < |db.purchases| && w.row == db.purchases[w.p]
    && w.row.intent == w.intent && w.row.status != Completed
  }

  ghost predicate TierLocked(db: Db, locks: map<nat, nat>, d: nat, w: Delivery) {
    && w.row.tier in locks && locks[w.row.tier] == d
    && w.row.tier < |db.tiers| && w.tier == db.tiers[w.row.tier]
  }

  /** The private writes are those of the statements already executed. */
  ghost predicate WritesOk(w: Delivery) {
    && (w.minted == NewTickets(Ids(w.minted), w.p, w.row))
    && (w.pc.Mint? ==> |w.minted| < w.row.quantity)
    && (w.pc.Bump? || w.pc.MarkCompleted? || w.pc.CommitMint? ==> |w.minted| == w.row.quantity)
    && (w.pc.LockTier? || w.pc.MarkFailed? || w.pc.CommitFailed? || w.pc.Mint? || w.pc.Bump? ==> w.tierWrite == None)
    && (w.pc.MarkCompleted? || w.pc.CommitMint? ==>
          w.tierWrite == Some(w.tier.(sold := w.tier.sold + w.row.quantity)))
    && (w.pc.CommitFailed? ==> w.rowWrite == Some(w.row.(status := Failed)))
    && (w.pc.CommitMint? ==> w.rowWrite == Some(w.row.(status := Completed)))
    && (w.pc.MarkFailed? || w.pc.CommitFailed? ==> w.tier.sold + w.row.quantity > w.tier.capacity)
    && (InMint(w.pc) ==> w.tier.sold + w.row.quantity <= w.tier.capacity)
  }

  ghost predicate Decided(db: Db, w: Delivery) {
    && w.p < |db.purchases| && db.purchases[w.p].status == Completed
    && db.purchases[w.p].intent == w.intent
    && (Settled(w.pc) ==> w.row == db.purchases[w.p].(status := w.row.status))
    && (w.pc.MarkDone? && w.pc.result.Created? ==> w.pc.result.minted == w.row.quantity)
    && (w.pc.Finished? && w.pc.result.Created? ==> w.pc.result.minted == w.row.quantity)
  }

  ghost predicate DeliveryOk(db: Db, rowLocks: map<nat, nat>, tierLocks: map<nat, nat>, d: nat, w: Delivery) {
    && (HoldsRow(w.pc) ==> RowLocked(db, rowLocks, d, w) && WritesOk(w))
    && (HoldsTier(w.pc) ==> TierLocked(db, tierLocks, d, w))
    && (!InMint(w.pc) && !w.pc.RollBack? ==> w.minted == [])
    && (!HoldsRow(w.pc) && !w.pc.RollBack? ==> w.rowWrite == None && w.tierWrite == None)
    && (Settled(w.pc) || SawCompleted(w.pc) ==> Decided(db, w))
    && (w.pc.RollBack? ==> !w.pc.why.Created?)
    && (w.pc.MarkDone? ==> w.pc.result.Created? || w.pc.result.AlreadyDone?)
    && (w.pc.Release? ==> !w.pc.why.Created? && !w.pc.why.AlreadyDone?)
  }

  ghost predicate DeliveriesOk(s: State) {
    forall d :: 0 <= d < |s.deliveries| ==> DeliveryOk(s.db, s.rowLocks, s.tierLocks, d, s.deliveries[d])
  }

  /** Only transactions still open hold locks, each on the rows it works on. */
  ghost predicate LocksOk(s: State) {
    && (forall p :: p in s.rowLocks ==>
          && s.rowLocks[p] < |s.deliveries|
          && var w := s.deliveries[s.rowLocks[p]];
          (HoldsRow(w.pc) && w.p == p) || w.pc.RollBack?)
    && (forall t :: t in s.tierLocks ==>
          && s.tierLocks[t] < |s.deliveries|
          && var w := s.deliveries[s.tierLocks[t]];
          (HoldsTier(w.pc) && w.row.tier == t) || w.pc.RollBack?)
  }

  ghost predicate NoClash(a: seq<Ticket>, b: seq<Ticket>) {
    forall i, j :: 0 <= i < |a| && 0 <= j < |b| ==> a[i].id != b[j].id
  }

  ghost predicate OwnIds(db: Db, w: Delivery) {
    && UniqueIds(w.minted) && NoClash(w.minted, db.tickets)
    && forall i :: 0 <= i < |w.minted| ==> w.minted[i].id != ""
  }

  ghost predicate IdsOk(s: State) {
    && (forall d :: 0 <= d < |s.deliveries| ==> OwnIds(s.db, s.deliveries[d]))
    && (forall d, e :: 0 <= d < |s.deliveries| && 0 <= e < |s.deliveries| && d != e ==>
          NoClash(s.deliveries[d].minted, s.deliveries[e].minted))
  }

  ghost predicate OneWinner(s: State) {
    forall d, e :: 0 <= d < |s.deliveries| && 0 <= e < |s.deliveries| && d != e &&
                   Settled(s.deliveries[d].pc) && Settled(s.deliveries[e].pc) ==>
      s.deliveries[d].p != s.deliveries[e].p
  }

  ghost predicate CheckoutOk(db: Db, b: Checkout) {
    && b.quantity > 0
    && (b.pc.ReadHeld? || b.pc.CreateIntent? || b.pc.Insert? ==>
          b.tier < |db.tiers| && b.event == db.tiers[b.tier].event && b.price == db.tiers[b.tier].price)
  }

  ghost predicate CheckoutsOk(s: State) {
    forall c :: 0 <= c < |s.checkouts| ==> CheckoutOk(s.db, s.checkouts[c])
  }

  ghost predicate ActorsOk(s: State) {
    DeliveriesOk(s) && LocksOk(s) && IdsOk(s) && OneWinner(s) && CheckoutsOk(s)
  }

  ghost predicate Inv(s: State) {
    DbInv(s.db) && ActorsOk(s)
  }

  // ---------------------------------------------------------------- refinement of the atomic operations

  /** The atomic operation a step commits, `NoOp` when it commits nothing. */
  ghost function OpOf(s: State, l: Label): Op
    requires Enabled(s, l)
  {
    match l
    case Deliver(d, reply, _) =>
      if Commits(s, d, reply) then Settle(s.deliveries[d].p, Ids(s.deliveries[d].minted)) else NoOp
    case Buy(c, reply, _) =>
      if Inserts(s.db, s.checkouts[c], reply) then AddPurchase(NewRow(s.checkouts[c])) else NoOp
    case Other(op) => op
    case _ => NoOp
  }

  predicate Commits(s: State, d: nat, reply: Reply)
    requires d < |s.deliveries|
  {
    EffectOf(s.db, s.deliveries[d], reply).CommitTx?
  }

  lemma {:induction false} FailCommitIsAtomic(db: Db, rowLocks: map<nat, nat>, tierLocks: map<nat, nat>, d: nat,
                                              w: Delivery)
    requires DeliveryOk(db, rowLocks, tierLocks, d, w) && w.pc.CommitFailed?
    ensures Legal(db, Settle(w.p, Ids(w.minted)))
    ensures Overlay(db, w) == SettleDb(db, w.p, Ids(w.minted))
  {
    assert db.tickets + [] == db.tickets;
  }

  lemma {:induction false} MintCommitIsAtomic(db: Db, rowLocks: map<nat, nat>, tierLocks: map<nat, nat>, d: nat,
                                              w: Delivery)
    requires DeliveryOk(db, rowLocks, tierLocks, d, w) && OwnIds(db, w) && w.pc.CommitMint?
    ensures Legal(db, Settle(w.p, Ids(w.minted)))
    ensures Overlay(db, w) == SettleDb(db, w.p, Ids(w.minted))
  {
  }

  lemma {:induction false} DeliverRefines(s: State, d: nat, reply: Reply, id: string)
    requires DeliveriesOk(s) && IdsOk(s) && CanDeliver(s, d, reply, id)
    ensures Legal(s.db, OpOf(s, Deliver(d, reply, id)))
    ensures DeliverStep(s, d, reply, id).db == Run(s.db, OpOf(s, Deliver(d, reply, id)))
  {
    var w := s.deliveries[d];
    if !Commits(s, d, reply) {
    } else if w.pc.CommitFailed? {
      FailCommitIsAtomic(s.db, s.rowLocks, s.tierLocks, d, w);
    } else {
      MintCommitIsAtomic(s.db, s.rowLocks, s.tierLocks, d, w);
    }
  }

  lemma {:induction false} BuyRefines(s: State, c: nat, reply: Reply, intent: string)
    requires CheckoutsOk(s) && RowsOk(s.db) && CanBuy(s, c, reply)
    ensures Legal(s.db, OpOf(s, Buy(c, reply, intent)))
    ensures BuyStep(s, c, reply, intent).db == Run(s.db, OpOf(s, Buy(c, reply, intent)))
  {
    var b := s.checkouts[c];
    assert CheckoutOk(s.db, b);
    if b.pc.Insert? {
      assert b.price * b.quantity >= 0;
    }
  }

  /** Serializability, one step: locks and private writes make each commit act as one decision
      taken on the tables as they are at the moment of the commit. */
  lemma {:induction false} StepRefines(s: State, l: Label)
    requires Inv(s) && Enabled(s, l)
    ensures Legal(s.db, OpOf(s, l)) && Next(s, l).db == Run(s.db, OpOf(s, l))
  {
    match l {
      case Deliver(d, reply, id) => DeliverRefines(s, d, reply, id);
      case Buy(c, reply, intent) => BuyRefines(s, c, reply, intent);
      case _ =>
    }
  }

  lemma {:induction false} StepMovesForward(s: State, l: Label)
    requires Inv(s) && Enabled(s, l)
    ensures Later(s.db, Next(s, l).db) && DbInv(Next(s, l).db)
  {
    StepRefines(s, l);
    OpMovesForward(s.db, OpOf(s, l));
    OpKeepsInv(s.db, OpOf(s, l));
  }

  // ---------------------------------------------------------------- a delivery's step keeps the invariant

  /** What the step of delivery `d` leaves alone: other deliveries, their locks, rows not locked by `d`. */
  ghost predicate LeavesOthers(s: State, s': State, d: nat) {
    && |s'.deliveries| == |s.deliveries|
    && (forall e :: 0 <= e < |s.deliveries| && e != d ==> s'.deliveries[e] == s.deliveries[e])
    && (forall p :: p in s.rowLocks && s.rowLocks[p] != d ==> p in s'.rowLocks && s'.rowLocks[p] == s.rowLocks[p])
    && (forall t :: t in s.tierLocks && s.tierLocks[t] != d ==> t in s'.tierLocks && s'.tierLocks[t] == s.tierLocks[t])
    && (forall p :: p in s'.rowLocks && s'.rowLocks[p] != d ==> p in s.rowLocks && s'.rowLocks[p] == s.rowLocks[p])
    && (forall t :: t in s'.tierLocks && s'.tierLocks[t] != d ==> t in s.tierLocks && s'.tierLocks[t] == s.tierLocks[t])
    && |s.db.purchases| <= |s'.db.purchases| && |s.db.tiers| <= |s'.db.tiers|
    && (forall p :: 0 <= p < |s.db.purchases| && p in s.rowLocks && s.rowLocks[p] != d ==>
          s'.db.purchases[p] == s.db.purchases[p])
    && (forall t :: 0 <= t < |s.db.tiers| && t in s.tierLocks && s.tierLocks[t] != d ==>
          s'.db.tiers[t] == s.db.tiers[t])
  }

  lemma {:induction false} EffectLeavesOthers(s: State, d: nat, w: Delivery, e: Effect)
    requires d < |s.deliveries|
    requires e.TakeRow? ==> e.p !in s.rowLocks
    requires e.TakeTier? ==> e.t !in s.tierLocks
    requires e.CommitTx? ==> w.p in s.rowLocks && s.rowLocks[w.p] == d
    requires e.CommitTx? && w.tierWrite.Some? ==> w.row.tier in s.tierLocks && s.tierLocks[w.row.tier] == d
    ensures LeavesOthers(s, Apply(s, d, w, e), d)
  {
  }

  lemma {:induction false} StepLeavesOthers(s: State, d: nat, reply: Reply, id: string)
    requires DeliveriesOk(s) && d < |s.deliveries| && Unblocked(s, s.deliveries[d], reply)
    ensures LeavesOthers(s, DeliverStep(s, d, reply, id), d)
  {
    var w := s.deliveries[d];
    assert DeliveryOk(s.db, s.rowLocks, s.tierLocks, d, w);
    EffectLeavesOthers(s, d, w, EffectOf(s.db, w, reply));
  }

  lemma {:induction false} OtherDeliveryOk(s: State, s': State, d: nat, e: nat)
    requires DeliveriesOk(s) && LeavesOthers(s, s', d) && Later(s.db, s'.db)
    requires e < |s.deliveries| && e != d
    ensures DeliveryOk(s'.db, s'.rowLocks, s'.tierLocks, e, s'.deliveries[e])
  {
    var w := s.deliveries[e];
    assert DeliveryOk(s.db, s.rowLocks, s.tierLocks, e, w);
    if Settled(w.pc) || SawCompleted(w.pc) {
      assert PurchaseEvolves(s.db.purchases[w.p], s'.db.purchases[w.p]);
    }
  }

  lemma {:induction false} OwnWrite(db: Db, rl: map<nat, nat>, tl: map<nat, nat>, d: nat, w: Delivery, id: string)
    requires DeliveryOk(db, rl, tl, d, w)
    requires w.pc.MarkFailed? || w.pc.Mint? || w.pc.Bump? || w.pc.MarkCompleted?
    ensures DeliveryOk(db, rl, tl, d, Written(db, w, id))
  {
    if w.pc.Mint? {
      var w' := Written(db, w, id);
      assert w'.minted == NewTickets(Ids(w'.minted), w.p, w.row);
    }
  }

  lemma {:induction false} OwnTx(db: Db, rl: map<nat, nat>, tl: map<nat, nat>, d: nat, w: Delivery, id: string)
    requires DeliveryOk(db, rl, tl, d, w) && RowsOk(db) && InTx(w.pc)
    ensures var e := EffectOf(db, w, Good);
            DeliveryOk(db, if e.TakeRow? then rl[e.p := d] else rl, if e.TakeTier? then tl[e.t := d] else tl,
                       d, InTxMove(db, w, id))
  {
    if w.pc.LockTier? {
      assert PurchaseOk(db.tiers, db.purchases[w.p]);
    } else if !w.pc.LockPurchase? {
      OwnWrite(db, rl, tl, d, w, id);
    }
  }

  lemma {:induction false} OwnTxError(db: Db, rl: map<nat, nat>, tl: map<nat, nat>, d: nat, w: Delivery)
    requires DeliveryOk(db, rl, tl, d, w) && InTx(w.pc)
    ensures DeliveryOk(db, rl, tl, d, w.(pc := RollBack(DbError)))
  {
  }

  lemma {:induction false} OwnCommit(db: Db, rl: map<nat, nat>, tl: map<nat, nat>, d: nat, w: Delivery, reply: Reply)
    requires DeliveryOk(db, rl, tl, d, w) && AtCommit(w.pc)
    ensures var db' := if EffectOf(db, w, reply).CommitTx? then Overlay(db, w) else db;
            DeliveryOk(db', Unlocked(rl, d), Unlocked(tl, d), d, Moved(db, w, reply, ""))
  {
  }

  lemma {:induction false} OwnOuter(db: Db, rl: map<nat, nat>, tl: map<nat, nat>, d: nat, w: Delivery, reply: Reply)
    requires DeliveryOk(db, rl, tl, d, w) && !InTx(w.pc) && !AtCommit(w.pc) && !w.pc.RollBack?
    ensures DeliveryOk(db, rl, tl, d, w.(pc := OuterPc(w, reply)))
  {
  }

  lemma {:induction false} OwnLeft(db: Db, rl: map<nat, nat>, tl: map<nat, nat>, d: nat, w: Delivery, reply: Reply,
                                   id: string)
    requires DeliveryOk(db, rl, tl, d, w) && (reply.Died? || w.pc.RollBack?)
    ensures DeliveryOk(db, Unlocked(rl, d), Unlocked(tl, d), d, Moved(db, w, reply, id))
  {
  }

  function RowLocksAfter(locks: map<nat, nat>, d: nat, e: Effect): map<nat, nat> {
    if e.TakeRow? then locks[e.p := d] else if e.EndTx? || e.CommitTx? then Unlocked(locks, d) else locks
  }

  function TierLocksAfter(locks: map<nat, nat>, d: nat, e: Effect): map<nat, nat> {
    if e.TakeTier? then locks[e.t := d] else if e.EndTx? || e.CommitTx? then Unlocked(locks, d) else locks
  }

  lemma {:induction false} OwnDeliveryOk(db: Db, rl: map<nat, nat>, tl: map<nat, nat>, d: nat, w: Delivery,
                                         reply: Reply, id: string)
    requires DeliveryOk(db, rl, tl, d, w) && RowsOk(db)
    ensures var e := EffectOf(db, w, reply);
            DeliveryOk(if e.CommitTx? then Overlay(db, w) else db, RowLocksAfter(rl, d, e), TierLocksAfter(tl, d, e),
                       d, Moved(db, w, reply, id))
  {
    if reply.Died? || w.pc.RollBack? {
      OwnLeft(db, rl, tl, d, w, reply, id);
    } else if InTx(w.pc) {
      if reply.Good? {
        OwnTx(db, rl, tl, d, w, id);
      } else {
        OwnTxError(db, rl, tl, d, w);
      }
    } else if AtCommit(w.pc) {
      OwnCommit(db, rl, tl, d, w, reply);
    } else {
      OwnOuter(db, rl, tl, d, w, reply);
    }
  }

  lemma {:induction false} EffectKeepsLocks(s: State, d: nat, w': Delivery, e: Effect)
    requires LocksOk(s) && d < |s.deliveries|
    requires e.TakeRow? ==> (HoldsRow(w'.pc) && w'.p == e.p) || w'.pc.RollBack?
    requires e.TakeTier? ==> HoldsTier(w'.pc) && w'.row.tier == e.t
    requires !e.EndTx? && !e.CommitTx? && !w'.pc.RollBack? ==>
               forall p :: p in s.rowLocks && s.rowLocks[p] == d ==> HoldsRow(w'.pc) && w'.p == p
    requires !e.EndTx? && !e.CommitTx? && !w'.pc.RollBack? ==>
               forall t :: t in s.tierLocks && s.tierLocks[t] == d ==> HoldsTier(w'.pc) && w'.row.tier == t
    ensures LocksOk(Apply(s, d, s.deliveries[d], e).(deliveries := s.deliveries[d := w']))
  {
  }

  lemma {:induction false} DeliverKeepsLocks(s: State, d: nat, reply: Reply, id: string)
    requires LocksOk(s) && d < |s.deliveries|
    requires s.deliveries[d].pc.LockTier? && reply.Good? ==> s.deliveries[d].row.tier < |s.db.tiers|
    ensures LocksOk(DeliverStep(s, d, reply, id))
  {
    var w := s.deliveries[d];
    EffectKeepsLocks(s, d, Moved(s.db, w, reply, id), EffectOf(s.db, w, reply));
  }

  lemma {:induction false} MintKeepsIdsOk(s: State, d: nat, id: string)
    requires IdsOk(s) && CanDeliver(s, d, Good, id) && s.deliveries[d].pc.Mint?
    ensures IdsOk(DeliverStep(s, d, Good, id))
  {
    var s' := DeliverStep(s, d, Good, id);
    forall e, f | 0 <= e < |s.deliveries| && 0 <= f < |s.deliveries| && e != f
      ensures NoClash(s'.deliveries[e].minted, s'.deliveries[f].minted)
    {
      assert NoClash(s.deliveries[e].minted, s.deliveries[f].minted);
    }
    forall e | 0 <= e < |s.deliveries| ensures OwnIds(s'.db, s'.deliveries[e]) {
      assert OwnIds(s.db, s.deliveries[e]);
    }
  }

  /** Emptying a delivery's private tickets, into the table or not, keeps ids apart. */
  lemma {:induction false} DropKeepsIdsOk(s: State, s': State, d: nat)
    requires IdsOk(s) && d < |s.deliveries| == |s'.deliveries|
    requires forall e :: 0 <= e < |s.deliveries| && e != d ==> s'.deliveries[e] == s.deliveries[e]
    requires s'.deliveries[d].minted == [] || s'.deliveries[d].minted == s.deliveries[d].minted
    requires s'.db.tickets == s.db.tickets ||
             (s'.db.tickets == s.db.tickets + s.deliveries[d].minted && s'.deliveries[d].minted == [])
    ensures IdsOk(s')
  {
    forall e | 0 <= e < |s.deliveries| ensures OwnIds(s'.db, s'.deliveries[e]) {
      assert OwnIds(s.db, s.deliveries[e]);
      if e != d {
        assert NoClash(s.deliveries[e].minted, s.deliveries[d].minted);
      }
    }
    forall e, f | 0 <= e < |s.deliveries| && 0 <= f < |s.deliveries| && e != f
      ensures NoClash(s'.deliveries[e].minted, s'.deliveries[f].minted)
    {
      assert NoClash(s.deliveries[e].minted, s.deliveries[f].minted);
    }
  }

  lemma {:induction false} DeliverKeepsIds(s: State, d: nat, reply: Reply, id: string)
    requires IdsOk(s) && DeliveriesOk(s) && CanDeliver(s, d, reply, id)
    ensures IdsOk(DeliverStep(s, d, reply, id))
  {
    if s.deliveries[d].pc.Mint? && reply.Good? {
      MintKeepsIdsOk(s, d, id);
    } else {
      assert DeliveryOk(s.db, s.rowLocks, s.tierLocks, d, s.deliveries[d]);
      DropKeepsIdsOk(s, DeliverStep(s, d, reply, id), d);
    }
  }

  /** Exactly one delivery wins: a commit that mints needs a purchase that is not yet completed. */
  lemma {:induction false} DeliverKeepsWinner(s: State, d: nat, reply: Reply, id: string)
    requires DeliveriesOk(s) && OneWinner(s) && d < |s.deliveries| && Unblocked(s, s.deliveries[d], reply)
    ensures OneWinner(DeliverStep(s, d, reply, id))
  {
    var s' := DeliverStep(s, d, reply, id);
    var w := s.deliveries[d];
    assert DeliveryOk(s.db, s.rowLocks, s.tierLocks, d, w);
    assert forall e :: 0 <= e < |s.deliveries| && e != d ==> s'.deliveries[e] == s.deliveries[e];
    if Settled(s'.deliveries[d].pc) && !Settled(w.pc) {
      assert w.pc.CommitMint? && s'.deliveries[d].p == w.p;
      forall e | 0 <= e < |s.deliveries| && e != d && Settled(s.deliveries[e].pc)
        ensures s.deliveries[e].p != w.p
      {
        assert DeliveryOk(s.db, s.rowLocks, s.tierLocks, e, s.deliveries[e]);
      }
    }
  }

  lemma {:induction false} CheckoutsStay(s: State, s': State)
    requires CheckoutsOk(s) && Later(s.db, s'.db) && s'.checkouts == s.checkouts
    ensures CheckoutsOk(s')
  {
    forall c | 0 <= c < |s.checkouts| ensures CheckoutOk(s'.db, s'.checkouts[c]) {
      var b := s.checkouts[c];
      assert CheckoutOk(s.db, b);
      if b.tier < |s.db.tiers| {
        assert TierEvolves(s.db.tiers[b.tier], s'.db.tiers[b.tier]);
      }
    }
  }

  lemma {:induction false} ApplyMeans(s: State, d: nat, w: Delivery, e: Effect)
    ensures var s' := Apply(s, d, w, e);
            && s'.db == (if e.CommitTx? then Overlay(s.db, w) else s.db)
            && s'.rowLocks == RowLocksAfter(s.rowLocks, d, e) && s'.tierLocks == TierLocksAfter(s.tierLocks, d, e)
  {
  }

  lemma {:induction false} OwnInState(s: State, d: nat, reply: Reply, id: string)
    requires RowsOk(s.db) && d < |s.deliveries|
    requires DeliveryOk(s.db, s.rowLocks, s.tierLocks, d, s.deliveries[d])
    ensures var s' := DeliverStep(s, d, reply, id);
            DeliveryOk(s'.db, s'.rowLocks, s'.tierLocks, d, s'.deliveries[d])
  {
    var w := s.deliveries[d];
    OwnDeliveryOk(s.db, s.rowLocks, s.tierLocks, d, w, reply, id);
    ApplyMeans(s, d, w, EffectOf(s.db, w, reply));
  }

  lemma {:induction false} DeliverKeepsDeliveries(s: State, d: nat, reply: Reply, id: string)
    requires DeliveriesOk(s) && RowsOk(s.db) && d < |s.deliveries| && Unblocked(s, s.deliveries[d], reply)
    requires Later(s.db, DeliverStep(s, d, reply, id).db)
    ensures DeliveriesOk(DeliverStep(s, d, reply, id))
  {
    var s' := DeliverStep(s, d, reply, id);
    StepLeavesOthers(s, d, reply, id);
    forall e | 0 <= e < |s'.deliveries|
      ensures DeliveryOk(s'.db, s'.rowLocks, s'.tierLocks, e, s'.deliveries[e])
    {
      if e != d {
        OtherDeliveryOk(s, s', d, e);
      } else {
        assert DeliveryOk(s.db, s.rowLocks, s.tierLocks, d, s.deliveries[d]);
        OwnInState(s, d, reply, id);
      }
    }
  }

  lemma {:induction false} DeliverKeepsTransactions(s: State, d: nat, reply: Reply, id: string)
    requires DeliveriesOk(s) && LocksOk(s) && RowsOk(s.db) && d < |s.deliveries| && Unblocked(s, s.deliveries[d], reply)
    requires Later(s.db, DeliverStep(s, d, reply, id).db)
    ensures DeliveriesOk(DeliverStep(s, d, reply, id)) && LocksOk(DeliverStep(s, d, reply, id))
  {
    DeliverKeepsDeliveries(s, d, reply, id);
    DeliverKeepsLocks(s, d, reply, id);
  }

  lemma {:induction false} DeliverKeepsRest(s: State, d: nat, reply: Reply, id: string)
    requires DeliveriesOk(s) && IdsOk(s) && OneWinner(s) && CheckoutsOk(s) && CanDeliver(s, d, reply, id)
    requires Later(s.db, DeliverStep(s, d, reply, id).db)
    ensures var s' := DeliverStep(s, d, reply, id); IdsOk(s') && OneWinner(s') && CheckoutsOk(s')
  {
    DeliverKeepsIds(s, d, reply, id);
    DeliverKeepsWinner(s, d, reply, id);
    CheckoutsStay(s, DeliverStep(s, d, reply, id));
  }

  lemma {:induction false} DeliverKeepsActors(s: State, d: nat, reply: Reply, id: string)
    requires ActorsOk(s) && RowsOk(s.db) && CanDeliver(s, d, reply, id)
    requires Later(s.db, DeliverStep(s, d, reply, id).db)
    ensures ActorsOk(DeliverStep(s, d, reply, id))
  {
    DeliverKeepsTransactions(s, d, reply, id);
    DeliverKeepsRest(s, d, reply, id);
  }

  // ---------------------------------------------------------------- the other steps keep it too

  lemma {:induction false} SameDeliveriesOk(s: State, s': State)
    requires DeliveriesOk(s) && Later(s.db, s'.db)
    requires s'.deliveries == s.deliveries && s'.rowLocks == s.rowLocks && s'.tierLocks == s.tierLocks
    requires forall p :: 0 <= p < |s.db.purchases| ==> s'.db.purchases[p] == s.db.purchases[p]
    requires forall t :: 0 <= t < |s.db.tiers| ==> s'.db.tiers[t] == s.db.tiers[t]
    ensures DeliveriesOk(s')
  {
    forall d | 0 <= d < |s'.deliveries|
      ensures DeliveryOk(s'.db, s'.rowLocks, s'.tierLocks, d, s'.deliveries[d])
    {
      assert DeliveryOk(s.db, s.rowLocks, s.tierLocks, d, s.deliveries[d]);
    }
  }

  lemma {:induction false} SameIdsOk(s: State, s': State)
    requires IdsOk(s) && s'.deliveries == s.deliveries && |s'.db.tickets| == |s.db.tickets|
    requires forall k :: 0 <= k < |s.db.tickets| ==> s'.db.tickets[k].id == s.db.tickets[k].id
    ensures IdsOk(s')
  {
    forall d | 0 <= d < |s'.deliveries| ensures OwnIds(s'.db, s'.deliveries[d]) {
      assert OwnIds(s.db, s.deliveries[d]);
    }
  }

  lemma {:induction false} ArriveKeepsActors(s: State, intent: string)
    requires ActorsOk(s)
    ensures ActorsOk(Next(s, Arrive(intent)))
  {
    var s' := Next(s, Arrive(intent));
    forall d | 0 <= d < |s'.deliveries|
      ensures DeliveryOk(s'.db, s'.rowLocks, s'.tierLocks, d, s'.deliveries[d])
      ensures OwnIds(s'.db, s'.deliveries[d])
    {
      if d < |s.deliveries| {
        assert DeliveryOk(s.db, s.rowLocks, s.tierLocks, d, s.deliveries[d]);
        assert OwnIds(s.db, s.deliveries[d]);
      }
    }
  }

  lemma {:induction false} BuyKeepsCheckouts(s: State, c: nat, reply: Reply, intent: string)
    requires CheckoutsOk(s) && CanBuy(s, c, reply) && Later(s.db, BuyStep(s, c, reply, intent).db)
    ensures CheckoutsOk(BuyStep(s, c, reply, intent))
  {
    CheckoutsStay(s, BuyStep(s, c, reply, intent).(checkouts := s.checkouts));
    assert CheckoutOk(s.db, s.checkouts[c]);
  }

  lemma {:induction false} BuyKeepsActors(s: State, c: nat, reply: Reply, intent: string)
    requires ActorsOk(s) && CanBuy(s, c, reply) && Later(s.db, BuyStep(s, c, reply, intent).db)
    ensures ActorsOk(BuyStep(s, c, reply, intent))
  {
    SameDeliveriesOk(s, BuyStep(s, c, reply, intent));
    SameIdsOk(s, BuyStep(s, c, reply, intent));
    BuyKeepsCheckouts(s, c, reply, intent);
  }

  lemma {:induction false} OtherKeepsActors(s: State, op: Op)
    requires ActorsOk(s) && Enabled(s, Other(op)) && Later(s.db, Run(s.db, op))
    ensures ActorsOk(s.(db := Run(s.db, op)))
  {
    var s' := s.(db := Run(s.db, op));
    SameDeliveriesOk(s, s');
    SameIdsOk(s, s');
    CheckoutsStay(s, s');
  }

  lemma {:induction false} QuietStep(s: State, l: Label)
    requires Enabled(s, l) && (l.Shop? || l.Look? || l.Read? || l.Refill? || l.Expire?)
    ensures var s' := Next(s, l);
            && s'.db == s.db && s'.deliveries == s.deliveries
            && s'.rowLocks == s.rowLocks && s'.tierLocks == s.tierLocks
            && (s'.checkouts == s.checkouts ||
                (l.Shop? &&
                 s'.checkouts == s.checkouts + [Checkout(l.buyer, l.tier, Wanted(l.quantity), ReadTier, 0, 0, "")]))
  {
  }

  lemma {:induction false} QuietKeepsActors(s: State, l: Label)
    requires ActorsOk(s) && Enabled(s, l) && (l.Shop? || l.Look? || l.Read? || l.Refill? || l.Expire?)
    ensures ActorsOk(Next(s, l))
  {
    QuietStep(s, l);
  }

  lemma {:induction false} StepKeepsActors(s: State, l: Label)
    requires ActorsOk(s) && RowsOk(s.db) && Enabled(s, l) && Later(s.db, Next(s, l).db)
    ensures ActorsOk(Next(s, l))
  {
    if l.Deliver? {
      DeliverKeepsActors(s, l.d, l.reply, l.id);
    } else if l.Buy? {
      BuyKeepsActors(s, l.c, l.reply, l.intent);
    } else if l.Other? {
      OtherKeepsActors(s, l.op);
    } else if l.Arrive? {
      ArriveKeepsActors(s, l.intent);
    } else {
      QuietKeepsActors(s, l);
    }
  }

  /** Every step of every actor keeps the invariant. */
  lemma {:induction false} StepKeepsInv(s: State, l: Label)
    requires Inv(s) && Enabled(s, l)
    ensures Inv(Next(s, l))
  {
    StepMovesForward(s, l);
    StepKeepsActors(s, l);
  }
}
