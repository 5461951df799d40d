/**
 * What one delivery brings about while nobody else moves and its transaction is answered: the answer the
 * tables called for when it arrived, and every effect that goes with it. The calls around the transaction
 * may fail as they like.
 */
module UndisturbedDelivery {
  import opened Options
  import opened Tables
  import opened Webhook
  import opened Protocol
  import opened Guarantees
  import opened Progress
  import opened PaymentService
  import opened WorstCase

  /** Delivery `d` moves; the claim is not taken, the process does not die, and the transaction is answered. */
  ghost predicate Undisturbed(s: State, l: Label, d: nat) {
    && l.Deliver? && l.d == d && d < |s.deliveries| && !l.reply.Taken? && !l.reply.Died?
    && (var pc := s.deliveries[d].pc; pc.Begin? || InTx(pc) || AtCommit(pc) || pc.RollBack? ==> l.reply.Good?)
  }

  /** The purchase of the intent, if there is one. */
  function RowOf(ps: seq<Purchase>, intent: string): nat {
    match Find(ps, intent)
    case None => 0
    case Some(p) => p
  }

  /** What the tables come to: the open purchase settled, or no change. */
  ghost predicate Concluded(db: Db, intent: string, db': Db)
    requires RowsOk(db)
  {
    if Open(db, intent) then
      var p := RowOf(db.purchases, intent);
      assert PurchaseOk(db.tiers, db.purchases[p]);
      exists ids :: Settles(db, p, ids, db')
    else db' == db
  }

  /** The delivery has minted the purchase it came for. */
  ghost predicate HasMinted(db: Db, w: Delivery)
    requires RowsOk(db)
  {
    && Find(db.purchases, w.intent) == Some(w.p)
    && w.row.tier == db.purchases[w.p].tier && IsVerdict(db, w.intent, Created(w.row.quantity))
  }

  /** How far the delivery has come since the tables were `db`, and where it left them. */
  ghost predicate Stage(db: Db, w: Delivery, db': Db)
    requires RowsOk(db)
  {
    match w.pc
    case RollBack(why) => db' == db && (why.NotFound? || why.AlreadyDone?) && IsVerdict(db, w.intent, why)
    case Release(why) => (why.NotFound? || why.SoldOut?) && IsVerdict(db, w.intent, why) && Concluded(db, w.intent, db')
    case MarkDone(r) =>
      && Concluded(db, w.intent, db')
      && (r == AlreadyDone || (r == Created(w.row.quantity) && HasMinted(db, w))) && IsVerdict(db, w.intent, r)
    case Finished(r) =>
      && Concluded(db, w.intent, db') && IsVerdict(db, w.intent, r) && (r.Created? ==> HasMinted(db, w))
    case Crashed => false
    case _ =>
      if w.pc.Invalidate? || w.pc.Issue? || w.pc.Publish? then HasMinted(db, w) && Concluded(db, w.intent, db')
      else db' == db
  }

  // ---------------------------------------------------------------- one step

  /** A statement of the transaction: the delivery has seen no more than the tables hold. */
  lemma {:induction false} StatementKeeps(db: Db, rl: map<nat, nat>, tl: map<nat, nat>, d: nat, w: Delivery, id: string)
    requires RowsOk(db) && DeliveryOk(db, rl, tl, d, w) && InTx(w.pc)
    ensures Stage(db, InTxMove(db, w, id), db) && InTxMove(db, w, id).intent == w.intent
  {
    if w.pc.LockTier? {
      assert PurchaseOk(db.tiers, db.purchases[w.p]);
    }
  }

  /** At its commit a delivery has decided as the tables call for. */
  lemma {:induction false} AtCommitKnows(db: Db, rl: map<nat, nat>, tl: map<nat, nat>, d: nat, w: Delivery)
    requires DeliveryOk(db, rl, tl, d, w) && UniqueIntents(db) && AtCommit(w.pc)
    ensures Find(db.purchases, w.intent) == Some(w.p)
    ensures w.row == db.purchases[w.p] && w.row.status != Completed && w.row.tier < |db.tiers|
    ensures w.pc.CommitMint? <==> db.tiers[w.row.tier].sold + w.row.quantity <= db.tiers[w.row.tier].capacity
    ensures w.pc.CommitMint? ==> |w.minted| == w.row.quantity
  {
  }

  lemma {:induction false} CommitSettles(db: Db, w: Delivery, db': Db)
    requires RowsOk(db) && Find(db.purchases, w.intent) == Some(w.p)
    requires db.purchases[w.p].status != Completed && db.purchases[w.p].tier < |db.tiers|
    requires Mints(db, w.p) ==> |w.minted| == db.purchases[w.p].quantity
    requires Legal(db, Settle(w.p, Ids(w.minted))) && db' == Run(db, Settle(w.p, Ids(w.minted)))
    ensures Concluded(db, w.intent, db')
  {
    assert Ids(w.minted)[..|w.minted|] == Ids(w.minted);
    assert Settles(db, w.p, Ids(w.minted), db');
  }

  lemma {:induction false} CommitConcludes(db: Db, rl: map<nat, nat>, tl: map<nat, nat>, d: nat, w: Delivery, db': Db)
    requires DeliveryOk(db, rl, tl, d, w) && RowsOk(db) && UniqueIntents(db) && AtCommit(w.pc)
    requires Legal(db, Settle(w.p, Ids(w.minted))) && db' == Run(db, Settle(w.p, Ids(w.minted)))
    ensures Stage(db, Moved(db, w, Good, ""), db')
  {
    AtCommitKnows(db, rl, tl, d, w);
    CommitSettles(db, w, db');
  }

  lemma {:induction false} CommitRefines(s: State, d: nat, id: string)
    requires Inv(s) && CanDeliver(s, d, Good, id) && AtCommit(s.deliveries[d].pc)
    ensures var op := Settle(s.deliveries[d].p, Ids(s.deliveries[d].minted));
            Legal(s.db, op) && DeliverStep(s, d, Good, id).db == Run(s.db, op)
  {
    StepRefines(s, Deliver(d, Good, id));
  }

  /** The steps before the transaction and after it. */
  lemma {:induction false} OuterKeeps(db: Db, w: Delivery, db': Db, reply: Reply)
    requires RowsOk(db) && Stage(db, w, db')
    requires !InTx(w.pc) && !AtCommit(w.pc) && !w.pc.RollBack? && !reply.Taken? && (w.pc.Begin? ==> reply.Good?)
    ensures Stage(db, w.(pc := OuterPc(w, reply)), db')
  {
  }

  lemma {:induction false} RollBackKeeps(db: Db, w: Delivery, db': Db)
    requires RowsOk(db) && Stage(db, w, db') && w.pc.RollBack?
    ensures Stage(db, Moved(db, w, Good, ""), db')
  {
  }

  lemma {:induction false} CommitStepKeeps(s: State, d: nat, id: string)
    requires Inv(s) && CanDeliver(s, d, Good, id) && AtCommit(s.deliveries[d].pc)
    ensures Stage(s.db, Moved(s.db, s.deliveries[d], Good, id), DeliverStep(s, d, Good, id).db)
  {
    CommitRefines(s, d, id);
    CommitConcludes(s.db, s.rowLocks, s.tierLocks, d, s.deliveries[d], DeliverStep(s, d, Good, id).db);
  }

  /** Each undisturbed step leaves the delivery where the tables it first found lead it. */
  lemma {:induction false} StepKeepsStage(db: Db, s: State, l: Label, d: nat)
    requires Inv(s) && Enabled(s, l) && Undisturbed(s, l, d)
    requires RowsOk(db) && Stage(db, s.deliveries[d], s.db)
    ensures Next(s, l).deliveries[d].intent == s.deliveries[d].intent
    ensures Stage(db, Next(s, l).deliveries[d], Next(s, l).db)
  {
    var w := s.deliveries[d];
    OnlyItself(s, d, l.reply, l.id);
    if InTx(w.pc) {
      StatementKeeps(s.db, s.rowLocks, s.tierLocks, d, w, l.id);
    } else if AtCommit(w.pc) {
      CommitStepKeeps(s, d, l.id);
    } else if w.pc.RollBack? {
      RollBackKeeps(db, w, s.db);
    } else {
      OuterKeeps(db, w, s.db, l.reply);
    }
  }

  // ---------------------------------------------------------------- the effects around the tables

  predicate PastInvalidate(pc: Pc) {
    pc.Issue? || pc.Publish? || (pc.MarkDone? && pc.result.Created?) || (pc.Finished? && pc.result.Created?)
  }

  /** The cached count is dropped and the purchase announced just when the delivery is past doing so. */
  ghost predicate Effects(s0: State, w: Delivery, s: State) {
    && s.cache == (if PastInvalidate(w.pc) then s0.cache - {w.row.tier} else s0.cache)
    && s.published == (if w.pc.Finished? && w.pc.result.Created? then s0.published + [w.p] else s0.published)
  }

  predicate HasPublished(pc: Pc) {
    pc.Finished? && pc.result.Created?
  }

  /** A delivery drops the count of the tier and announces the purchase that it has locked, each once. */
  lemma {:induction false} OwnEffects(db: Db, rl: map<nat, nat>, tl: map<nat, nat>, d: nat, w: Delivery, reply: Reply,
                                      id: string)
    requires DeliveryOk(db, rl, tl, d, w) && !Over(w.pc) && !reply.Died? && !reply.Taken?
    requires (reply.Bad? ==> w.pc.Claim?) && (AtCommit(w.pc) ==> reply.Good?)
    ensures var w', e := Moved(db, w, reply, id), EffectOf(db, w, reply);
            && (e.DropCached? <==> PastInvalidate(w'.pc) && !PastInvalidate(w.pc))
            && (PastInvalidate(w.pc) ==> PastInvalidate(w'.pc) && w'.row == w.row)
            && (e.DropCached? ==> e.t == w'.row.tier)
            && !HasPublished(w.pc) && (e.Announce? <==> HasPublished(w'.pc)) && (e.Announce? ==> e.p == w'.p)
  {
  }

  lemma {:induction false} StepKeepsEffects(s0: State, s: State, l: Label, d: nat)
    requires Undisturbed(s, l, d) && (l.reply.Bad? ==> s.deliveries[d].pc.Claim?) && !Over(s.deliveries[d].pc)
    requires Effects(s0, s.deliveries[d], s) && DeliveryOk(s.db, s.rowLocks, s.tierLocks, d, s.deliveries[d])
    ensures var s' := DeliverStep(s, d, l.reply, l.id); Effects(s0, s'.deliveries[d], s')
  {
    OwnEffects(s.db, s.rowLocks, s.tierLocks, d, s.deliveries[d], l.reply, l.id);
  }

  // ---------------------------------------------------------------- whole runs

  /** Delivery `d` arrives at step `i`, and until `j` nobody else moves and nothing disturbs it. */
  ghost predicate LeftAlone(run: seq<State>, labels: seq<Label>, i: nat, j: nat, d: nat) {
    && IsRun(run, labels) && i < j < |run| && labels[i].Arrive? && d == |run[i].deliveries|
    && forall m :: i < m < j ==> Undisturbed(run[m], labels[m], d)
  }

  /** An undisturbed delivery, whatever becomes of the claim and of the calls after the commit, is where the
      tables it found lead it: when it has finished, its answer is the one they called for, and an open
      purchase is settled, in one decision, before any later call. */
  lemma {:induction false} AnswersForTheTables(run: seq<State>, labels: seq<Label>, i: nat, j: nat, d: nat)
    requires LeftAlone(run, labels, i, j, d)
    ensures d < |run[j].deliveries| && run[j].deliveries[d].intent == labels[i].intent
    ensures RowsOk(run[i].db) && Stage(run[i].db, run[j].deliveries[d], run[j].db)
    ensures run[j].deliveries[d].pc.Finished? ==>
              && IsVerdict(run[i].db, labels[i].intent, run[j].deliveries[d].pc.result)
              && Concluded(run[i].db, labels[i].intent, run[j].db)
    decreases j
  {
    Guarantees.Reachable(run, labels, i);
    assert StepAt(run, labels, j - 1);
    if j > i + 1 {
      AnswersForTheTables(run, labels, i, j - 1, d);
      Guarantees.Reachable(run, labels, j - 1);
      StepKeepsStage(run[i].db, run[j - 1], labels[j - 1], d);
    }
  }

  /** If besides the claim no call errs, the cached count of the tier is dropped and the purchase published
      exactly when the delivery reports to have minted it. */
  lemma {:induction false} EffectsFollow(run: seq<State>, labels: seq<Label>, i: nat, j: nat, d: nat)
    requires LeftAlone(run, labels, i, j, d)
    requires forall m :: i < m < j && d < |run[m].deliveries| && labels[m].Deliver? && labels[m].reply.Bad? ==>
               run[m].deliveries[d].pc.Claim?
    ensures d < |run[j].deliveries| && Effects(run[i], run[j].deliveries[d], run[j])
    decreases j
  {
    assert StepAt(run, labels, j - 1);
    if j > i + 1 {
      EffectsFollow(run, labels, i, j - 1, d);
      Guarantees.Reachable(run, labels, j - 1);
      StepKeepsEffects(run[i], run[j - 1], labels[j - 1], d);
    }
  }

  // ---------------------------------------------------------------- it does finish

  lemma {:induction false} OneMore(run: seq<State>, labels: seq<Label>, i: nat, d: nat, l: Label)
    returns (run': seq<State>, labels': seq<Label>)
    requires LeftAlone(run, labels, i, |labels|, d) && Enabled(run[|labels|], l) && Undisturbed(run[|labels|], l, d)
    ensures run' == run + [Next(run[|labels|], l)] && labels' == labels + [l]
    ensures LeftAlone(run', labels', i, |labels'|, d)
  {
    run', labels' := Extend(run, labels, l);
    forall m | i < m < |labels'| ensures Undisturbed(run'[m], labels'[m], d) {
      if m < |labels| {
        assert run'[m] == run[m] && labels'[m] == labels[m] && Undisturbed(run[m], labels[m], d);
      }
    }
  }

  /** The only delivery in flight goes on to its end. */
  lemma {:induction false} RunsToItsEnd(run: seq<State>, labels: seq<Label>, i: nat, d: nat, most: nat)
    returns (run': seq<State>, labels': seq<Label>)
    requires LeftAlone(run, labels, i, |labels|, d) && d < |run[|labels|].deliveries|
    requires AtMost(run[|labels|].db.purchases, most)
    requires forall e :: 0 <= e < |run[|labels|].deliveries| && e != d ==> Over(run[|labels|].deliveries[e].pc)
    ensures run <= run' && labels <= labels' && LeftAlone(run', labels', i, |labels'|, d)
    ensures forall m :: |labels| <= m < |labels'| ==> labels'[m].Deliver? && labels'[m].reply.Good?
    ensures d < |run'[|labels'|].deliveries| && run'[|labels'|].deliveries[d].pc.Finished?
    decreases StepsLeft(run[|labels|].deliveries[d], most)
  {
    var n := |labels|;
    var s := run[n];
    Guarantees.Reachable(run, labels, n);
    AnswersForTheTables(run, labels, i, n, d);
    if Over(s.deliveries[d].pc) {
      run', labels' := run, labels;
    } else {
      var l := GoesOn(s, d, most);
      var run1, labels1 := OneMore(run, labels, i, d, l);
      run', labels' := RunsToItsEnd(run1, labels1, i, d, most);
    }
  }

  lemma {:induction false} GoesOn(s: State, d: nat, most: nat) returns (l: Label)
    requires Inv(s) && d < |s.deliveries| && !Over(s.deliveries[d].pc) && AtMost(s.db.purchases, most)
    requires forall e :: 0 <= e < |s.deliveries| && e != d ==> Over(s.deliveries[e].pc)
    ensures Enabled(s, l) && Undisturbed(s, l, d) && l.reply.Good?
    ensures var s' := Next(s, l);
            && AtMost(s'.db.purchases, most) && |s'.deliveries| == |s.deliveries|
            && (forall e :: 0 <= e < |s.deliveries| && e != d ==> s'.deliveries[e] == s.deliveries[e])
            && StepsLeft(s'.deliveries[d], most) < StepsLeft(s.deliveries[d], most)
  {
    l := Deliver(d, Good, NewId(s));
    AloneIsFree(s, d);
    assert DeliveryOk(s.db, s.rowLocks, s.tierLocks, d, s.deliveries[d]);
    if s.deliveries[d].pc.LockTier? {
      TierExists(s, d);
    }
    MoveDescends(s.db, s.rowLocks, s.tierLocks, d, s.deliveries[d], Good, l.id, most);
    OnlyItself(s, d, Good, l.id);
    StepMovesForward(s, l);
    SizesStay(s, d, Good, l.id, most);
  }

  /** Whatever becomes of its claim, unless the key is taken, a delivery that meets nobody in flight can be
      answered to its end; then it has said what the tables called for, settled an open purchase, and, if it
      minted, dropped the cached count and published the purchase. */
  lemma {:induction false} DeliversAlone(run: seq<State>, labels: seq<Label>, intent: string, claim: Reply)
    returns (run': seq<State>, labels': seq<Label>, d: nat)
    requires IsRun(run, labels) && Calm(run[|labels|]) && !claim.Taken? && !claim.Died?
    ensures run <= run' && IsRun(run', labels') && |labels'| > |labels| + 1
    ensures labels'[..|labels| + 2] == labels + [Arrive(intent), Deliver(d, claim, "")]
    ensures var s, s' := run[|labels|], run'[|labels'|];
            && d < |s'.deliveries| && s'.deliveries[d].intent == intent && s'.deliveries[d].pc.Finished?
            && RowsOk(s.db) && IsVerdict(s.db, intent, s'.deliveries[d].pc.result) && Concluded(s.db, intent, s'.db)
            && Effects(s, s'.deliveries[d], s')
  {
    var run2, labels2;
    run2, labels2, d := Claims(run, labels, intent, claim);
    run', labels' := RunsToItsEnd(run2, labels2, |labels|, d, MostOf(run[|labels|].db.purchases));
    assert labels'[..|labels2|] == labels2 && run'[|labels|] == run[|labels|];
    AnswersForTheTables(run', labels', |labels|, |labels'|, d);
    EffectsFollow(run', labels', |labels|, |labels'|, d);
  }

  lemma {:induction false} Claims(run: seq<State>, labels: seq<Label>, intent: string, claim: Reply)
    returns (run': seq<State>, labels': seq<Label>, d: nat)
    requires IsRun(run, labels) && Calm(run[|labels|]) && !claim.Taken? && !claim.Died?
    ensures run <= run' && labels' == labels + [Arrive(intent), Deliver(d, claim, "")]
    ensures LeftAlone(run', labels', |labels|, |labels'|, d)
    ensures var s, s' := run[|labels|], run'[|labels'|];
            && |s'.deliveries| == d + 1 && s'.deliveries[d].pc == Begin && s'.db == s.db
            && forall e :: 0 <= e < d ==> Over(s'.deliveries[e].pc)
    ensures run'[|labels| + 1].deliveries[d].pc == Claim
  {
    d := |run[|labels|].deliveries|;
    var run1, labels1 := Extend(run, labels, Arrive(intent));
    run', labels' := Extend(run1, labels1, Deliver(d, claim, ""));
  }
}
