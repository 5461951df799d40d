/** Why a webhook delivery reports what it reports, in every run: its answer traced to the step that settled it. */
module DeliveryOutcomes {
  import opened Options
  import opened Tables
  import opened Webhook
  import opened Protocol
  import opened Guarantees

  // ---------------------------------------------------------------- tracing a delivery back

  /** A delivery past its arrival, one step before. */
  lemma {:induction false} Before(run: seq<State>, labels: seq<Label>, i: nat, d: nat)
    requires IsRun(run, labels) && i < |run| && d < |run[i].deliveries| && !run[i].deliveries[d].pc.Claim?
    ensures i > 0 && d < |run[i - 1].deliveries|
    ensures run[i].deliveries[d].intent == run[i - 1].deliveries[d].intent
    ensures var s, l := run[i - 1], labels[i - 1];
            if l.Deliver? && l.d == d then run[i].deliveries[d] == Moved(s.db, s.deliveries[d], l.reply, l.id)
            else run[i].deliveries[d] == s.deliveries[d]
  {
    assert StepAt(run, labels, i - 1);
    if !labels[i - 1].Deliver? {
      OthersDoNotPublish(run[i - 1], labels[i - 1]);
    }
  }

  // ---------------------------------------------------------------- refusals and errors

  /** The delivery is on its way to report `why`, or has. */
  predicate Reports(pc: Pc, why: Outcome) {
    pc == RollBack(why) || pc == Release(why) || pc == Finished(why)
  }

  /** The step that decides to refuse: what was read, or which call failed. */
  ghost predicate Decides(db: Db, w: Delivery, reply: Reply, why: Outcome, db': Db) {
    match why
    case ClaimTaken => w.pc == Claim && reply.Taken?
    case NotFound => w.pc == LockPurchase && reply.Good? && Find(db.purchases, w.intent).None?
    case SoldOut => w.pc == CommitFailed && reply.Good? && IsRefused(db, w.intent, db')
    case DbError => (w.pc.Begin? || InTx(w.pc) || AtCommit(w.pc)) && !reply.Good?
    case _ => false
  }

  /** The intent's purchase did not fit, and is failed now. */
  ghost predicate IsRefused(db: Db, intent: string, db': Db) {
    match Find(db.purchases, intent)
    case None => false
    case Some(p) =>
      var row := db.purchases[p];
      && row.tier < |db.tiers| && db.tiers[row.tier].sold + row.quantity > db.tiers[row.tier].capacity
      && db' == db.(purchases := db.purchases[p := row.(status := Failed)])
  }

  lemma {:induction false} RefusalCommits(db: Db, rl: map<nat, nat>, tl: map<nat, nat>, d: nat, w: Delivery)
    requires DeliveryOk(db, rl, tl, d, w) && UniqueIntents(db) && w.pc == CommitFailed
    ensures IsRefused(db, w.intent, Overlay(db, w))
  {
    assert Find(db.purchases, w.intent) == Some(w.p);
    assert db.tickets + [] == db.tickets;
  }

  /** One step back from a refusal is the refusal on its way, or the step that decided it. */
  lemma {:induction false} DecidedOrPassedOn(db: Db, rl: map<nat, nat>, tl: map<nat, nat>, d: nat, w: Delivery,
                                             reply: Reply, id: string, why: Outcome)
    requires DeliveryOk(db, rl, tl, d, w) && UniqueIntents(db) && !why.Created? && !why.AlreadyDone?
    requires !Reports(w.pc, why) && Reports(Moved(db, w, reply, id).pc, why)
    requires !w.pc.Finished? && !w.pc.Crashed? && (reply.Taken? ==> w.pc.Claim?)
    ensures Decides(db, w, reply, why, if EffectOf(db, w, reply).CommitTx? then Overlay(db, w) else db)
  {
    if w.pc == CommitFailed {
      RefusalCommits(db, rl, tl, d, w);
    } else {
      OtherDecisions(db, w, reply, id, why);
    }
  }

  lemma {:induction false} OtherDecisions(db: Db, w: Delivery, reply: Reply, id: string, why: Outcome)
    requires w.pc.MarkDone? ==> w.pc.result.Created? || w.pc.result.AlreadyDone?
    requires w.pc != CommitFailed && !why.Created? && !why.AlreadyDone?
    requires !Reports(w.pc, why) && Reports(Moved(db, w, reply, id).pc, why)
    requires !w.pc.Finished? && !w.pc.Crashed? && (reply.Taken? ==> w.pc.Claim?)
    ensures !why.SoldOut? && forall db' :: Decides(db, w, reply, why, db')
  {
    assert !reply.Died? && !w.pc.RollBack? && !w.pc.Release?;
  }

  /** A delivery reports that its claim was taken, that its purchase was not found, that it is sold out, or an
      error, only after a step of its own at which just that was so: the key was there; the table had no such
      purchase; the purchase did not fit and was marked failed; a call of the transaction failed. */
  lemma {:induction false} RefusedBecause(run: seq<State>, labels: seq<Label>, i: nat, d: nat, why: Outcome)
    returns (m: nat)
    requires IsRun(run, labels) && i < |run| && d < |run[i].deliveries| && Reports(run[i].deliveries[d].pc, why)
    requires !why.Created? && !why.AlreadyDone?
    ensures m < i && d < |run[m].deliveries| && run[m].deliveries[d].intent == run[i].deliveries[d].intent
    ensures labels[m].Deliver? && labels[m].d == d
    ensures Decides(run[m].db, run[m].deliveries[d], labels[m].reply, why, run[m + 1].db)
    decreases i
  {
    Before(run, labels, i, d);
    if Reports(run[i - 1].deliveries[d].pc, why) {
      m := RefusedBecause(run, labels, i - 1, d, why);
    } else {
      m := i - 1;
      DecidedInRun(run, labels, m, d, why);
    }
  }

  lemma {:induction false} DecidedInRun(run: seq<State>, labels: seq<Label>, m: nat, d: nat, why: Outcome)
    requires IsRun(run, labels) && m < |labels| && labels[m].Deliver? && labels[m].d == d && d < |run[m].deliveries|
    requires Reports(Moved(run[m].db, run[m].deliveries[d], labels[m].reply, labels[m].id).pc, why)
    requires !why.Created? && !why.AlreadyDone?
    requires !Reports(run[m].deliveries[d].pc, why)
    ensures Decides(run[m].db, run[m].deliveries[d], labels[m].reply, why, run[m + 1].db)
  {
    InRun(run, labels, m, d);
    var s, l := run[m], labels[m];
    DecidedOrPassedOn(s.db, s.rowLocks, s.tierLocks, d, s.deliveries[d], l.reply, l.id, why);
  }

  lemma {:induction false} InRun(run: seq<State>, labels: seq<Label>, m: nat, d: nat)
    requires IsRun(run, labels) && m < |labels| && labels[m].Deliver? && labels[m].d == d && d < |run[m].deliveries|
    ensures Enabled(run[m], labels[m]) && run[m + 1] == Next(run[m], labels[m])
    ensures var s, l := run[m], labels[m]; var w := s.deliveries[d];
            && DeliveryOk(s.db, s.rowLocks, s.tierLocks, d, w) && UniqueIntents(s.db)
            && !w.pc.Finished? && !w.pc.Crashed? && (l.reply.Taken? ==> w.pc.Claim?)
            && run[m + 1].db == if EffectOf(s.db, w, l.reply).CommitTx? then Overlay(s.db, w) else s.db
  {
    assert StepAt(run, labels, m);
    Reachable(run, labels, m);
  }

  // ---------------------------------------------------------------- publication

  /** At step `m` some delivery publishes purchase `p`, whether or not it learns so. */
  ghost predicate PublishedAt(run: seq<State>, labels: seq<Label>, m: nat, p: nat) {
    m < |run| && m < |labels| && Publishes(run[m], labels[m], p)
  }

  ghost predicate Publishes(s: State, l: Label, p: nat) {
    && l.Deliver? && !l.reply.Bad? && !l.reply.Died? && l.d < |s.deliveries|
    && s.deliveries[l.d].pc == Publish && s.deliveries[l.d].p == p
  }

  /** A purchase is in the log exactly when some delivery that minted it has made the call that publishes it. */
  lemma {:induction false} PublishedIff(run: seq<State>, labels: seq<Label>, i: nat, p: nat)
    requires IsRun(run, labels) && i < |run|
    ensures p in run[i].published <==> exists m :: 0 <= m < i && PublishedAt(run, labels, m, p)
  {
    if i > 0 {
      PublishedIff(run, labels, i - 1, p);
      assert StepAt(run, labels, i - 1);
      LogStep(run[i - 1], labels[i - 1], p);
      assert PublishedAt(run, labels, i - 1, p) == Publishes(run[i - 1], labels[i - 1], p);
    }
  }

  lemma {:induction false} LogStep(s: State, l: Label, p: nat)
    requires Enabled(s, l)
    ensures p in Next(s, l).published <==> p in s.published || Publishes(s, l, p)
  {
    if !l.Deliver? {
      OthersDoNotPublish(s, l);
    }
  }

  /** A delivery that reports `Created` has been through that call: its purchase is in the log unless the call
      failed. */
  lemma {:induction false} CreatedCalledPublish(run: seq<State>, labels: seq<Label>, i: nat, d: nat) returns (m: nat)
    requires IsRun(run, labels) && i < |run| && d < |run[i].deliveries|
    requires run[i].deliveries[d].pc.Finished? && run[i].deliveries[d].pc.result.Created?
    ensures m < i && labels[m].Deliver? && labels[m].d == d && d < |run[m].deliveries|
    ensures run[m].deliveries[d].pc == Publish && run[m].deliveries[d].intent == run[i].deliveries[d].intent
    ensures !labels[m].reply.Bad? ==> run[m].deliveries[d].p in run[i].published
  {
    Before(run, labels, i, d);
    m := i - 1;
    if run[m].deliveries[d].pc == run[i].deliveries[d].pc {
      LogGrows(run, labels, m);
      m := CreatedCalledPublish(run, labels, m, d);
    } else {
      InRun(run, labels, m, d);
      var s, l := run[m], labels[m];
      FinishesByPublishing(s.db, s.rowLocks, s.tierLocks, d, s.deliveries[d], l.reply, l.id);
      LogStep(s, l, s.deliveries[d].p);
    }
  }

  lemma {:induction false} LogGrows(run: seq<State>, labels: seq<Label>, m: nat)
    requires IsRun(run, labels) && m < |labels|
    ensures forall p :: p in run[m].published ==> p in run[m + 1].published
  {
    assert StepAt(run, labels, m);
    forall p | p in run[m].published ensures p in run[m + 1].published {
      LogStep(run[m], labels[m], p);
    }
  }

  lemma {:induction false} FinishesByPublishing(db: Db, rl: map<nat, nat>, tl: map<nat, nat>, d: nat, w: Delivery,
                                                reply: Reply, id: string)
    requires DeliveryOk(db, rl, tl, d, w) && !w.pc.Finished?
    requires var pc := Moved(db, w, reply, id).pc; pc.Finished? && pc.result.Created?
    ensures w.pc == Publish && !reply.Died?
  {
  }
}
