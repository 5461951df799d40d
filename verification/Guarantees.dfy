/** What holds over every run of the payment system, however its steps interleave. */
module Guarantees {
  import opened Options
  import opened Sums
  import opened Tables
  import opened Webhook
  import opened Protocol

  // ---------------------------------------------------------------- publication

  /** Minted, not yet past its one attempt to publish. */
  predicate WillPublish(pc: Pc) {
    Settled(pc) && !pc.Finished?
  }

  ghost predicate PublishedOk(s: State) {
    && (forall i :: 0 <= i < |s.published| ==>
          s.published[i] < |s.db.purchases| && s.db.purchases[s.published[i]].status == Completed)
    && (forall i, j :: 0 <= i < j < |s.published| ==> s.published[i] != s.published[j])
    && (forall d, i :: 0 <= d < |s.deliveries| && WillPublish(s.deliveries[d].pc) && 0 <= i < |s.published| ==>
          s.deliveries[d].p != s.published[i])
  }

  lemma {:induction false} PublishedStay(s: State, db: Db)
    requires PublishedOk(s) && Later(s.db, db)
    ensures PublishedOk(s.(db := db))
  {
    forall i | 0 <= i < |s.published|
      ensures s.published[i] < |db.purchases| && db.purchases[s.published[i]].status == Completed
    {
      assert PurchaseEvolves(s.db.purchases[s.published[i]], db.purchases[s.published[i]]);
    }
  }

  /** A delivery keeps the publication log straight if it announces only its own completed purchase,
      on leaving, and starts to owe an announcement only for a purchase that is not in the log. */
  lemma {:induction false} LogStays(s: State, d: nat, w': Delivery, log: seq<nat>)
    requires PublishedOk(s) && OneWinner(s) && d < |s.deliveries|
    requires var w := s.deliveries[d];
             && (log == s.published ||
                 (log == s.published + [w.p] && WillPublish(w.pc) && !WillPublish(w'.pc) &&
                  w.p < |s.db.purchases| && s.db.purchases[w.p].status == Completed))
             && (WillPublish(w'.pc) ==> (WillPublish(w.pc) && w'.p == w.p) || w'.p !in s.published)
    ensures PublishedOk(s.(deliveries := s.deliveries[d := w'], published := log))
  {
  }

  lemma {:induction false} MoveOwes(s: State, d: nat, reply: Reply, id: string)
    requires DeliveriesOk(s) && PublishedOk(s) && d < |s.deliveries|
    ensures var w := s.deliveries[d]; var w' := Moved(s.db, w, reply, id);
            WillPublish(w'.pc) ==> (WillPublish(w.pc) && w'.p == w.p) || w'.p !in s.published
  {
    assert DeliveryOk(s.db, s.rowLocks, s.tierLocks, d, s.deliveries[d]);
  }

  lemma {:induction false} DeliverKeepsPublished(s: State, d: nat, reply: Reply, id: string)
    requires DeliveriesOk(s) && OneWinner(s) && PublishedOk(s) && d < |s.deliveries|
    requires Later(s.db, DeliverStep(s, d, reply, id).db)
    ensures PublishedOk(DeliverStep(s, d, reply, id))
  {
    var s' := DeliverStep(s, d, reply, id);
    var w' := Moved(s.db, s.deliveries[d], reply, id);
    assert DeliveryOk(s.db, s.rowLocks, s.tierLocks, d, s.deliveries[d]);
    MoveOwes(s, d, reply, id);
    LogStays(s, d, w', s'.published);
    PublishedStay(s.(deliveries := s.deliveries[d := w'], published := s'.published), s'.db);
  }

  lemma {:induction false} OthersDoNotPublish(s: State, l: Label)
    requires Enabled(s, l) && !l.Deliver?
    ensures var s' := Next(s, l);
            && s'.published == s.published && |s.deliveries| <= |s'.deliveries|
            && (forall d :: 0 <= d < |s.deliveries| ==> s'.deliveries[d] == s.deliveries[d])
            && (forall d :: |s.deliveries| <= d < |s'.deliveries| ==> s'.deliveries[d].pc == Claim)
  {
  }

  lemma {:induction false} StepKeepsPublished(s: State, l: Label)
    requires DeliveriesOk(s) && OneWinner(s) && PublishedOk(s) && Enabled(s, l) && Later(s.db, Next(s, l).db)
    ensures PublishedOk(Next(s, l))
  {
    if l.Deliver? {
      DeliverKeepsPublished(s, l.d, l.reply, l.id);
    } else {
      OthersDoNotPublish(s, l);
      PublishedStay(s, Next(s, l).db);
    }
  }

  // ---------------------------------------------------------------- every reachable state

  lemma {:induction false} InitInv(s: State)
    requires Init(s)
    ensures Inv(s) && PublishedOk(s)
  {
  }

  lemma {:induction false} StepKeepsAll(s: State, l: Label)
    requires Inv(s) && PublishedOk(s) && Enabled(s, l)
    ensures Inv(Next(s, l)) && PublishedOk(Next(s, l)) && Later(s.db, Next(s, l).db)
  {
    StepKeepsInv(s, l);
    StepMovesForward(s, l);
    StepKeepsPublished(s, l);
  }

  /** The invariant holds in every reachable state. */
  lemma {:induction false} Reachable(run: seq<State>, labels: seq<Label>, i: nat)
    requires IsRun(run, labels) && i < |run|
    ensures Inv(run[i]) && PublishedOk(run[i])
  {
    if i == 0 {
      InitInv(run[0]);
    } else {
      Reachable(run, labels, i - 1);
      assert StepAt(run, labels, i - 1);
      StepKeepsAll(run[i - 1], labels[i - 1]);
    }
  }

  lemma {:induction false} RunStepForward(run: seq<State>, labels: seq<Label>, i: nat)
    requires IsRun(run, labels) && i < |labels|
    ensures Later(run[i].db, run[i + 1].db)
  {
    assert StepAt(run, labels, i);
    Reachable(run, labels, i);
    StepMovesForward(run[i], labels[i]);
  }

  /** The committed tables only ever move forward. */
  lemma {:induction false} RunMovesForward(run: seq<State>, labels: seq<Label>, i: nat, j: nat)
    requires IsRun(run, labels) && i <= j < |run|
    ensures Later(run[i].db, run[j].db)
    decreases j - i
  {
    if i < j {
      RunMovesForward(run, labels, i, j - 1);
      RunStepForward(run, labels, j - 1);
      LaterTransitive(run[i].db, run[j - 1].db, run[j].db);
    } else {
      LaterReflexive(run[i].db);
    }
  }

  // ---------------------------------------------------------------- serializability

  /** The atomic operations a run commits, in commit order. */
  ghost function History(run: seq<State>, labels: seq<Label>): seq<Op>
    requires IsRun(run, labels)
    decreases |labels|
  {
    if |labels| == 0 then []
    else
      var n := |labels| - 1;
      RunPrefix(run, labels);
      assert StepAt(run, labels, n);
      History(run[..n + 1], labels[..n]) + [OpOf(run[n], labels[n])]
  }

  /** Every interleaving leaves the tables as if its commits had been atomic operations executed
      one after the other in commit order. */
  lemma {:induction false} Serializable(run: seq<State>, labels: seq<Label>)
    requires IsRun(run, labels)
    ensures LegalAll(run[0].db, History(run, labels))
    ensures Replay(run[0].db, History(run, labels)) == run[|labels|].db
    decreases |labels|
  {
    if |labels| > 0 {
      var n := |labels| - 1;
      RunPrefix(run, labels);
      Serializable(run[..n + 1], labels[..n]);
      assert StepAt(run, labels, n);
      Reachable(run, labels, n);
      StepRefines(run[n], labels[n]);
      ReplayPush(run[0].db, History(run[..n + 1], labels[..n]), OpOf(run[n], labels[n]));
    }
  }

  // ---------------------------------------------------------------- exactly once, no oversell, failed is final

  /** At most one delivery per intent reports `Created`, with its purchase completed and the ticket
      count it reports in the table; "already done" read from the row is true. Redis is not involved. */
  lemma {:induction false} ExactlyOnce(run: seq<State>, labels: seq<Label>, i: nat, d: nat)
    requires IsRun(run, labels) && i < |run| && d < |run[i].deliveries|
    ensures var s := run[i]; var w := s.deliveries[d];
            && (w.pc.Finished? && w.pc.result.Created? ==>
                  && Find(s.db.purchases, w.intent) == Some(w.p)
                  && s.db.purchases[w.p].status == Completed
                  && w.pc.result.minted == Sum(s.db.tickets, OfPurchase(w.p)) == s.db.purchases[w.p].quantity
                  && forall e :: 0 <= e < |s.deliveries| && e != d && s.deliveries[e].intent == w.intent ==>
                       !Settled(s.deliveries[e].pc))
            && (w.pc.Finished? && w.pc.result.AlreadyDone? ==>
                  && Find(s.db.purchases, w.intent) == Some(w.p)
                  && s.db.purchases[w.p].status == Completed)
  {
    Reachable(run, labels, i);
    CreatedIsUnique(run[i], d);
  }

  lemma {:induction false} CreatedIsUnique(s: State, d: nat)
    requires DeliveriesOk(s) && OneWinner(s) && UniqueIntents(s.db) && ExactlyMinted(s.db) && d < |s.deliveries|
    ensures var w := s.deliveries[d];
            && (w.pc.Finished? && w.pc.result.Created? ==>
                  && Find(s.db.purchases, w.intent) == Some(w.p)
                  && s.db.purchases[w.p].status == Completed
                  && w.pc.result.minted == Sum(s.db.tickets, OfPurchase(w.p)) == s.db.purchases[w.p].quantity
                  && forall e :: 0 <= e < |s.deliveries| && e != d && s.deliveries[e].intent == w.intent ==>
                       !Settled(s.deliveries[e].pc))
            && (w.pc.Finished? && w.pc.result.AlreadyDone? ==>
                  && Find(s.db.purchases, w.intent) == Some(w.p)
                  && s.db.purchases[w.p].status == Completed)
  {
    var w := s.deliveries[d];
    assert DeliveryOk(s.db, s.rowLocks, s.tierLocks, d, w);
    if w.pc.Finished? && (w.pc.result.Created? || w.pc.result.AlreadyDone?) {
      var f := Find(s.db.purchases, w.intent);
      assert f == Some(w.p);
    }
    if w.pc.Finished? && w.pc.result.Created? {
      forall e | 0 <= e < |s.deliveries| && e != d && s.deliveries[e].intent == w.intent
        ensures !Settled(s.deliveries[e].pc)
      {
        assert DeliveryOk(s.db, s.rowLocks, s.tierLocks, e, s.deliveries[e]);
      }
    }
  }

  /** In every reachable state a purchase has exactly its quantity of tickets if completed and none otherwise. */
  lemma {:induction false} TicketsMatchPurchase(run: seq<State>, labels: seq<Label>, i: nat, p: nat)
    requires IsRun(run, labels) && i < |run| && p < |run[i].db.purchases|
    ensures var db := run[i].db;
            Sum(db.tickets, OfPurchase(p)) ==
            if db.purchases[p].status == Completed then db.purchases[p].quantity else 0
  {
    Reachable(run, labels, i);
  }

  /** In every reachable state and for every tier: `sold` counts the tickets of its completed
      purchases and its ticket rows, and fits; the version a transaction is about to commit fits too,
      so the CHECK constraints of the table never fire. */
  lemma {:induction false} NeverOversold(run: seq<State>, labels: seq<Label>, i: nat, t: nat)
    requires IsRun(run, labels) && i < |run| && t < |run[i].db.tiers|
    ensures var s := run[i]; var tier := s.db.tiers[t];
            && tier.sold == Sum(s.db.purchases, SoldTo(t)) == Sum(s.db.tickets, OfTier(t))
            && 0 <= tier.sold <= tier.capacity
            && forall d :: 0 <= d < |s.deliveries| && s.deliveries[d].pc.CommitMint? ==>
                 && s.deliveries[d].tierWrite.Some?
                 && 0 <= s.deliveries[d].tierWrite.value.sold <= s.deliveries[d].tierWrite.value.capacity
  {
    Reachable(run, labels, i);
    var s := run[i];
    forall d | 0 <= d < |s.deliveries| && s.deliveries[d].pc.CommitMint?
      ensures s.deliveries[d].tierWrite.Some?
      ensures 0 <= s.deliveries[d].tierWrite.value.sold <= s.deliveries[d].tierWrite.value.capacity
    {
      var w := s.deliveries[d];
      assert DeliveryOk(s.db, s.rowLocks, s.tierLocks, d, w);
      assert PurchaseOk(s.db.tiers, s.db.purchases[w.p]);
    }
  }

  /** In every reachable state what is shown as remaining and what is sold make up the capacity. */
  lemma {:induction false} RemainingIsLeft(run: seq<State>, labels: seq<Label>, i: nat, t: nat)
    requires IsRun(run, labels) && i < |run| && t < |run[i].db.tiers|
    ensures Remaining(run[i].db.tiers[t]) + run[i].db.tiers[t].sold == run[i].db.tiers[t].capacity
    ensures Remaining(run[i].db.tiers[t]) >= 0
  {
    NeverOversold(run, labels, i, t);
  }

  /** A purchase seen failed is failed ever after, and still does not fit: retries re-examine it in vain. */
  lemma {:induction false} FailedIsFinal(run: seq<State>, labels: seq<Label>, i: nat, j: nat, p: nat)
    requires IsRun(run, labels) && i <= j < |run|
    requires p < |run[i].db.purchases| && run[i].db.purchases[p].status == Failed
    ensures p < |run[j].db.purchases| && run[j].db.purchases[p].status == Failed
    ensures var db := run[j].db; var row := db.purchases[p];
            row.tier < |db.tiers| && db.tiers[row.tier].sold + row.quantity > db.tiers[row.tier].capacity
  {
    RunMovesForward(run, labels, i, j);
    Reachable(run, labels, j);
    assert PurchaseEvolves(run[i].db.purchases[p], run[j].db.purchases[p]);
    assert PurchaseOk(run[j].db.tiers, run[j].db.purchases[p]);
  }

  /** Each purchase is published at most once, and only when completed. */
  lemma {:induction false} PublishedOnce(run: seq<State>, labels: seq<Label>, i: nat)
    requires IsRun(run, labels) && i < |run|
    ensures var s := run[i];
            && (forall k :: 0 <= k < |s.published| ==>
                  s.published[k] < |s.db.purchases| && s.db.purchases[s.published[k]].status == Completed)
            && (forall k, m :: 0 <= k < m < |s.published| ==> s.published[k] != s.published[m])
  {
    Reachable(run, labels, i);
  }

  // ---------------------------------------------------------------- who issues the tokens

  /** The delivery has minted and is still to start the issuer. */
  predicate WillIssue(pc: Pc) {
    pc.Invalidate? || (pc.MarkDone? && pc.result.Created?) || pc.Issue?
  }

  lemma {:induction false} MoveOwesIssue(s: State, d: nat, reply: Reply, id: string, p: nat)
    requires DeliveriesOk(s) && d < |s.deliveries| && p < |s.db.purchases| && s.db.purchases[p].status == Completed
    requires WillIssue(s.deliveries[d].pc) ==> s.deliveries[d].p != p
    ensures var w' := Moved(s.db, s.deliveries[d], reply, id); WillIssue(w'.pc) ==> w'.p != p
  {
    assert DeliveryOk(s.db, s.rowLocks, s.tierLocks, d, s.deliveries[d]);
  }

  lemma {:induction false} StepOwesNoIssue(s: State, l: Label, p: nat)
    requires DeliveriesOk(s) && Enabled(s, l) && p < |s.db.purchases| && s.db.purchases[p].status == Completed
    requires forall d :: 0 <= d < |s.deliveries| && WillIssue(s.deliveries[d].pc) ==> s.deliveries[d].p != p
    ensures var s' := Next(s, l);
            forall d :: 0 <= d < |s'.deliveries| && WillIssue(s'.deliveries[d].pc) ==> s'.deliveries[d].p != p
  {
    if l.Deliver? {
      MoveOwesIssue(s, l.d, l.reply, l.id, p);
    } else {
      OthersDoNotPublish(s, l);
    }
  }

  /** Once a purchase is completed and the delivery that minted it is past issuing or dead, or never
      learned of its commit, no later delivery of any intent issues that purchase's tokens. */
  lemma {:induction false} NoLaterIssue(run: seq<State>, labels: seq<Label>, i: nat, j: nat, p: nat)
    requires IsRun(run, labels) && i <= j < |run|
    requires p < |run[i].db.purchases| && run[i].db.purchases[p].status == Completed
    requires forall d :: 0 <= d < |run[i].deliveries| && WillIssue(run[i].deliveries[d].pc) ==>
              run[i].deliveries[d].p != p
    ensures p < |run[j].db.purchases| && run[j].db.purchases[p].status == Completed
    ensures forall d :: 0 <= d < |run[j].deliveries| && WillIssue(run[j].deliveries[d].pc) ==>
              run[j].deliveries[d].p != p
    decreases j
  {
    if i < j {
      NoLaterIssue(run, labels, i, j - 1, p);
      Reachable(run, labels, j - 1);
      assert StepAt(run, labels, j - 1);
      StepOwesNoIssue(run[j - 1], labels[j - 1], p);
      RunStepForward(run, labels, j - 1);
      assert PurchaseEvolves(run[j - 1].db.purchases[p], run[j].db.purchases[p]);
    }
  }
}
