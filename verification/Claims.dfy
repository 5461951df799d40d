/**
 * The claim keys under the webhook deliveries: the payment system together with the real store and
 * one clock. Here the store answers truthfully, so the answer "already done" from it can be judged.
 * The client of the store sends a command again when its reply is lost, so a claim may be applied and
 * then asked for once more.
 */
module Claims {
  import opened Tables
  import opened Webhook
  import opened Protocol
  import opened ExpiringKeys

  /** `calls` are the calls on the store that took effect, `who` the deliveries that made them,
      `failedDels` the deliveries whose release did not reach the store, `resent` those that sent their
      claim again. */
  datatype State = State(sys: Webhook.State, calls: seq<Call>, who: seq<nat>, failedDels: set<nat>, resent: set<nat>,
                         now: int)

  /** `Resend`: the delivery's call takes effect, its reply is lost, and the client will send it again. */
  datatype Label = Act(act: Webhook.Label) | Tick(ms: nat) | Resend(d: nat)

  function KeysOf(s: State): Keys {
    AfterAll(map[], s.calls, CLAIM_TTL)
  }

  /** The calls a step of delivery `w` makes on the store; a lost reply has its effect all the same. */
  function CallsOf(w: Delivery, reply: Reply, now: int): seq<Call> {
    if reply.Bad? || reply.Died? then []
    else if w.pc.Claim? then [Call.Acquire(w.intent, now)]
    else if w.pc.MarkDone? then [Call.MarkDone(w.intent, now)]
    else if w.pc.Release? then [Call.Release(w.intent, now)]
    else []
  }

  /** SETNX answers as the store stands. */
  ghost predicate Truthful(s: State, w: Delivery, reply: Reply) {
    w.pc.Claim? ==>
      && (reply.Taken? ==> Live(KeysOf(s), w.intent, s.now))
      && (reply.Good? ==> !Live(KeysOf(s), w.intent, s.now))
  }

  ghost predicate Enabled(s: State, l: Label) {
    match l
    case Tick(_) => true
    case Resend(d) => d < |s.sys.deliveries| && CallsOf(s.sys.deliveries[d], Good, s.now) != []
    case Act(act) =>
      Webhook.Enabled(s.sys, act) && (act.Deliver? ==> Truthful(s, s.sys.deliveries[act.d], act.reply))
  }

  ghost function Next(s: State, l: Label): State
    requires Enabled(s, l)
  {
    match l
    case Tick(ms) => s.(now := s.now + ms)
    case Resend(d) =>
      var w := s.sys.deliveries[d];
      s.(calls := s.calls + CallsOf(w, Good, s.now), who := s.who + [d],
         resent := if w.pc.Claim? then s.resent + {d} else s.resent)
    case Act(act) =>
      var s' := s.(sys := Webhook.Next(s.sys, act));
      if !act.Deliver? then s'
      else
        var w := s.sys.deliveries[act.d];
        var calls := CallsOf(w, act.reply, s.now);
        s'.(calls := s.calls + calls, who := s.who + seq(|calls|, _ => act.d),
            failedDels := s.failedDels + (if w.pc.Release? && act.reply.Bad? then {act.d} else {}))
  }

  /** Nothing in flight and no key set. */
  ghost predicate Init(s: State) {
    Webhook.Init(s.sys) && s.calls == [] && s.who == [] && s.failedDels == {} && s.resent == {}
  }

  ghost predicate StepAt(run: seq<State>, labels: seq<Label>, i: nat)
    requires |run| == |labels| + 1
  {
    i < |labels| && Enabled(run[i], labels[i]) && run[i + 1] == Next(run[i], labels[i])
  }

  ghost predicate IsRun(run: seq<State>, labels: seq<Label>) {
    && |run| == |labels| + 1
    && Init(run[0])
    && forall i :: 0 <= i < |labels| ==> StepAt(run, labels, i)
  }

  // ---------------------------------------------------------------- the invariant

  /** The purchase of this intent is completed. */
  ghost predicate Done(db: Db, intent: string) {
    exists p :: 0 <= p < |db.purchases| && db.purchases[p].intent == intent && db.purchases[p].status == Completed
  }

  ghost predicate LogOk(s: State) {
    && |s.who| == |s.calls| && Timely(s.calls)
    && forall i :: 0 <= i < |s.calls| ==>
         && s.calls[i].now <= s.now
         && s.who[i] < |s.sys.deliveries| && s.sys.deliveries[s.who[i]].intent == s.calls[i].intent
  }

  ghost predicate MarksOk(s: State) {
    forall i :: 0 <= i < |s.calls| && s.calls[i].MarkDone? ==> Done(s.sys.db, s.calls[i].intent)
  }

  /** The delivery has ended with an error. */
  predicate Failed(pc: Pc) {
    pc.Finished? && (pc.result.NotFound? || pc.result.SoldOut? || pc.result.DbError?)
  }

  ghost predicate ReleasedAfter(s: State, i: nat, d: nat)
    requires |s.who| == |s.calls|
  {
    exists r :: i < r < |s.calls| && s.calls[r].Release? && s.who[r] == d
  }

  ghost predicate GrantedTo(s: State, i: nat)
    requires i < |s.calls|
  {
    Granted(AfterAll(map[], s.calls[..i], CLAIM_TTL), s.calls[i])
  }

  /** The answers a delivery past claiming can be on its way to give. */
  predicate PastClaim(pc: Pc) {
    && !pc.Claim? && pc != Finished(ClaimTaken)
    && (pc.RollBack? ==> !pc.why.ClaimTaken? && !pc.why.Created?)
    && (pc.Release? ==> pc.why.NotFound? || pc.why.SoldOut? || pc.why.DbError?)
    && (pc.MarkDone? ==> pc.result.Created? || pc.result.AlreadyDone?)
  }

  /** A delivery with a granted claim is past claiming, or sent the claim again; if it failed it released
      the claim or its Del failed. */
  ghost predicate HolderOk(s: State, i: nat)
    requires LogOk(s) && i < |s.calls|
  {
    var pc := s.sys.deliveries[s.who[i]].pc;
    && (PastClaim(pc) || (s.who[i] in s.resent && (pc.Claim? || pc == Finished(ClaimTaken))))
    && (Failed(pc) ==> s.who[i] in s.failedDels || ReleasedAfter(s, i, s.who[i]))
  }

  ghost predicate HoldersOk(s: State)
    requires LogOk(s)
  {
    forall i :: 0 <= i < |s.calls| && GrantedTo(s, i) ==> HolderOk(s, i)
  }

  ghost predicate Inv(s: State) {
    Protocol.Inv(s.sys) && LogOk(s) && MarksOk(s) && HoldersOk(s)
  }

  // ---------------------------------------------------------------- every step keeps it

  lemma {:induction false} DoneStays(a: Db, b: Db, intent: string)
    requires Done(a, intent) && Later(a, b)
    ensures Done(b, intent)
  {
    var p :| 0 <= p < |a.purchases| && a.purchases[p].intent == intent && a.purchases[p].status == Completed;
    assert PurchaseEvolves(a.purchases[p], b.purchases[p]);
  }

  /** Whoever marks a claim done has its purchase completed. */
  lemma {:induction false} MarkerIsDone(s: Webhook.State, d: nat)
    requires DeliveriesOk(s) && d < |s.deliveries| && s.deliveries[d].pc.MarkDone?
    ensures Done(s.db, s.deliveries[d].intent)
  {
    assert DeliveryOk(s.db, s.rowLocks, s.tierLocks, d, s.deliveries[d]);
  }

  /** Steps other than a delivery's leave the deliveries there are alone. */
  lemma {:induction false} OthersKeepDeliveries(s: Webhook.State, act: Webhook.Label)
    requires Webhook.Enabled(s, act) && !act.Deliver?
    ensures |s.deliveries| <= |Webhook.Next(s, act).deliveries|
    ensures forall d :: 0 <= d < |s.deliveries| ==> Webhook.Next(s, act).deliveries[d] == s.deliveries[d]
  {
  }

  lemma {:induction false} LogStays(s: State, l: Label)
    requires LogOk(s) && Enabled(s, l)
    ensures LogOk(Next(s, l))
  {
    if l.Act? && !l.act.Deliver? {
      OthersKeepDeliveries(s.sys, l.act);
    } else if l.Act? {
      MoveKeepsIntent(s.sys.db, s.sys.deliveries[l.act.d], l.act.reply, l.act.id);
    }
  }

  lemma {:induction false} MoveKeepsIntent(db: Db, w: Delivery, reply: Reply, id: string)
    ensures Moved(db, w, reply, id).intent == w.intent
  {
  }

  lemma {:induction false} MarksStay(s: State, l: Label)
    requires MarksOk(s) && DeliveriesOk(s.sys) && Enabled(s, l) && Later(s.sys.db, Next(s, l).sys.db)
    ensures MarksOk(Next(s, l))
  {
    var s' := Next(s, l);
    forall i | 0 <= i < |s'.calls| && s'.calls[i].MarkDone? ensures Done(s'.sys.db, s'.calls[i].intent) {
      if i >= |s.calls| {
        MarkerIsDone(s.sys, if l.Act? then l.act.d else l.d);
      }
      DoneStays(s.sys.db, s'.sys.db, s'.calls[i].intent);
    }
  }

  lemma {:induction false} GrantStays(s: State, s': State, i: nat)
    requires s.calls <= s'.calls && i < |s.calls|
    ensures GrantedTo(s', i) == GrantedTo(s, i)
  {
    assert s'.calls[..i] == s.calls[..i];
  }

  /** A delivery past claiming stays so, and ends in failure only from its release. */
  lemma {:induction false} MovePastClaim(db: Db, w: Delivery, reply: Reply, id: string)
    requires (PastClaim(w.pc) || w.pc.Claim?) && !w.pc.Finished? && !w.pc.Crashed? && (reply.Taken? ==> w.pc.Claim?)
    ensures PastClaim(Moved(db, w, reply, id).pc) || (w.pc.Claim? && Moved(db, w, reply, id).pc == Finished(ClaimTaken))
    ensures Failed(Moved(db, w, reply, id).pc) ==> w.pc.Release? && !reply.Died?
  {
  }

  /** A grant just given goes to a delivery that is about to begin or to ask again. */
  lemma {:induction false} NewHolderOk(s: State, l: Label, i: nat)
    requires LogOk(s) && Enabled(s, l) && |s.calls| <= i < |Next(s, l).calls| && GrantedTo(Next(s, l), i)
    requires LogOk(Next(s, l))
    ensures HolderOk(Next(s, l), i)
  {
    var s' := Next(s, l);
    assert s'.calls[..i] == s.calls;
    if l.Act? {
      assert s'.sys.deliveries[l.act.d] == Moved(s.sys.db, s.sys.deliveries[l.act.d], l.act.reply, l.act.id);
    }
  }

  lemma {:induction false} OldHolderOk(s: State, l: Label, i: nat)
    requires Enabled(s, l) && LogOk(s) && LogOk(Next(s, l)) && i < |s.calls| && HolderOk(s, i)
    ensures HolderOk(Next(s, l), i)
  {
    var s', d := Next(s, l), s.who[i];
    if l.Act? && l.act.Deliver? && l.act.d == d {
      var w := s.sys.deliveries[d];
      MovePastClaim(s.sys.db, w, l.act.reply, l.act.id);
      if Failed(s'.sys.deliveries[d].pc) && !l.act.reply.Bad? {
        assert s'.calls[|s.calls|].Release? && s'.who[|s.calls|] == d;
      }
    } else if l.Act? && !l.act.Deliver? {
      OthersKeepDeliveries(s.sys, l.act);
    }
    if ReleasedAfter(s, i, d) {
      var r :| i < r < |s.calls| && s.calls[r].Release? && s.who[r] == d;
      assert s'.calls[r] == s.calls[r] && s'.who[r] == s.who[r];
    }
  }

  lemma {:induction false} HoldersStay(s: State, l: Label)
    requires Enabled(s, l) && LogOk(s) && LogOk(Next(s, l)) && HoldersOk(s)
    ensures HoldersOk(Next(s, l))
  {
    var s' := Next(s, l);
    forall i | 0 <= i < |s'.calls| && GrantedTo(s', i) ensures HolderOk(s', i) {
      if i < |s.calls| {
        GrantStays(s, s', i);
        OldHolderOk(s, l, i);
      } else {
        NewHolderOk(s, l, i);
      }
    }
  }

  lemma {:induction false} StepKeepsInv(s: State, l: Label)
    requires Inv(s) && Enabled(s, l)
    ensures Inv(Next(s, l))
  {
    LogStays(s, l);
    HoldersStay(s, l);
    if l.Act? {
      StepMovesForward(s.sys, l.act);
      MarksStay(s, l);
      Protocol.StepKeepsInv(s.sys, l.act);
    }
  }

  lemma {:induction false} Reachable(run: seq<State>, labels: seq<Label>, i: nat)
    requires IsRun(run, labels) && i < |run|
    ensures Inv(run[i])
  {
    if i > 0 {
      Reachable(run, labels, i - 1);
      assert StepAt(run, labels, i - 1);
      StepKeepsInv(run[i - 1], labels[i - 1]);
    }
  }

  // ---------------------------------------------------------------- what a live claim means

  /** Call `i` claims the intent: granted less than a time to live ago and not released since. */
  ghost predicate Claims(s: State, i: nat, intent: string) {
    i < |s.calls| == |s.who| && s.calls[i].Acquire? && Covers(s.calls, CLAIM_TTL, i, intent, s.now)
  }

  /** The delivery is in flight, died, could not release its claim, or sent its claim again (and is then
      still asking or was turned away by its own key). */
  ghost predicate Unsettled(s: State, d: nat) {
    && d < |s.sys.deliveries|
    && var pc := s.sys.deliveries[d].pc;
    && (pc.Claim? ==> d in s.resent)
    && (pc.Finished? ==> d in s.failedDels || (pc.result.ClaimTaken? && d in s.resent))
  }

  /** Whoever claims the intent of a purchase that is not completed is unsettled. */
  lemma {:induction false} ClaimantIsUnsettled(s: State, i: nat, intent: string)
    requires Inv(s) && !Done(s.sys.db, intent) && Claims(s, i, intent)
    ensures Unsettled(s, s.who[i]) && s.sys.deliveries[s.who[i]].intent == intent
  {
    assert GrantedTo(s, i) && HolderOk(s, i);
    var d := s.who[i];
    assert DeliveryOk(s.sys.db, s.sys.rowLocks, s.sys.tierLocks, d, s.sys.deliveries[d]);
    forall r | i < r < |s.calls| && s.calls[r].Release? ensures s.who[r] != d {
      assert s.sys.deliveries[s.who[r]].intent == s.calls[r].intent;
    }
  }

  /** While a purchase is not completed, "already done" is what the store answers for it exactly when a
      delivery was granted the claim less than a time to live ago and nobody released it since; that
      delivery is then in flight, died, failed to release, or asked again for the claim it had. */
  lemma {:induction false} FalseAnswerIff(run: seq<State>, labels: seq<Label>, i: nat, intent: string)
    requires IsRun(run, labels) && i < |run| && !Done(run[i].sys.db, intent)
    ensures var s := run[i];
            && (Live(KeysOf(s), intent, s.now) <==> exists c: nat :: Claims(s, c, intent))
            && (forall c: nat :: Claims(s, c, intent) ==>
                  Unsettled(s, s.who[c]) && s.sys.deliveries[s.who[c]].intent == intent)
  {
    Reachable(run, labels, i);
    var s := run[i];
    LiveIff(s.calls, CLAIM_TTL, intent, s.now);
    if Covered(s.calls, CLAIM_TTL, intent, s.now) {
      var c: nat :| Covers(s.calls, CLAIM_TTL, c, intent, s.now);
      assert Claims(s, c, intent);
    }
    forall c: nat | Claims(s, c, intent) ensures Unsettled(s, s.who[c]) && s.sys.deliveries[s.who[c]].intent == intent {
      ClaimantIsUnsettled(s, c, intent);
    }
  }

  /** Deliveries of an intent that do not overlap, do not die, release what they fail and ask for the
      claim once: then the answer "already done" from the store is true. */
  lemma {:induction false} TakenMeansDone(run: seq<State>, labels: seq<Label>, i: nat)
    requires IsRun(run, labels) && i < |labels|
    requires labels[i].Act? && labels[i].act.Deliver? && labels[i].act.reply.Taken?
    requires labels[i].act.d < |run[i].sys.deliveries|
    requires forall e :: 0 <= e < |run[i].sys.deliveries| && Unsettled(run[i], e) ==>
               run[i].sys.deliveries[e].intent != run[i].sys.deliveries[labels[i].act.d].intent
    ensures Done(run[i].sys.db, run[i].sys.deliveries[labels[i].act.d].intent)
  {
    assert StepAt(run, labels, i);
    var s, intent := run[i], run[i].sys.deliveries[labels[i].act.d].intent;
    if !Done(s.sys.db, intent) {
      FalseAnswerIff(run, labels, i, intent);
    }
  }

  /** No delivery of the intent dies, none fails to release, none sends its claim again, and none begins
      while another is in flight. */
  ghost predicate Tidy(s: State, l: Label, intent: string) {
    && (l.Resend? && l.d < |s.sys.deliveries| && s.sys.deliveries[l.d].intent == intent ==>
          !s.sys.deliveries[l.d].pc.Claim?)
    && TidyAct(s, l, intent)
  }

  ghost predicate TidyAct(s: State, l: Label, intent: string) {
    l.Act? && l.act.Deliver? && l.act.d < |s.sys.deliveries| && s.sys.deliveries[l.act.d].intent == intent ==>
      var pc := s.sys.deliveries[l.act.d].pc;
      && !l.act.reply.Died? && (pc.Release? ==> !l.act.reply.Bad?)
      && (pc.Claim? ==> forall e :: 0 <= e < |s.sys.deliveries| && s.sys.deliveries[e].intent == intent ==>
                          !InFlight(s.sys.deliveries[e].pc))
  }

  predicate InFlight(pc: Pc) {
    !pc.Claim? && !pc.Finished? && !pc.Crashed?
  }

  /** A delivery dies only by dying, and keeps its intent. */
  lemma {:induction false} MoveCrashes(db: Db, w: Delivery, reply: Reply, id: string)
    requires !w.pc.Crashed?
    ensures Moved(db, w, reply, id).intent == w.intent
    ensures Moved(db, w, reply, id).pc.Crashed? <==> reply.Died?
  {
  }

  ghost predicate Named(s: State) {
    forall e :: e in s.failedDels || e in s.resent ==> e < |s.sys.deliveries|
  }

  /** Nobody of the intent died, failed to release or asked again. */
  ghost predicate NobodyLeft(s: State, intent: string) {
    forall e :: 0 <= e < |s.sys.deliveries| && s.sys.deliveries[e].intent == intent ==>
      !s.sys.deliveries[e].pc.Crashed? && e !in s.failedDels && e !in s.resent
  }

  lemma {:induction false} NamesStay(s: State, l: Label)
    requires Named(s) && Enabled(s, l)
    ensures Named(Next(s, l))
  {
    if l.Act? && !l.act.Deliver? {
      OthersKeepDeliveries(s.sys, l.act);
    }
  }

  lemma {:induction false} ArrivalsClaim(s: Webhook.State, act: Webhook.Label)
    requires Webhook.Enabled(s, act) && !act.Deliver?
    ensures forall d :: |s.deliveries| <= d < |Webhook.Next(s, act).deliveries| ==>
              Webhook.Next(s, act).deliveries[d].pc.Claim?
  {
  }

  lemma {:induction false} TidyStep(s: State, l: Label, intent: string)
    requires Named(s) && NobodyLeft(s, intent) && Enabled(s, l) && Tidy(s, l, intent)
    ensures NobodyLeft(Next(s, l), intent)
  {
    if l.Act? && !l.act.Deliver? {
      OthersKeepDeliveries(s.sys, l.act);
      ArrivalsClaim(s.sys, l.act);
    } else if l.Act? {
      MoveCrashes(s.sys.db, s.sys.deliveries[l.act.d], l.act.reply, l.act.id);
    }
  }

  lemma {:induction false} TidyLeavesNobody(run: seq<State>, labels: seq<Label>, i: nat, intent: string)
    requires IsRun(run, labels) && i < |run| && forall m :: 0 <= m < i ==> Tidy(run[m], labels[m], intent)
    ensures NobodyLeft(run[i], intent) && Named(run[i])
  {
    if i > 0 {
      TidyLeavesNobody(run, labels, i - 1, intent);
      assert StepAt(run, labels, i - 1) && Tidy(run[i - 1], labels[i - 1], intent);
      TidyStep(run[i - 1], labels[i - 1], intent);
      NamesStay(run[i - 1], labels[i - 1]);
    }
  }

  /** While deliveries of an intent come one after the other, none dies, every release reaches the store
      and no claim is sent again, "already done" is answered only for a completed purchase. */
  lemma {:induction false} TidyAnswersAreTrue(run: seq<State>, labels: seq<Label>, i: nat)
    requires IsRun(run, labels) && i < |labels|
    requires labels[i].Act? && labels[i].act.Deliver? && labels[i].act.reply.Taken?
    requires labels[i].act.d < |run[i].sys.deliveries|
    requires forall m :: 0 <= m <= i ==> Tidy(run[m], labels[m], run[i].sys.deliveries[labels[i].act.d].intent)
    ensures Done(run[i].sys.db, run[i].sys.deliveries[labels[i].act.d].intent)
  {
    assert StepAt(run, labels, i);
    TidyLeavesNobody(run, labels, i, run[i].sys.deliveries[labels[i].act.d].intent);
    TakenMeansDone(run, labels, i);
  }

  // ---------------------------------------------------------------- how long the key answers for a delivery

  /** Delivery `d` is granted its claim, or marks it done. */
  ghost predicate SetsKey(s: State, l: Label, d: nat) {
    && l.Act? && l.act.Deliver? && l.act.d == d && d < |s.sys.deliveries|
    && var pc, reply := s.sys.deliveries[d].pc, l.act.reply;
       (pc.Claim? && reply.Good?) || (pc.MarkDone? && !reply.Bad? && !reply.Died?)
  }

  /** A delivery of the intent is at its release. */
  ghost predicate Releases(s: State, l: Label, intent: string) {
    exists e :: 0 <= e < |s.sys.deliveries| && s.sys.deliveries[e].intent == intent &&
      s.sys.deliveries[e].pc.Release? && (l == Resend(e) || (l.Act? && l.act.Deliver? && l.act.d == e))
  }

  ghost predicate KeptFrom(s: State, intent: string, since: int) {
    s.now >= since && intent in KeysOf(s) && KeysOf(s)[intent].expires >= since + CLAIM_TTL
  }

  lemma {:induction false} KeysPush(keys: Keys, cs: seq<Call>, c: Call)
    ensures AfterAll(keys, cs + [c], CLAIM_TTL) == After(AfterAll(keys, cs, CLAIM_TTL), c, CLAIM_TTL)
  {
    assert (cs + [c])[..|cs|] == cs;
  }

  lemma {:induction false} KeyStaysOneStep(s: State, l: Label, intent: string, since: int)
    requires Enabled(s, l) && KeptFrom(s, intent, since) && !Releases(s, l, intent)
    ensures KeptFrom(Next(s, l), intent, since)
  {
    var s' := Next(s, l);
    if s'.calls != s.calls {
      var c := s'.calls[|s.calls|];
      assert s'.calls == s.calls + [c];
      KeysPush(map[], s.calls, c);
    }
  }

  lemma {:induction false} KeyIsSet(s: State, l: Label, d: nat)
    requires Enabled(s, l) && SetsKey(s, l, d)
    ensures KeptFrom(Next(s, l), s.sys.deliveries[d].intent, s.now)
  {
    var s' := Next(s, l);
    var c := s'.calls[|s.calls|];
    assert s'.calls == s.calls + [c];
    KeysPush(map[], s.calls, c);
  }

  /** A delivery that is granted its claim or marks it done makes the store answer "already done" for its intent
      for 24 hours, unless a delivery of the intent releases it. */
  lemma {:induction false} KeyAnswersADay(run: seq<State>, labels: seq<Label>, i: nat, j: nat, d: nat)
    requires IsRun(run, labels) && i < j < |run| && SetsKey(run[i], labels[i], d)
    requires forall m :: i < m < j ==> !Releases(run[m], labels[m], run[i].sys.deliveries[d].intent)
    ensures KeptFrom(run[j], run[i].sys.deliveries[d].intent, run[i].now)
    ensures run[j].now < run[i].now + 86_400_000 ==> Live(KeysOf(run[j]), run[i].sys.deliveries[d].intent, run[j].now)
    decreases j
  {
    assert StepAt(run, labels, j - 1);
    if j == i + 1 {
      KeyIsSet(run[i], labels[i], d);
    } else {
      KeyAnswersADay(run, labels, i, j - 1, d);
      KeyStaysOneStep(run[j - 1], labels[j - 1], run[i].sys.deliveries[d].intent, run[i].now);
    }
  }

  /** A release that reaches the store leaves the intent free to be claimed at once. */
  lemma {:induction false} ReleaseFrees(run: seq<State>, labels: seq<Label>, i: nat, d: nat)
    requires IsRun(run, labels) && i < |labels| && labels[i].Act? && labels[i].act.Deliver? && labels[i].act.d == d
    requires d < |run[i].sys.deliveries| && run[i].sys.deliveries[d].pc.Release?
    requires !labels[i].act.reply.Bad? && !labels[i].act.reply.Died?
    ensures !Live(KeysOf(run[i + 1]), run[i].sys.deliveries[d].intent, run[i + 1].now)
  {
    assert StepAt(run, labels, i);
    KeysPush(map[], run[i].calls, Call.Release(run[i].sys.deliveries[d].intent, run[i].now));
  }
}
