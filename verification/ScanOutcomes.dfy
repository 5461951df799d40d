/** Why a scan ended as it did: every outcome of every run traced to the answers the scan got on its way. */
module ScanOutcomes {
  import opened Options
  import opened Tables
  import opened ExpiringKeys
  import opened Token
  import opened Door

  /** A ticket with this id is in the table and not refunded. */
  ghost predicate Admissible(ts: seq<Ticket>, id: string) {
    exists k :: 0 <= k < |ts| && ts[k].id == id && ts[k].status != Refunded
  }

  /** At step `m` scan `x` stands at `pc` and gets an answer. */
  ghost predicate AnsweredAt(run: seq<State>, labels: seq<Label>, m: nat, x: nat, pc: ScanPc) {
    m < |run| && m < |labels| && labels[m] == Step(x, Good) && x < |run[m].scans| && run[m].scans[x].pc == pc
  }

  // ---------------------------------------------------------------- one answered round trip

  lemma {:induction false} ScanAfter(run: seq<State>, labels: seq<Label>, m: nat, x: nat)
    requires IsRun(run, labels) && m < |labels| && x < |run[m].scans|
    ensures x < |run[m + 1].scans| && run[m + 1].scans[x].token == run[m].scans[x].token
    ensures if labels[m].Step? && labels[m].x == x
            then run[m + 1].scans[x] == ScanMove(run[m], run[m].scans[x], labels[m].reply)
            else run[m + 1].scans[x] == run[m].scans[x]
  {
    assert StepAt(run, labels, m);
  }

  /** An answered status read comes to the gate if and only if the ticket is in the table and not refunded;
      otherwise the scan ends as not found. */
  lemma {:induction false} StatusReadIff(run: seq<State>, labels: seq<Label>, m: nat, x: nat, id: string)
    requires IsRun(run, labels) && AnsweredAt(run, labels, m, x, ReadStatus(id))
    ensures x < |run[m + 1].scans|
    ensures run[m + 1].scans[x].pc == Gate(id) <==> Admissible(run[m].db.tickets, id)
    ensures run[m + 1].scans[x].pc == Done(NotFound, id) <==> !Admissible(run[m].db.tickets, id)
  {
    ScanAfter(run, labels, m, x);
    Reachable(run, labels, m);
    var found := FindTicket(run[m].db.tickets, id);
    if found.Some? {
      forall k | 0 <= k < |run[m].db.tickets| && run[m].db.tickets[k].id == id ensures k == found.value {
      }
    }
  }

  /** A decoded token is some ticket id's own token, or the scan ends as invalid, with proper signatures
      exactly when it is nobody's. */
  lemma {:induction false} DecodeIff(run: seq<State>, labels: seq<Label>, m: nat, x: nat)
    requires IsRun(run, labels) && AnsweredAt(run, labels, m, x, Decode) && run[m].signer.Proper()
    ensures x < |run[m + 1].scans|
    ensures forall id :: run[m + 1].scans[x].pc == ReadStatus(id) <==>
              id != "" && run[m].scans[x].token == run[m].signer.Token(id)
    ensures run[m + 1].scans[x].pc.Done? <==>
              forall id :: id != "" ==> run[m].scans[x].token != run[m].signer.Token(id)
    ensures run[m + 1].scans[x].pc.Done? ==> run[m + 1].scans[x].pc.outcome == InvalidToken
  {
    ScanAfter(run, labels, m, x);
    var token, signer := run[m].scans[x].token, run[m].signer;
    forall id ensures signer.Verify(token) == Some(id) <==> id != "" && token == signer.Token(id) {
      signer.VerifyExact(token, id);
    }
    if signer.Verify(token).Some? {
      var id := signer.Verify(token).value;
      assert token == signer.Token(id) && id != "";
    }
  }

  /** An answered gate request admits if and only if the ticket's key is not live; otherwise the ticket was
      already scanned. */
  lemma {:induction false} GateIff(run: seq<State>, labels: seq<Label>, m: nat, x: nat, id: string)
    requires IsRun(run, labels) && AnsweredAt(run, labels, m, x, Gate(id))
    ensures x < |run[m + 1].scans|
    ensures run[m + 1].scans[x].pc == Record(id, run[m].now) <==> !Live(run[m].gate, id, run[m].now)
    ensures run[m + 1].scans[x].pc == Done(AlreadyScanned, id) <==> Live(run[m].gate, id, run[m].now)
  {
    ScanAfter(run, labels, m, x);
  }

  // ---------------------------------------------------------------- tracing a scan back

  /** The step at which the scan came to where it stands. */
  lemma {:induction false} CameFrom(run: seq<State>, labels: seq<Label>, i: nat, x: nat) returns (m: nat)
    requires IsRun(run, labels) && i < |run| && x < |run[i].scans| && !run[i].scans[x].pc.Decode?
    ensures m < i && labels[m].Step? && labels[m].x == x && x < |run[m].scans|
    ensures run[m].scans[x].pc != run[i].scans[x].pc && run[m].scans[x].token == run[i].scans[x].token
    ensures run[i].scans[x].pc == ScanMove(run[m], run[m].scans[x], labels[m].reply).pc
  {
    assert i > 0;
    assert StepAt(run, labels, i - 1);
    assert x < |run[i - 1].scans|;
    ScanAfter(run, labels, i - 1, x);
    if run[i - 1].scans[x].pc != run[i].scans[x].pc {
      m := i - 1;
    } else {
      m := CameFrom(run, labels, i - 1, x);
    }
  }

  /** A scan at the gate, past it, or turned away there, had its status read answered before, when the ticket
      was in the table and not refunded. */
  lemma {:induction false} PastReadWasAdmissible(run: seq<State>, labels: seq<Label>, i: nat, x: nat) returns (m: nat)
    requires IsRun(run, labels) && i < |run| && x < |run[i].scans|
    requires var pc := run[i].scans[x].pc;
             pc.Gate? || pc.Record? || (pc.Done? && (pc.outcome.Admitted? || pc.outcome.AlreadyScanned?))
    ensures m < i && AnsweredAt(run, labels, m, x, ReadStatus(run[i].scans[x].pc.id))
    ensures Admissible(run[m].db.tickets, run[i].scans[x].pc.id)
    decreases i
  {
    m := CameFrom(run, labels, i, x);
    if run[m].scans[x].pc.ReadStatus? {
      ScanAfter(run, labels, m, x);
      StatusReadIff(run, labels, m, x, run[i].scans[x].pc.id);
    } else {
      m := PastReadWasAdmissible(run, labels, m, x);
    }
  }

  /** An admitted scan was answered by the gate at the time of its admission, with no live key; the ticket's
      status had been read before and was not refunded. */
  lemma {:induction false} AdmittedBecause(run: seq<State>, labels: seq<Label>, i: nat, x: nat) returns (g: nat, m: nat)
    requires IsRun(run, labels) && i < |run| && x < |run[i].scans| && Won(run[i].scans[x].pc)
    ensures var id := run[i].scans[x].pc.id;
            && m < g < i && AnsweredAt(run, labels, g, x, Gate(id))
            && !Live(run[g].gate, id, run[g].now) && run[g].now == WonAt(run[i].scans[x].pc)
            && AnsweredAt(run, labels, m, x, ReadStatus(id)) && Admissible(run[m].db.tickets, id)
    decreases i
  {
    g := CameFrom(run, labels, i, x);
    if run[g].scans[x].pc.Gate? {
      m := PastReadWasAdmissible(run, labels, g, x);
    } else {
      g, m := AdmittedBecause(run, labels, g, x);
    }
  }

  /** What a scan that ended without admission was told is what it met: a token that does not verify, a ticket
      absent or refunded when read, a live key at the gate. */
  lemma {:induction false} RefusedBecause(run: seq<State>, labels: seq<Label>, i: nat, x: nat) returns (m: nat)
    requires IsRun(run, labels) && i < |run| && x < |run[i].scans|
    requires run[i].scans[x].pc.Done? && !run[i].scans[x].pc.outcome.Admitted?
    ensures m < i && x < |run[m].scans|
    ensures var pc := run[i].scans[x].pc;
            match pc.outcome
            case InvalidToken => run[m].scans[x].pc == Decode && run[m].signer.Verify(run[i].scans[x].token) == None
            case NotFound =>
              AnsweredAt(run, labels, m, x, ReadStatus(pc.id)) && !Admissible(run[m].db.tickets, pc.id)
            case AlreadyScanned =>
              AnsweredAt(run, labels, m, x, Gate(pc.id)) && Live(run[m].gate, pc.id, run[m].now)
            case Admitted(_) => false
  {
    m := CameFrom(run, labels, i, x);
    assert StepAt(run, labels, m);
    if run[m].scans[x].pc.ReadStatus? {
      StatusReadIff(run, labels, m, x, run[i].scans[x].pc.id);
    }
  }

  // ---------------------------------------------------------------- recording, and refunds

  lemma {:induction false} RecordStep(s: State, l: Label, k: nat)
    requires Enabled(s, l) && UniqueIds(s.db.tickets) && k < |s.db.tickets|
    requires l.Step? && s.scans[l.x].pc.Record? && !l.reply.Died?
    ensures |Next(s, l).db.tickets| == |s.db.tickets|
    ensures Next(s, l).db.tickets[k] ==
            if s.db.tickets[k].id == s.scans[l.x].pc.id && !l.reply.Bad?
            then s.db.tickets[k].(status := Scanned) else s.db.tickets[k]
  {
    var found := FindTicket(s.db.tickets, s.scans[l.x].pc.id);
    assert found.Some? && s.db.tickets[k].id == s.scans[l.x].pc.id ==> found.value == k;
  }

  /** An admission stands whether or not it is recorded; the ticket is marked scanned exactly if the update takes
      effect, and no other ticket is touched. */
  lemma {:induction false} RecordMarks(run: seq<State>, labels: seq<Label>, m: nat, x: nat, k: nat)
    requires IsRun(run, labels) && m < |labels| && labels[m].Step? && labels[m].x == x && !labels[m].reply.Died?
    requires x < |run[m].scans| && run[m].scans[x].pc.Record? && k < |run[m].db.tickets|
    ensures x < |run[m + 1].scans| && |run[m + 1].db.tickets| == |run[m].db.tickets|
    ensures run[m + 1].scans[x].pc == Done(Admitted(run[m].scans[x].pc.at), run[m].scans[x].pc.id)
    ensures run[m + 1].db.tickets[k] ==
            if run[m].db.tickets[k].id == run[m].scans[x].pc.id && !labels[m].reply.Bad?
            then run[m].db.tickets[k].(status := Scanned) else run[m].db.tickets[k]
  {
    assert StepAt(run, labels, m);
    Reachable(run, labels, m);
    RecordStep(run[m], labels[m], k);
    ScanAfter(run, labels, m, x);
  }

  /** The ticket is refunded and no scan is between its status read and its record. */
  ghost predicate Out(s: State, k: nat) {
    && k < |s.db.tickets| && s.db.tickets[k].status == Refunded
    && forall x :: 0 <= x < |s.scans| && (s.scans[x].pc.Gate? || s.scans[x].pc.Record?) ==>
         s.scans[x].pc.id != s.db.tickets[k].id
  }

  /** Whoever has been admitted with this ticket by `b` already was by `a`. */
  ghost predicate NoNewWinner(a: State, b: State, id: string) {
    forall x :: 0 <= x < |b.scans| && Won(b.scans[x].pc) && b.scans[x].pc.id == id ==>
      x < |a.scans| && b.scans[x] == a.scans[x]
  }

  lemma {:induction false} RefundStays(s: State, l: Label, k: nat)
    requires Enabled(s, l) && UniqueIds(s.db.tickets) && Out(s, k)
    ensures k < |Next(s, l).db.tickets| && Next(s, l).db.tickets[k].status == Refunded
    ensures Next(s, l).db.tickets[k].id == s.db.tickets[k].id
  {
    var op := OpOf(s, l);
    assert op.MarkScanned? ==> op.k != k;
    assert Next(s, l).db == Run(s.db, op);
    if op.Settle? {
      assert Run(s.db, op).tickets[..|s.db.tickets|] == s.db.tickets;
    }
  }

  lemma {:induction false} OutStepsOn(s: State, l: Label, k: nat)
    requires Enabled(s, l) && UniqueIds(s.db.tickets) && Out(s, k)
    ensures Out(Next(s, l), k) && Next(s, l).db.tickets[k].id == s.db.tickets[k].id
    ensures NoNewWinner(s, Next(s, l), s.db.tickets[k].id)
  {
    RefundStays(s, l, k);
    StepEffects(s, l);
    if l.Step? && s.scans[l.x].pc.ReadStatus? && FindTicket(s.db.tickets, s.scans[l.x].pc.id).Some? {
      var found := FindTicket(s.db.tickets, s.scans[l.x].pc.id).value;
      assert s.scans[l.x].pc.id == s.db.tickets[k].id ==> found == k;
    }
  }

  /** A refunded ticket that no scan has past its status read stays refunded and is never admitted again. */
  lemma {:induction false} RefundedStaysOut(run: seq<State>, labels: seq<Label>, i: nat, j: nat, k: nat)
    requires IsRun(run, labels) && i <= j < |run| && Out(run[i], k)
    ensures Out(run[j], k) && run[j].db.tickets[k].id == run[i].db.tickets[k].id
    ensures NoNewWinner(run[i], run[j], run[i].db.tickets[k].id)
    decreases j
  {
    if i < j {
      RefundedStaysOut(run, labels, i, j - 1, k);
      OutStepInRun(run, labels, j - 1, k);
    }
  }

  lemma {:induction false} OutStepInRun(run: seq<State>, labels: seq<Label>, m: nat, k: nat)
    requires IsRun(run, labels) && m < |labels| && Out(run[m], k)
    ensures Out(run[m + 1], k) && run[m + 1].db.tickets[k].id == run[m].db.tickets[k].id
    ensures NoNewWinner(run[m], run[m + 1], run[m].db.tickets[k].id)
  {
    Reachable(run, labels, m);
    assert StepAt(run, labels, m);
    OutStepsOn(run[m], labels[m], k);
  }
}
