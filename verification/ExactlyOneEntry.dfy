/**
 * Any number of scanners hold one valid token: exactly one of them is let in.
 *
 * Scans of other tickets, issuer runs and writes to the tables interleave freely; the scans of the
 * token itself do not die, meet no error up to the gate and ask it once (recording an admission may
 * fail), and the run is shorter than the key's time to live.
 */
module ExactlyOneEntry {
  import opened Options
  import opened Sums
  import opened Tables
  import opened ExpiringKeys
  import opened Token
  import opened Issuer
  import opened Door

  ghost function Holding(token: string): Scan -> int {
    (c: Scan) => if c.token == token then 1 else 0
  }

  ghost function LetIn(token: string): Scan -> int {
    (c: Scan) => if c.token == token && Won(c.pc) then 1 else 0
  }

  ghost function TurnedAway(token: string): Scan -> int {
    (c: Scan) => if c.token == token && c.pc.Done? && c.pc.outcome.AlreadyScanned? then 1 else 0
  }

  /** A scan of the token is on the way to the gate, through it, or turned away by it. */
  predicate OnTrack(pc: ScanPc, id: string) {
    match pc
    case Decode => true
    case ReadStatus(i) => i == id
    case Gate(i) => i == id
    case Record(i, _) => i == id
    case Done(outcome, i) => i == id && (outcome.Admitted? || outcome.AlreadyScanned?)
    case Broken => false
  }

  ghost predicate Admissible(db: Db, id: string, k: nat) {
    k < |db.tickets| && db.tickets[k].id == id && db.tickets[k].status != Refunded
  }

  /** The gate is closed for the ticket just when one scan of the token has won it. */
  ghost predicate OneAtMost(s: State, token: string, id: string, until: int) {
    && (forall x :: 0 <= x < |s.scans| && s.scans[x].token == token ==> OnTrack(s.scans[x].pc, id))
    && (if Live(s.gate, id, s.now)
        then s.gate[id].expires >= until && Sum(s.scans, LetIn(token)) == 1
        else Sum(s.scans, LetIn(token)) == 0 && Sum(s.scans, TurnedAway(token)) == 0)
  }

  /** The scan does not die, and reading the status and asking the gate are answered the first time. */
  predicate Smooth(pc: ScanPc, reply: Door.Reply) {
    !reply.Died? && (pc.ReadStatus? || pc.Gate? ==> reply.Good?)
  }

  /** The step is no refund of the ticket, and a step of a scan of the token is smooth. */
  ghost predicate Clean(s: State, l: Label, token: string, k: nat) {
    && (l.Write? && l.op.Refund? ==> l.op.k != k)
    && (l.Step? && l.x < |s.scans| && s.scans[l.x].token == token ==> Smooth(s.scans[l.x].pc, l.reply))
  }

  lemma {:induction false} OpKeepsAdmissible(db: Db, op: Op, id: string, k: nat)
    requires Legal(db, op) && Admissible(db, id, k) && (op.Refund? ==> op.k != k)
    ensures Admissible(Run(db, op), id, k)
  {
    if op.Settle? {
      assert Run(db, op).tickets[k] == db.tickets[k];
    }
  }

  lemma {:induction false} StaysAdmissible(s: State, l: Label, id: string, k: nat, token: string)
    requires Enabled(s, l) && Admissible(s.db, id, k) && Clean(s, l, token, k)
    ensures Admissible(Next(s, l).db, id, k)
  {
    OpKeepsAdmissible(s.db, OpOf(s, l), id, k);
  }

  lemma {:induction false} FindsTicket(ts: seq<Ticket>, id: string, k: nat)
    requires UniqueIds(ts) && k < |ts| && ts[k].id == id
    ensures FindTicket(ts, id) == Some(k)
  {
  }

  /** A smooth step of a scan of the token. */
  lemma {:induction false} OwnStep(s: State, x: nat, reply: Door.Reply, token: string, id: string, k: nat, until: int)
    requires x < |s.scans| && Smooth(s.scans[x].pc, reply) && (reply.Again? ==> s.scans[x].pc.Gate?)
    requires s.scans[x].token == token && s.signer.Verify(token) == Some(id)
    requires UniqueIds(s.db.tickets) && Admissible(s.db, id, k) && until <= s.now + SCAN_TTL && s.now < until
    requires OneAtMost(s, token, id, until)
    ensures OneAtMost(s.(scans := s.scans[x := ScanMove(s, s.scans[x], reply)],
                         gate := GateAfter(s, s.scans[x], reply)),
                      token, id, until)
  {
    var c, c' := s.scans[x], ScanMove(s, s.scans[x], reply);
    FindsTicket(s.db.tickets, id, k);
    SumUpdate(s.scans, x, c', LetIn(token));
    SumUpdate(s.scans, x, c', TurnedAway(token));
    assert OnTrack(c.pc, id) && OnTrack(c'.pc, id);
  }

  /** A step of a scan of another token never touches this ticket's key. */
  lemma {:induction false} ForeignStep(s: State, x: nat, reply: Door.Reply, token: string, id: string, until: int)
    requires x < |s.scans| && s.scans[x].token != token && s.signer.Verify(token) == Some(id)
    requires ScanOk(s, s.scans[x]) && OneAtMost(s, token, id, until)
    ensures OneAtMost(s.(scans := s.scans[x := ScanMove(s, s.scans[x], reply)],
                         gate := GateAfter(s, s.scans[x], reply)),
                      token, id, until)
  {
    var c, c' := s.scans[x], ScanMove(s, s.scans[x], reply);
    SumUpdate(s.scans, x, c', LetIn(token));
    SumUpdate(s.scans, x, c', TurnedAway(token));
    if c.pc.Gate? && c.pc.id == id {
      s.signer.AcceptedIsToken(token, id);
    }
  }

  /** Time passing below `until`, new scans and everything else. */
  lemma {:induction false} QuietStep(s: State, l: Label, token: string, id: string, until: int)
    requires Enabled(s, l) && !l.Step? && OneAtMost(s, token, id, until) && Next(s, l).now < until
    ensures OneAtMost(Next(s, l), token, id, until)
  {
    if l.Arrive? {
      SumPush(s.scans, Scan(l.token, l.scanner, Decode), LetIn(token));
      SumPush(s.scans, Scan(l.token, l.scanner, Decode), TurnedAway(token));
    }
  }

  lemma {:induction false} StepKeepsOne(s: State, l: Label, token: string, id: string, k: nat, until: int)
    requires Door.Inv(s) && Enabled(s, l) && Clean(s, l, token, k) && s.signer.Verify(token) == Some(id)
    requires Admissible(s.db, id, k) && OneAtMost(s, token, id, until)
    requires s.now < until <= s.now + SCAN_TTL && Next(s, l).now < until
    ensures OneAtMost(Next(s, l), token, id, until)
  {
    if !l.Step? {
      QuietStep(s, l, token, id, until);
    } else {
      if s.scans[l.x].token == token {
        OwnStep(s, l.x, l.reply, token, id, k, until);
      } else {
        ForeignStep(s, l.x, l.reply, token, id, until);
      }
      var mid := s.(scans := s.scans[l.x := ScanMove(s, s.scans[l.x], l.reply)],
                    gate := GateAfter(s, s.scans[l.x], l.reply));
      assert Next(s, l).scans == mid.scans && Next(s, l).gate == mid.gate && Next(s, l).now == mid.now;
    }
  }

  lemma {:induction false} StepKeepsBoth(s: State, l: Label, token: string, id: string, k: nat, until: int)
    requires Door.Inv(s) && Enabled(s, l) && Clean(s, l, token, k) && s.signer.Verify(token) == Some(id)
    requires Admissible(s.db, id, k) && OneAtMost(s, token, id, until)
    requires s.now < until <= s.now + SCAN_TTL && Next(s, l).now < until
    ensures Admissible(Next(s, l).db, id, k) && OneAtMost(Next(s, l), token, id, until) && s.now <= Next(s, l).now
  {
    StaysAdmissible(s, l, id, k, token);
    StepKeepsOne(s, l, token, id, k, until);
  }

  /** No refund of the ticket, no failed scan of the token, and less time than the key lives. */
  ghost predicate CleanRun(run: seq<State>, labels: seq<Label>, token: string, k: nat) {
    && |run| == |labels| + 1
    && (forall m :: 0 <= m < |labels| ==> Clean(run[m], labels[m], token, k))
    && (forall m :: 0 <= m < |run| ==> run[m].now < run[0].now + SCAN_TTL)
  }

  lemma {:induction false} OneStep(run: seq<State>, labels: seq<Label>, i: nat, token: string, id: string, k: nat)
    requires IsRun(run, labels) && CleanRun(run, labels, token, k) && i < |labels|
    requires run[0].signer.Verify(token) == Some(id) && run[0].now <= run[i].now
    requires Admissible(run[i].db, id, k) && OneAtMost(run[i], token, id, run[0].now + SCAN_TTL)
    ensures Admissible(run[i + 1].db, id, k) && OneAtMost(run[i + 1], token, id, run[0].now + SCAN_TTL)
    ensures run[0].now <= run[i + 1].now
  {
    assert Door.StepAt(run, labels, i);
    assert Clean(run[i], labels[i], token, k);
    Door.Reachable(run, labels, i);
    SignerStays(run, labels, i);
    StepKeepsBoth(run[i], labels[i], token, id, k, run[0].now + SCAN_TTL);
  }

  lemma {:induction false} OneInRun(run: seq<State>, labels: seq<Label>, i: nat, token: string, id: string, k: nat)
    requires IsRun(run, labels) && i < |run|
    requires run[0].signer.Verify(token) == Some(id) && Admissible(run[0].db, id, k)
    requires !Live(run[0].gate, id, run[0].now)
    requires CleanRun(run, labels, token, k)
    ensures Admissible(run[i].db, id, k) && OneAtMost(run[i], token, id, run[0].now + SCAN_TTL)
    ensures run[0].now <= run[i].now
  {
    if i > 0 {
      OneInRun(run, labels, i - 1, token, id, k);
      OneStep(run, labels, i - 1, token, id, k);
    }
  }

  /** Of K scans of one valid token exactly one is admitted and the other K - 1 are told it was scanned. */
  lemma {:induction false} ExactlyOneAdmitted(run: seq<State>, labels: seq<Label>, i: nat, token: string,
                                              id: string, k: nat)
    requires IsRun(run, labels) && i < |run|
    requires run[0].signer.Verify(token) == Some(id) && Admissible(run[0].db, id, k)
    requires !Live(run[0].gate, id, run[0].now)
    requires CleanRun(run, labels, token, k)
    requires forall x :: 0 <= x < |run[i].scans| && run[i].scans[x].token == token ==> run[i].scans[x].pc.Done?
    requires Sum(run[i].scans, Holding(token)) >= 1
    ensures Sum(run[i].scans, LetIn(token)) == 1
    ensures Sum(run[i].scans, TurnedAway(token)) == Sum(run[i].scans, Holding(token)) - 1
  {
    OneInRun(run, labels, i, token, id, k);
    var s := run[i];
    forall x | 0 <= x < |s.scans|
      ensures Holding(token)(s.scans[x]) == LetIn(token)(s.scans[x]) + TurnedAway(token)(s.scans[x])
    {
      if s.scans[x].token == token {
        assert OnTrack(s.scans[x].pc, id);
      }
    }
    SumAdd(s.scans, Holding(token), LetIn(token), TurnedAway(token));
  }

  // ---------------------------------------------------------------- when it is not exactly one

  const STAMP := Signer((id: string) => "s")
  const SOLD := Db([Tier(0, 100, 1, 1)], [Purchase("pi", 0, 0, 0, 100, 1, Completed)],
                   [Ticket("t", 0, 0, 0, 0, Valid, None)])
  const CLOSED := State(SOLD, STAMP, map[], 0, [], [])

  lemma {:induction false} SoldIsConsistent()
    ensures DbInv(SOLD) && OwnTokens(SOLD.tickets, STAMP) && STAMP.Verify("t.s") == Some("t")
  {
    SumPush([], SOLD.purchases[0], SoldTo(0));
    SumPush([], SOLD.tickets[0], OfTier(0));
    SumPush([], SOLD.tickets[0], OfPurchase(0));
    assert [] + [SOLD.purchases[0]] == SOLD.purchases && [] + [SOLD.tickets[0]] == SOLD.tickets;
    assert STAMP.Token("t") == "t.s";
    STAMP.RoundTripNeeds("t");
  }

  /** Scan number `x`, just arrived at `s`, comes as far as the gate. */
  lemma {:induction false} ComesToGate(run: seq<State>, labels: seq<Label>, s: State, x: nat)
    returns (run': seq<State>, labels': seq<Label>)
    requires IsRun(run, labels) && run[|labels|] == s && s.signer == STAMP
    requires |s.db.tickets| == 1 && s.db.tickets[0].id == "t" && s.db.tickets[0].status != Refunded
    requires x < |s.scans| && s.scans[x] == Scan("t.s", "door", Decode)
    ensures IsRun(run', labels') && run'[0] == run[0]
    ensures run'[|labels'|] == s.(scans := s.scans[x := Scan("t.s", "door", Gate("t"))])
  {
    SoldIsConsistent();
    FindsTicket(s.db.tickets, "t", 0);
    run', labels' := Extend(run, labels, Step(x, Good));
    assert run'[|labels'|] == s.(scans := s.scans[x := Scan("t.s", "door", ReadStatus("t"))]);
    run', labels' := Extend(run', labels', Step(x, Good));
  }

  /** The only scan is in state `pc`. */
  function One(pc: ScanPc): State {
    CLOSED.(scans := [Scan("t.s", "door", pc)])
  }

  lemma {:induction false} FirstAtGate() returns (run: seq<State>, labels: seq<Label>)
    ensures IsRun(run, labels) && run[0] == CLOSED && run[|labels|] == One(Gate("t"))
  {
    SoldIsConsistent();
    run, labels := [CLOSED], [];
    run, labels := Extend(run, labels, Arrive("t.s", "door"));
    run, labels := ComesToGate(run, labels, One(Decode), 0);
  }

  const KEYED := One(Record("t", 0)).(gate := map["t" := Entry("door", SCAN_TTL)])
  const LET_IN := One(Done(Admitted(0), "t")).(gate := KEYED.gate,
                                               db := SOLD.(tickets := [Ticket("t", 0, 0, 0, 0, Scanned, None)]))

  lemma {:induction false} GateThenRecord()
    ensures Enabled(One(Gate("t")), Step(0, Good)) && Next(One(Gate("t")), Step(0, Good)) == KEYED
    ensures Enabled(KEYED, Step(0, Good)) && Next(KEYED, Step(0, Good)) == LET_IN
  {
    FindsTicket(SOLD.tickets, "t", 0);
  }

  /** One ticket is let in twice: its key has run out by the second scan, and being marked does not keep it out. */
  lemma {:induction false} AdmittedTwice() returns (run: seq<State>, labels: seq<Label>)
    ensures IsRun(run, labels) && run[0].gate == map[] && |run[|labels|].scans| == 2
    ensures run[|labels|].scans[0].pc == Done(Admitted(0), "t")
    ensures run[|labels|].scans[1].pc == Done(Admitted(SCAN_TTL), "t")
  {
    run, labels := FirstAtGate();
    GateThenRecord();
    run, labels := Extend(run, labels, Step(0, Good));
    run, labels := Extend(run, labels, Step(0, Good));
    run, labels := ScannedLater(run, labels);
  }

  lemma {:induction false} ScannedLater(run: seq<State>, labels: seq<Label>)
    returns (run': seq<State>, labels': seq<Label>)
    requires IsRun(run, labels) && run[|labels|] == LET_IN
    ensures IsRun(run', labels') && run'[0] == run[0] && |run'[|labels'|].scans| == 2
    ensures run'[|labels'|].scans[0].pc == Done(Admitted(0), "t")
    ensures run'[|labels'|].scans[1].pc == Done(Admitted(SCAN_TTL), "t")
  {
    run', labels' := Extend(run, labels, Tick(SCAN_TTL));
    run', labels' := Extend(run', labels', Arrive("t.s", "door"));
    run', labels' := ComesToGate(run', labels', run'[|labels'|], 1);
    run', labels' := Extend(run', labels', Step(1, Good));
    run', labels' := Extend(run', labels', Step(1, Good));
  }

  const ECHO := One(Gate("t")).(gate := map["t" := Entry("door", SCAN_TTL)])

  lemma {:induction false} AskedAgain()
    ensures Enabled(One(Gate("t")), Step(0, Again)) && Next(One(Gate("t")), Step(0, Again)) == ECHO
    ensures Enabled(ECHO, Step(0, Good)) && Next(ECHO, Step(0, Good)).scans == One(Done(AlreadyScanned, "t")).scans
  {
  }

  /** One scan alone is told its ticket was scanned: the reply of the gate was lost, the client asked
      again, and the scan met its own key. */
  lemma {:induction false} TurnedAwayByItself() returns (run: seq<State>, labels: seq<Label>)
    ensures IsRun(run, labels) && run[0].gate == map[]
    ensures run[|labels|].scans == [Scan("t.s", "door", Done(AlreadyScanned, "t"))]
  {
    run, labels := FirstAtGate();
    AskedAgain();
    run, labels := Extend(run, labels, Step(0, Again));
    run, labels := Extend(run, labels, Step(0, Good));
  }

  const GIVEN_BACK := SOLD.(tickets := [Ticket("t", 0, 0, 0, 0, Refunded, None)])

  lemma {:induction false} RefundAtGate()
    ensures Enabled(One(Gate("t")), Write(Refund(0)))
    ensures Next(One(Gate("t")), Write(Refund(0))) == One(Gate("t")).(db := GIVEN_BACK)
    ensures Enabled(One(Gate("t")).(db := GIVEN_BACK), Step(0, Good))
    ensures Next(One(Gate("t")).(db := GIVEN_BACK), Step(0, Good)) == KEYED.(db := GIVEN_BACK)
    ensures Enabled(KEYED.(db := GIVEN_BACK), Step(0, Good))
    ensures Next(KEYED.(db := GIVEN_BACK), Step(0, Good)) == LET_IN
  {
    FindsTicket(GIVEN_BACK.tickets, "t", 0);
  }

  /** A refund that comes after the scan's status read neither stops the scan nor lasts: the ticket is let in,
      and its record turns the refunded row into a scanned one. */
  lemma {:induction false} RefundIsOverwritten() returns (run: seq<State>, labels: seq<Label>, i: nat)
    ensures IsRun(run, labels) && i < |labels| && run[i].scans == [Scan("t.s", "door", Gate("t"))]
    ensures run[i].db.tickets == [Ticket("t", 0, 0, 0, 0, Refunded, None)]
    ensures run[|labels|].scans == [Scan("t.s", "door", Done(Admitted(0), "t"))]
    ensures run[|labels|].db.tickets == [Ticket("t", 0, 0, 0, 0, Scanned, None)]
  {
    run, labels := FirstAtGate();
    RefundAtGate();
    run, labels := Extend(run, labels, Write(Refund(0)));
    i := |labels|;
    var before := run[i];
    run, labels := Extend(run, labels, Step(0, Good));
    run, labels := Extend(run, labels, Step(0, Good));
    assert run[i] == before;
  }

  // ---------------------------------------------------------------- the validator as one caller sees it

  /** The scanner's own object: the tickets it reads and marks, and the keys it sets. */
  class Validator {
    var tickets: seq<Ticket>
    var gate: Keys
    const signer: Signer

    constructor (signer: Signer, rows: seq<Ticket>)
      ensures tickets == rows && gate == map[] && this.signer == signer
    {
      this.signer := signer;
      tickets, gate := rows, map[];
    }

    /** The token is valid and its ticket known and not refunded. */
    ghost predicate Presentable(token: string)
      reads this
    {
      exists k :: 0 <= k < |tickets| && signer.Verify(token) == Some(tickets[k].id) && tickets[k].status != Refunded
    }

    /** `read`, `claim` and `record` say how the three round trips end; no outcome means an error. Admits
        exactly a presentable ticket whose key is absent or expired; the key is set exactly when the
        claim takes effect on such a ticket, and the ticket is marked only after an admission. A claim
        that is applied and sent again is answered by its own key. */
    method Validate(token: string, scanner: string, now: int, read: Door.Reply, claim: Door.Reply, record: Door.Reply)
      returns (outcome: Option<Door.Outcome>)
      requires UniqueIds(tickets)
      modifies this`tickets, this`gate
      ensures outcome == Some(InvalidToken) <==> signer.Verify(token).None?
      ensures outcome.None? <==>
                && signer.Verify(token).Some?
                && (!read.Good? || (old(Presentable(token)) && !claim.Good? && !claim.Again?))
      ensures outcome.Some? && outcome.value.Admitted? <==>
                && read.Good? && claim.Good? && old(Presentable(token))
                && !Live(old(gate), signer.Verify(token).value, now)
      ensures outcome == Some(AlreadyScanned) <==>
                && read.Good? && old(Presentable(token))
                && (claim.Again? || (claim.Good? && Live(old(gate), signer.Verify(token).value, now)))
      ensures outcome.Some? && outcome.value.Admitted? ==> outcome.value.at == now
      ensures gate == if read.Good? && old(Presentable(token)) && TakesEffect(claim)
                      then SetNX(old(gate), signer.Verify(token).value, scanner, now, SCAN_TTL) else old(gate)
      ensures |tickets| == |old(tickets)|
      ensures forall k :: 0 <= k < |tickets| ==>
                var row := old(tickets)[k];
                tickets[k] == if outcome.Some? && outcome.value.Admitted? && (record.Good? || record.LostAck?) &&
                                 signer.Verify(token) == Some(row.id)
                              then row.(status := Scanned) else row
    {
      var decoded := signer.Verify(token);
      if decoded.None? {
        return Some(InvalidToken);
      }
      var id := decoded.value;
      if !read.Good? {
        return None;
      }
      var found := FindTicket(tickets, id);
      if found.None? {
        return Some(NotFound);
      }
      var k := found.value;
      if tickets[k].status == Refunded {
        return Some(NotFound);
      }
      var live := Live(gate, id, now);
      if !live && TakesEffect(claim) {
        gate := gate[id := Entry(scanner, now + SCAN_TTL)];
      }
      if !claim.Good? && !claim.Again? {
        return None;
      }
      if live || claim.Again? {
        return Some(AlreadyScanned);
      }
      if record.Good? || record.LostAck? {
        tickets := tickets[k := tickets[k].(status := Scanned)];
      }
      return Some(Admitted(now));
    }
  }

  /** A ticket admitted once is admitted by the next scan exactly when its key has run out, whether or
      not it was marked as scanned: the mark does not keep it out. */
  method ScanTwice(v: Validator, token: string, here: string, there: string, first: int, second: int,
                   record: Door.Reply)
    returns (a: Option<Door.Outcome>, b: Option<Door.Outcome>)
    requires UniqueIds(v.tickets) && first <= second
    modifies v`tickets, v`gate
    ensures a.Some? && a.value.Admitted? ==> b.Some? && (b.value.Admitted? <==> second >= first + 86_400_000)
    ensures a.Some? && a.value.Admitted? ==> (b == Some(AlreadyScanned) <==> second < first + 86_400_000)
  {
    a := v.Validate(token, here, first, Good, Good, record);
    if a.Some? && a.value.Admitted? {
      ghost var k :| 0 <= k < |old(v.tickets)| && v.signer.Verify(token) == Some(old(v.tickets)[k].id) &&
                     old(v.tickets)[k].status != Refunded;
      assert v.tickets[k].id == old(v.tickets)[k].id && v.tickets[k].status != Refunded;
    }
    b := v.Validate(token, there, second, Good, Good, Good);
  }
}
