/**
 * Issuing and door scanning as a transition system. Scanners and issuer runs interleave with each
 * other and with every other write to the tables, one round trip per step, under one clock.
 */
module Door {
  import opened Options
  import opened Sums
  import opened Tables
  import opened ExpiringKeys
  import opened Token
  import opened Issuer

  const SCAN_TTL: int := 24 * 60 * 60 * 1000

  datatype Outcome = Admitted(at: int) | AlreadyScanned | InvalidToken | NotFound

  datatype ScanPc =
    | Decode | ReadStatus(id: string) | Gate(id: string) | Record(id: string, at: int)
    | Done(outcome: Outcome, id: string) | Broken

  datatype Scan = Scan(token: string, scanner: string, pc: ScanPc)

  /** A run of the issuer: before its select, with rows still to store, or ended. */
  datatype RunPc = Select | Store(todo: seq<nat>) | Stopped(ok: bool)

  /** `seen` is how many tickets the table had at the select. */
  datatype IssueRun = IssueRun(purchase: nat, seen: nat, pc: RunPc)

  datatype State = State(db: Db, signer: Signer, gate: Keys, now: int, scans: seq<Scan>, runs: seq<IssueRun>)

  /** How a round trip ends: as asked, without effect, with an effect whose reply is lost, the same and
      the client sends the command again, or with the death of the caller. */
  datatype Reply = Good | Bad | LostAck | Again | Died

  datatype Label =
    | Write(op: Op)
    | Tick(ms: nat)
    | Arrive(token: string, scanner: string)
    | Step(x: nat, reply: Reply)
    | Issue(purchase: nat)
    | IssueStep(r: nat, reply: Reply)

  // ---------------------------------------------------------------- scans

  function FindTicket(ts: seq<Ticket>, id: string): (r: Option<nat>)
    ensures r.Some? ==> r.value < |ts| && ts[r.value].id == id
    ensures r.None? ==> forall k :: 0 <= k < |ts| ==> ts[k].id != id
  {
    FindAmong(ts, id, |ts|)
  }

  /** The last of the first `n` tickets with this id. */
  function FindAmong(ts: seq<Ticket>, id: string, n: nat): (r: Option<nat>)
    requires n <= |ts|
    ensures r.Some? ==> r.value < n && ts[r.value].id == id
    ensures r.None? ==> forall k :: 0 <= k < n ==> ts[k].id != id
  {
    if n == 0 then None
    else if ts[n - 1].id == id then Some(n - 1)
    else FindAmong(ts, id, n - 1)
  }

  predicate TakesEffect(reply: Reply) {
    reply.Good? || reply.LostAck? || reply.Again?
  }

  function ScanMove(s: State, c: Scan, reply: Reply): Scan {
    if reply.Died? then c.(pc := Broken) else if reply.Again? then c else
    match c.pc
    case Decode =>
      c.(pc := match s.signer.Verify(c.token) case None => Done(InvalidToken, "") case Some(id) => ReadStatus(id))
    case ReadStatus(id) =>
      if !reply.Good? then c.(pc := Broken) else
      c.(pc := match FindTicket(s.db.tickets, id)
         case None => Done(NotFound, id)
         case Some(k) => if s.db.tickets[k].status == Refunded then Done(NotFound, id) else Gate(id))
    case Gate(id) =>
      if !reply.Good? then c.(pc := Broken)
      else if Live(s.gate, id, s.now) then c.(pc := Done(AlreadyScanned, id))
      else c.(pc := Record(id, s.now))
    case Record(id, at) => c.(pc := Done(Admitted(at), id))
    case _ => c
  }

  /** The gate after a step: SETNX may take effect although its reply is lost. */
  function GateAfter(s: State, c: Scan, reply: Reply): Keys {
    if c.pc.Gate? && TakesEffect(reply) then SetNX(s.gate, c.pc.id, c.scanner, s.now, SCAN_TTL) else s.gate
  }

  // ---------------------------------------------------------------- issuer runs

  /** Positions of the tickets of purchase `p` without a token. */
  function Unissued(ts: seq<Ticket>, p: nat): (ks: seq<nat>)
    ensures forall i :: 0 <= i < |ks| ==> ks[i] < |ts| && ts[ks[i]].purchase == p && ts[ks[i]].token == None
    ensures forall k :: 0 <= k < |ts| && ts[k].purchase == p && ts[k].token == None ==> k in ks
  {
    if |ts| == 0 then []
    else
      var n := |ts| - 1;
      Unissued(ts[..n], p) + (if ts[n].purchase == p && ts[n].token == None then [n] else [])
  }

  function RunMove(s: State, r: IssueRun, reply: Reply): IssueRun {
    match r.pc
    case Select =>
      if reply.Good? then r.(pc := Store(Unissued(s.db.tickets, r.purchase)), seen := |s.db.tickets|)
      else r.(pc := Stopped(false))
    case Store(todo) =>
      if reply.Died? then r.(pc := Stopped(false))
      else if todo == [] then r.(pc := Stopped(true))
      else if reply.Good? then r.(pc := Store(todo[1..]))
      else r.(pc := Stopped(false))
    case _ => r
  }

  // ---------------------------------------------------------------- the whole system

  ghost predicate Enabled(s: State, l: Label) {
    match l
    case Write(op) => (op.AddTier? || op.AddPurchase? || op.Settle? || op.Refund?) && Legal(s.db, op)
    case Step(x, reply) =>
      x < |s.scans| && !s.scans[x].pc.Done? && !s.scans[x].pc.Broken? && (reply.Again? ==> s.scans[x].pc.Gate?)
    case IssueStep(r, reply) => r < |s.runs| && !s.runs[r].pc.Stopped? && !reply.Again?
    case _ => true
  }

  /** The write a step makes to the tables. */
  ghost function OpOf(s: State, l: Label): (op: Op)
    requires Enabled(s, l)
    ensures Legal(s.db, op)
  {
    match l
    case Write(op) => op
    case Step(x, reply) =>
      var pc := s.scans[x].pc;
      if pc.Record? && (reply.Good? || reply.LostAck?) && FindTicket(s.db.tickets, pc.id).Some?
      then MarkScanned(FindTicket(s.db.tickets, pc.id).value) else NoOp
    case IssueStep(r, reply) =>
      var pc := s.runs[r].pc;
      if pc.Store? && pc.todo != [] && (reply.Good? || reply.LostAck?) && pc.todo[0] < |s.db.tickets|
      then SetToken(pc.todo[0], s.signer.Token(s.db.tickets[pc.todo[0]].id)) else NoOp
    case _ => NoOp
  }

  ghost function Next(s: State, l: Label): State
    requires Enabled(s, l)
  {
    var s' := s.(db := Run(s.db, OpOf(s, l)));
    match l
    case Write(_) => s'
    case Tick(ms) => s'.(now := s.now + ms)
    case Arrive(token, scanner) => s'.(scans := s.scans + [Scan(token, scanner, Decode)])
    case Step(x, reply) =>
      s'.(scans := s.scans[x := ScanMove(s, s.scans[x], reply)], gate := GateAfter(s, s.scans[x], reply))
    case Issue(p) => s'.(runs := s.runs + [IssueRun(p, 0, Select)])
    case IssueStep(r, reply) => s'.(runs := s.runs[r := RunMove(s, s.runs[r], reply)])
  }

  ghost predicate Init(s: State) {
    DbInv(s.db) && OwnTokens(s.db.tickets, s.signer) && s.scans == [] && s.runs == []
  }

  ghost predicate StepAt(run: seq<State>, labels: seq<Label>, i: nat)
    requires |run| == |labels| + 1
  {
    i < |labels| && Enabled(run[i], labels[i]) && run[i + 1] == Next(run[i], labels[i])
  }

  ghost predicate IsRun(run: seq<State>, labels: seq<Label>) {
    && |run| == |labels| + 1
    && Init(run[0])
    && forall i :: 0 <= i < |labels| ==> StepAt(run, labels, i)
  }

  // ---------------------------------------------------------------- the invariant

  /** The scan has won the gate. */
  predicate Won(pc: ScanPc) {
    pc.Record? || (pc.Done? && pc.outcome.Admitted?)
  }

  function WonAt(pc: ScanPc): int
    requires Won(pc)
  {
    if pc.Record? then pc.at else pc.outcome.at
  }

  ghost predicate InTable(ts: seq<Ticket>, id: string) {
    exists k :: 0 <= k < |ts| && ts[k].id == id
  }

  ghost predicate ScanOk(s: State, c: Scan) {
    && (c.pc.ReadStatus? || c.pc.Gate? || Won(c.pc) ==> c.token == s.signer.Token(c.pc.id))
    && (c.pc.Gate? || Won(c.pc) ==> InTable(s.db.tickets, c.pc.id))
    && (Won(c.pc) ==>
          WonAt(c.pc) <= s.now && c.pc.id in s.gate && s.gate[c.pc.id].expires >= WonAt(c.pc) + SCAN_TTL)
  }

  ghost predicate Spaced(scans: seq<Scan>) {
    forall x, y :: 0 <= x < |scans| && 0 <= y < |scans| && x != y &&
                   Won(scans[x].pc) && Won(scans[y].pc) && scans[x].pc.id == scans[y].pc.id ==>
      WonAt(scans[x].pc) + SCAN_TTL <= WonAt(scans[y].pc) || WonAt(scans[y].pc) + SCAN_TTL <= WonAt(scans[x].pc)
  }

  /** Every ticket a run has selected is stored or still to be stored. */
  ghost predicate RunOk(ts: seq<Ticket>, r: IssueRun) {
    r.seen <= |ts| &&
    match r.pc
    case Select => true
    case Store(todo) =>
      && (forall i :: 0 <= i < |todo| ==> todo[i] < |ts| && ts[todo[i]].purchase == r.purchase)
      && (forall k :: 0 <= k < r.seen && ts[k].purchase == r.purchase ==> ts[k].token.Some? || k in todo)
    case Stopped(ok) =>
      ok ==> forall k :: 0 <= k < r.seen && ts[k].purchase == r.purchase ==> ts[k].token.Some?
  }

  ghost predicate Inv(s: State) {
    && DbInv(s.db)
    && (forall x :: 0 <= x < |s.scans| ==> ScanOk(s, s.scans[x]))
    && Spaced(s.scans)
    && (forall r :: 0 <= r < |s.runs| ==> RunOk(s.db.tickets, s.runs[r]))
  }

  // ---------------------------------------------------------------- every step keeps it

  lemma {:induction false} DbMoves(s: State, l: Label)
    requires DbInv(s.db) && Enabled(s, l)
    ensures Later(s.db, Next(s, l).db) && DbInv(Next(s, l).db)
  {
    OpKeepsInv(s.db, OpOf(s, l));
    OpMovesForward(s.db, OpOf(s, l));
  }

  lemma {:induction false} StillInTable(a: Db, b: Db, id: string)
    requires Later(a, b) && InTable(a.tickets, id)
    ensures InTable(b.tickets, id)
  {
    var k :| 0 <= k < |a.tickets| && a.tickets[k].id == id;
    assert TicketEvolves(a.tickets[k], b.tickets[k]);
  }

  lemma {:induction false} TokensStayOwn(s: State, l: Label)
    requires OwnTokens(s.db.tickets, s.signer) && Enabled(s, l)
    ensures OwnTokens(Next(s, l).db.tickets, s.signer)
  {
    var op := OpOf(s, l);
    if op.Settle? {
      assert forall k :: 0 <= k < |s.db.tickets| ==> Run(s.db, op).tickets[k] == s.db.tickets[k];
    }
  }

  /** A scan already won stays covered by the gate: keys are only written when they have expired. */
  lemma {:induction false} OtherScanOk(s: State, s': State, c: Scan)
    requires ScanOk(s, c) && Later(s.db, s'.db) && s'.signer == s.signer && s'.now >= s.now
    requires forall k :: k in s.gate ==> k in s'.gate && s'.gate[k].expires >= s.gate[k].expires
    ensures ScanOk(s', c)
  {
    if c.pc.Gate? || Won(c.pc) {
      StillInTable(s.db, s'.db, c.pc.id);
    }
  }

  /** Keys are only written when they have expired, and winning writes one. */
  lemma {:induction false} GateGrows(s: State, c: Scan, reply: Reply)
    ensures var gate' := GateAfter(s, c, reply);
            && (forall k :: k in s.gate ==> k in gate' && gate'[k].expires >= s.gate[k].expires)
            && (c.pc.Gate? && Won(ScanMove(s, c, reply).pc) ==>
                  c.pc.id in gate' && gate'[c.pc.id].expires >= s.now + SCAN_TTL)
  {
  }

  lemma {:induction false} StepEffects(s: State, l: Label)
    requires Enabled(s, l)
    ensures var s' := Next(s, l);
            && s'.signer == s.signer && s'.now >= s.now
            && (if l.Step? then
                  && s'.scans == s.scans[l.x := ScanMove(s, s.scans[l.x], l.reply)] && s'.now == s.now
                  && s'.gate == GateAfter(s, s.scans[l.x], l.reply)
                else
                  && s.scans <= s'.scans && s'.gate == s.gate
                  && forall y :: |s.scans| <= y < |s'.scans| ==> s'.scans[y].pc.Decode?)
  {
  }

  /** What a step can make of a scan, table and gate being as in `s`. */
  ghost predicate Moves(s: State, c: Scan, c': Scan) {
    c'.token == c.token &&
    match c'.pc
    case Decode => c'.pc == c.pc
    case ReadStatus(id) => c'.pc == c.pc || c.token == s.signer.Token(id)
    case Gate(id) => c.pc == Gate(id) || (c.pc == ReadStatus(id) && InTable(s.db.tickets, id))
    case Record(id, at) => c.pc == Record(id, at) || (c.pc == Gate(id) && !Live(s.gate, id, s.now) && at == s.now)
    case Done(Admitted(at), id) => c.pc == Record(id, at) || c.pc == c'.pc
    case _ => true
  }

  lemma {:induction false} ScanMoves(s: State, c: Scan, reply: Reply)
    ensures Moves(s, c, ScanMove(s, c, reply))
  {
    match c.pc
    case Decode =>
      var decoded := s.signer.Verify(c.token);
      if decoded.Some? {
        s.signer.AcceptedIsToken(c.token, decoded.value);
      }
    case ReadStatus(id) =>
      var found := FindTicket(s.db.tickets, id);
      if found.Some? {
        assert s.db.tickets[found.value].id == id;
      }
    case _ =>
  }

  /** The scan that moved: what it newly relies on holds, and a gate just won is closed for a time to live. */
  lemma {:induction false} MovedScanOk(s: State, s': State, c: Scan, c': Scan)
    requires ScanOk(s, c) && Moves(s, c, c') && Later(s.db, s'.db) && s'.signer == s.signer && s'.now == s.now
    requires forall k :: k in s.gate ==> k in s'.gate && s'.gate[k].expires >= s.gate[k].expires
    requires c.pc.Gate? && Won(c'.pc) ==> c.pc.id in s'.gate && s'.gate[c.pc.id].expires >= s.now + SCAN_TTL
    ensures ScanOk(s', c')
  {
    if c'.pc.Gate? || Won(c'.pc) {
      StillInTable(s.db, s'.db, c'.pc.id);
    }
  }

  /** A scan wins only at the gate, finding no live key, and never changes when it won. */
  lemma {:induction false} WinsAtGate(s: State, c: Scan, reply: Reply)
    ensures var c' := ScanMove(s, c, reply);
            Won(c'.pc) ==>
              if Won(c.pc) then c'.pc.id == c.pc.id && WonAt(c'.pc) == WonAt(c.pc)
              else c.pc.Gate? && !Live(s.gate, c.pc.id, s.now) && c'.pc == Record(c.pc.id, s.now)
  {
  }

  /** Replacing a scan by one that won before at the same time, or wins now with no live key, keeps winners apart. */
  lemma {:induction false} WinnersStayApart(s: State, x: nat, c': Scan)
    requires x < |s.scans| && Spaced(s.scans) && forall y :: 0 <= y < |s.scans| ==> ScanOk(s, s.scans[y])
    requires Won(c'.pc) ==>
               if Won(s.scans[x].pc) then c'.pc.id == s.scans[x].pc.id && WonAt(c'.pc) == WonAt(s.scans[x].pc)
               else !Live(s.gate, c'.pc.id, s.now) && WonAt(c'.pc) == s.now
    ensures Spaced(s.scans[x := c'])
  {
    if Won(c'.pc) && !Won(s.scans[x].pc) {
      forall y | 0 <= y < |s.scans| && y != x && Won(s.scans[y].pc) && s.scans[y].pc.id == c'.pc.id
        ensures WonAt(s.scans[y].pc) + SCAN_TTL <= WonAt(c'.pc)
      {
        assert ScanOk(s, s.scans[y]);
      }
    }
  }

  /** A new winner comes at least a time to live after every earlier one. */
  lemma {:induction false} StepKeepsSpacing(s: State, x: nat, reply: Reply)
    requires x < |s.scans| && Spaced(s.scans) && forall y :: 0 <= y < |s.scans| ==> ScanOk(s, s.scans[y])
    ensures Spaced(s.scans[x := ScanMove(s, s.scans[x], reply)])
  {
    WinsAtGate(s, s.scans[x], reply);
    WinnersStayApart(s, x, ScanMove(s, s.scans[x], reply));
  }

  lemma {:induction false} OtherRunOk(a: Db, b: Db, r: IssueRun)
    requires RunOk(a.tickets, r) && Later(a, b)
    ensures RunOk(b.tickets, r)
  {
    forall k | 0 <= k < r.seen
      ensures b.tickets[k].purchase == a.tickets[k].purchase && (a.tickets[k].token.Some? ==> b.tickets[k].token.Some?)
    {
      assert TicketEvolves(a.tickets[k], b.tickets[k]);
    }
  }

  lemma {:induction false} OwnRunOk(s: State, r: nat, reply: Reply)
    requires Enabled(s, IssueStep(r, reply)) && RunOk(s.db.tickets, s.runs[r])
    ensures RunOk(Next(s, IssueStep(r, reply)).db.tickets, RunMove(s, s.runs[r], reply))
  {
    var q := s.runs[r];
    if q.pc.Store? && q.pc.todo != [] && reply.Good? {
      assert q.pc.todo == [q.pc.todo[0]] + q.pc.todo[1..];
    }
  }

  /** Scan `x` moves to `c'`; the others stay. */
  lemma {:induction false} ScansStayOk(s: State, s': State, x: nat, c': Scan)
    requires x < |s.scans| && (forall y :: 0 <= y < |s.scans| ==> ScanOk(s, s.scans[y])) && Moves(s, s.scans[x], c')
    requires Later(s.db, s'.db) && s'.signer == s.signer && s'.now == s.now && s'.scans == s.scans[x := c']
    requires forall k :: k in s.gate ==> k in s'.gate && s'.gate[k].expires >= s.gate[k].expires
    requires s.scans[x].pc.Gate? && Won(c'.pc) ==>
               s.scans[x].pc.id in s'.gate && s'.gate[s.scans[x].pc.id].expires >= s.now + SCAN_TTL
    ensures forall y :: 0 <= y < |s'.scans| ==> ScanOk(s', s'.scans[y])
  {
    forall y | 0 <= y < |s'.scans| ensures ScanOk(s', s'.scans[y]) {
      if y == x {
        MovedScanOk(s, s', s.scans[x], c');
      } else {
        OtherScanOk(s, s', s.scans[y]);
      }
    }
  }

  lemma {:induction false} NewScansOk(s: State, s': State)
    requires forall y :: 0 <= y < |s.scans| ==> ScanOk(s, s.scans[y])
    requires Later(s.db, s'.db) && s'.signer == s.signer && s'.now >= s.now && s'.gate == s.gate
    requires s.scans <= s'.scans && forall y :: |s.scans| <= y < |s'.scans| ==> s'.scans[y].pc.Decode?
    ensures forall y :: 0 <= y < |s'.scans| ==> ScanOk(s', s'.scans[y])
  {
    forall y | 0 <= y < |s'.scans| ensures ScanOk(s', s'.scans[y]) {
      if y < |s.scans| {
        OtherScanOk(s, s', s.scans[y]);
      }
    }
  }

  lemma {:induction false} RunsStayOk(s: State, l: Label)
    requires Enabled(s, l) && Later(s.db, Next(s, l).db)
    requires forall r :: 0 <= r < |s.runs| ==> RunOk(s.db.tickets, s.runs[r])
    ensures forall r :: 0 <= r < |Next(s, l).runs| ==> RunOk(Next(s, l).db.tickets, Next(s, l).runs[r])
  {
    var s' := Next(s, l);
    forall r | 0 <= r < |s'.runs| ensures RunOk(s'.db.tickets, s'.runs[r]) {
      if l.IssueStep? && l.r == r {
        OwnRunOk(s, r, l.reply);
      } else if r < |s.runs| {
        OtherRunOk(s.db, s'.db, s.runs[r]);
      }
    }
  }

  lemma {:induction false} StepKeepsInv(s: State, l: Label)
    requires Inv(s) && Enabled(s, l)
    ensures Inv(Next(s, l)) && Later(s.db, Next(s, l).db)
  {
    DbMoves(s, l);
    RunsStayOk(s, l);
    StepEffects(s, l);
    if l.Step? {
      ScanMoves(s, s.scans[l.x], l.reply);
      GateGrows(s, s.scans[l.x], l.reply);
      ScansStayOk(s, Next(s, l), l.x, ScanMove(s, s.scans[l.x], l.reply));
      StepKeepsSpacing(s, l.x, l.reply);
    } else {
      NewScansOk(s, Next(s, l));
    }
  }

  lemma {:induction false} Reachable(run: seq<State>, labels: seq<Label>, i: nat)
    requires IsRun(run, labels) && i < |run|
    ensures Inv(run[i])
  {
    if i > 0 {
      Reachable(run, labels, i - 1);
      assert StepAt(run, labels, i - 1);
      StepKeepsInv(run[i - 1], labels[i - 1]);
    }
  }

  lemma {:induction false} RunMovesForward(run: seq<State>, labels: seq<Label>, i: nat, j: nat)
    requires IsRun(run, labels) && i <= j < |run|
    ensures Later(run[i].db, run[j].db)
    decreases j
  {
    if i < j {
      RunMovesForward(run, labels, i, j - 1);
      assert StepAt(run, labels, j - 1);
      Reachable(run, labels, j - 1);
      StepKeepsInv(run[j - 1], labels[j - 1]);
      LaterTransitive(run[i].db, run[j - 1].db, run[j].db);
    } else {
      LaterReflexive(run[i].db);
    }
  }

  lemma {:induction false} TokensInRun(run: seq<State>, labels: seq<Label>, i: nat)
    requires IsRun(run, labels) && i < |run|
    ensures OwnTokens(run[i].db.tickets, run[i].signer)
  {
    if i > 0 {
      TokensInRun(run, labels, i - 1);
      assert StepAt(run, labels, i - 1);
      TokensStayOwn(run[i - 1], labels[i - 1]);
    }
  }

  lemma {:induction false} SignerStays(run: seq<State>, labels: seq<Label>, i: nat)
    requires IsRun(run, labels) && i < |run|
    ensures run[i].signer == run[0].signer
  {
    if i > 0 {
      SignerStays(run, labels, i - 1);
      assert StepAt(run, labels, i - 1);
    }
  }

  lemma {:induction false} Extend(run: seq<State>, labels: seq<Label>, l: Label)
    returns (run': seq<State>, labels': seq<Label>)
    requires IsRun(run, labels) && Enabled(run[|labels|], l)
    ensures IsRun(run', labels') && run' == run + [Next(run[|labels|], l)] && labels' == labels + [l]
  {
    run', labels' := run + [Next(run[|labels|], l)], labels + [l];
    forall i | 0 <= i < |labels'| ensures StepAt(run', labels', i) {
      if i < |labels| {
        assert StepAt(run, labels, i);
      }
    }
  }

  // ---------------------------------------------------------------- what follows for every run

  /** Two admissions of one ticket are at least 24 hours apart, however scans interleave. */
  lemma {:induction false} AdmissionsAreSpaced(run: seq<State>, labels: seq<Label>, i: nat, x: nat, y: nat)
    requires IsRun(run, labels) && i < |run| && x < |run[i].scans| && y < |run[i].scans| && x != y
    requires var a, b := run[i].scans[x].pc, run[i].scans[y].pc;
             a.Done? && a.outcome.Admitted? && b.Done? && b.outcome.Admitted? && a.id == b.id
    ensures var a, b := run[i].scans[x].pc.outcome.at, run[i].scans[y].pc.outcome.at;
            a + 86_400_000 <= b || b + 86_400_000 <= a
  {
    Reachable(run, labels, i);
  }

  /** Stored tokens are null or the ticket's own, and no two tickets share one. */
  lemma {:induction false} TokensAreOwn(run: seq<State>, labels: seq<Label>, i: nat)
    requires IsRun(run, labels) && i < |run| && run[0].signer.Proper()
    ensures OwnTokens(run[i].db.tickets, run[i].signer)
    ensures forall j, k :: 0 <= j < k < |run[i].db.tickets| && run[i].db.tickets[j].token.Some? ==>
              run[i].db.tickets[j].token != run[i].db.tickets[k].token
  {
    Reachable(run, labels, i);
    TokensInRun(run, labels, i);
    SignerStays(run, labels, i);
    var ts := run[i].db.tickets;
    forall j, k | 0 <= j < k < |ts| && ts[j].token.Some? ensures ts[j].token != ts[k].token {
      if ts[k].token.Some? {
        TokensDistinct(ts, run[i].signer, j, k);
      }
    }
  }

  // ---------------------------------------------------------------- entry is bounded by sales

  ghost function IdsOfTier(ts: seq<Ticket>, t: nat): (r: set<string>)
    ensures |r| <= Sum(ts, OfTier(t))
    ensures forall k :: 0 <= k < |ts| && ts[k].tier == t ==> ts[k].id in r
  {
    if |ts| == 0 then {}
    else
      var n := |ts| - 1;
      IdsOfTier(ts[..n], t) + (if ts[n].tier == t then {ts[n].id} else {})
  }

  /** The ticket of an admitted scan is in the table, minted by a completed purchase. */
  lemma {:induction false} AdmittedWasSold(run: seq<State>, labels: seq<Label>, i: nat, x: nat) returns (k: nat)
    requires IsRun(run, labels) && i < |run| && x < |run[i].scans| && Won(run[i].scans[x].pc)
    ensures var db := run[i].db;
            && k < |db.tickets| && db.tickets[k].id == run[i].scans[x].pc.id
            && db.tickets[k].purchase < |db.purchases|
            && db.purchases[db.tickets[k].purchase].status == Completed
            && db.purchases[db.tickets[k].purchase].tier == db.tickets[k].tier
  {
    Reachable(run, labels, i);
    var db := run[i].db;
    assert ScanOk(run[i], run[i].scans[x]);
    k :| 0 <= k < |db.tickets| && db.tickets[k].id == run[i].scans[x].pc.id;
    TicketIsSold(db, k);
  }

  lemma {:induction false} TicketIsSold(db: Db, k: nat)
    requires DbInv(db) && k < |db.tickets|
    ensures TicketOk(db.purchases, db.tickets[k]) && db.purchases[db.tickets[k].purchase].status == Completed
  {
    assert TicketOk(db.purchases, db.tickets[k]);
    SumAtLeast(db.tickets, k, OfPurchase(db.tickets[k].purchase));
  }

  /** However many scanners run and however often they retry, the distinct tickets admitted for a
      tier never outnumber the tickets sold for it, hence never its capacity. */
  lemma {:induction false} EntryIsBounded(run: seq<State>, labels: seq<Label>, i: nat, t: nat, admitted: set<string>)
    requires IsRun(run, labels) && i < |run| && t < |run[i].db.tiers|
    requires forall id :: id in admitted ==>
               exists x :: 0 <= x < |run[i].scans| && Won(run[i].scans[x].pc) && run[i].scans[x].pc.id == id
    requires forall k :: 0 <= k < |run[i].db.tickets| && run[i].db.tickets[k].id in admitted ==>
               run[i].db.tickets[k].tier == t
    ensures |admitted| <= run[i].db.tiers[t].sold <= run[i].db.tiers[t].capacity
  {
    Reachable(run, labels, i);
    var db := run[i].db;
    var sold := IdsOfTier(db.tickets, t);
    forall id | id in admitted ensures id in sold {
      var x :| 0 <= x < |run[i].scans| && Won(run[i].scans[x].pc) && run[i].scans[x].pc.id == id;
      var k := AdmittedWasSold(run, labels, i, x);
    }
    SubsetSize(admitted, sold);
  }

  // ---------------------------------------------------------------- a successful issuer run leaves no gap

  lemma {:induction false} SeenIsRecent(run: seq<State>, labels: seq<Label>, i: nat, j: nat, r: nat)
    requires IsRun(run, labels) && i <= j < |run| && r < |run[i].runs| && run[i].runs[r].pc.Select?
    ensures r < |run[j].runs| && run[j].runs[r].purchase == run[i].runs[r].purchase
    ensures run[j].runs[r].pc.Select? || run[j].runs[r].pc == Stopped(false) ||
              run[j].runs[r].seen >= |run[i].db.tickets|
    decreases j
  {
    if i < j {
      SeenIsRecent(run, labels, i, j - 1, r);
      RunMovesForward(run, labels, i, j - 1);
      assert StepAt(run, labels, j - 1);
    }
  }

  /** All tickets of a purchase are minted at once: none of them follows a table that already had it completed. */
  lemma {:induction false} NoneMintedLater(a: Db, b: Db, p: nat, k: nat)
    requires DbInv(a) && DbInv(b) && Later(a, b) && p < |a.purchases| && a.purchases[p].status == Completed
    requires k < |b.tickets| && b.tickets[k].purchase == p
    ensures k < |a.tickets|
  {
    assert PurchaseEvolves(a.purchases[p], b.purchases[p]);
    assert Sum(a.tickets, OfPurchase(p)) == Sum(b.tickets, OfPurchase(p));
    if k >= |a.tickets| {
      TailCounts(a, b, p, k);
    }
  }

  lemma {:induction false} TailCounts(a: Db, b: Db, p: nat, k: nat)
    requires Later(a, b) && |a.tickets| <= k < |b.tickets| && b.tickets[k].purchase == p
    ensures Sum(b.tickets, OfPurchase(p)) > Sum(a.tickets, OfPurchase(p))
  {
    var n := |a.tickets|;
    assert b.tickets == b.tickets[..n] + b.tickets[n..];
    SumConcat(b.tickets[..n], b.tickets[n..], OfPurchase(p));
    SamePurchases(a.tickets, b.tickets[..n], p, a, b);
    SumAtLeast(b.tickets[n..], k - n, OfPurchase(p));
  }

  lemma {:induction false} SamePurchases(x: seq<Ticket>, y: seq<Ticket>, p: nat, a: Db, b: Db)
    requires Later(a, b) && x <= a.tickets && y <= b.tickets && |x| == |y|
    ensures Sum(x, OfPurchase(p)) == Sum(y, OfPurchase(p))
  {
    if |x| > 0 {
      var n := |x| - 1;
      assert TicketEvolves(a.tickets[n], b.tickets[n]);
      SamePurchases(x[..n], y[..n], p, a, b);
    }
  }

  /** A run that starts once the purchase is completed and reports success leaves every ticket of
      the purchase with its own token, whatever other runs overlapped it. */
  lemma {:induction false} SuccessLeavesNoGap(run: seq<State>, labels: seq<Label>, i: nat, j: nat, r: nat)
    requires IsRun(run, labels) && i <= j < |run| && r < |run[i].runs| && run[i].runs[r].pc.Select?
    requires var p := run[i].runs[r].purchase; p < |run[i].db.purchases| && run[i].db.purchases[p].status == Completed
    requires r < |run[j].runs| && run[j].runs[r].pc == Stopped(true)
    ensures forall k :: 0 <= k < |run[j].db.tickets| && run[j].db.tickets[k].purchase == run[i].runs[r].purchase ==>
              run[j].db.tickets[k].token == Some(run[j].signer.Token(run[j].db.tickets[k].id))
  {
    SeenIsRecent(run, labels, i, j, r);
    RunMovesForward(run, labels, i, j);
    Reachable(run, labels, i);
    Reachable(run, labels, j);
    TokensInRun(run, labels, j);
    assert RunOk(run[j].db.tickets, run[j].runs[r]);
    forall k | 0 <= k < |run[j].db.tickets| && run[j].db.tickets[k].purchase == run[i].runs[r].purchase
      ensures run[j].db.tickets[k].token == Some(run[j].signer.Token(run[j].db.tickets[k].id))
    {
      NoneMintedLater(run[i].db, run[j].db, run[i].runs[r].purchase, k);
    }
  }

  // ---------------------------------------------------------------- exactly when a ticket gets its token

  /** At step `m` some issuer run stores the token of ticket `k`, whether or not it learns so. */
  ghost predicate StoredAt(run: seq<State>, labels: seq<Label>, m: nat, k: nat) {
    m < |run| && m < |labels| && Stores(run[m], labels[m], k)
  }

  ghost predicate Stores(s: State, l: Label, k: nat) {
    && l.IssueStep? && l.r < |s.runs| && (l.reply.Good? || l.reply.LostAck?)
    && s.runs[l.r].pc.Store? && s.runs[l.r].pc.todo != [] && s.runs[l.r].pc.todo[0] == k
  }

  lemma {:induction false} TokenOpIff(db: Db, op: Op, k: nat)
    requires Legal(db, op) && k < |db.tickets|
    ensures k < |Run(db, op).tickets|
    ensures Run(db, op).tickets[k].token.Some? <==> db.tickets[k].token.Some? || (op.SetToken? && op.k == k)
  {
    if op.Settle? {
      assert Run(db, op).tickets[..|db.tickets|] == db.tickets;
    }
  }

  lemma {:induction false} StoresIffOp(s: State, l: Label, k: nat)
    requires Enabled(s, l) && k < |s.db.tickets|
    ensures Stores(s, l, k) <==> OpOf(s, l).SetToken? && OpOf(s, l).k == k
  {
  }

  lemma {:induction false} TokenStepIff(s: State, l: Label, k: nat)
    requires Enabled(s, l) && k < |s.db.tickets|
    ensures k < |Next(s, l).db.tickets|
    ensures Next(s, l).db.tickets[k].token.Some? <==> s.db.tickets[k].token.Some? || Stores(s, l, k)
  {
    TokenOpIff(s.db, OpOf(s, l), k);
    StoresIffOp(s, l, k);
    assert Next(s, l).db == Run(s.db, OpOf(s, l));
  }

  lemma {:induction false} TokenAtStep(run: seq<State>, labels: seq<Label>, m: nat, k: nat)
    requires IsRun(run, labels) && m < |labels| && k < |run[m].db.tickets|
    ensures k < |run[m + 1].db.tickets|
    ensures run[m + 1].db.tickets[k].token.Some? <==> run[m].db.tickets[k].token.Some? || StoredAt(run, labels, m, k)
  {
    assert StepAt(run, labels, m);
    Reachable(run, labels, m);
    TokenStepIff(run[m], labels[m], k);
  }

  /** A ticket without a token has one later exactly when an issuer run stored it in between. */
  lemma {:induction false} TokenIff(run: seq<State>, labels: seq<Label>, i: nat, j: nat, k: nat)
    requires IsRun(run, labels) && i <= j < |run| && k < |run[i].db.tickets| && run[i].db.tickets[k].token == None
    ensures k < |run[j].db.tickets|
    ensures run[j].db.tickets[k].token.Some? <==> exists m :: i <= m < j && StoredAt(run, labels, m, k)
    decreases j
  {
    if i < j {
      TokenIff(run, labels, i, j - 1, k);
      TokenAtStep(run, labels, j - 1, k);
    }
  }

  lemma {:induction false} RunsStay(run: seq<State>, labels: seq<Label>, m: nat, j: nat, r: nat)
    requires IsRun(run, labels) && m <= j < |run| && r < |run[m].runs|
    ensures r < |run[j].runs| && run[j].runs[r].purchase == run[m].runs[r].purchase
    decreases j
  {
    if m < j {
      RunsStay(run, labels, m, j - 1, r);
      assert StepAt(run, labels, j - 1);
    }
  }

  /** Without an issuer run for its purchase a ticket never gets a token: a process that stops between
      commit and issue leaves the whole purchase without tokens until somebody issues it again. */
  lemma {:induction false} NoIssuerNoToken(run: seq<State>, labels: seq<Label>, i: nat, j: nat, k: nat)
    requires IsRun(run, labels) && i <= j < |run| && k < |run[i].db.tickets| && run[i].db.tickets[k].token == None
    requires forall r :: 0 <= r < |run[j].runs| ==> run[j].runs[r].purchase != run[i].db.tickets[k].purchase
    ensures k < |run[j].db.tickets| && run[j].db.tickets[k].token == None
  {
    TokenIff(run, labels, i, j, k);
    if run[j].db.tickets[k].token.Some? {
      var m :| i <= m < j && StoredAt(run, labels, m, k);
      Reachable(run, labels, m);
      assert RunOk(run[m].db.tickets, run[m].runs[labels[m].r]);
      RunMovesForward(run, labels, i, m);
      assert TicketEvolves(run[i].db.tickets[k], run[m].db.tickets[k]);
      RunsStay(run, labels, m, j, labels[m].r);
    }
  }

  // ---------------------------------------------------------------- exactly when the gate is closed

  /** At step `m` a scan sets the key of the ticket, whether or not it learns so. */
  ghost predicate ClosedAt(run: seq<State>, labels: seq<Label>, m: nat, id: string) {
    m < |run| && m < |labels| && Closes(run[m], labels[m], id)
  }

  ghost predicate Closes(s: State, l: Label, id: string) {
    && l.Step? && l.x < |s.scans| && s.scans[l.x].pc == Gate(id) && TakesEffect(l.reply)
    && !Live(s.gate, id, s.now)
  }

  lemma {:induction false} GateStep(s: State, l: Label, id: string)
    requires Enabled(s, l)
    ensures if Closes(s, l, id) then id in Next(s, l).gate && Next(s, l).gate[id].expires == s.now + SCAN_TTL
            else (id in Next(s, l).gate <==> id in s.gate) && (id in s.gate ==> Next(s, l).gate[id] == s.gate[id])
    ensures Next(s, l).now >= s.now
  {
  }

  /** Starting with no keys, a scan finds its ticket's key live exactly when some scan set that key less
      than 24 hours ago: a ticket is kept out for exactly so long and no longer. */
  lemma {:induction false} GateClosedIff(run: seq<State>, labels: seq<Label>, i: nat, id: string)
    requires IsRun(run, labels) && i < |run| && run[0].gate == map[]
    ensures Live(run[i].gate, id, run[i].now) <==>
              exists m :: 0 <= m < i && ClosedAt(run, labels, m, id) && run[i].now < run[m].now + 86_400_000
    ensures forall m :: 0 <= m < i && ClosedAt(run, labels, m, id) ==>
              id in run[i].gate && run[i].gate[id].expires >= run[m].now + 86_400_000
    ensures id in run[i].gate ==>
              exists m :: 0 <= m < i && ClosedAt(run, labels, m, id) &&
                run[i].gate[id].expires == run[m].now + 86_400_000
  {
    if i > 0 {
      GateClosedIff(run, labels, i - 1, id);
      assert StepAt(run, labels, i - 1);
      GateStep(run[i - 1], labels[i - 1], id);
      assert ClosedAt(run, labels, i - 1, id) == Closes(run[i - 1], labels[i - 1], id);
    }
  }
}
