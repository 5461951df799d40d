/** When an issuer run succeeds: it fails only at a round trip of its own, and answered it gets to its end. */
module IssuerRuns {
  import opened Options
  import opened Tables
  import opened Door

  /** A run that has stopped without success had a round trip that was not answered. */
  lemma {:induction false} StoppedBecause(run: seq<State>, labels: seq<Label>, i: nat, r: nat) returns (m: nat)
    requires IsRun(run, labels) && i < |run| && r < |run[i].runs| && run[i].runs[r].pc == Stopped(false)
    ensures m < i && labels[m].IssueStep? && labels[m].r == r && !labels[m].reply.Good?
    ensures r < |run[m].runs| && (run[m].runs[r].pc.Select? || run[m].runs[r].pc.Store?)
  {
    assert i > 0;
    assert StepAt(run, labels, i - 1);
    if r < |run[i - 1].runs| && run[i - 1].runs[r].pc == Stopped(false) {
      m := StoppedBecause(run, labels, i - 1, r);
    } else {
      m := i - 1;
    }
  }

  /** How many more answers a run needs. */
  function AnswersLeft(s: State, pc: RunPc, purchase: nat): nat {
    match pc
    case Select => |Unissued(s.db.tickets, purchase)| + 2
    case Store(todo) => |todo| + 1
    case Stopped(_) => 0
  }

  lemma {:induction false} AnswerHelps(s: State, r: nat)
    requires Enabled(s, IssueStep(r, Good))
    ensures var s' := Next(s, IssueStep(r, Good));
            && r < |s'.runs| && s'.runs[r].purchase == s.runs[r].purchase && s'.runs[r].pc != Stopped(false)
            && AnswersLeft(s', s'.runs[r].pc, s.runs[r].purchase) + 1 ==
               AnswersLeft(s, s.runs[r].pc, s.runs[r].purchase)
  {
  }

  /** From any state a run can be answered to its end, in one select, one store for each ticket that lacked its
      token, and then it has succeeded. */
  lemma {:induction false} AnsweredToItsEnd(run: seq<State>, labels: seq<Label>, r: nat)
    returns (run': seq<State>, labels': seq<Label>)
    requires IsRun(run, labels) && r < |run[|labels|].runs| && run[|labels|].runs[r].pc != Stopped(false)
    ensures IsRun(run', labels') && run <= run' && labels <= labels'
    ensures var s := run[|labels|];
            |labels'| == |labels| + AnswersLeft(s, s.runs[r].pc, s.runs[r].purchase)
    ensures forall m :: |labels| <= m < |labels'| ==> labels'[m] == IssueStep(r, Good)
    ensures r < |run'[|labels'|].runs| && run'[|labels'|].runs[r].pc == Stopped(true)
    decreases var s := run[|labels|]; AnswersLeft(s, s.runs[r].pc, s.runs[r].purchase)
  {
    var s := run[|labels|];
    if s.runs[r].pc.Stopped? {
      run', labels' := run, labels;
    } else {
      AnswerHelps(s, r);
      var run1, labels1 := Extend(run, labels, IssueStep(r, Good));
      run', labels' := AnsweredToItsEnd(run1, labels1, r);
    }
  }
}
