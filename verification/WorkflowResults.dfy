/** What a run returns, shows as its phase and schedules, told from the recorded results alone, over every history. */
module WorkflowResults {
  import opened Types
  import opened Workflow
  import opened WorkflowLaws

  lemma WonOfAppend(log: seq<Answer>, last: Answer, k: nat, a: Activity)
    requires last.activity != a || k != |log|
    ensures Workflow.Won(log + [last], k, a) <==> Workflow.Won(log, k, a)
    ensures Workflow.Won(log, k, a) ==> (log + [last])[k] == log[k]
  {}

  /** The result, once it is decided, as the log has it. */
  predicate ResultTold(input: CanaryInput, s: State) {
    var log, res := s.answers, s.res;
    && (res.status.Unset? ==> res.reason.NoReason?)
    && (|s.stack| >= 1 <==> Workflow.Won(log, 1, ScaleCanary))
    && (|s.stack| == 2 <==> Workflow.Won(log, 3, ShiftTraffic))
    && (s.pc.Broken? ==> log == [Answer(PolicyCheck, Failed)])
    && (res.status.PolicyRejected? ==>
          res.reason == PolicyDenied && Workflow.Won(log, 0, PolicyCheck) && !log[0].report.verdict)
    && (res.status.Promoted? ==> Cleared(log) && Workflow.Won(log, 5, Promote) && res.reason == ApprovedBy(res.actor))
    && (Unwinding(res) ==>
          && Workflow.Won(log, 0, PolicyCheck) && log[0].report.verdict
          && if !Workflow.Won(log, 1, ScaleCanary) then res.status == RolledBack && res.reason == ScaleFailed
             else if !Workflow.Won(log, 2, HealthCheck) then res.status == RolledBack && res.reason == HealthError
             else if !log[2].report.verdict then res.status == RolledBack && res.reason == Unhealthy
             else if !Workflow.Won(log, 3, ShiftTraffic) then res.status == RolledBack && res.reason == ShiftFailed
             else
               && !Workflow.Won(log, 5, Promote)
               && (|| (res.status == TimedOut && res.reason == NoApproval && !input.autoPromote)
                   || (res.status == RolledBack && res.reason == RejectedBy(res.actor) && !input.autoPromote)
                   || (res.status == RolledBack && res.reason == PromoteFailed)))
  }

  predicate PhaseTold(input: CanaryInput, s: State) {
    var log := s.answers;
    if !Workflow.Won(log, 0, PolicyCheck) then s.phase == PolicyPhase
    else if !log[0].report.verdict then s.phase == PolicyRejectedPhase
    else if !Workflow.Won(log, 1, ScaleCanary) then s.phase == ScalePhase
    else if !Workflow.Won(log, 2, HealthCheck) || !log[2].report.verdict then s.phase == BakePhase
    else if !Workflow.Won(log, 3, ShiftTraffic) then s.phase == ShiftPhase
    else if s.res.status.Promoted? then s.phase == PromotedPhase
    else if input.autoPromote then s.phase == (if s.pc.AtRecord? then ShiftPhase else PromotePhase)
    else if s.pc.AtGate? || s.pc.AtRecord? || s.res.reason.NoApproval? || s.res.reason.RejectedBy?
    then s.phase == AwaitingPhase
    else s.phase == PromotePhase
  }

  /** What an uncancelled run has scheduled by now. */
  predicate NextScheduled(s: State) {
    var log, cs := s.answers, s.commands;
    !s.cancelled ==>
      && (Workflow.Won(log, 0, PolicyCheck) && log[0].report.verdict ==> |cs| > 1 && cs[1] == ScaleCanary)
      && (Workflow.Won(log, 1, ScaleCanary) ==> |cs| > 2 && cs[2] == HealthCheck)
      && (Workflow.Won(log, 2, HealthCheck) && log[2].report.verdict ==> |cs| > 3 && cs[3] == ShiftTraffic)
      && (Cleared(log) && !s.pc.AtGate? ==> |cs| > 4 && cs[4].RecordApproval?)
      && (Cleared(log) && !s.pc.AtGate? && !s.pc.AtRecord? ==>
            cs[4].decision == Timeout || cs[4].decision == Rejected || (|cs| > 5 && cs[5] == Promote))
  }

  predicate Told(input: CanaryInput, s: State) {
    ResultTold(input, s) && PhaseTold(input, s) && NextScheduled(s)
  }

  /** What has been recorded at each point of the forward path. */
  lemma ForwardLog(input: CanaryInput, s: State)
    requires Inv(input, s) && !Disconnected(s.pc) && !Over(s.pc)
    ensures s.res.status == Unset && s.res.service == input.service
    ensures |s.answers| == match s.pc
                           case AtPolicy => 0 case AtScale => 1 case AtHealth => 2 case AtShift => 3
                           case AtPromote => 5 case _ => 4
    ensures |s.commands| == match s.pc
                            case AtPolicy => 1 case AtScale => 2 case AtHealth => 3 case AtShift => 4
                            case AtGate => 4 case AtPromote => 6 case _ => 5
    ensures |s.answers| > 0 ==> Workflow.Won(s.answers, 0, PolicyCheck) && s.answers[0].report.verdict
    ensures |s.answers| > 1 ==> Workflow.Won(s.answers, 1, ScaleCanary)
    ensures |s.answers| > 2 ==> Workflow.Won(s.answers, 2, HealthCheck) && s.answers[2].report.verdict
    ensures |s.answers| > 3 ==> Workflow.Won(s.answers, 3, ShiftTraffic)
    ensures ForwardOrder(s.commands)
    ensures |s.stack| == if s.pc.AtPolicy? || s.pc.AtScale? then 0 else if s.pc.AtHealth? || s.pc.AtShift? then 1 else 2
    ensures s.pc.AtRecord? ==> s.commands[4] == RecordApproval(s.res.actor, s.pc.decision)
  {
    ForwardPoint(input, s);
  }

  /** The forward path as far as the log has it, between two waits. */
  predicate Between(input: CanaryInput, s: State) {
    && s.res.status == Unset && s.res.reason == NoReason
    && Cleared(s.answers) && !Workflow.Won(s.answers, 5, Promote) && ForwardOrder(s.commands) && |s.commands| >= 4
    && s.phase == (if input.autoPromote then ShiftPhase else AwaitingPhase) && |s.stack| == 2
  }

  lemma UnwindTold(input: CanaryInput, s: State, status: CanaryStatus, reason: Reason)
    requires var u := s.(pc := AtAlert, res := s.res.(status := status, reason := reason));
             ResultTold(input, u) && PhaseTold(input, u) && NextScheduled(u)
    ensures Told(input, Unwind(s, status, reason))
  {
    hide UndoFrom;
  }

  lemma DecidedTold(input: CanaryInput, s: State, d: Decision)
    requires Between(input, s) && (d == Auto <==> input.autoPromote)
    requires !s.cancelled ==> |s.commands| == 5 && s.commands[4].decision == d
    ensures Told(input, Decided(s, d))
  {
    hide Unwind;
    var p := s.(phase := PromotePhase);
    match d
    case Timeout => UnwindTold(input, s, TimedOut, NoApproval);
    case Rejected => UnwindTold(input, s, RolledBack, RejectedBy(s.res.actor));
    case _ =>
      if s.cancelled {
        UnwindTold(input, p, RolledBack, PromoteFailed);
      }
  }

  lemma RecordTold(input: CanaryInput, s: State, actor: string, d: Decision)
    requires Between(input, s) && (d == Auto <==> input.autoPromote) && |s.commands| == 4
    ensures Told(input, ToRecord(s, actor, d))
  {
    hide Decided;
    if s.cancelled {
      DecidedTold(input, s.(res := s.res.(actor := actor)), d);
    }
  }

  lemma GateTold(input: CanaryInput, s: State, timer: bool)
    requires Between(input, s) && !input.autoPromote && |s.commands| == 4
    ensures Told(input, Gate(s, timer))
  {
    hide ToRecord;
    if s.inbox != [] {
      var signal := s.inbox[0];
      RecordTold(input, s.(inbox := s.inbox[1..]), signal.actor, if signal.approve then Approved else Rejected);
    } else if timer || s.cancelled {
      RecordTold(input, s, "", Timeout);
    }
  }

  lemma ResumeTold(input: CanaryInput, s: State, r: Report)
    requires Inv(input, s) && Told(input, s) && !s.pc.AtGate? && !Over(s.pc)
    ensures Told(input, Resume(input, s, r))
  {
    hide Inv, Told, Resume;
    match s.pc
    case AtPolicy => PolicyTold(input, s, r);
    case AtScale => ScaleTold(input, s, r);
    case AtHealth => HealthTold(input, s, r);
    case AtShift => ShiftTold(input, s, r);
    case AtRecord(d) => RecordedTold(input, s, r);
    case AtPromote => PromoteTold(input, s, r);
    case AtUndo(_, _) => UndoTold(input, s, r);
    case AtAlert => UndoTold(input, s, r);
  }

  lemma PolicyTold(input: CanaryInput, s: State, r: Report)
    requires Inv(input, s) && Told(input, s) && s.pc.AtPolicy?
    ensures Told(input, Resume(input, s, r))
  {
    hide Inv, Unwind, Continues, OnlyUnwinds;
    ForwardLog(input, s);
    if r.Completed? && r.verdict && s.cancelled {
      UnwindTold(input, Answered(s, r).(phase := ScalePhase), RolledBack, ScaleFailed);
    }
  }

  lemma ScaleTold(input: CanaryInput, s: State, r: Report)
    requires Inv(input, s) && Told(input, s) && s.pc.AtScale?
    ensures Told(input, Resume(input, s, r))
  {
    hide Inv, Unwind, Continues, OnlyUnwinds;
    ForwardLog(input, s);
    var a := Answered(s, r);
    if r.Failed? {
      UnwindTold(input, a, RolledBack, ScaleFailed);
    } else if s.cancelled {
      UnwindTold(input, a.(stack := a.stack + [ScaleDownCanary], phase := BakePhase), RolledBack, HealthError);
    }
  }

  lemma HealthTold(input: CanaryInput, s: State, r: Report)
    requires Inv(input, s) && Told(input, s) && s.pc.AtHealth?
    ensures Told(input, Resume(input, s, r))
  {
    hide Inv, Unwind, Continues, OnlyUnwinds;
    ForwardLog(input, s);
    var a := Answered(s, r);
    if r.Failed? {
      UnwindTold(input, a, RolledBack, HealthError);
    } else if !r.verdict {
      UnwindTold(input, a, RolledBack, Unhealthy);
    } else if s.cancelled {
      UnwindTold(input, a.(phase := ShiftPhase), RolledBack, ShiftFailed);
    }
  }

  lemma ShiftTold(input: CanaryInput, s: State, r: Report)
    requires Inv(input, s) && Told(input, s) && s.pc.AtShift?
    ensures Told(input, Resume(input, s, r))
  {
    hide Inv, Unwind, Gate, ToRecord;
    ForwardLog(input, s);
    var a := Answered(s, r);
    var b := a.(stack := a.stack + [ShiftTrafficBack]);
    if r.Failed? {
      UnwindTold(input, a, RolledBack, ShiftFailed);
    } else if input.autoPromote {
      RecordTold(input, b, AutoActor(), Auto);
    } else {
      GateTold(input, b.(phase := AwaitingPhase), ReadyAtOnce(input));
    }
  }

  lemma RecordedTold(input: CanaryInput, s: State, r: Report)
    requires Inv(input, s) && Told(input, s) && s.pc.AtRecord?
    ensures Told(input, Resume(input, s, r))
  {
    hide Inv, Decided;
    ForwardLog(input, s);
    RecordIsAuto(input, s);
    DecidedTold(input, Answered(s, r), s.pc.decision);
  }

  lemma PromoteTold(input: CanaryInput, s: State, r: Report)
    requires Inv(input, s) && Told(input, s) && s.pc.AtPromote?
    ensures Told(input, Resume(input, s, r))
  {
    hide Inv, Told, Unwind, Continues, OnlyUnwinds;
    if r.Failed? {
      NotPromotedTold(input, s, r);
    } else {
      PromotedTold(input, s, r);
    }
  }

  lemma NotPromotedTold(input: CanaryInput, s: State, r: Report)
    requires Inv(input, s) && Told(input, s) && s.pc.AtPromote? && r.Failed?
    ensures Told(input, Unwind(Answered(s, r), RolledBack, PromoteFailed))
  {
    hide Inv, Unwind, Continues, OnlyUnwinds;
    ForwardLog(input, s);
    UnwindTold(input, Answered(s, r), RolledBack, PromoteFailed);
  }

  lemma PromotedTold(input: CanaryInput, s: State, r: Report)
    requires Inv(input, s) && Told(input, s) && s.pc.AtPromote? && r.Completed?
    ensures Told(input, Resume(input, s, r))
  {
    hide Inv, Unwind, Continues, OnlyUnwinds;
    ForwardLog(input, s);
  }

  /** Answers of compensations and alerts tell nothing of the forward path. */
  lemma UndoTold(input: CanaryInput, s: State, r: Report)
    requires Inv(input, s) && Told(input, s) && Disconnected(s.pc)
    ensures Told(input, Resume(input, s, r))
  {
    hide Inv, Told, Resume;
    LateStatus(input, s);
    UndoRest(input, s);
    UndoShape(input, s, r);
    UndoFrame(input, s, r);
    SameTold(input, s, Resume(input, s, r), Answer(Waiting(s).value, r));
  }

  lemma UndoFrame(input: CanaryInput, s: State, r: Report)
    requires Disconnected(s.pc)
    ensures var u := Resume(input, s, r); u.phase == s.phase && u.cancelled == s.cancelled && s.commands <= u.commands
    ensures Resume(input, s, r).answers == s.answers + [Answer(Waiting(s).value, r)]
  {
    hide UndoFrom;
  }

  /** The later state has one more answer, which is not of the forward path, and what follows from it. */
  predicate OneMore(s: State, u: State, last: Answer) {
    && s.res.status != Unset && u.res == s.res && u.stack == s.stack && u.phase == s.phase && u.cancelled == s.cancelled
    && s.commands <= u.commands && u.answers == s.answers + [last] && AfterForward(last.activity)
    && Disconnected(s.pc) && (Disconnected(u.pc) || u.pc.Finished?)
  }

  lemma SameTold(input: CanaryInput, s: State, u: State, last: Answer)
    requires Told(input, s) && OneMore(s, u, last)
    ensures Told(input, u)
  {
    hide OneMore, ResultTold, PhaseTold, NextScheduled;
    SameResult(input, s, u, last);
    SamePhase(input, s, u, last);
    SameNext(s, u, last);
  }

  lemma SameWon(s: State, u: State, last: Answer)
    requires OneMore(s, u, last)
    ensures Workflow.Won(u.answers, 0, PolicyCheck) <==> Workflow.Won(s.answers, 0, PolicyCheck)
    ensures Workflow.Won(u.answers, 1, ScaleCanary) <==> Workflow.Won(s.answers, 1, ScaleCanary)
    ensures Workflow.Won(u.answers, 2, HealthCheck) <==> Workflow.Won(s.answers, 2, HealthCheck)
    ensures Workflow.Won(u.answers, 3, ShiftTraffic) <==> Workflow.Won(s.answers, 3, ShiftTraffic)
    ensures Workflow.Won(u.answers, 5, Promote) <==> Workflow.Won(s.answers, 5, Promote)
    ensures forall k | 0 <= k < |s.answers| :: u.answers[k] == s.answers[k]
  {
    WonOfAppend(s.answers, last, 0, PolicyCheck);
    WonOfAppend(s.answers, last, 1, ScaleCanary);
    WonOfAppend(s.answers, last, 2, HealthCheck);
    WonOfAppend(s.answers, last, 3, ShiftTraffic);
    WonOfAppend(s.answers, last, 5, Promote);
  }

  lemma SameResult(input: CanaryInput, s: State, u: State, last: Answer)
    requires ResultTold(input, s) && OneMore(s, u, last)
    ensures ResultTold(input, u)
  {
    SameWon(s, u, last);
  }

  lemma SamePhase(input: CanaryInput, s: State, u: State, last: Answer)
    requires PhaseTold(input, s) && OneMore(s, u, last)
    ensures PhaseTold(input, u)
  {
    SameWon(s, u, last);
  }

  lemma SameNext(s: State, u: State, last: Answer)
    requires NextScheduled(s) && OneMore(s, u, last)
    ensures NextScheduled(u)
  {
    SameWon(s, u, last);
  }

  lemma StartTold(input: CanaryInput)
    ensures Told(input, Start(input))
  {}

  lemma TaskTold(input: CanaryInput, s: State, t: Task)
    requires Inv(input, s) && Told(input, s)
    ensures Told(input, OnTask(input, s, t))
  {
    hide Inv, Told, Resume, Gate, ResultTold, PhaseTold, NextScheduled;
    if !Over(s.pc) {
      var m := Deliver(s, t);
      DeliverKeepsInv(input, s, t);
      DeliverTold(input, s, t);
      if m.pc.AtGate? {
        AtGateStill(input, s);
        GateResumes(input, m, t.timer);
      } else {
        ResumeTold(input, m, Failed);
        if t.done.Some? {
          ResumeTold(input, m, t.done.value);
        }
      }
    }
  }

  lemma DeliverTold(input: CanaryInput, s: State, t: Task)
    requires Told(input, s)
    ensures Told(input, Deliver(s, t))
  {}

  lemma GateResumes(input: CanaryInput, s: State, timer: bool)
    requires Inv(input, s) && Told(input, s) && s.pc.AtGate? && !input.autoPromote
    ensures Told(input, Gate(s, timer))
  {
    hide Inv, Gate;
    ForwardLog(input, s);
    GateTold(input, s, timer);
  }

  lemma {:induction false} ReplayTold(input: CanaryInput, history: seq<Task>)
    ensures Told(input, Replay(input, history))
  {
    hide Inv, OnTask, Told;
    if history != [] {
      var n := |history| - 1;
      ReplayTold(input, history[..n]);
      Reachable(input, history[..n]);
      TaskTold(input, Replay(input, history[..n]), history[n]);
    } else {
      StartTold(input);
    }
  }

  // --- The laws ---

  /** The result of every run that is over, cancelled or not, told from the recorded results, and past the shift also
      from the first signal. */
  lemma ResultTellsLog(input: CanaryInput, history: seq<Task>)
    requires Over(Replay(input, history).pc)
    ensures var s, signals := Replay(input, history), Signals(history);
            var log, res := s.answers, s.res;
            && res.service == input.service
            && (s.pc.Broken? <==> !Workflow.Won(log, 0, PolicyCheck))
            && (s.pc.Broken? ==>
                  && log == [Answer(PolicyCheck, Failed)] && s.commands == [PolicyCheck]
                  && res.status == Unset && res.reason == NoReason)
            && (s.pc.Finished? ==>
                  if !log[0].report.verdict then res.status == PolicyRejected && res.reason == PolicyDenied
                  else if !Workflow.Won(log, 1, ScaleCanary) then res.status == RolledBack && res.reason == ScaleFailed
                  else if !Workflow.Won(log, 2, HealthCheck) then res.status == RolledBack && res.reason == HealthError
                  else if !log[2].report.verdict then res.status == RolledBack && res.reason == Unhealthy
                  else if !Workflow.Won(log, 3, ShiftTraffic) then res.status == RolledBack && res.reason == ShiftFailed
                  else if Workflow.Won(log, 5, Promote) then
                    res.status == Promoted && res.reason == ApprovedBy(res.actor)
                  else if input.autoPromote then res.status == RolledBack && res.reason == PromoteFailed
                  else
                    || (res.status == TimedOut && res.reason == NoApproval && res.actor == "")
                    || (&& signals != [] && res.status == RolledBack
                        && res.reason == if signals[0].approve then PromoteFailed else RejectedBy(signals[0].actor)))
            && res.actor == (if !Workflow.Won(log, 3, ShiftTraffic) || res.status == TimedOut then ""
                             else if input.autoPromote then "auto-release"
                             else if signals != [] then signals[0].actor else "")
            && (res.status == Promoted && !input.autoPromote ==> signals != [] && signals[0].approve)
  {
    hide Replay, Signals, Inv, PhaseTold, NextScheduled;
    ReplayTold(input, history);
    Reachable(input, history);
    GateIsDecidedOnce(input, history);
    OverResult(input, Replay(input, history));
  }

  lemma OverResult(input: CanaryInput, s: State)
    requires Over(s.pc) && Inv(input, s)
    ensures s.res.service == input.service
    ensures s.pc.Finished? ==> s.res.status != Unset
    ensures s.pc.Broken? ==> s.res.status == Unset && s.commands == [PolicyCheck]
  {}

  /** What is scheduled after the forward part of a finished run. */
  function Afterwards(s: State): seq<Activity> {
    var unwound := s.res.status == RolledBack || s.res.status == TimedOut;
    (if unwound && Workflow.Won(s.answers, 3, ShiftTraffic) then [ShiftTrafficBack] else []) +
    (if unwound && Workflow.Won(s.answers, 1, ScaleCanary) then [ScaleDownCanary] else []) +
    (if s.res.status == Promoted then [] else [Alert(s.res.status, s.res.reason)])
  }

  /** How far forward an uncancelled run goes. */
  function Reach(s: State): nat {
    var log, cs := s.answers, s.commands;
    if !Workflow.Won(log, 0, PolicyCheck) || !log[0].report.verdict then 1
    else if !Workflow.Won(log, 1, ScaleCanary) then 2
    else if !Workflow.Won(log, 2, HealthCheck) || !log[2].report.verdict then 3
    else if !Workflow.Won(log, 3, ShiftTraffic) then 4
    else if RecordApproval(s.res.actor, Timeout) in cs || RecordApproval(s.res.actor, Rejected) in cs then 5
    else 6
  }

  /** The first n commands are the forward activities in the one order there is. */
  predicate ForwardPart(s: State, n: nat) {
    var cs := s.commands;
    && 1 <= n <= 6 && n <= |cs|
    && cs[0] == PolicyCheck
    && (n > 1 ==> cs[1] == ScaleCanary)
    && (n > 2 ==> cs[2] == HealthCheck)
    && (n > 3 ==> cs[3] == ShiftTraffic)
    && (n > 4 ==> cs[4].RecordApproval? && cs[4].actor == s.res.actor)
    && (n > 5 ==> cs[5] == Promote)
  }

  /** The schedule of a finished run: a forward part, the inverses of the steps that succeeded if it was unwound, last
      step first, and an alert unless it promoted. An uncancelled run goes as far forward as its log lets it. */
  lemma ScheduleTellsLog(input: CanaryInput, history: seq<Task>) returns (n: nat)
    requires Replay(input, history).pc.Finished?
    ensures var s := Replay(input, history);
            && ForwardPart(s, n)
            && s.commands == s.commands[..n] + Afterwards(s)
            && (!s.cancelled ==> n == Reach(s))
  {
    hide Replay, Inv, Told, ForwardPart, Afterwards, Reach;
    ReplayTold(input, history);
    Reachable(input, history);
    var s := Replay(input, history);
    n := |Forward(s)|;
    ForwardIsPart(input, s);
    FinishedSchedule(input, s);
    if !s.cancelled {
      FinishedReach(input, s);
    }
  }

  lemma ForwardIsPart(input: CanaryInput, s: State)
    requires Inv(input, s)
    ensures ForwardPart(s, |Forward(s)|)
    ensures |Forward(s)| <= |s.commands| && s.commands[..|Forward(s)|] == Forward(s)
  {
    hide Milestone, Tail;
  }

  lemma FinishedSchedule(input: CanaryInput, s: State)
    requires s.pc.Finished? && Inv(input, s) && Told(input, s)
    ensures s.commands == Forward(s) + Afterwards(s)
  {
    hide Inv, PhaseTold, NextScheduled, Facts, Forward;
    Ending(input, s);
    UndoRest(input, s);
    ReverseShort(s.stack);
    PromotedHasNoTail(input, s);
  }

  lemma PromotedHasNoTail(input: CanaryInput, s: State)
    requires s.pc.Finished? && Inv(input, s)
    ensures s.res.status != Unset
    ensures !Unwinding(s.res) ==>
              Tail(s) == if s.res.status == Promoted then [] else [Alert(s.res.status, s.res.reason)]
  {
    hide Forward, Facts, Reverse;
  }

  /** Nothing forward is scheduled before what it needs has been reported. */
  lemma Earned(input: CanaryInput, s: State)
    requires s.pc.Finished? && Inv(input, s) && ResultTold(input, s)
    ensures var n, log := |Forward(s)|, s.answers;
            && (n > 1 ==> Workflow.Won(log, 0, PolicyCheck) && log[0].report.verdict)
            && (n > 2 ==> Workflow.Won(log, 1, ScaleCanary))
            && (n > 3 ==> Workflow.Won(log, 2, HealthCheck) && log[2].report.verdict)
            && (n > 4 ==> Workflow.Won(log, 3, ShiftTraffic))
            && (n > 5 ==> Forward(s)[4].decision == Auto || Forward(s)[4].decision == Approved)
  {
    hide Tail, Forward;
  }

  /** Nothing forward comes after the forward part. */
  lemma ForwardEnds(s: State, n: nat)
    requires n <= |s.commands| && s.commands == s.commands[..n] + Afterwards(s)
    ensures forall i | n <= i < |s.commands| :: AfterForward(s.commands[i])
  {
    assert forall i | 0 <= i < |Afterwards(s)| :: AfterForward(Afterwards(s)[i]);
    hide Afterwards, AfterForward;
    assert forall i | n <= i < |s.commands| :: s.commands[i] == Afterwards(s)[i - n];
  }

  lemma FinishedReach(input: CanaryInput, s: State)
    requires s.pc.Finished? && Inv(input, s) && Told(input, s) && !s.cancelled
    ensures |Forward(s)| == Reach(s)
  {
    hide Inv, PhaseTold, ResultTold, NextScheduled, Forward, Reach, Afterwards;
    var n := |Forward(s)|;
    Earned(input, s);
    ForwardIsPart(input, s);
    FinishedSchedule(input, s);
    ForwardEnds(s, n);
    ReachIs(s, n);
  }

  lemma ReachIs(s: State, n: nat)
    requires ForwardPart(s, n) && NextScheduled(s) && !s.cancelled && s.pc.Finished?
    requires forall i | n <= i < |s.commands| :: AfterForward(s.commands[i])
    requires n > 1 ==> Workflow.Won(s.answers, 0, PolicyCheck) && s.answers[0].report.verdict
    requires n > 2 ==> Workflow.Won(s.answers, 1, ScaleCanary)
    requires n > 3 ==> Workflow.Won(s.answers, 2, HealthCheck) && s.answers[2].report.verdict
    requires n > 4 ==> Workflow.Won(s.answers, 3, ShiftTraffic)
    requires n > 5 ==> s.commands[4].decision == Auto || s.commands[4].decision == Approved
    ensures n == Reach(s)
  {
    assert forall i | 0 <= i < |s.commands| :: s.commands[i].RecordApproval? ==> i == 4 && n > 4;
    if n > 4 {
      assert s.commands[4] in s.commands;
    }
  }

  // --- The gate ---

  predicate TimesOut(s: State) { s.res.status == TimedOut || s.pc == AtRecord(Timeout) }

  lemma TaskTimesOut(input: CanaryInput, s: State, t: Task)
    requires Inv(input, s)
    ensures var s' := OnTask(input, s, t);
            TimesOut(s') && !TimesOut(s) ==>
              && (t.timer || s'.cancelled || input.approvalTimeout <= 0)
              && BeforeGate(s.pc) && s.inbox + t.signals == []
  {
    hide Inv, Resume, Gate, TimesOut;
    var m := Deliver(s, t);
    GateTimesOut(m, t.timer);
    ResumeTimesOut(input, m, Failed);
    if t.done.Some? {
      ResumeTimesOut(input, m, t.done.value);
    }
    assert TimesOut(m) == TimesOut(s) by { DeliverTimesOut(s, t); }
  }

  lemma DeliverTimesOut(s: State, t: Task)
    ensures TimesOut(Deliver(s, t)) == TimesOut(s)
  {}

  lemma GateTimesOut(s: State, timer: bool)
    ensures TimesOut(Gate(s, timer)) && !TimesOut(s) ==> (timer || s.cancelled) && s.inbox == []
  {
    hide UndoFrom, Continues, OnlyUnwinds;
  }

  lemma ResumeTimesOut(input: CanaryInput, s: State, r: Report)
    ensures TimesOut(Resume(input, s, r)) && !TimesOut(s) ==>
              (s.cancelled || input.approvalTimeout <= 0) && s.pc.AtShift? && s.inbox == []
  {
    hide UndoFrom, Continues, OnlyUnwinds, Gate;
    var a := Answered(s, r);
    GateTimesOut(a.(stack := a.stack + [ShiftTrafficBack], phase := AwaitingPhase), ReadyAtOnce(input));
  }

  /** No run times out but by its timer, by a cancellation, or for want of any time to wait. */
  lemma {:induction false} TimeoutHasCause(input: CanaryInput, history: seq<Task>)
    ensures var s := Replay(input, history);
            s.res.status == TimedOut || s.pc == AtRecord(Timeout) ==>
              || (exists i | 0 <= i < |history| :: history[i].timer)
              || s.cancelled || input.approvalTimeout <= 0
  {
    hide Inv, OnTask;
    if history != [] {
      var n := |history| - 1;
      TimeoutHasCause(input, history[..n]);
      Reachable(input, history[..n]);
      TaskTimesOut(input, Replay(input, history[..n]), history[n]);
      CancelStays(input, Replay(input, history[..n]), history[n]);
      assert history[..n] + [history[n]] == history;
      if i :| 0 <= i < n && history[..n][i].timer {
        assert history[i].timer;
      }
    }
  }

  /** A signal wins over the timer, even one that arrives with it: when a run times out, none has ever arrived. */
  lemma {:induction false} TimeoutMeansSilence(input: CanaryInput, history: seq<Task>, t: Task)
    ensures var s, s' := Replay(input, history), Replay(input, history + [t]);
            && (s'.res.status == TimedOut || s'.pc == AtRecord(Timeout))
            && s.res.status != TimedOut && s.pc != AtRecord(Timeout) ==>
              Signals(history + [t]) == []
  {
    hide Inv, OnTask, Replay, GateFacts;
    var s := Replay(input, history);
    assert (history + [t])[..|history|] == history;
    assert Signals(history + [t]) == Signals(history) + t.signals;
    ReplayOfAppend(input, history, t);
    Reachable(input, history);
    TaskTimesOut(input, s, t);
    GateIsDecidedOnce(input, history);
    assert BeforeGate(s.pc) ==> s.inbox == Signals(history) by { StillWaiting(input, s, Signals(history)); }
  }

  lemma StillWaiting(input: CanaryInput, s: State, signals: seq<ApprovalSignal>)
    requires GateFacts(input, s, signals)
    ensures BeforeGate(s.pc) ==> s.inbox == signals
  {}

  lemma CancelStays(input: CanaryInput, s: State, t: Task)
    ensures s.cancelled ==> OnTask(input, s, t).cancelled
  {
    hide Resume, Gate;
  }

  /** A run with auto-promotion never waits at the gate and never times out; every decision it records is automatic. */
  lemma AutoRuns(input: CanaryInput, history: seq<Task>)
    requires input.autoPromote
    ensures var s := Replay(input, history);
            && !s.pc.AtGate? && s.phase != AwaitingPhase && s.res.status != TimedOut
            && s.res.actor in ["", "auto-release"]
            && forall a | a in s.commands && a.RecordApproval? :: a == RecordApproval("auto-release", Auto)
  {
    hide Replay, GateFacts, Inv, ResultTold, PhaseTold, NextScheduled;
    ReplayTold(input, history);
    Reachable(input, history);
    GateIsDecidedOnce(input, history);
    AutoPhase(input, Replay(input, history));
    AutoState(input, Replay(input, history), Signals(history));
  }

  lemma AutoPhase(input: CanaryInput, s: State)
    requires input.autoPromote && PhaseTold(input, s)
    ensures s.phase != AwaitingPhase
  {}

  lemma AutoState(input: CanaryInput, s: State, signals: seq<ApprovalSignal>)
    requires input.autoPromote && Inv(input, s) && ResultTold(input, s) && GateFacts(input, s, signals)
    ensures !s.pc.AtGate? && s.res.status != TimedOut && s.res.actor in ["", "auto-release"]
    ensures forall a | a in s.commands && a.RecordApproval? :: a == RecordApproval("auto-release", Auto)
  {
    if s.pc.AtGate? {
      AtGateStill(input, s);
    }
    hide Inv;
    forall a | a in s.commands && a.RecordApproval? ensures a == RecordApproval("auto-release", Auto) {
      var k :| 0 <= k < |s.commands| && s.commands[k] == a;
      RecordIsFifth(input, s, k);
    }
  }

  // --- Cancellation, and what ends a wait ---

  /** Nothing forward is waited for once the run is cancelled. */
  predicate Stopped(s: State) {
    s.cancelled ==> s.pc.AtUndo? || s.pc.AtAlert? || s.pc.Finished? || s.pc.Broken?
  }

  lemma GateStops(s: State, timer: bool)
    ensures Stopped(Gate(s, timer))
  {
    hide Unwind, Continues, OnlyUnwinds;
  }

  lemma ResumeStops(input: CanaryInput, s: State, r: Report)
    requires !s.pc.AtGate?
    ensures Stopped(Resume(input, s, r))
  {
    hide Unwind, UndoFrom, Continues, OnlyUnwinds, Gate;
    var a := Answered(s, r);
    GateStops(a.(stack := a.stack + [ShiftTrafficBack], phase := AwaitingPhase), ReadyAtOnce(input));
  }

  lemma TaskStops(input: CanaryInput, s: State, t: Task)
    requires Stopped(s)
    ensures Stopped(OnTask(input, s, t))
    ensures t.cancel ==> OnTask(input, s, t).cancelled || Over(OnTask(input, s, t).pc)
  {
    hide Resume, Gate;
    var m := Deliver(s, t);
    GateStops(m, t.timer);
    if !m.pc.AtGate? {
      ResumeStops(input, m, Failed);
      if t.done.Some? {
        ResumeStops(input, m, t.done.value);
      }
    }
  }

  lemma {:induction false} ReplayStops(input: CanaryInput, history: seq<Task>)
    ensures Stopped(Replay(input, history))
    ensures (exists i | 0 <= i < |history| :: history[i].cancel) ==>
              Replay(input, history).cancelled || Over(Replay(input, history).pc)
  {
    hide OnTask, Stopped;
    if history != [] {
      var n := |history| - 1;
      var s := Replay(input, history[..n]);
      ReplayStops(input, history[..n]);
      TaskStops(input, s, history[n]);
      CancelStays(input, s, history[n]);
      if Over(s.pc) {
        OverStays(input, s, history[n]);
      }
      if i :| 0 <= i < n && history[i].cancel {
        assert history[..n][i].cancel;
      }
    } else {
      StartStops(input);
    }
  }

  lemma StartStops(input: CanaryInput)
    ensures Stopped(Start(input))
  {}

  /** A cancelled run is unwinding, alerting or over, from then on. */
  lemma {:induction false} CancelledRunsUnwind(input: CanaryInput, history: seq<Task>)
    requires exists i | 0 <= i < |history| :: history[i].cancel
    ensures var pc := Replay(input, history).pc; pc.AtUndo? || pc.AtAlert? || pc.Finished? || pc.Broken?
  {
    hide Replay;
    ReplayStops(input, history);
  }

  /** What ends each wait. The gate is left on a signal, the first of those that come, or without one on the timer or a
      cancellation, and on nothing else. A forward activity is waited for until it reports or a cancellation fails it. A
      compensation or an alert is waited for until it reports, cancelled or not. */
  lemma WaitsEnd(input: CanaryInput, history: seq<Task>, t: Task)
    ensures var s, s' := Replay(input, history), Replay(input, history + [t]);
            && (s.pc.AtGate? ==>
                  if t.signals != [] then
                    && s'.res.actor == t.signals[0].actor
                    && (!t.cancel ==> s'.pc == AtRecord(if t.signals[0].approve then Approved else Rejected))
                  else if t.cancel then s'.res.status == TimedOut
                  else s'.pc == if t.timer then AtRecord(Timeout) else AtGate)
            && (Waiting(s).Some? ==>
                  match t.done
                  case Some(r) => s'.answers == s.answers + [Answer(Waiting(s).value, r)]
                  case None =>
                    if t.cancel && !s.pc.AtUndo? && !s.pc.AtAlert?
                    then s'.answers == s.answers + [Answer(Waiting(s).value, Failed)]
                    else s'.pc == s.pc && s'.commands == s.commands && s'.answers == s.answers)
  {
    hide Replay, OnTask, Inv, GateFacts, Resume;
    var s := Replay(input, history);
    ReplayStops(input, history);
    assert Replay(input, history + [t]) == OnTask(input, s, t) by { ReplayOfAppend(input, history, t); }
    if Waiting(s).Some? {
      WaitingTask(input, s, t);
    } else if s.pc.AtGate? {
      Reachable(input, history);
      GateIsDecidedOnce(input, history);
      AtGateStill(input, s);
      GateLeaves(input, s, t);
    }
  }

  lemma GateLeaves(input: CanaryInput, s: State, t: Task)
    requires s.pc.AtGate? && s.inbox == [] && !s.cancelled
    ensures var s' := OnTask(input, s, t);
            if t.signals != [] then
              && s'.res.actor == t.signals[0].actor
              && (!t.cancel ==> s'.pc == AtRecord(if t.signals[0].approve then Approved else Rejected))
            else if t.cancel then s'.res.status == TimedOut
            else s'.pc == if t.timer then AtRecord(Timeout) else AtGate
  {
    hide Unwind;
  }
}
