/** What holds of the canary workflow over every history. */
module WorkflowLaws {
  import opened Types
  import opened Workflow

  // --- The saga: compensations are the inverses of the successes, in reverse ---

  /** The inverses of the steps that reported success, in the order of the reports. */
  function Inverses(log: seq<Answer>): seq<Activity> {
    if log == [] then []
    else
      var last := log[|log| - 1];
      Inverses(log[..|log| - 1]) + if last.report.Completed? then Inverse(last.activity) else []
  }

  function Compensations(cs: seq<Activity>): seq<Activity> {
    if cs == [] then []
    else
      var last := cs[|cs| - 1];
      Compensations(cs[..|cs| - 1]) + if IsCompensation(last) then [last] else []
  }

  lemma {:induction false} CompensationsOfAppend(a: seq<Activity>, b: seq<Activity>)
    ensures Compensations(a + b) == Compensations(a) + Compensations(b)
  {
    if b == [] {
      assert a + b == a;
    } else {
      var n := |b| - 1;
      assert (a + b)[..|a + b| - 1] == a + b[..n];
      CompensationsOfAppend(a, b[..n]);
    }
  }

  lemma {:induction false} CompensationsOfForward(f: seq<Activity>)
    requires forall i | 0 <= i < |f| :: !IsCompensation(f[i])
    ensures Compensations(f) == []
  {
    if f != [] {
      CompensationsOfForward(f[..|f| - 1]);
    }
  }

  lemma {:induction false} CompensationsOnly(u: seq<Activity>)
    requires forall i | 0 <= i < |u| :: IsCompensation(u[i])
    ensures Compensations(u) == u
  {
    if u != [] {
      CompensationsOnly(u[..|u| - 1]);
    }
  }

  lemma InversesSnoc(log: seq<Answer>, a: Answer)
    ensures Inverses(log + [a]) == Inverses(log) + if a.report.Completed? then Inverse(a.activity) else []
  {
    assert (log + [a])[..|log|] == log;
  }

  lemma {:induction false} StackHoldsInverses(input: CanaryInput, history: seq<Task>)
    ensures var s := Replay(input, history); s.stack == Inverses(s.answers)
  {
    hide Inv, OnTask, Inverses;
    if history != [] {
      var n := |history| - 1;
      StackHoldsInverses(input, history[..n]);
      Reachable(input, history[..n]);
      TaskPushesInverse(input, Replay(input, history[..n]), history[n]);
    } else {
      StartHoldsInverses(input);
    }
  }

  lemma StartHoldsInverses(input: CanaryInput)
    ensures Start(input).stack == Inverses(Start(input).answers)
  {}

  lemma TaskPushesInverse(input: CanaryInput, s: State, t: Task)
    requires Inv(input, s) && s.stack == Inverses(s.answers)
    ensures var s' := OnTask(input, s, t); s'.stack == Inverses(s'.answers)
  {
    hide Inv, Resume, Gate, Inverses;
    var m := Deliver(s, t);
    UndoingIsNotForward(input, s);
    ResumePushesInverse(input, m, Failed);
    if t.done.Some? {
      ResumePushesInverse(input, m, t.done.value);
    }
  }

  lemma ResumePushesInverse(input: CanaryInput, s: State, r: Report)
    requires s.stack == Inverses(s.answers)
    requires s.pc.AtUndo? ==> Inverse(s.pc.current) == []
    ensures var s' := Resume(input, s, r); s'.stack == Inverses(s'.answers)
  {
    hide Resume, Inverses, Continues;
    if Waiting(s).Some? {
      InversesSnoc(s.answers, Answer(Waiting(s).value, r));
    }
  }

  lemma UndoingIsNotForward(input: CanaryInput, s: State)
    requires Inv(input, s)
    ensures s.pc.AtUndo? ==> Inverse(s.pc.current) == []
  {
    hide Forward, Tail;
  }

  /** How the schedule of a finished run splits into its forward part and what came after. */
  lemma Ending(input: CanaryInput, s: State)
    requires Inv(input, s) && Over(s.pc)
    ensures s.commands == Forward(s) + Tail(s)
    ensures forall i | 0 <= i < |Forward(s)| :: !IsCompensation(Forward(s)[i])
    ensures forall i | 0 <= i < |s.stack| :: IsCompensation(s.stack[i])
    ensures Unwinding(s.res) ==> Tail(s) == Reverse(s.stack) + [Alert(s.res.status, s.res.reason)]
    ensures !Unwinding(s.res) ==> Tail(s) == [] || Tail(s) == [Alert(s.res.status, s.res.reason)]
  {
    assert s.pc.Broken? ==> s.res.status == Unset;
    hide Reverse, Milestone;
  }

  lemma {:induction false} ReverseMembers(u: seq<Activity>)
    requires forall i | 0 <= i < |u| :: IsCompensation(u[i])
    ensures |Reverse(u)| == |u| && forall i | 0 <= i < |u| :: IsCompensation(Reverse(u)[i])
  {
    if u != [] {
      ReverseMembers(u[1..]);
    }
  }

  /** Every finished run that was unwound scheduled exactly the inverses of the steps that had reported success, each
      once and in reverse order, whatever the compensations themselves reported and whether or not it was cancelled;
      every other run scheduled none. */
  lemma LifoCompensation(input: CanaryInput, history: seq<Task>)
    ensures var s := Replay(input, history);
            Over(s.pc) ==> Compensations(s.commands) == if Unwinding(s.res) then Reverse(Inverses(s.answers)) else []
  {
    var s := Replay(input, history);
    Reachable(input, history);
    StackHoldsInverses(input, history);
    if Over(s.pc) {
      Ending(input, s);
      hide Inv, Replay, Reverse, Forward, Tail, Inverses, Compensations;
      ReverseMembers(s.stack);
      CompensationsOfRun(Forward(s), [], Alert(s.res.status, s.res.reason), Tail(s));
      CompensationsOfRun(Forward(s), Reverse(s.stack), Alert(s.res.status, s.res.reason), Tail(s));
    }
  }

  lemma CompensationsOfRun(f: seq<Activity>, u: seq<Activity>, alert: Activity, tail: seq<Activity>)
    requires forall i | 0 <= i < |f| :: !IsCompensation(f[i])
    requires forall i | 0 <= i < |u| :: IsCompensation(u[i])
    requires alert.Alert?
    ensures tail == u + [alert] ==> Compensations(f + tail) == u
    ensures tail == [alert] || tail == [] ==> Compensations(f + tail) == []
  {
    CompensationsOfAppend(f, tail);
    CompensationsOfForward(f);
    CompensationsOfForward([alert]);
    CompensationsOnly(u);
    CompensationsOfAppend(u, [alert]);
  }

  /** A run schedules no activity twice. */
  lemma {:induction false} EachActivityOnce(input: CanaryInput, history: seq<Task>)
    ensures Distinct(Replay(input, history).commands)
  {
    var s := Replay(input, history);
    Reachable(input, history);
    TailIsDistinct(input, s);
    hide Forward, Tail, Milestone, Replay, ForwardOrder, Reverse;
    DistinctRun(Forward(s), Tail(s));
  }

  predicate Distinct(cs: seq<Activity>) { forall i, j | 0 <= i < j < |cs| :: cs[i] != cs[j] }

  predicate AfterForward(a: Activity) { IsCompensation(a) || a.Alert? }

  lemma DistinctRun(f: seq<Activity>, t: seq<Activity>)
    requires ForwardOrder(f) && Distinct(t) && forall i | 0 <= i < |t| :: AfterForward(t[i])
    ensures Distinct(f + t)
  {
    assert Distinct(f) && forall i | 0 <= i < |f| :: !AfterForward(f[i]);
    hide ForwardOrder;
    forall i, j | 0 <= i < j < |f + t| ensures (f + t)[i] != (f + t)[j] {
      if j < |f| {
        assert f[i] != f[j];
      } else if i < |f| {
        assert !AfterForward(f[i]) && AfterForward(t[j - |f|]);
      } else {
        assert t[i - |f|] != t[j - |f|];
      }
    }
  }

  lemma TailIsDistinct(input: CanaryInput, s: State)
    requires Inv(input, s)
    ensures Distinct(Tail(s)) && forall i | 0 <= i < |Tail(s)| :: AfterForward(Tail(s)[i])
  {
    hide Inv, Tail, Reverse;
    var alert := [Alert(s.res.status, s.res.reason)];
    UndoRest(input, s);
    var u := if s.pc.AtUndo? then s.stack[|s.pc.rest|..] else s.stack;
    TailShape(input, s, u);
    ReverseShort(u);
    DistinctTail(u, Reverse(u), alert[0]);
  }

  lemma UndoRest(input: CanaryInput, s: State)
    requires Inv(input, s)
    ensures StackShape(s.stack)
    ensures s.pc.AtUndo? ==>
              |s.pc.rest| < |s.stack| && s.pc.rest == s.stack[..|s.pc.rest|] && s.pc.current == s.stack[|s.pc.rest|]
  {
    hide Forward, Tail;
  }

  predicate ShortStack(u: seq<Activity>) {
    |u| <= 2 && (forall i | 0 <= i < |u| :: IsCompensation(u[i])) && (|u| == 2 ==> u[0] != u[1])
  }

  lemma TailShape(input: CanaryInput, s: State, u: seq<Activity>)
    requires Inv(input, s)
    requires s.pc.AtUndo? ==> |s.pc.rest| <= |s.stack| && u == s.stack[|s.pc.rest|..]
    requires !s.pc.AtUndo? ==> u == s.stack
    ensures ShortStack(u)
    ensures var t, alert := Tail(s), [Alert(s.res.status, s.res.reason)];
            t == [] || t == alert || t == Reverse(u) || t == Reverse(u) + alert
  {
    hide Inv, Reverse;
    UndoRest(input, s);
    assert ShortStack(s.stack);
    if s.pc.AtUndo? {
      assert |u| <= 2 && (|u| == |s.stack| ==> u == s.stack) && (|u| == 1 ==> u[0] == s.stack[|s.stack| - 1]);
    }
  }

  lemma DistinctTail(u: seq<Activity>, r: seq<Activity>, alert: Activity)
    requires ShortStack(u)
    requires r == if |u| == 2 then [u[1], u[0]] else u
    requires alert.Alert?
    ensures Distinct(r) && Distinct(r + [alert]) && Distinct([alert])
    ensures forall i | 0 <= i < |r| :: AfterForward(r[i])
    ensures forall i | 0 <= i < |r + [alert]| :: AfterForward((r + [alert])[i])
  {}

  // --- The approval gate ---

  function Signals(history: seq<Task>): seq<ApprovalSignal> {
    if history == [] then []
    else Signals(history[..|history| - 1]) + history[|history| - 1].signals
  }

  predicate BeforeGate(pc: Pc) { pc.AtPolicy? || pc.AtScale? || pc.AtHealth? || pc.AtShift? || pc.AtGate? }

  /** The first signal that ever arrived, and only it, stands behind a recorded approval or rejection. */
  predicate GateFacts(input: CanaryInput, s: State, signals: seq<ApprovalSignal>) {
    && (BeforeGate(s.pc) ==> s.inbox == signals)
    && (s.pc.AtGate? ==> signals == [])
    && (input.autoPromote ==> s.res.actor == if |s.stack| == 2 then AutoActor() else "")
    && (!input.autoPromote ==>
          match s.res.status
          case Unset =>
            && (BeforeGate(s.pc) || s.pc.Broken? ==> s.res.actor == "")
            && (s.pc.AtRecord? ==> Heard(s.res.actor, s.pc.decision, signals))
            && (s.pc.AtPromote? ==> Heard(s.res.actor, Approved, signals))
          case Promoted => Heard(s.res.actor, Approved, signals)
          case _ =>
            if |s.stack| < 2 then s.res.actor == ""
            else match s.res.reason
              case NoApproval => s.res.status == TimedOut && s.res.actor == ""
              case RejectedBy(actor) =>
                s.res.status == RolledBack && actor == s.res.actor && Heard(s.res.actor, Rejected, signals)
              case _ =>
                s.res.status == RolledBack && s.res.reason == PromoteFailed && Heard(s.res.actor, Approved, signals))
  }

  predicate Heard(actor: string, d: Decision, signals: seq<ApprovalSignal>) {
    match d
    case Timeout => actor == ""
    case Auto => false
    case _ => signals != [] && signals[0].actor == actor && (signals[0].approve <==> d == Approved)
  }

  lemma {:induction false} GateIsDecidedOnce(input: CanaryInput, history: seq<Task>)
    ensures GateFacts(input, Replay(input, history), Signals(history))
  {
    if history != [] {
      var n := |history| - 1;
      GateIsDecidedOnce(input, history[..n]);
      Reachable(input, history[..n]);
      GateStep(input, Replay(input, history[..n]), history[n], Signals(history[..n]));
    }
  }

  lemma GateStep(input: CanaryInput, s: State, t: Task, signals: seq<ApprovalSignal>)
    requires Inv(input, s) && GateFacts(input, s, signals)
    ensures GateFacts(input, OnTask(input, s, t), signals + t.signals)
  {
    var heard := signals + t.signals;
    var m := Deliver(s, t);
    hide GateFacts, Inv, Gate, Resume;
    if s.pc.AtGate? {
      AtGateStill(input, s);
      assert m.inbox == heard;
      GateDecides(input, m, t.timer, heard);
    } else {
      LaterSignals(input, s, signals, t.signals);
      DeliverKeepsInv(input, s, t);
      DeliverKeepsGateFacts(input, s, t, heard);
      if !Over(s.pc) {
        if t.done.Some? {
          ResumeGateFacts(input, m, t.done.value, heard);
        }
        ResumeGateFacts(input, m, Failed, heard);
      }
    }
  }

  lemma AtGateStill(input: CanaryInput, s: State)
    requires Inv(input, s) && s.pc.AtGate?
    ensures !input.autoPromote && |s.stack| == 2 && s.res.status == Unset
    ensures forall signals | GateFacts(input, s, signals) :: s.res.actor == "" && s.inbox == signals == []
  {
    EarlyStack(input, s);
  }

  lemma DeliverKeepsGateFacts(input: CanaryInput, s: State, t: Task, heard: seq<ApprovalSignal>)
    requires GateFacts(input, s.(inbox := s.inbox + t.signals), heard)
    ensures GateFacts(input, Deliver(s, t), heard)
  {}

  lemma LaterSignals(input: CanaryInput, s: State, signals: seq<ApprovalSignal>, more: seq<ApprovalSignal>)
    requires GateFacts(input, s, signals) && !s.pc.AtGate?
    ensures GateFacts(input, s.(inbox := s.inbox + more), signals + more)
    ensures !BeforeGate(s.pc) ==> GateFacts(input, s, signals + more)
  {
    assert signals != [] ==> (signals + more)[0] == signals[0];
  }

  lemma DecidedGateFacts(input: CanaryInput, s: State, d: Decision, signals: seq<ApprovalSignal>)
    requires |s.stack| == 2 && s.res.status == Unset
    requires if input.autoPromote then s.res.actor == AutoActor() && d == Auto else Heard(s.res.actor, d, signals)
    ensures GateFacts(input, Decided(s, d), signals)
  {}

  lemma RecordGateFacts(input: CanaryInput, s: State, actor: string, d: Decision, signals: seq<ApprovalSignal>)
    requires |s.stack| == 2 && s.res.status == Unset
    requires if input.autoPromote then actor == AutoActor() && d == Auto
             else Heard(actor, d, signals)
    ensures GateFacts(input, ToRecord(s, actor, d), signals)
  {
    var s' := s.(res := s.res.(actor := actor));
    if s.cancelled {
      DecidedGateFacts(input, s', d, signals);
    }
  }

  lemma GateDecides(input: CanaryInput, s: State, timer: bool, signals: seq<ApprovalSignal>)
    requires !input.autoPromote && |s.stack| == 2 && s.res.status == Unset && s.res.actor == ""
    requires s.inbox == signals
    ensures GateFacts(input, Gate(s, timer), signals)
  {
    if s.inbox != [] {
      var signal := s.inbox[0];
      RecordGateFacts(input, s.(inbox := s.inbox[1..]), signal.actor, if signal.approve then Approved else Rejected,
                      signals);
    } else if timer || s.cancelled {
      RecordGateFacts(input, s, "", Timeout, signals);
    }
  }

  lemma UnwindGateFacts(input: CanaryInput, s: State, status: CanaryStatus, reason: Reason,
                        signals: seq<ApprovalSignal>)
    requires status == RolledBack && |s.stack| < 2 && s.res.actor == ""
    ensures GateFacts(input, Unwind(s, status, reason), signals)
  {}

  lemma ResumeGateFacts(input: CanaryInput, s: State, r: Report, signals: seq<ApprovalSignal>)
    requires Inv(input, s) && GateFacts(input, s, signals) && !s.pc.AtGate? && !Over(s.pc)
    ensures GateFacts(input, Resume(input, s, r), signals)
  {
    hide GateFacts, Inv, Resume;
    match s.pc
    case AtPolicy => PolicyGateFacts(input, s, r, signals);
    case AtScale => ScaleGateFacts(input, s, r, signals);
    case AtHealth => HealthGateFacts(input, s, r, signals);
    case AtShift => ShiftGateFacts(input, s, r, signals);
    case AtRecord(d) => RecordedGateFacts(input, s, r, signals);
    case AtPromote => PromoteGateFacts(input, s, r, signals);
    case AtUndo(rest, _) => UndoGateFacts(input, s, r, signals);
    case AtAlert => UndoGateFacts(input, s, r, signals);
  }

  lemma UndoGateFacts(input: CanaryInput, s: State, r: Report, signals: seq<ApprovalSignal>)
    requires Inv(input, s) && GateFacts(input, s, signals) && Disconnected(s.pc)
    ensures GateFacts(input, Resume(input, s, r), signals)
  {
    hide Inv, Resume, GateFacts;
    var u := Resume(input, s, r);
    UndoShape(input, s, r);
    LateStatus(input, s);
    SameOutcome(input, s, u, signals);
  }

  lemma LateStatus(input: CanaryInput, s: State)
    requires Inv(input, s) && Disconnected(s.pc)
    ensures s.res.status != Unset
  {
    hide Facts, Milestone, Forward, Tail;
  }

  lemma UndoShape(input: CanaryInput, s: State, r: Report)
    requires Disconnected(s.pc)
    ensures var u := Resume(input, s, r); u.res == s.res && u.stack == s.stack && (Disconnected(u.pc) || u.pc.Finished?)
  {
    hide UndoFrom;
  }

  lemma SameOutcome(input: CanaryInput, s: State, u: State, signals: seq<ApprovalSignal>)
    requires GateFacts(input, s, signals) && s.res.status != Unset
    requires u.res == s.res && u.stack == s.stack && (Disconnected(u.pc) || u.pc.Finished?)
    ensures GateFacts(input, u, signals)
  {}

  lemma EarlyStack(input: CanaryInput, s: State)
    requires Inv(input, s) && !Disconnected(s.pc) && !Over(s.pc)
    ensures s.res.status == Unset
    ensures |s.stack| == if s.pc.AtPolicy? || s.pc.AtScale? then 0 else if s.pc.AtHealth? || s.pc.AtShift? then 1 else 2
  {
    hide Facts, Forward, Tail;
  }

  lemma PolicyGateFacts(input: CanaryInput, s: State, r: Report, signals: seq<ApprovalSignal>)
    requires Inv(input, s) && GateFacts(input, s, signals) && s.pc.AtPolicy?
    ensures GateFacts(input, Resume(input, s, r), signals)
  {
    hide Inv;
    EarlyStack(input, s);
  }

  lemma ScaleGateFacts(input: CanaryInput, s: State, r: Report, signals: seq<ApprovalSignal>)
    requires Inv(input, s) && GateFacts(input, s, signals) && s.pc.AtScale?
    ensures GateFacts(input, Resume(input, s, r), signals)
  {
    hide Inv;
    EarlyStack(input, s);
  }

  lemma HealthGateFacts(input: CanaryInput, s: State, r: Report, signals: seq<ApprovalSignal>)
    requires Inv(input, s) && GateFacts(input, s, signals) && s.pc.AtHealth?
    ensures GateFacts(input, Resume(input, s, r), signals)
  {
    hide Inv;
    EarlyStack(input, s);
  }

  lemma ShiftGateFacts(input: CanaryInput, s: State, r: Report, signals: seq<ApprovalSignal>)
    requires Inv(input, s) && GateFacts(input, s, signals) && s.pc.AtShift?
    ensures GateFacts(input, Resume(input, s, r), signals)
  {
    hide Inv, ToRecord, Gate, Unwind;
    EarlyStack(input, s);
    var s' := Answered(s, r);
    var u := s'.(stack := s'.stack + [ShiftTrafficBack]);
    assert |u.stack| == 2 && s.res.status == Unset && s.res.actor == "";
    if r.Failed? {
      UnwindGateFacts(input, s', RolledBack, ShiftFailed, signals);
    } else if input.autoPromote {
      RecordGateFacts(input, u, AutoActor(), Auto, signals);
    } else {
      GateDecides(input, u.(phase := AwaitingPhase), ReadyAtOnce(input), signals);
    }
  }

  lemma RecordedGateFacts(input: CanaryInput, s: State, r: Report, signals: seq<ApprovalSignal>)
    requires Inv(input, s) && GateFacts(input, s, signals) && s.pc.AtRecord?
    ensures GateFacts(input, Resume(input, s, r), signals)
  {
    hide Inv, Decided;
    EarlyStack(input, s);
    RecordIsAuto(input, s);
    DecidedGateFacts(input, Answered(s, r), s.pc.decision, signals);
  }

  lemma RecordIsAuto(input: CanaryInput, s: State)
    requires Inv(input, s) && s.pc.AtRecord?
    ensures s.pc.decision == Auto <==> input.autoPromote
  {
    hide Tail;
  }

  lemma PromoteGateFacts(input: CanaryInput, s: State, r: Report, signals: seq<ApprovalSignal>)
    requires Inv(input, s) && GateFacts(input, s, signals) && s.pc.AtPromote?
    ensures GateFacts(input, Resume(input, s, r), signals)
  {
    hide Inv, Resume, GateFacts;
    EarlyStack(input, s);
    PromoteShape(input, s, r);
    PromoteOutcome(input, s, Resume(input, s, r), signals);
  }

  lemma PromoteShape(input: CanaryInput, s: State, r: Report)
    requires s.pc.AtPromote?
    ensures var u := Resume(input, s, r);
            && u.res.actor == s.res.actor
            && if r.Failed? then u.res.status == RolledBack && u.res.reason == PromoteFailed && Disconnected(u.pc)
               else u.res.status == Promoted && u.pc.Finished?
  {
    hide UndoFrom;
  }

  lemma PromoteOutcome(input: CanaryInput, s: State, u: State, signals: seq<ApprovalSignal>)
    requires GateFacts(input, s, signals) && s.pc.AtPromote? && s.res.status == Unset
    requires u.res.actor == s.res.actor && |u.stack| == |s.stack| == 2 && !BeforeGate(u.pc)
    requires u.res.status == Promoted || (u.res.status == RolledBack && u.res.reason == PromoteFailed)
    ensures GateFacts(input, u, signals)
  {
    hide AutoActor;
  }

  /** A finished run that reached the gate without auto-promotion ended for exactly one cause: the timer (or a cancelled
      wait), or the first signal that ever arrived, whose sender is the result's actor. Only an approving first signal
      is compatible with a promotion, and a rejecting one with a rejection. */
  lemma GateOutcome(input: CanaryInput, history: seq<Task>)
    ensures var s, signals := Replay(input, history), Signals(history);
            s.pc.Finished? && !input.autoPromote && |s.stack| == 2 ==>
              || (s.res.status == TimedOut && s.res.reason == NoApproval && s.res.actor == "")
              || (&& signals != [] && s.res.actor == signals[0].actor
                  && if signals[0].approve
                     then s.res.status == Promoted || (s.res.status == RolledBack && s.res.reason == PromoteFailed)
                     else s.res.status == RolledBack && s.res.reason == RejectedBy(signals[0].actor))
  {
    hide Replay, Inv;
    GateIsDecidedOnce(input, history);
    Reachable(input, history);
    if Replay(input, history).pc.Finished? {
      FinishedStatus(input, Replay(input, history));
    }
  }

  lemma FinishedStatus(input: CanaryInput, s: State)
    requires Inv(input, s) && s.pc.Finished?
    ensures s.res.status != Unset
  {
    hide Facts, Milestone, Forward, Tail;
  }

  /** Promote is only ever scheduled after an allowed policy check, a successful scale-up, a healthy bake, a successful
      traffic shift and a recorded decision: automatic when the request says so, else the approval sent as the first
      signal. */
  lemma PromotionIsCleared(input: CanaryInput, history: seq<Task>)
    ensures var s, signals := Replay(input, history), Signals(history);
            Promote in s.commands ==>
              && Cleared(s.answers)
              && |s.answers| >= 5
              && s.answers[4].activity == RecordApproval(s.res.actor, if input.autoPromote then Auto else Approved)
              && (!input.autoPromote ==> signals != [] && signals[0].approve && signals[0].actor == s.res.actor)
  {
    hide Replay, Inv, Forward, GateFacts;
    var s := Replay(input, history);
    Reachable(input, history);
    GateIsDecidedOnce(input, history);
    if Promote in s.commands {
      PromoteIsSixth(input, s);
      if !input.autoPromote {
        PromoteHeard(input, s, Signals(history));
      }
    }
  }

  lemma PromoteIsSixth(input: CanaryInput, s: State)
    requires Inv(input, s) && Promote in s.commands
    ensures |Forward(s)| == 6 && |s.stack| == 2 && Cleared(s.answers) && |s.answers| >= 5
    ensures s.answers[4].activity == RecordApproval(s.res.actor, if input.autoPromote then Auto else Approved)
    ensures s.pc.AtPromote? || s.pc.AtUndo? || s.pc.AtAlert? || s.pc.Finished?
    ensures s.res.status == Unset ==> s.pc.AtPromote?
    ensures s.res.status == Unset || s.res.status == Promoted ||
            (s.res.status == RolledBack && s.res.reason == PromoteFailed)
  {
    TailIsDistinct(input, s);
    var f, t := Forward(s), Tail(s);
    var i :| 0 <= i < |s.commands| && s.commands[i] == Promote;
    PromoteIsForward(f, t, i);
  }

  lemma PromoteIsForward(f: seq<Activity>, t: seq<Activity>, i: nat)
    requires i < |f + t| && (f + t)[i] == Promote && ForwardOrder(f)
    requires forall j | 0 <= j < |t| :: AfterForward(t[j])
    ensures |f| == 6
  {
    assert forall j | 0 <= j < |t| :: t[j] != Promote;
  }

  lemma PromoteHeard(input: CanaryInput, s: State, signals: seq<ApprovalSignal>)
    requires GateFacts(input, s, signals) && |s.stack| == 2 && !input.autoPromote
    requires s.res.status == Unset ==> s.pc.AtPromote?
    requires s.res.status == Unset || s.res.status == Promoted ||
             (s.res.status == RolledBack && s.res.reason == PromoteFailed)
    ensures Heard(s.res.actor, Approved, signals)
  {
    hide Heard;
  }

  /** The only recorded decision is the fifth activity's. */
  lemma RecordIsFifth(input: CanaryInput, s: State, k: nat)
    requires Inv(input, s) && k < |s.commands| && s.commands[k].RecordApproval?
    ensures |s.stack| == 2
    ensures k == 4 && s.commands[4].actor == s.res.actor
    ensures s.commands[4].decision == Auto <==> input.autoPromote
    ensures s.res.status != Unset ==> Fits(s.commands[4].decision, s.res.status)
  {
    hide Milestone, Forward, Tail;
    assert Facts(input, s, Forward(s));
    TailIsDistinct(input, s);
    var f, t := Forward(s), Tail(s);
    assert forall j | 0 <= j < |t| :: AfterForward(t[j]) && !t[j].RecordApproval?;
  }

  // --- Later signals do not matter ---

  function First(signals: seq<ApprovalSignal>): seq<ApprovalSignal> { if signals == [] then [] else [signals[0]] }

  /** The two histories differ only in when which signals arrived. */
  predicate SameButSignals(h: seq<Task>, h': seq<Task>) {
    |h| == |h'| && forall i | 0 <= i < |h| :: h[i].(signals := []) == h'[i].(signals := [])
  }

  /** At every point the same first signal, or none, had arrived. */
  predicate SameFirstSignal(h: seq<Task>, h': seq<Task>) {
    |h| == |h'| && forall k | 0 <= k <= |h| :: First(Signals(h[..k])) == First(Signals(h'[..k]))
  }

  function Mute(s: State): State { s.(inbox := []) }

  /** Two runs whose histories agree on everything but later signals schedule, answer and return the same. With
      auto-promotion no signal matters at all. */
  lemma {:induction false} OnlyFirstSignalMatters(input: CanaryInput, h: seq<Task>, h': seq<Task>)
    requires SameButSignals(h, h') && (input.autoPromote || SameFirstSignal(h, h'))
    ensures Mute(Replay(input, h)) == Mute(Replay(input, h'))
  {
    hide OnTask, Signals, First;
    if h != [] {
      var n := |h| - 1;
      FirstSignalEarlier(h, h');
      hide SameFirstSignal;
      OnlyFirstSignalMatters(input, h[..n], h'[..n]);
      var s, s' := Replay(input, h[..n]), Replay(input, h'[..n]);
      InboxIsSignals(input, h[..n]);
      InboxIsSignals(input, h'[..n]);
      TaskIsDeafToLaterSignals(input, s, s', h[n], h'[n]);
    }
  }

  lemma FirstSignalEarlier(h: seq<Task>, h': seq<Task>)
    requires |h| == |h'| > 0
    ensures var n := |h| - 1;
            SameFirstSignal(h, h') ==>
              && SameFirstSignal(h[..n], h'[..n])
              && First(Signals(h[..n]) + h[n].signals) == First(Signals(h'[..n]) + h'[n].signals)
  {
    var n := |h| - 1;
    assert forall k | 0 <= k <= n :: h[..n][..k] == h[..k] && h'[..n][..k] == h'[..k];
    assert h[..|h|] == h && h'[..|h|] == h';
  }

  lemma InboxIsSignals(input: CanaryInput, history: seq<Task>)
    ensures BeforeGate(Replay(input, history).pc) ==> Replay(input, history).inbox == Signals(history)
    ensures Replay(input, history).pc.AtGate? ==> !input.autoPromote
  {
    hide Replay, Inv;
    GateIsDecidedOnce(input, history);
    Reachable(input, history);
    if Replay(input, history).pc.AtGate? {
      AtGateStill(input, Replay(input, history));
    }
  }

  lemma TaskIsDeafToLaterSignals(input: CanaryInput, s: State, s': State, t: Task, t': Task)
    requires Mute(s) == Mute(s') && t.(signals := []) == t'.(signals := [])
    requires input.autoPromote || !BeforeGate(s.pc) || First(s.inbox + t.signals) == First(s'.inbox + t'.signals)
    requires s.pc.AtGate? ==> !input.autoPromote
    ensures Mute(OnTask(input, s, t)) == Mute(OnTask(input, s', t'))
  {
    hide Resume, Gate;
    var m, m' := Deliver(s, t), Deliver(s', t');
    if s.pc.AtGate? {
      GateIsDeaf(m, m', t.timer);
    } else {
      ResumeIsDeaf(input, m, m', Failed);
      if t.done.Some? {
        ResumeIsDeaf(input, m, m', t.done.value);
      }
    }
  }

  lemma ScheduleIsDeaf(s: State, s': State, pc: Pc)
    requires Mute(s) == Mute(s')
    ensures Mute(Schedule(s, pc)) == Mute(Schedule(s', pc))
  {}

  lemma UndoIsDeaf(s: State, s': State, rest: seq<Activity>)
    requires Mute(s) == Mute(s')
    ensures Mute(UndoFrom(s, rest)) == Mute(UndoFrom(s', rest))
  {
    hide Schedule;
    ScheduleIsDeaf(s, s', AtAlert);
    if rest != [] {
      ScheduleIsDeaf(s, s', AtUndo(rest[..|rest| - 1], rest[|rest| - 1]));
    }
  }

  lemma UnwindIsDeaf(s: State, s': State, status: CanaryStatus, reason: Reason)
    requires Mute(s) == Mute(s')
    ensures Mute(Unwind(s, status, reason)) == Mute(Unwind(s', status, reason))
  {
    hide UndoFrom;
    UndoIsDeaf(s.(res := s.res.(status := status, reason := reason)),
               s'.(res := s'.res.(status := status, reason := reason)), s.stack);
  }

  lemma DecidedIsDeaf(s: State, s': State, d: Decision)
    requires Mute(s) == Mute(s')
    ensures Mute(Decided(s, d)) == Mute(Decided(s', d))
  {
    hide Unwind, Schedule;
    var p, p' := s.(phase := PromotePhase), s'.(phase := PromotePhase);
    UnwindIsDeaf(s, s', TimedOut, NoApproval);
    UnwindIsDeaf(s, s', RolledBack, RejectedBy(s.res.actor));
    UnwindIsDeaf(p, p', RolledBack, PromoteFailed);
    ScheduleIsDeaf(p, p', AtPromote);
  }

  lemma RecordIsDeaf(s: State, s': State, actor: string, d: Decision)
    requires Mute(s) == Mute(s')
    ensures Mute(ToRecord(s, actor, d)) == Mute(ToRecord(s', actor, d))
  {
    hide Decided;
    DecidedIsDeaf(s.(res := s.res.(actor := actor)), s'.(res := s'.res.(actor := actor)), d);
  }

  lemma GateIsDeaf(s: State, s': State, timer: bool)
    requires Mute(s) == Mute(s') && First(s.inbox) == First(s'.inbox)
    ensures Mute(Gate(s, timer)) == Mute(Gate(s', timer))
  {
    hide ToRecord;
    if s.inbox != [] {
      var signal := s.inbox[0];
      assert s'.inbox != [] && s'.inbox[0] == First(s'.inbox)[0] == First(s.inbox)[0] == signal;
      RecordIsDeaf(s.(inbox := s.inbox[1..]), s'.(inbox := s'.inbox[1..]), signal.actor,
                   if signal.approve then Approved else Rejected);
    } else {
      RecordIsDeaf(s, s', "", Timeout);
    }
  }

  lemma ResumeIsDeaf(input: CanaryInput, s: State, s': State, r: Report)
    requires Mute(s) == Mute(s')
    requires s.pc.AtShift? && !input.autoPromote ==> First(s.inbox) == First(s'.inbox)
    ensures Mute(Resume(input, s, r)) == Mute(Resume(input, s', r))
  {
    hide Unwind, UndoFrom, Schedule, AfterShift, Decided, AfterPolicy;
    var q, q' := Answered(s, r), Answered(s', r);
    match s.pc
    case AtPolicy => if r.Completed? { PolicyIsDeaf(q, q', r.verdict); }
    case AtScale =>
      var p := q.(stack := q.stack + [ScaleDownCanary], phase := BakePhase);
      var p' := q'.(stack := q'.stack + [ScaleDownCanary], phase := BakePhase);
      UnwindIsDeaf(q, q', RolledBack, ScaleFailed);
      UnwindIsDeaf(p, p', RolledBack, HealthError);
      ScheduleIsDeaf(p, p', AtHealth);
    case AtHealth =>
      var p, p' := q.(phase := ShiftPhase), q'.(phase := ShiftPhase);
      UnwindIsDeaf(q, q', RolledBack, HealthError);
      UnwindIsDeaf(q, q', RolledBack, Unhealthy);
      UnwindIsDeaf(p, p', RolledBack, ShiftFailed);
      ScheduleIsDeaf(p, p', AtShift);
    case AtShift => ShiftIsDeaf(input, s, s', r);
    case AtRecord(d) => DecidedIsDeaf(q, q', d);
    case AtPromote => UnwindIsDeaf(q, q', RolledBack, PromoteFailed);
    case AtUndo(rest, _) => UndoIsDeaf(q, q', rest);
    case _ =>
  }

  lemma PolicyIsDeaf(s: State, s': State, allowed: bool)
    requires Mute(s) == Mute(s')
    ensures Mute(AfterPolicy(s, allowed)) == Mute(AfterPolicy(s', allowed))
  {
    hide Unwind, Schedule;
    var p, p' := s.(phase := ScalePhase), s'.(phase := ScalePhase);
    var d := s.(phase := PolicyRejectedPhase, res := s.res.(status := PolicyRejected, reason := PolicyDenied));
    var d' := s'.(phase := PolicyRejectedPhase, res := s'.res.(status := PolicyRejected, reason := PolicyDenied));
    ScheduleIsDeaf(d, d', AtAlert);
    UnwindIsDeaf(p, p', RolledBack, ScaleFailed);
    ScheduleIsDeaf(p, p', AtScale);
  }

  lemma ShiftIsDeaf(input: CanaryInput, s: State, s': State, r: Report)
    requires Mute(s) == Mute(s') && s.pc.AtShift?
    requires !input.autoPromote ==> First(s.inbox) == First(s'.inbox)
    ensures Mute(Resume(input, s, r)) == Mute(Resume(input, s', r))
  {
    hide ToRecord, Gate, Unwind;
    var q, q' := Answered(s, r), Answered(s', r);
    UnwindIsDeaf(q, q', RolledBack, ShiftFailed);
    q, q' := q.(stack := q.stack + [ShiftTrafficBack]), q'.(stack := q'.stack + [ShiftTrafficBack]);
    if input.autoPromote {
      RecordIsDeaf(q, q', AutoActor(), Auto);
    } else {
      GateIsDeaf(q.(phase := AwaitingPhase), q'.(phase := AwaitingPhase), ReadyAtOnce(input));
    }
  }

  // --- Longer histories only add ---

  lemma ReplayOfAppend(input: CanaryInput, history: seq<Task>, t: Task)
    ensures Replay(input, history + [t]) == OnTask(input, Replay(input, history), t)
  {
    hide OnTask;
    assert (history + [t])[..|history|] == history;
  }

  lemma OverStays(input: CanaryInput, s: State, t: Task)
    requires Over(s.pc)
    ensures OnTask(input, s, t) == s
  {}

  /** Extending a history extends what has been scheduled and answered, and nothing changes once the run is over. */
  lemma {:induction false} HistoryOnlyAdds(input: CanaryInput, history: seq<Task>, more: seq<Task>)
    ensures var s, s' := Replay(input, history), Replay(input, history + more);
            s.commands <= s'.commands && s.answers <= s'.answers && s.stack <= s'.stack && (Over(s.pc) ==> s' == s)
  {
    hide OnTask, Start;
    if more == [] {
      assert history + more == history;
    } else {
      var n := |more| - 1;
      HistoryOnlyAdds(input, history, more[..n]);
      var h := history + more;
      assert h[..|h| - 1] == history + more[..n] && h[|h| - 1] == more[n];
      var s := Replay(input, history + more[..n]);
      if Over(s.pc) {
        OverStays(input, s, more[n]);
      }
    }
  }

  // --- Where a task can take the code ---

  predicate Won(done: Option<Report>) { done.Some? && done.value.Completed? }

  /** The points of the forward path are entered in order, each on the completed result it needs; the unwinding and the
      terminal points are never left for a forward one. */
  predicate Move(s: State, done: Option<Report>, s': State) {
    && (s'.pc.AtPolicy? ==> s.pc.AtPolicy?)
    && (s'.pc.AtScale? ==> s.pc.AtScale? || s.pc.AtPolicy?)
    && (s'.pc.AtHealth? ==> s.pc.AtHealth? || (s.pc.AtScale? && Won(done)))
    && (s'.pc.AtShift? ==> s.pc.AtShift? || (s.pc.AtHealth? && done == Some(Completed(true))))
    && (s'.pc.AtGate? ==> s.pc.AtGate? || (s.pc.AtShift? && Won(done)))
    && (s'.pc.AtRecord? ==> s.pc.AtRecord? || s.pc.AtGate? || (s.pc.AtShift? && Won(done)))
    && (s'.pc.AtPromote? ==> s.pc.AtPromote? || s.pc.AtRecord?)
    && (s'.pc.Broken? ==> s.pc.Broken? || s.pc.AtPolicy?)
    && (s'.pc.Finished? ==> s.pc.Finished? || s.pc.AtAlert? || (s.pc.AtPromote? && Won(done)))
    && (Disconnected(s.pc) ==> Disconnected(s'.pc) || s'.pc.Finished?)
    && (Over(s.pc) ==> s' == s)
    && (s'.res.status.Promoted? ==> s.res.status.Promoted? || (s.pc.AtPromote? && Won(done)))
    && (s'.res.status.PolicyRejected? ==> s.res.status.PolicyRejected? || (s.pc.AtPolicy? && Won(done)))
    && (|s.stack| < |s'.stack| ==> (s.pc.AtScale? || s.pc.AtShift?) && Won(done))
  }

  lemma TaskMoves(input: CanaryInput, s: State, t: Task)
    ensures Move(s, t.done, OnTask(input, s, t))
  {
    hide Resume, Gate, Move;
    var m, s' := Deliver(s, t), OnTask(input, s, t);
    if Over(s.pc) {
      StayMoves(s, s, t.done);
    } else {
      if m.pc.AtGate? {
        GateMoves(m, t.timer, t.done);
      } else if t.done.Some? {
        ResumeMoves(input, m, t.done.value, t.done);
      } else if m.cancelled && !Disconnected(m.pc) {
        ResumeMoves(input, m, Failed, None);
      } else {
        StayMoves(m, m, t.done);
      }
      DeliveredMoves(s, m, t.done, s');
    }
  }

  lemma StayMoves(s: State, s': State, done: Option<Report>)
    requires s' == s
    ensures Move(s, done, s')
  {}

  lemma DeliveredMoves(s: State, m: State, done: Option<Report>, s': State)
    requires m.pc == s.pc && m.stack == s.stack && m.res == s.res && !Over(s.pc) && Move(m, done, s')
    ensures Move(s, done, s')
  {}

  lemma GateMoves(s: State, timer: bool, done: Option<Report>)
    requires s.pc.AtGate?
    ensures Move(s, done, Gate(s, timer))
  {
    hide Gate;
  }

  lemma ResumeMoves(input: CanaryInput, s: State, r: Report, done: Option<Report>)
    requires Waiting(s).Some? && (done == Some(r) || r.Failed?)
    ensures Move(s, done, Resume(input, s, r))
  {
    hide AfterPolicy, AfterScale, ToShift, AfterShift, Decided, Unwind, UndoFrom;
  }

  /** The gate is waited at only when there is a time to wait. */
  lemma {:induction false} GateNeedsTimeout(input: CanaryInput, history: seq<Task>)
    ensures Replay(input, history).pc.AtGate? ==> input.approvalTimeout > 0
  {
    hide OnTask;
    if history != [] {
      var n := |history| - 1;
      GateNeedsTimeout(input, history[..n]);
      TaskWaitsWithTimeout(input, Replay(input, history[..n]), history[n]);
    }
  }

  lemma TaskWaitsWithTimeout(input: CanaryInput, s: State, t: Task)
    ensures OnTask(input, s, t).pc.AtGate? ==> s.pc.AtGate? || !ReadyAtOnce(input)
  {
    hide AfterPolicy, AfterScale, ToShift, Decided, Unwind, UndoFrom, ToRecord;
  }

  /** A run's status is set once. */
  lemma StatusIsFinal(input: CanaryInput, s: State, t: Task)
    requires Inv(input, s)
    ensures s.res.status != Unset ==> OnTask(input, s, t).res == s.res
  {
    hide Inv, Resume, Gate;
    if Disconnected(s.pc) {
      UndoShape(input, Deliver(s, t), if t.done.Some? then t.done.value else Failed);
    } else if !Over(s.pc) {
      EarlyStack(input, s);
    }
  }

  // --- The results arrive in the order of the schedule ---

  predicate Ordered(s: State) {
    && |s.commands| == |s.answers| + (if Waiting(s).Some? then 1 else 0)
    && (Waiting(s).Some? ==> s.commands[|s.answers|] == Waiting(s).value)
    && forall i | 0 <= i < |s.answers| :: s.answers[i].activity == s.commands[i]
  }

  /** The run waits for one activity at a time: the recorded results are those of the scheduled activities in order. */
  lemma {:induction false} AnswersInOrder(input: CanaryInput, history: seq<Task>)
    ensures Ordered(Replay(input, history))
  {
    hide OnTask, Ordered;
    if history != [] {
      var n := |history| - 1;
      AnswersInOrder(input, history[..n]);
      TaskKeepsOrder(input, Replay(input, history[..n]), history[n]);
    } else {
      StartIsOrdered(input);
    }
  }

  lemma StartIsOrdered(input: CanaryInput)
    ensures Ordered(Start(input))
  {}

  lemma TaskKeepsOrder(input: CanaryInput, s: State, t: Task)
    requires Ordered(s)
    ensures Ordered(OnTask(input, s, t))
  {
    hide Resume, Gate;
    assert Ordered(Deliver(s, t));
  }

  /** The activity was reported as completed. */
  predicate Reported(log: seq<Answer>, a: Activity) {
    exists i | 0 <= i < |log| :: log[i].activity == a && log[i].report.Completed?
  }

  lemma ReportedAppend(log: seq<Answer>, last: Answer, a: Activity)
    ensures Reported(log + [last], a) <==> Reported(log, a) || (last.activity == a && last.report.Completed?)
  {
    if i :| 0 <= i < |log| && log[i].activity == a && log[i].report.Completed? {
      assert (log + [last])[i] == log[i];
    }
    assert (log + [last])[|log|] == last;
  }

  /** A task records at most the result of the activity waited for: the delivered one, or a failure. */
  lemma AnswersGrow(input: CanaryInput, s: State, t: Task)
    ensures var s' := OnTask(input, s, t);
            || s'.answers == s.answers
            || (&& Waiting(s).Some?
                && exists r ::
                     (r == Failed || t.done == Some(r)) && s'.answers == s.answers + [Answer(Waiting(s).value, r)])
  {
    hide Resume, Gate;
    var m := Deliver(s, t);
    assert Waiting(m) == Waiting(s);
    if Waiting(s).Some? {
      assert Resume(input, m, Failed).answers == s.answers + [Answer(Waiting(s).value, Failed)];
      if t.done.Some? {
        assert Resume(input, m, t.done.value).answers == s.answers + [Answer(Waiting(s).value, t.done.value)];
      }
    }
  }

  /** Before the unwinding, and while its first of two compensations runs, no compensation has been reported. */
  lemma NoUndoReported(input: CanaryInput, s: State)
    requires Inv(input, s) && Ordered(s)
    requires (!Disconnected(s.pc) && !Over(s.pc)) || (s.pc.AtUndo? && s.pc.current == ShiftTrafficBack)
    ensures !Reported(s.answers, ScaleDownCanary) && !Reported(s.answers, ShiftTrafficBack)
  {
    hide Inv, Ordered, Forward, Tail;
    AnswersAreForward(input, s);
    assert forall i | 0 <= i < |s.answers| :: !IsCompensation(s.answers[i].activity);
  }

  lemma AnswersAreForward(input: CanaryInput, s: State)
    requires Inv(input, s) && Ordered(s)
    requires (!Disconnected(s.pc) && !Over(s.pc)) || (s.pc.AtUndo? && s.pc.current == ShiftTrafficBack)
    ensures |s.answers| <= |Forward(s)|
    ensures forall i | 0 <= i < |s.answers| :: s.answers[i].activity == Forward(s)[i] && !IsCompensation(Forward(s)[i])
  {
    hide Inv, Milestone, Facts, Forward, Reverse;
    UndoRest(input, s);
    SplitOfCommands(input, s);
    if s.pc.AtUndo? {
      assert |s.pc.rest| == 1 && |s.stack| == 2;
      ReverseShort(s.stack[1..]);
      assert |Tail(s)| == 1;
    } else {
      assert Tail(s) == [];
    }
  }

  lemma SplitOfCommands(input: CanaryInput, s: State)
    requires Inv(input, s)
    ensures s.commands == Forward(s) + Tail(s)
    ensures forall i | 0 <= i < |Forward(s)| :: !IsCompensation(Forward(s)[i]) && !Forward(s)[i].Alert?
  {
    hide Milestone, Tail, Forward;
  }

  predicate CompensationsCompleted(log: seq<Answer>) {
    forall i | 0 <= i < |log| :: IsCompensation(log[i].activity) ==> log[i].report.Completed?
  }

  /** A finished rollback has a report for every compensation it had registered. */
  lemma FinishedRollback(input: CanaryInput, s: State)
    requires Inv(input, s) && Ordered(s) && s.pc.Finished? && Unwinding(s.res) && CompensationsCompleted(s.answers)
    ensures |s.stack| >= 1 ==> Reported(s.answers, ScaleDownCanary)
    ensures |s.stack| == 2 ==> Reported(s.answers, ShiftTrafficBack)
  {
    hide Inv, Forward, Tail, Reverse;
    Ending(input, s);
    UndoRest(input, s);
    ReverseShort(s.stack);
    var f := |Forward(s)|;
    assert |s.stack| >= 1 ==> s.commands[f + |s.stack| - 1] == ScaleDownCanary;
    assert |s.stack| == 2 ==> s.commands[f] == ShiftTrafficBack;
    if |s.stack| >= 1 {
      assert s.answers[f + |s.stack| - 1].activity == ScaleDownCanary;
    }
    if |s.stack| == 2 {
      assert s.answers[f].activity == ShiftTrafficBack;
    }
  }
}
