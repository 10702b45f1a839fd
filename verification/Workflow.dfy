/** The canary workflow as a function of its history: where it stands after each workflow task. */
module Workflow {
  import opened Types

  /** One workflow task: what the server delivered since the previous one. The code runs once per task. */
  datatype Task = Task(done: Option<Report>, signals: seq<ApprovalSignal>, timer: bool, cancel: bool)

  /** Where the code is blocked. AtUndo: current is running and rest is still on the saga's stack. */
  datatype Pc =
    | AtPolicy
    | AtScale
    | AtHealth
    | AtShift
    | AtGate
    | AtRecord(decision: Decision)
    | AtPromote
    | AtUndo(rest: seq<Activity>, current: Activity)
    | AtAlert
    | Finished
    | Broken

  /** What the status query answers. */
  datatype Phase =
    | PolicyPhase | PolicyRejectedPhase | ScalePhase | BakePhase | ShiftPhase | AwaitingPhase
    | PromotePhase | PromotedPhase

  datatype Answer = Answer(activity: Activity, report: Report)

  /** stack is the saga; commands are the activities scheduled so far and answers their recorded results. */
  datatype State = State(
    pc: Pc,
    phase: Phase,
    res: CanaryResult,
    stack: seq<Activity>,
    inbox: seq<ApprovalSignal>,
    cancelled: bool,
    commands: seq<Activity>,
    answers: seq<Answer>)

  /** The activity whose result the code is waiting for. */
  function Waiting(s: State): Option<Activity> {
    match s.pc
    case AtPolicy => Some(PolicyCheck)
    case AtScale => Some(ScaleCanary)
    case AtHealth => Some(HealthCheck)
    case AtShift => Some(ShiftTraffic)
    case AtRecord(d) => Some(RecordApproval(s.res.actor, d))
    case AtPromote => Some(Promote)
    case AtUndo(_, a) => Some(a)
    case AtAlert => Some(Alert(s.res.status, s.res.reason))
    case _ => None
  }

  /** Compensations and alerts run on a disconnected context: a cancellation does not reach them. */
  predicate Disconnected(pc: Pc) { pc.AtUndo? || pc.AtAlert? }

  predicate Over(pc: Pc) { pc.Finished? || pc.Broken? }

  /** The run goes on: nothing scheduled, answered or stacked is taken back, and whatever it now waits for is newly
      scheduled. */
  predicate Continues(s: State, s': State) {
    && s.commands <= s'.commands
    && |s'.commands| == |s.commands| + (if Waiting(s').Some? then 1 else 0)
    && (Waiting(s').Some? ==> s'.commands[|s.commands|] == Waiting(s').value)
    && s.answers <= s'.answers
    && s.stack <= s'.stack
    && s'.res.service == s.res.service
    && s'.cancelled == s.cancelled
  }

  /** No status is set but that of a rollback or a timeout. */
  predicate OnlyUnwinds(s: State, s': State) {
    s'.res.status == s.res.status || s'.res.status.RolledBack? || s'.res.status.TimedOut?
  }

  function Schedule(s: State, pc: Pc): (s': State)
    ensures Continues(s, s') && s'.pc == pc && s' == s.(pc := pc, commands := s'.commands)
  {
    var s' := s.(pc := pc);
    match Waiting(s')
    case Some(a) => s'.(commands := s.commands + [a])
    case None => s'
  }

  function UndoFrom(s: State, rest: seq<Activity>): (s': State)
    ensures Continues(s, s') && Disconnected(s'.pc) && s' == s.(pc := s'.pc, commands := s'.commands)
  {
    if rest == [] then Schedule(s, AtAlert)
    else Schedule(s, AtUndo(rest[..|rest| - 1], rest[|rest| - 1]))
  }

  function Unwind(s: State, status: CanaryStatus, reason: Reason): (s': State)
    ensures Continues(s, s') && Disconnected(s'.pc)
    ensures s' == s.(pc := s'.pc, commands := s'.commands, res := s.res.(status := status, reason := reason))
  {
    UndoFrom(s.(res := s.res.(status := status, reason := reason)), s.stack)
  }

  function ToPromote(s: State): (s': State)
    ensures OnlyUnwinds(s, s')
    ensures Continues(s, s') && (Disconnected(s'.pc) || (s'.pc.AtPromote? && !s.cancelled))
    ensures s'.stack == s.stack && s'.answers == s.answers && s'.inbox == s.inbox && s'.res.actor == s.res.actor
  {
    var s' := s.(phase := PromotePhase);
    if s.cancelled then Unwind(s', RolledBack, PromoteFailed) else Schedule(s', AtPromote)
  }

  function Decided(s: State, d: Decision): (s': State)
    ensures OnlyUnwinds(s, s')
    ensures Continues(s, s') && (Disconnected(s'.pc) || (s'.pc.AtPromote? && !s.cancelled))
    ensures s'.stack == s.stack && s'.answers == s.answers && s'.inbox == s.inbox && s'.res.actor == s.res.actor
  {
    match d
    case Timeout => Unwind(s, TimedOut, NoApproval)
    case Rejected => Unwind(s, RolledBack, RejectedBy(s.res.actor))
    case _ => ToPromote(s)
  }

  function ToRecord(s: State, actor: string, d: Decision): (s': State)
    ensures OnlyUnwinds(s, s')
    ensures Continues(s, s') && (s'.pc.AtRecord? || Disconnected(s'.pc))
    ensures s'.stack == s.stack && s'.answers == s.answers && s'.inbox == s.inbox && s'.res.actor == actor
  {
    var s' := s.(res := s.res.(actor := actor));
    if s.cancelled then Decided(s', d) else Schedule(s', AtRecord(d))
  }

  /** The selector: a signal that is there wins over the timer; a cancelled timer counts as fired. */
  function Gate(s: State, timer: bool): (s': State)
    ensures OnlyUnwinds(s, s')
    ensures Continues(s, s') && (s'.pc.AtGate? || s'.pc.AtRecord? || Disconnected(s'.pc))
    ensures s'.stack == s.stack && s'.answers == s.answers
  {
    if s.inbox != [] then
      var signal := s.inbox[0];
      ToRecord(s.(inbox := s.inbox[1..]), signal.actor, if signal.approve then Approved else Rejected)
    else if timer || s.cancelled then ToRecord(s, "", Timeout)
    else s.(pc := AtGate)
  }

  /** A timer with no time to wait is ready as soon as it is made. */
  predicate ReadyAtOnce(input: CanaryInput) { input.approvalTimeout <= 0 }

  function AfterShift(input: CanaryInput, s: State): (s': State)
    ensures OnlyUnwinds(s, s')
    ensures Continues(s, s') && (s'.pc.AtGate? || s'.pc.AtRecord? || Disconnected(s'.pc))
    ensures s'.stack == s.stack + [ShiftTrafficBack] && s'.answers == s.answers
  {
    var s' := s.(stack := s.stack + [ShiftTrafficBack]);
    if input.autoPromote then ToRecord(s', AutoActor(), Auto) else Gate(s'.(phase := AwaitingPhase), ReadyAtOnce(input))
  }

  function ToShift(s: State): (s': State)
    ensures OnlyUnwinds(s, s')
    ensures Continues(s, s') && (s'.pc.AtShift? || Disconnected(s'.pc))
    ensures s'.stack == s.stack && s'.answers == s.answers && s'.inbox == s.inbox && s'.res.actor == s.res.actor
  {
    var s' := s.(phase := ShiftPhase);
    if s.cancelled then Unwind(s', RolledBack, ShiftFailed) else Schedule(s', AtShift)
  }

  function AfterScale(s: State): (s': State)
    ensures OnlyUnwinds(s, s')
    ensures Continues(s, s') && (s'.pc.AtHealth? || Disconnected(s'.pc))
    ensures s'.stack == s.stack + [ScaleDownCanary] && s'.answers == s.answers && s'.inbox == s.inbox
    ensures s'.res.actor == s.res.actor
  {
    var s' := s.(stack := s.stack + [ScaleDownCanary], phase := BakePhase);
    if s.cancelled then Unwind(s', RolledBack, HealthError) else Schedule(s', AtHealth)
  }

  function AfterPolicy(s: State, allowed: bool): (s': State)
    ensures OnlyUnwinds(s, s') || s'.res.status.PolicyRejected?
    ensures Continues(s, s') && (s'.pc.AtScale? || Disconnected(s'.pc))
    ensures s'.stack == s.stack && s'.answers == s.answers && s'.inbox == s.inbox && s'.res.actor == s.res.actor
  {
    if !allowed then
      Schedule(s.(phase := PolicyRejectedPhase, res := s.res.(status := PolicyRejected, reason := PolicyDenied)),
               AtAlert)
    else
      var s' := s.(phase := ScalePhase);
      if s.cancelled then Unwind(s', RolledBack, ScaleFailed) else Schedule(s', AtScale)
  }

  /** What undoes a forward activity. */
  function Inverse(a: Activity): seq<Activity> {
    match a
    case ScaleCanary => [ScaleDownCanary]
    case ShiftTraffic => [ShiftTrafficBack]
    case _ => []
  }

  function Answered(s: State, r: Report): State {
    match Waiting(s) case Some(a) => s.(answers := s.answers + [Answer(a, r)]) case None => s
  }

  /** The code continues with the result it was waiting for. */
  function Resume(input: CanaryInput, s: State, r: Report): (s': State)
    ensures Continues(s, s') && s'.answers == Answered(s, r).answers
    ensures s.pc.AtScale? && r.Completed? ==> s'.stack == s.stack + [ScaleDownCanary]
    ensures s.pc.AtShift? && r.Completed? ==> s'.stack == s.stack + [ShiftTrafficBack]
    ensures !(s.pc.AtScale? || s.pc.AtShift?) || r.Failed? ==> s'.stack == s.stack
  {
    var s' := Answered(s, r);
    match s.pc
    case AtPolicy => if r.Failed? then s'.(pc := Broken) else AfterPolicy(s', r.verdict)
    case AtScale => if r.Failed? then Unwind(s', RolledBack, ScaleFailed) else AfterScale(s')
    case AtHealth =>
      if r.Failed? then Unwind(s', RolledBack, HealthError)
      else if !r.verdict then Unwind(s', RolledBack, Unhealthy)
      else ToShift(s')
    case AtShift => if r.Failed? then Unwind(s', RolledBack, ShiftFailed) else AfterShift(input, s')
    case AtRecord(d) => Decided(s', d)
    case AtPromote =>
      if r.Failed? then Unwind(s', RolledBack, PromoteFailed)
      else s'.(pc := Finished, phase := PromotedPhase,
               res := s.res.(status := Promoted, reason := ApprovedBy(s.res.actor)))
    case AtUndo(rest, _) => UndoFrom(s', rest)
    case AtAlert => s'.(pc := Finished)
    case _ => s'
  }

  function Start(input: CanaryInput): State {
    Schedule(State(AtPolicy, PolicyPhase, CanaryResult(input.service, Unset, NoReason, ""), [], [], false, [], []),
             AtPolicy)
  }

  function Deliver(s: State, t: Task): State {
    s.(inbox := s.inbox + t.signals, cancelled := s.cancelled || t.cancel)
  }

  function OnTask(input: CanaryInput, s: State, t: Task): (s': State)
    ensures s.commands <= s'.commands && s.answers <= s'.answers && s.stack <= s'.stack
  {
    if Over(s.pc) then s
    else
      var m := Deliver(s, t);
      if m.pc.AtGate? then Gate(m, t.timer)
      else if t.done.Some? then Resume(input, m, t.done.value)
      else if m.cancelled && !Disconnected(m.pc) then Resume(input, m, Failed)
      else m
  }

  /** What a task does while the code waits for an activity: its result, a cancellation, or neither. */
  lemma WaitingTask(input: CanaryInput, ws: State, t: Task)
    requires Waiting(ws).Some?
    ensures var m := Deliver(ws, t);
            && Waiting(m) == Waiting(ws) && m.pc == ws.pc && m.answers == ws.answers
            && OnTask(input, ws, t) == if t.done.Some? then Resume(input, m, t.done.value)
                                         else if m.cancelled && !Disconnected(m.pc) then Resume(input, m, Failed)
                                         else m
  {
    hide Resume, Gate;
  }

  /** The state the code reaches by running on a history from the start. */
  function Replay(input: CanaryInput, history: seq<Task>): State {
    if history == [] then Start(input)
    else OnTask(input, Replay(input, history[..|history| - 1]), history[|history| - 1])
  }

  // --- What every state keeps ---

  function Reverse<T>(s: seq<T>): seq<T> {
    if s == [] then [] else Reverse(s[1..]) + [s[0]]
  }

  predicate Unwinding(res: CanaryResult) { res.status.RolledBack? || res.status.TimedOut? }

  predicate IsCompensation(a: Activity) { a.ScaleDownCanary? || a.ShiftTrafficBack? }

  /** What has been scheduled since the forward path ended. */
  function Tail(s: State): seq<Activity> {
    match s.pc
    case AtUndo(rest, _) => if |rest| <= |s.stack| then Reverse(s.stack[|rest|..]) else []
    case AtAlert => (if Unwinding(s.res) then Reverse(s.stack) else []) + [Alert(s.res.status, s.res.reason)]
    case Finished =>
      if s.res.status.Promoted? then []
      else (if Unwinding(s.res) then Reverse(s.stack) else []) + [Alert(s.res.status, s.res.reason)]
    case _ => []
  }

  /** The forward activities, in the only order they can have. */
  predicate ForwardOrder(cs: seq<Activity>) {
    && 1 <= |cs| <= 6
    && cs[0] == PolicyCheck
    && (|cs| > 1 ==> cs[1] == ScaleCanary)
    && (|cs| > 2 ==> cs[2] == HealthCheck)
    && (|cs| > 3 ==> cs[3] == ShiftTraffic)
    && (|cs| > 4 ==> cs[4].RecordApproval?)
    && (|cs| > 5 ==> cs[5] == Promote)
  }

  function Forward(s: State): seq<Activity> {
    if |Tail(s)| <= |s.commands| then s.commands[..|s.commands| - |Tail(s)|] else []
  }

  predicate Won(log: seq<Answer>, i: nat, a: Activity) {
    i < |log| && log[i].activity == a && log[i].report.Completed?
  }

  /** Everything that must have been reported before the gate is reached. */
  predicate Cleared(log: seq<Answer>) {
    && Won(log, 0, PolicyCheck) && log[0].report.verdict
    && Won(log, 1, ScaleCanary)
    && Won(log, 2, HealthCheck) && log[2].report.verdict
    && Won(log, 3, ShiftTraffic)
  }

  /** The status that a recorded decision leads to. */
  predicate Fits(d: Decision, status: CanaryStatus) {
    match d
    case Timeout => status.TimedOut?
    case Rejected => status.RolledBack?
    case _ => status.Promoted? || status.RolledBack?
  }

  /** How many forward activities have been scheduled, and what the stack holds, at each point of the forward path. */
  predicate Milestone(s: State) {
    var f := |Forward(s)|;
    match s.pc
    case AtPolicy => f == 1 && |s.answers| == 0 && |s.stack| == 0
    case AtScale => f == 2 && |s.answers| == 1 && Won(s.answers, 0, PolicyCheck) && s.answers[0].report.verdict &&
      |s.stack| == 0
    case AtHealth =>
      f == 3 && |s.answers| == 2 && Won(s.answers, 0, PolicyCheck) && s.answers[0].report.verdict &&
      Won(s.answers, 1, ScaleCanary) && |s.stack| == 1
    case AtShift =>
      f == 4 && |s.answers| == 3 && Won(s.answers, 0, PolicyCheck) && s.answers[0].report.verdict &&
      Won(s.answers, 1, ScaleCanary) && Won(s.answers, 2, HealthCheck) && s.answers[2].report.verdict &&
      |s.stack| == 1
    case AtGate => f == 4 && |s.answers| == 4 && Cleared(s.answers) && |s.stack| == 2
    case AtRecord(_) => f == 5 && |s.answers| == 4 && Cleared(s.answers) && |s.stack| == 2
    case AtPromote => f == 6 && |s.answers| == 5 && |s.stack| == 2
    case Broken => f == 1 && |s.stack| == 0
    case AtUndo(rest, current) =>
      Unwinding(s.res) && |rest| < |s.stack| && rest == s.stack[..|rest|] && current == s.stack[|rest|]
    case AtAlert => Unwinding(s.res) || (s.res.status.PolicyRejected? && f == 1 && |s.stack| == 0)
    case Finished =>
      || Unwinding(s.res)
      || (s.res.status.PolicyRejected? && f == 1 && |s.stack| == 0)
      || (s.res.status.Promoted? && f == 6 && |s.answers| == 6 && Won(s.answers, 5, Promote) &&
          |s.stack| == 2)
  }

  /** The saga only ever holds the canary's scale-down, then possibly the traffic's return on top of it. */
  predicate StackShape(stack: seq<Activity>) {
    && |stack| <= 2
    && (|stack| > 0 ==> stack[0] == ScaleDownCanary)
    && (|stack| > 1 ==> stack[1] == ShiftTrafficBack)
  }

  /** What the forward activities scheduled so far say about the stack, the answers and the decision. */
  predicate Facts(input: CanaryInput, s: State, f: seq<Activity>) {
    && s.res.service == input.service
    && ForwardOrder(f)
    && StackShape(s.stack)
    && (|f| < 2 ==> |s.stack| == 0)
    && (|s.stack| > 0 ==> Won(s.answers, 1, ScaleCanary))
    && (|s.stack| == 2 ==> Cleared(s.answers))
    && (|f| >= 3 ==> |s.stack| >= 1)
    && (|f| >= 4 ==> Won(s.answers, 2, HealthCheck) && s.answers[2].report.verdict)
    && (|f| >= 5 ==>
          && |s.stack| == 2
          && f[4].actor == s.res.actor
          && (f[4].decision == Auto <==> input.autoPromote)
          && (s.res.status != Unset ==> Fits(f[4].decision, s.res.status)))
    && (|f| >= 6 ==>
          && |s.answers| >= 5 && s.answers[4].activity == f[4]
          && (s.res.status == RolledBack ==> s.res.reason == PromoteFailed)
          && (f[4].decision == Auto || f[4].decision == Approved))
  }

  predicate Inv(input: CanaryInput, s: State) {
    && |Tail(s)| <= |s.commands| && s.commands == Forward(s) + Tail(s)
    && Facts(input, s, Forward(s))
    && Milestone(s)
    && (Waiting(s).Some? ==> s.commands[|s.commands| - 1] == Waiting(s).value)
    && (s.pc.AtRecord? ==> s.commands[4] == RecordApproval(s.res.actor, s.pc.decision))
    && (s.pc.AtGate? ==> !input.autoPromote)
    && (s.res.status == Unset <==> !(s.pc.AtUndo? || s.pc.AtAlert? || s.pc.Finished?))
  }

  lemma ReverseShort(s: seq<Activity>)
    ensures |s| == 0 ==> Reverse(s) == []
    ensures |s| == 1 ==> Reverse(s) == s
    ensures |s| == 2 ==> Reverse(s) == [s[1], s[0]]
  {}

  lemma {:induction false} Reachable(input: CanaryInput, history: seq<Task>)
    ensures Inv(input, Replay(input, history))
  {
    if history != [] {
      var n := |history| - 1;
      Reachable(input, history[..n]);
      TaskKeepsInv(input, Replay(input, history[..n]), history[n]);
    }
  }

  lemma TaskKeepsInv(input: CanaryInput, s: State, t: Task)
    requires Inv(input, s)
    ensures Inv(input, OnTask(input, s, t))
  {
    if !Over(s.pc) {
      var m := Deliver(s, t);
      DeliverKeepsInv(input, s, t);
      hide Inv, Gate, Resume;
      if m.pc.AtGate? {
        GateKeepsInv(input, m, t.timer);
      } else if t.done.Some? {
        ResumeKeepsInv(input, m, t.done.value);
      } else if m.cancelled && !Disconnected(m.pc) {
        ResumeKeepsInv(input, m, Failed);
      }
    }
  }

  lemma DeliverKeepsInv(input: CanaryInput, s: State, t: Task)
    requires Inv(input, s)
    ensures Inv(input, Deliver(s, t))
  {
    var m := Deliver(s, t);
    assert Facts(input, m, Forward(s)) by { hide Milestone, Forward, Tail; }
    assert Milestone(m) && Forward(m) == Forward(s) by { hide Facts, Reverse; }
    hide Facts, Reverse, Milestone;
    assert Tail(m) == Tail(s);
  }

  lemma UnwindInv(input: CanaryInput, s: State, status: CanaryStatus, reason: Reason)
    requires Facts(input, s, s.commands) && s.res.status == Unset
    requires status == RolledBack || status == TimedOut
    requires |s.commands| >= 5 ==> Fits(s.commands[4].decision, status)
    requires |s.commands| >= 6 ==> reason == PromoteFailed
    ensures Inv(input, Unwind(s, status, reason))
  {
    var u := s.(res := s.res.(status := status, reason := reason));
    UndoInv(input, u, s.commands, s.stack);
  }

  /** The saga's stack is unwound from the top: rest is what is left of it. */
  lemma UndoInv(input: CanaryInput, s: State, f: seq<Activity>, rest: seq<Activity>)
    requires Facts(input, s, f) && Unwinding(s.res)
    requires |rest| <= |s.stack| && rest == s.stack[..|rest|]
    requires s.commands == f + Reverse(s.stack[|rest|..])
    ensures Inv(input, UndoFrom(s, rest))
  {
    var u := UndoFrom(s, rest);
    UndoTail(s, f, rest);
    UndoFrame(s, rest);
    assert Facts(input, u, f) by { hide UndoFrom; }
    hide Facts, Reverse, Tail, UndoFrom, Waiting, Milestone;
    assert Forward(u) == f;
  }

  lemma UndoTail(s: State, f: seq<Activity>, rest: seq<Activity>)
    requires Unwinding(s.res)
    requires |rest| <= |s.stack| && rest == s.stack[..|rest|]
    requires s.commands == f + Reverse(s.stack[|rest|..])
    ensures UndoFrom(s, rest).commands == f + Tail(UndoFrom(s, rest))
    ensures Milestone(UndoFrom(s, rest))
  {
    hide Milestone;
    var k := |rest| - 1;
    if rest == [] {
      assert s.stack[0..] == s.stack;
      assert Tail(UndoFrom(s, rest)) == Reverse(s.stack) + [Alert(s.res.status, s.res.reason)];
    } else {
      assert s.stack[k..][1..] == s.stack[|rest|..];
      assert Reverse(s.stack[k..]) == Reverse(s.stack[|rest|..]) + [s.stack[k]];
      assert Tail(UndoFrom(s, rest)) == Reverse(s.stack[k..]);
    }
    assert Milestone(UndoFrom(s, rest)) by { UndoMilestone(s, rest); }
  }

  lemma UndoFrame(s: State, rest: seq<Activity>)
    ensures var u := UndoFrom(s, rest);
            && (u.pc.AtUndo? || u.pc.AtAlert?)
            && u == s.(pc := u.pc, commands := u.commands)
            && Waiting(u).Some? && u.commands == s.commands + [Waiting(u).value]
  {}

  lemma UndoMilestone(s: State, rest: seq<Activity>)
    requires Unwinding(s.res)
    requires |rest| <= |s.stack| && rest == s.stack[..|rest|]
    ensures Milestone(UndoFrom(s, rest))
  {
    hide Forward;
    if rest != [] {
      assert rest[..|rest| - 1] == s.stack[..|rest| - 1];
    }
  }

  /** The state between two activities of the forward path. */
  predicate Clear(input: CanaryInput, s: State) {
    && Facts(input, s, s.commands)
    && s.res.status == Unset
  }

  lemma ForwardInv(input: CanaryInput, s: State)
    requires Clear(input, s) && Tail(s) == [] && Milestone(s)
    requires Waiting(s).Some? ==> s.commands[|s.commands| - 1] == Waiting(s).value
    requires s.pc.AtRecord? ==> s.commands[4] == RecordApproval(s.res.actor, s.pc.decision)
    requires s.pc.AtGate? ==> !input.autoPromote
    requires !(s.pc.AtUndo? || s.pc.AtAlert? || s.pc.Finished?)
    ensures Inv(input, s)
  {
    assert Forward(s) == s.commands;
  }

  lemma DecidedInv(input: CanaryInput, s: State, d: Decision)
    requires Clear(input, s) && |s.stack| == 2 && (s.cancelled || |s.commands| == 5)
    requires |s.commands| == 4 || (|s.commands| == 5 && s.commands[4].decision == d && |s.answers| == 5 &&
                                   s.answers[4].activity == s.commands[4])
    ensures Inv(input, Decided(s, d))
  {
    match d
    case Timeout => UnwindInv(input, s, TimedOut, NoApproval);
    case Rejected => UnwindInv(input, s, RolledBack, RejectedBy(s.res.actor));
    case _ => ToPromoteInv(input, s);
  }

  lemma ToPromoteInv(input: CanaryInput, s: State)
    requires Clear(input, s) && |s.stack| == 2 && (s.cancelled || |s.commands| == 5)
    requires |s.commands| == 4 || |s.commands| == 5
    requires |s.commands| == 5 ==>
               (s.commands[4].decision == Auto || s.commands[4].decision == Approved) &&
               |s.answers| == 5 && s.answers[4].activity == s.commands[4]
    ensures Inv(input, ToPromote(s))
  {
    var s' := s.(phase := PromotePhase);
    if s.cancelled {
      UnwindInv(input, s', RolledBack, PromoteFailed);
    } else {
      ForwardInv(input, Schedule(s', AtPromote));
    }
  }

  lemma ToRecordInv(input: CanaryInput, s: State, actor: string, d: Decision)
    requires Clear(input, s) && |s.stack| == 2 && |s.commands| == 4 && |s.answers| == 4
    requires d == Auto <==> input.autoPromote
    ensures Inv(input, ToRecord(s, actor, d))
  {
    var s' := s.(res := s.res.(actor := actor));
    if s.cancelled {
      DecidedInv(input, s', d);
    } else {
      ForwardInv(input, Schedule(s', AtRecord(d)));
    }
  }

  lemma GateInv(input: CanaryInput, s: State, timer: bool)
    requires Clear(input, s) && |s.stack| == 2 && |s.commands| == 4 && |s.answers| == 4 && !input.autoPromote
    ensures Inv(input, Gate(s, timer))
  {
    if s.inbox != [] {
      var signal := s.inbox[0];
      ToRecordInv(input, s.(inbox := s.inbox[1..]), signal.actor, if signal.approve then Approved else Rejected);
    } else if timer || s.cancelled {
      ToRecordInv(input, s, "", Timeout);
    } else {
      ForwardInv(input, s.(pc := AtGate));
    }
  }

  lemma GateKeepsInv(input: CanaryInput, s: State, timer: bool)
    requires Inv(input, s) && s.pc.AtGate?
    ensures Inv(input, Gate(s, timer))
  {
    assert Forward(s) == s.commands;
    GateInv(input, s, timer);
  }

  lemma ResumeKeepsInv(input: CanaryInput, s: State, r: Report)
    requires Inv(input, s) && !s.pc.AtGate? && !Over(s.pc)
    ensures Inv(input, Resume(input, s, r))
  {
    hide Inv, Resume, Facts, Forward, Tail;
    var s' := s.(answers := s.answers + [Answer(Waiting(s).value, r)]);
    AnswerKeepsFacts(input, s, s.answers + [Answer(Waiting(s).value, r)]);
    if s.pc.AtUndo? {
      ResumeUndoInv(input, s, s', r);
    } else if s.pc.AtAlert? {
      ResumeAlertInv(input, s, s', r);
    } else {
      ForwardPoint(input, s);
      ForwardResumeInv(input, s, s', r);
    }
  }

  lemma ForwardPoint(input: CanaryInput, s: State)
    requires Inv(input, s) && !Disconnected(s.pc) && !Over(s.pc)
    ensures s.res.status == Unset && Tail(s) == [] && Forward(s) == s.commands
  {
    hide Facts, Milestone;
  }

  lemma ResumeUndoInv(input: CanaryInput, s: State, s': State, r: Report)
    requires Inv(input, s) && s.pc.AtUndo? && s' == Answered(s, r) && Facts(input, s', Forward(s))
    ensures Inv(input, Resume(input, s, r))
  {
    hide Facts, Reverse;
    UndoInv(input, s', Forward(s), s.pc.rest);
  }

  lemma ResumeAlertInv(input: CanaryInput, s: State, s': State, r: Report)
    requires Inv(input, s) && s.pc.AtAlert? && s' == Answered(s, r) && Facts(input, s', Forward(s))
    ensures Inv(input, Resume(input, s, r))
  {
    hide Facts, Inv;
    AlertInv(input, s, s');
  }

  lemma AnswerKeepsFacts(input: CanaryInput, s: State, longer: seq<Answer>)
    requires Inv(input, s) && s.answers <= longer
    ensures Facts(input, s.(answers := longer), Forward(s))
  {
    hide Forward, Milestone, Tail;
  }

  lemma AlertInv(input: CanaryInput, s: State, s': State)
    requires Inv(input, s) && s.pc.AtAlert? && s' == s.(answers := s'.answers) && Facts(input, s', Forward(s))
    ensures Inv(input, s'.(pc := Finished))
  {
    var u := s'.(pc := Finished);
    assert Facts(input, u, Forward(s));
    hide Facts, Reverse;
    assert Tail(u) == Tail(s) && Forward(u) == Forward(s);
  }

  lemma ForwardResumeInv(input: CanaryInput, s: State, s': State, r: Report)
    requires Inv(input, s) && Clear(input, s') && Tail(s) == [] && Waiting(s).Some?
    requires s' == s.(answers := s.answers + [Answer(Waiting(s).value, r)])
    ensures Inv(input, Resume(input, s, r))
  {
    assert s.commands == Forward(s);
    match s.pc
    case AtPolicy => ResumePolicyInv(input, s, s', r);
    case AtScale => ResumeScaleInv(input, s, s', r);
    case AtHealth => ResumeHealthInv(input, s, s', r);
    case AtShift => ResumeShiftInv(input, s, s', r);
    case AtRecord(d) => DecidedInv(input, s', d);
    case AtPromote => ResumePromoteInv(input, s, s', r);
    case _ =>
  }

  lemma DeniedInv(input: CanaryInput, s: State)
    requires Clear(input, s) && |s.commands| == 1
    ensures Inv(input, AfterPolicy(s, false))
  {
    var u := AfterPolicy(s, false);
    assert Facts(input, u, s.commands);
    hide Facts, Reverse;
    assert Tail(u) == [Alert(PolicyRejected, PolicyDenied)] && Forward(u) == s.commands;
  }

  lemma ResumePolicyInv(input: CanaryInput, s: State, s': State, r: Report)
    requires Clear(input, s') && Milestone(s) && Forward(s) == s.commands && s.pc.AtPolicy?
    requires s' == s.(answers := s.answers + [Answer(PolicyCheck, r)])
    ensures Inv(input, Resume(input, s, r))
  {
    if r.Failed? {
      ForwardInv(input, s'.(pc := Broken));
    } else if !r.verdict {
      DeniedInv(input, s');
    } else if s.cancelled {
      UnwindInv(input, s'.(phase := ScalePhase), RolledBack, ScaleFailed);
    } else {
      ForwardInv(input, AfterPolicy(s', true));
    }
  }

  lemma ResumeScaleInv(input: CanaryInput, s: State, s': State, r: Report)
    requires Clear(input, s') && Milestone(s) && Forward(s) == s.commands && s.pc.AtScale?
    requires s' == s.(answers := s.answers + [Answer(ScaleCanary, r)])
    ensures Inv(input, Resume(input, s, r))
  {
    if r.Failed? {
      UnwindInv(input, s', RolledBack, ScaleFailed);
    } else {
      var u := s'.(stack := s'.stack + [ScaleDownCanary], phase := BakePhase);
      if s.cancelled {
        UnwindInv(input, u, RolledBack, HealthError);
      } else {
        ForwardInv(input, AfterScale(s'));
      }
    }
  }

  lemma ResumeHealthInv(input: CanaryInput, s: State, s': State, r: Report)
    requires Clear(input, s') && Milestone(s) && Forward(s) == s.commands && s.pc.AtHealth?
    requires s' == s.(answers := s.answers + [Answer(HealthCheck, r)])
    ensures Inv(input, Resume(input, s, r))
  {
    if r.Failed? {
      UnwindInv(input, s', RolledBack, HealthError);
    } else if !r.verdict {
      UnwindInv(input, s', RolledBack, Unhealthy);
    } else if s.cancelled {
      UnwindInv(input, s'.(phase := ShiftPhase), RolledBack, ShiftFailed);
    } else {
      ForwardInv(input, ToShift(s'));
    }
  }

  lemma ResumeShiftInv(input: CanaryInput, s: State, s': State, r: Report)
    requires Clear(input, s') && Milestone(s) && Forward(s) == s.commands && s.pc.AtShift?
    requires s' == s.(answers := s.answers + [Answer(ShiftTraffic, r)])
    ensures Inv(input, Resume(input, s, r))
  {
    if r.Failed? {
      UnwindInv(input, s', RolledBack, ShiftFailed);
    } else {
      var u := s'.(stack := s'.stack + [ShiftTrafficBack]);
      assert u.stack == [ScaleDownCanary, ShiftTrafficBack] && Cleared(u.answers);
      if input.autoPromote {
        ToRecordInv(input, u, AutoActor(), Auto);
      } else {
        GateInv(input, u.(phase := AwaitingPhase), ReadyAtOnce(input));
      }
    }
  }

  lemma ResumePromoteInv(input: CanaryInput, s: State, s': State, r: Report)
    requires Clear(input, s') && Milestone(s) && Forward(s) == s.commands && s.pc.AtPromote?
    requires s' == s.(answers := s.answers + [Answer(Promote, r)])
    ensures Inv(input, Resume(input, s, r))
  {
    if r.Failed? {
      UnwindInv(input, s', RolledBack, PromoteFailed);
    } else {
      var u := Resume(input, s, r);
      assert Tail(u) == [] && Forward(u) == s.commands;
    }
  }
}
