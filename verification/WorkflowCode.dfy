/** The workflow code itself, run on a recorded history, reaches the state that Workflow.Replay describes. */
module WorkflowCode {
  import opened Types
  import opened Workflow
  import Results = WorkflowResults

  /** The workflow context: the history is consumed task by task, and a call whose result is not there yet blocks. */
  class Context {
    const input: CanaryInput
    const history: seq<Task>
    var pos: nat
    var inbox: seq<ApprovalSignal>
    var cancelled: bool
    var commands: seq<Activity>
    ghost var answers: seq<Answer>

    constructor (input: CanaryInput, history: seq<Task>)
      ensures this.input == input && this.history == history
      ensures pos == 0 && inbox == [] && !cancelled && commands == [] && answers == []
    {
      this.input := input;
      this.history := history;
      pos, inbox, cancelled, commands, answers := 0, [], false, [], [];
    }

    ghost predicate Valid()
      reads this
    {
      pos <= |history|
    }

    /** The state of the run after the workflow tasks consumed so far. */
    ghost function Now(): State
      reads this
      requires Valid()
    {
      Replay(input, history[..pos])
    }

    ghost predicate Mirrors(q: State)
      reads this
    {
      q.inbox == inbox && q.cancelled == cancelled && q.commands == commands && q.answers == answers
    }

    /** Take the next task off the history. w is the blocked state before it. */
    method NextTask(ghost w: State) returns (t: Task)
      requires Valid() && pos < |history| && Now() == w && Mirrors(w)
      modifies this`pos, this`inbox, this`cancelled
      ensures Valid() && pos == old(pos) + 1 && t == history[old(pos)]
      ensures Mirrors(Deliver(w, t)) && Now() == OnTask(input, w, t)
    {
      t := history[pos];
      assert history[..pos + 1][..pos] == history[..pos];
      pos := pos + 1;
      inbox := inbox + t.signals;
      cancelled := cancelled || t.cancel;
    }

    /** Schedule an activity and wait for its result. w is the state with the activity scheduled. On a cancelled context
        an activity that is not disconnected is never scheduled and fails at once. */
    method ExecuteActivity(a: Activity, disconnected: bool, ghost w: State) returns (blocked: bool, report: Report)
      requires Valid()
      requires !cancelled || disconnected ==>
                 && Now() == w && Waiting(w) == Some(a) && (Disconnected(w.pc) <==> disconnected)
                 && w.commands == commands + [a] && w.inbox == inbox && w.cancelled == cancelled && w.answers == answers
      modifies this
      ensures Valid()
      ensures old(cancelled) && !disconnected ==>
                !blocked && report == Failed && pos == old(pos) && inbox == old(inbox) && cancelled &&
                commands == old(commands) && answers == old(answers)
      ensures !old(cancelled) || disconnected ==> commands == old(commands) + [a]
      ensures blocked ==>
                pos == |history| && Now() == w.(inbox := inbox, cancelled := cancelled) && Mirrors(Now())
      ensures !blocked && (!old(cancelled) || disconnected) ==>
                var w' := w.(inbox := inbox, cancelled := cancelled);
                Now() == Resume(input, w', report) && Mirrors(Answered(w', report))
    {
      hide OnTask, Resume, Replay, Unwind, Schedule;
      if cancelled && !disconnected {
        return false, Failed;
      }
      commands := commands + [a];
      ghost var v := w;
      while pos < |history|
        invariant Valid() && Now() == v && Mirrors(v)
        invariant v == w.(inbox := inbox, cancelled := cancelled)
        invariant commands == old(commands) + [a]
        invariant !disconnected ==> !cancelled
      {
        var t := NextTask(v);
        WaitingTask(input, v, t);
        v := Deliver(v, t);
        if t.done.Some? {
          answers := answers + [Answer(a, t.done.value)];
          return false, t.done.value;
        }
        if cancelled && !disconnected {
          answers := answers + [Answer(a, Failed)];
          return false, Failed;
        }
      }
      return true, Failed;
    }

    /** Block on a signal or the timer, which is ready at once if it has no time to wait. q is the state on entry. */
    method WaitForApproval(timeout: int, ghost q: State)
      returns (blocked: bool, signal: ApprovalSignal, timedOut: bool, ghost g: State)
      requires Valid() && Mirrors(q) && Now() == Gate(q, timeout <= 0)
      modifies this`pos, this`inbox, this`cancelled
      ensures Valid()
      ensures blocked ==> pos == |history| && Now() == g && g.pc.AtGate? && Mirrors(g)
      ensures !blocked ==>
                && Mirrors(g)
                && (timedOut ==> signal == ApprovalSignal(false, "") && Now() == ToRecord(g, "", Timeout))
                && (!timedOut ==> Now() == ToRecord(g, signal.actor, if signal.approve then Approved else Rejected))
      ensures g == q.(pc := g.pc, inbox := inbox, cancelled := cancelled)
    {
      g := q;
      var fired := timeout <= 0;
      while true
        invariant Valid() && Mirrors(g) && Now() == Gate(g, fired)
        invariant g == q.(pc := g.pc, inbox := inbox, cancelled := cancelled)
        decreases |history| - pos
      {
        if inbox != [] {
          signal := inbox[0];
          inbox := inbox[1..];
          g := g.(inbox := inbox);
          return false, signal, false, g;
        }
        if fired || cancelled {
          return false, ApprovalSignal(false, ""), true, g;
        }
        g := g.(pc := AtGate);
        if pos == |history| {
          return true, ApprovalSignal(false, ""), false, g;
        }
        var t := NextTask(g);
        g := Deliver(g, t);
        fired := t.timer;
      }
    }
  }

  lemma UndoStep(s: State, rest: seq<Activity>)
    requires rest != []
    ensures UndoFrom(s, rest) == Schedule(s, AtUndo(rest[..|rest| - 1], rest[|rest| - 1]))
  {}

  lemma UndoResumes(input: CanaryInput, s: State, r: Report)
    requires s.pc.AtUndo?
    ensures Resume(input, s, r) == UndoFrom(Answered(s, r), s.pc.rest)
  {}

  /** The compensation stack. */
  class Saga {
    var compensations: seq<Activity>

    constructor ()
      ensures compensations == []
    {
      compensations := [];
    }

    method Register(a: Activity)
      modifies this
      ensures compensations == old(compensations) + [a]
    {
      compensations := compensations + [a];
    }

    /** Run the whole stack from the top, whatever each compensation reports. q is the state on entry. */
    method Compensate(ctx: Context, ghost q: State) returns (blocked: bool, ghost q': State)
      requires ctx.Valid() && ctx.Mirrors(q) && q.stack == compensations && ctx.Now() == UndoFrom(q, q.stack)
      modifies ctx
      ensures ctx.Valid()
      ensures blocked ==> ctx.pos == |ctx.history| && !Over(ctx.Now().pc) && ctx.Mirrors(ctx.Now())
      ensures blocked ==> ctx.Now().res == q.res && ctx.Now().phase == q.phase && ctx.Now().stack == q.stack
      ensures !blocked ==> ctx.commands == old(ctx.commands) + Reverse(compensations)
      ensures !blocked ==> ctx.Mirrors(q') && ctx.Now() == UndoFrom(q', [])
      ensures q'.res == q.res && q'.phase == q.phase && q'.stack == q.stack
    {
      hide Resume, UndoFrom, Replay;
      q' := q;
      var i := |compensations| - 1;
      assert compensations[i + 1..] == [] && q.stack[..i + 1] == q.stack;
      while i >= 0
        invariant -1 <= i < |compensations|
        invariant ctx.Valid() && ctx.Mirrors(q') && ctx.Now() == UndoFrom(q', q.stack[..i + 1])
        invariant q'.res == q.res && q'.phase == q.phase && q'.stack == q.stack
        invariant ctx.commands == old(ctx.commands) + Reverse(compensations[i + 1..])
      {
        ghost var rest := q.stack[..i + 1];
        assert rest[..|rest| - 1] == q.stack[..i] && rest[|rest| - 1] == compensations[i];
        assert compensations[i..][1..] == compensations[i + 1..];
        ghost var w := Schedule(q', AtUndo(q.stack[..i], compensations[i]));
        UndoStep(q', rest);
        var report;
        blocked, report := ctx.ExecuteActivity(compensations[i], true, w);
        if blocked { return; }
        UndoResumes(ctx.input, w.(inbox := ctx.inbox, cancelled := ctx.cancelled), report);
        q' := Answered(w.(inbox := ctx.inbox, cancelled := ctx.cancelled), report);
        i := i - 1;
      }
      assert compensations[0..] == compensations;
      return false, q';
    }
  }

  /** The outcome of running the code on a history: it is blocked, or returned a result, or failed. */
  datatype Outcome = Blocked | Returned(res: CanaryResult) | Errored(res: CanaryResult)

  ghost predicate Describes(o: Outcome, s: State) {
    match o
    case Blocked => !Over(s.pc)
    case Returned(res) => s.pc.Finished? && s.res == res
    case Errored(res) => s.pc.Broken? && s.res == res
  }

  /** Each reason goes with one status. */
  predicate Paired(res: CanaryResult) {
    match res.reason
    case PolicyDenied => res.status == PolicyRejected
    case NoApproval => res.status == TimedOut
    case ApprovedBy(actor) => res.status == Promoted && res.actor == actor
    case RejectedBy(actor) => res.status == RolledBack && res.actor == actor
    case NoReason => false
    case ChildError => false
    case _ => res.status == RolledBack
  }

  /** The alert activity: its outcome is ignored. */
  method SendAlert(ctx: Context, res: CanaryResult, ghost q: State) returns (blocked: bool)
    requires q.res == res
    requires ctx.Valid() && ctx.Mirrors(q) && ctx.Now() == Schedule(q, AtAlert)
    modifies ctx
    ensures ctx.Valid()
    ensures blocked ==> ctx.pos == |ctx.history| && !Over(ctx.Now().pc)
    ensures !blocked ==> ctx.Now().pc.Finished?
    ensures ctx.Now().res == q.res && ctx.Now().phase == q.phase && ctx.Now().stack == q.stack
    ensures ctx.commands == ctx.Now().commands && ctx.answers == ctx.Now().answers
  {
    var report;
    blocked, report := ctx.ExecuteActivity(Alert(res.status, res.reason), true, Schedule(q, AtAlert));
  }

  method UnwindSaga(ctx: Context, saga: Saga, res: CanaryResult, status: CanaryStatus, reason: Reason, ghost q: State)
    returns (o: Outcome)
    requires ctx.Valid() && ctx.Mirrors(q) && ctx.Now() == Unwind(q, status, reason)
    requires q.res == res && q.stack == saga.compensations
    modifies ctx
    ensures ctx.Valid() && Describes(o, ctx.Now()) && (o.Blocked? ==> ctx.pos == |ctx.history|)
    ensures o == Blocked || o == Returned(res.(status := status, reason := reason))
    ensures ctx.Now().phase == q.phase && ctx.Now().stack == q.stack
    ensures ctx.commands == ctx.Now().commands && ctx.answers == ctx.Now().answers
  {
    var r := res.(status := status, reason := reason);
    ghost var u := q.(res := r);
    var blocked;
    ghost var u';
    blocked, u' := saga.Compensate(ctx, u);
    if blocked { return Blocked; }
    blocked := SendAlert(ctx, r, u');
    return if blocked then Blocked else Returned(r);
  }

  /** The state behind a call of the forward path that returned: on a cancelled context nothing was scheduled or
      answered. */
  ghost function Behind(q: State, pc: Pc, inbox: seq<ApprovalSignal>, cancelled: bool, report: Report): State {
    if q.cancelled then q else Answered(Schedule(q, pc).(inbox := inbox, cancelled := cancelled), report)
  }

  /** The code of one canary deploy, run from the start on a history. Whatever it schedules, reports as its phase and
      returns is what Replay says of that history. */
  method CanaryDeployWorkflow(ctx: Context, input: CanaryInput) returns (o: Outcome, phase: Phase, saga: Saga)
    requires ctx.input == input && ctx.pos == 0 && ctx.inbox == [] && !ctx.cancelled && ctx.commands == [] &&
             ctx.answers == []
    modifies ctx
    ensures var s := Replay(input, ctx.history);
            Describes(o, s) && s.phase == phase && s.stack == saga.compensations && s.commands == ctx.commands &&
              s.answers == ctx.answers
    ensures o.Errored? ==> ctx.answers == [Answer(PolicyCheck, Failed)]
    ensures o.Returned? ==>
              var log, res := ctx.answers, o.res;
              && Won(log, 0, PolicyCheck)
              && (if !log[0].report.verdict then res.status == PolicyRejected && res.reason == PolicyDenied
                  else if !Won(log, 1, ScaleCanary) then res.status == RolledBack && res.reason == ScaleFailed
                  else if !Won(log, 2, HealthCheck) then res.status == RolledBack && res.reason == HealthError
                  else if !log[2].report.verdict then res.status == RolledBack && res.reason == Unhealthy
                  else if !Won(log, 3, ShiftTraffic) then res.status == RolledBack && res.reason == ShiftFailed
                  else if Won(log, 5, Promote) then res.status == Promoted && res.reason == ApprovedBy(res.actor)
                  else Unwinding(res) && Paired(res))
  {
    hide Replay;
    o, phase, saga := Deploy(ctx, input);
    if !o.Blocked? {
      OverIsFinal(input, ctx.history, ctx.pos);
      Results.ResultTellsLog(input, ctx.history);
    } else {
      assert ctx.history[..|ctx.history|] == ctx.history;
    }
  }

  lemma {:induction false} OverIsFinal(input: CanaryInput, history: seq<Task>, n: nat)
    requires n <= |history| && Over(Replay(input, history[..n]).pc)
    ensures Replay(input, history) == Replay(input, history[..n])
    decreases |history| - n
  {
    if n < |history| {
      assert history[..n + 1][..n] == history[..n];
      OverIsFinal(input, history, n + 1);
    } else {
      assert history[..n] == history;
    }
  }

  method Deploy(ctx: Context, input: CanaryInput) returns (o: Outcome, phase: Phase, saga: Saga)
    requires ctx.input == input && ctx.pos == 0 && ctx.inbox == [] && !ctx.cancelled && ctx.commands == [] &&
             ctx.answers == []
    modifies ctx
    ensures fresh(saga)
    ensures ctx.Valid() && Describes(o, ctx.Now()) && (o.Blocked? ==> ctx.pos == |ctx.history|)
    ensures o.Returned? ==> Paired(o.res)
    ensures ctx.Now().phase == phase && ctx.Now().stack == saga.compensations
    ensures ctx.commands == ctx.Now().commands && ctx.answers == ctx.Now().answers
  {
    var res := CanaryResult(input.service, Unset, NoReason, "");
    saga := new Saga();
    phase := PolicyPhase;
    ghost var q := State(AtPolicy, PolicyPhase, res, [], [], false, [], []);
    var blocked, report := ctx.ExecuteActivity(PolicyCheck, false, Schedule(q, AtPolicy));
    if blocked { return Blocked, phase, saga; }
    q := Answered(Schedule(q, AtPolicy).(inbox := ctx.inbox, cancelled := ctx.cancelled), report);
    if report.Failed? { return Errored(res), phase, saga; }
    if !report.verdict {
      phase := PolicyRejectedPhase;
      res := res.(status := PolicyRejected, reason := PolicyDenied);
      blocked := SendAlert(ctx, res, q.(phase := phase, res := res));
      return if blocked then Blocked else Returned(res), phase, saga;
    }
    phase := ScalePhase;
    q := q.(phase := phase);
    o, phase := ScaleAndBake(ctx, input, saga, res, q);
  }

  /** Scale up and bake. */
  method ScaleAndBake(ctx: Context, input: CanaryInput, saga: Saga, res: CanaryResult, ghost q: State)
    returns (o: Outcome, phase: Phase)
    requires ctx.Valid() && ctx.input == input && ctx.Mirrors(q) && q.res == res && q.phase == ScalePhase
    requires q.stack == saga.compensations == []
    requires ctx.Now() == if q.cancelled then Unwind(q, RolledBack, ScaleFailed) else Schedule(q, AtScale)
    modifies ctx, saga
    ensures ctx.Valid() && Describes(o, ctx.Now()) && (o.Blocked? ==> ctx.pos == |ctx.history|)
    ensures o.Returned? ==> Paired(o.res)
    ensures ctx.Now().phase == phase && ctx.Now().stack == saga.compensations
    ensures ctx.commands == ctx.Now().commands && ctx.answers == ctx.Now().answers
  {
    hide Replay, Unwind, ToShift;
    phase := ScalePhase;
    var blocked, report := ctx.ExecuteActivity(ScaleCanary, false, Schedule(q, AtScale));
    if blocked { return Blocked, phase; }
    ghost var p := Behind(q, AtScale, ctx.inbox, ctx.cancelled, report);
    if report.Failed? {
      o := UnwindSaga(ctx, saga, res, RolledBack, ScaleFailed, p);
      return o, phase;
    }
    saga.Register(ScaleDownCanary);
    o, phase := Bake(ctx, input, saga, res, p.(stack := saga.compensations, phase := BakePhase));
  }

  method Bake(ctx: Context, input: CanaryInput, saga: Saga, res: CanaryResult, ghost q: State)
    returns (o: Outcome, phase: Phase)
    requires ctx.Valid() && ctx.input == input && ctx.Mirrors(q) && q.res == res && q.phase == BakePhase
    requires q.stack == saga.compensations == [ScaleDownCanary]
    requires ctx.Now() == if q.cancelled then Unwind(q, RolledBack, HealthError) else Schedule(q, AtHealth)
    modifies ctx, saga
    ensures ctx.Valid() && Describes(o, ctx.Now()) && (o.Blocked? ==> ctx.pos == |ctx.history|)
    ensures o.Returned? ==> Paired(o.res)
    ensures ctx.Now().phase == phase && ctx.Now().stack == saga.compensations
    ensures ctx.commands == ctx.Now().commands && ctx.answers == ctx.Now().answers
  {
    hide Replay, Unwind, ToShift;
    phase := BakePhase;
    var blocked, report := ctx.ExecuteActivity(HealthCheck, false, Schedule(q, AtHealth));
    if blocked { return Blocked, phase; }
    ghost var p := Behind(q, AtHealth, ctx.inbox, ctx.cancelled, report);
    if report.Failed? {
      o := UnwindSaga(ctx, saga, res, RolledBack, HealthError, p);
      return o, phase;
    }
    if !report.verdict {
      o := UnwindSaga(ctx, saga, res, RolledBack, Unhealthy, p);
      return o, phase;
    }
    o, phase := Shift(ctx, input, saga, res, p);
  }

  /** Shift traffic, then wait for the decision. */
  method Shift(ctx: Context, input: CanaryInput, saga: Saga, res: CanaryResult, ghost q: State)
    returns (o: Outcome, phase: Phase)
    requires ctx.Valid() && ctx.input == input && ctx.Mirrors(q) && q.res == res && q.stack == saga.compensations
    requires ctx.Now() == ToShift(q)
    modifies ctx, saga
    ensures ctx.Valid() && Describes(o, ctx.Now()) && (o.Blocked? ==> ctx.pos == |ctx.history|)
    ensures o.Returned? ==> Paired(o.res)
    ensures ctx.Now().phase == phase && ctx.Now().stack == saga.compensations
    ensures ctx.commands == ctx.Now().commands && ctx.answers == ctx.Now().answers
  {
    phase := ShiftPhase;
    ghost var p := q.(phase := phase);
    var blocked, report := ctx.ExecuteActivity(ShiftTraffic, false, Schedule(p, AtShift));
    if blocked { return Blocked, phase; }
    p := Behind(p, AtShift, ctx.inbox, ctx.cancelled, report);
    if report.Failed? {
      o := UnwindSaga(ctx, saga, res, RolledBack, ShiftFailed, p);
      return o, phase;
    }
    saga.Register(ShiftTrafficBack);
    p := p.(stack := saga.compensations);
    if input.autoPromote {
      o, phase := Decide(ctx, saga, res.(actor := AutoActor()), Auto, phase, p);
    } else {
      phase := AwaitingPhase;
      var signal, timedOut;
      blocked, signal, timedOut, p := ctx.WaitForApproval(input.approvalTimeout, p.(phase := phase));
      if blocked { return Blocked, phase; }
      var d := if timedOut then Timeout else if signal.approve then Approved else Rejected;
      o, phase := Decide(ctx, saga, res.(actor := signal.actor), d, phase, p);
    }
  }

  /** Record the decision, ignoring whether that worked, and act on it. */
  method Decide(ctx: Context, saga: Saga, res: CanaryResult, d: Decision, before: Phase, ghost q: State)
    returns (o: Outcome, phase: Phase)
    requires ctx.Valid() && ctx.Mirrors(q) && q.stack == saga.compensations && q.phase == before
    requires q.res.(actor := res.actor) == res
    requires ctx.Now() == ToRecord(q, res.actor, d)
    modifies ctx
    ensures ctx.Valid() && Describes(o, ctx.Now()) && (o.Blocked? ==> ctx.pos == |ctx.history|)
    ensures o.Returned? ==> Paired(o.res)
    ensures ctx.Now().phase == phase && ctx.Now().stack == saga.compensations
    ensures ctx.commands == ctx.Now().commands && ctx.answers == ctx.Now().answers
  {
    hide Unwind, Replay;
    phase := before;
    ghost var p := q.(res := res);
    var blocked, report := ctx.ExecuteActivity(RecordApproval(res.actor, d), false, Schedule(p, AtRecord(d)));
    if blocked { return Blocked, phase; }
    p := Behind(p, AtRecord(d), ctx.inbox, ctx.cancelled, report);
    match d {
      case Timeout =>
        o := UnwindSaga(ctx, saga, res, TimedOut, NoApproval, p);
      case Rejected =>
        o := UnwindSaga(ctx, saga, res, RolledBack, RejectedBy(res.actor), p);
      case _ =>
        o, phase := FinishPromotion(ctx, saga, res, p);
    }
  }

  /** Promote, and finish. */
  method FinishPromotion(ctx: Context, saga: Saga, res: CanaryResult, ghost q: State) returns (o: Outcome, phase: Phase)
    requires ctx.Valid() && ctx.Mirrors(q) && q.stack == saga.compensations && q.res == res
    requires ctx.Now() == ToPromote(q)
    modifies ctx
    ensures ctx.Valid() && Describes(o, ctx.Now()) && (o.Blocked? ==> ctx.pos == |ctx.history|)
    ensures o.Returned? ==> Paired(o.res)
    ensures ctx.Now().phase == phase && ctx.Now().stack == saga.compensations
    ensures ctx.commands == ctx.Now().commands && ctx.answers == ctx.Now().answers
  {
    hide Unwind, Replay;
    phase := PromotePhase;
    ghost var p := q.(phase := phase);
    var blocked, report := ctx.ExecuteActivity(Promote, false, Schedule(p, AtPromote));
    if blocked { return Blocked, phase; }
    p := Behind(p, AtPromote, ctx.inbox, ctx.cancelled, report);
    if report.Failed? {
      o := UnwindSaga(ctx, saga, res, RolledBack, PromoteFailed, p);
      return o, phase;
    }
    phase := PromotedPhase;
    o := Returned(res.(status := Promoted, reason := ApprovedBy(res.actor)));
  }
}
