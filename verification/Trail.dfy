/** What the audit log says about a run, and that it says so truthfully. */
module Trail {
  import opened Types
  import opened Cluster
  import opened Activities
  import opened Audit
  import opened Deploy
  import opened DeployLaws
  import W = Workflow
  import Laws = WorkflowLaws

  predicate Own(cfg: Config, e: Entry) {
    e.execution.workflowId == cfg.workflowId && e.execution.runId == cfg.runId
  }

  /** The execution is of an activity scheduled by now, and its attempt has begun. */
  predicate Known(run: Run, x: Execution) {
    && 1 <= x.activityId <= |run.ws.commands|
    && (x.activityId < |run.ws.commands| || W.Waiting(run.ws).None? || x.attempt <= run.attempt)
  }

  predicate IsCurrent(run: Run, x: Execution) {
    W.Waiting(run.ws).Some? && x.activityId == |run.ws.commands| && x.attempt == run.attempt
  }

  /** The row is about a known execution, names its activity, and tells what happened. */
  predicate RowOk(run: Run, r: Entry) {
    var x := r.execution;
    && Known(run, x)
    && r.activityType == TypeOf(run.ws.commands[x.activityId - 1])
    && match r.phase
       case StartPhase => r.status == StartedStatus
       case EndPhase =>
         && x in run.returned
         && r.status == (if run.returned[x] then FailedStatus else CompletedStatus)
         && (IsCurrent(run, x) ==> run.stage.Idle?)
       case ApprovalPhase =>
         var a := run.ws.commands[x.activityId - 1];
         a.RecordApproval? && r.status == DecidedStatus(a.decision) && r.actor == a.actor &&
           r.detail == Detail(a.decision)
  }

  predicate RowsOk(cfg: Config, run: Run, t: seq<Entry>) {
    forall i | 0 <= i < |t| :: Own(cfg, t[i]) ==> RowOk(run, t[i])
  }

  /** No start row after an end row of the same execution, and no approval row after a row of Promote. */
  predicate InOrder(cfg: Config, t: seq<Entry>) {
    forall i, j | 0 <= i < j < |t| :: Own(cfg, t[i]) && Own(cfg, t[j]) ==>
      && !(t[i].phase.EndPhase? && t[j].phase.StartPhase? && t[i].execution == t[j].execution)
      && !(t[i].activityType.PromoteType? && t[j].phase.ApprovalPhase?)
  }

  /** The start rows are those of the executions in the set. */
  predicate StartsAre(cfg: Config, t: seq<Entry>, started: set<Execution>) {
    && (forall i | 0 <= i < |t| :: Own(cfg, t[i]) && t[i].phase.StartPhase? ==> t[i].execution in started)
    && (forall x | x in started ::
          exists i :: 0 <= i < |t| && Own(cfg, t[i]) && t[i].phase.StartPhase? && t[i].execution == x)
  }

  predicate StartedKnown(run: Run, started: set<Execution>) { forall x | x in started :: Known(run, x) }

  /** The memory of returns covers known executions only; the current one is in it exactly once its code has returned.
      */
  predicate ReturnsOk(cfg: Config, run: Run) {
    && (forall x | x in run.returned :: Known(run, x))
    && (W.Waiting(run.ws).Some? && run.stage.Working? ==> CurrentExecution(cfg, run) !in run.returned)
    && (W.Waiting(run.ws).Some? && run.stage.Returned? ==>
          CurrentExecution(cfg, run) in run.returned && run.returned[CurrentExecution(cfg, run)] == run.stage.failed)
  }

  predicate Logbook(cfg: Config, run: Run, t: seq<Entry>, started: set<Execution>) {
    && DistinctKeys(t)
    && RowsOk(cfg, run, t)
    && InOrder(cfg, t)
    && StartsAre(cfg, t, started)
    && StartedKnown(run, started)
    && ReturnsOk(cfg, run)
  }

  /** The executions whose row of this phase was carried out. */
  function Accepted(cfg: Config, world: World, evs: seq<Event>, phase: RowPhase): set<Execution> {
    if evs == [] then {}
    else
      var n := |evs| - 1;
      Accepted(cfg, world, evs[..n], phase) + AcceptedBy(cfg, Play(cfg, world, evs[..n]).run, evs[n], phase)
  }

  function AcceptedBy(cfg: Config, run: Run, ev: Event, phase: RowPhase): set<Execution> {
    match W.Waiting(run.ws)
    case None => {}
    case Some(a) =>
      match phase
      case StartPhase =>
        if ev.Begin? && ev.logged && run.stage.Idle? then {CurrentExecution(cfg, run.(attempt := run.attempt + 1))}
        else {}
      case ApprovalPhase =>
        if ev.Answer? && !FateOf(ev.reply).Refused? && run.stage.Working? && run.stage.next == 0 && a.RecordApproval?
        then {CurrentExecution(cfg, run)} else {}
      case EndPhase =>
        if ev.Return? && ev.logged && run.stage.Returned? then {CurrentExecution(cfg, run)} else {}
  }

  // --- Appending one row ---

  lemma AppendRow(cfg: Config, run: Run, t: seq<Entry>, e: Entry)
    requires DistinctKeys(t) && RowsOk(cfg, run, t) && InOrder(cfg, t)
    requires RowOk(run, e) && !HasKey(t, e)
    requires e.phase.StartPhase? ==> forall i | 0 <= i < |t| :: t[i].execution != e.execution
    requires e.phase.ApprovalPhase? ==> forall i | 0 <= i < |t| :: Own(cfg, t[i]) ==> !t[i].activityType.PromoteType?
    ensures DistinctKeys(t + [e]) && RowsOk(cfg, run, t + [e]) && InOrder(cfg, t + [e])
  {
    hide RowOk;
  }

  lemma AppendStart(cfg: Config, t: seq<Entry>, e: Entry, started: set<Execution>)
    requires StartsAre(cfg, t, started) && Own(cfg, e)
    ensures StartsAre(cfg, t + [e], if e.phase.StartPhase? then started + {e.execution} else started)
  {
    var t', s' := t + [e], if e.phase.StartPhase? then started + {e.execution} else started;
    forall x | x in s'
      ensures exists i :: 0 <= i < |t'| && Own(cfg, t'[i]) && t'[i].phase.StartPhase? && t'[i].execution == x
    {
      if x in started {
        var i :| 0 <= i < |t| && Own(cfg, t[i]) && t[i].phase.StartPhase? && t[i].execution == x;
        assert t'[i] == t[i];
      } else {
        assert t'[|t|] == e;
      }
    }
  }

  /** The run's position only moves forward. */
  predicate Advances(run: Run, run': Run) {
    && run.ws.commands <= run'.ws.commands
    && (forall x | x in run.returned :: x in run'.returned && run'.returned[x] == run.returned[x])
    && (|| |run'.ws.commands| > |run.ws.commands|
        || W.Waiting(run'.ws).None?
        || (W.Waiting(run.ws).Some? && run.attempt <= run'.attempt &&
            (run.attempt == run'.attempt && run.stage.Idle? ==> run'.stage.Idle?)))
  }

  lemma AdvanceKeepsRows(cfg: Config, run: Run, run': Run, t: seq<Entry>, started: set<Execution>)
    requires Advances(run, run') && RowsOk(cfg, run, t) && StartedKnown(run, started)
    ensures RowsOk(cfg, run', t) && StartedKnown(run', started)
  {
    hide W.Waiting, TypeOf, Detail;
    forall i | 0 <= i < |t| && Own(cfg, t[i]) ensures RowOk(run', t[i]) {
      AdvanceKeepsRow(run, run', t[i]);
    }
  }

  lemma AdvanceKeepsRow(run: Run, run': Run, r: Entry)
    requires Advances(run, run') && RowOk(run, r)
    ensures RowOk(run', r)
  {
    hide W.Waiting, TypeOf, Detail;
  }

  lemma LastIsPending(input: CanaryInput, ws: W.State)
    requires W.Inv(input, ws)
    ensures |ws.commands| >= 1
    ensures W.Waiting(ws).Some? ==> ws.commands[|ws.commands| - 1] == W.Waiting(ws).value
  {
    hide W.Milestone, W.Tail;
  }

  // --- Each kind of event keeps the logbook ---

  /** A workflow task moves the run forward; the result of an activity ends the wait for it. */
  lemma TellAdvances(cfg: Config, run: Run, done: Option<Report>, mail: Mail)
    requires W.Inv(cfg.input, run.ws)
    ensures var run' := Tell(cfg, run, done, mail);
            && Advances(run, run')
            && run'.returned == run.returned
            && (W.Waiting(run.ws).Some? && done.Some? ==>
                  |run'.ws.commands| > |run.ws.commands| || W.Waiting(run'.ws).None?)
            && (run'.stage.Idle? || (run'.stage == run.stage && run'.attempt == run.attempt &&
                                     W.Waiting(run'.ws) == W.Waiting(run.ws) && run'.ws.commands == run.ws.commands)
                || W.Waiting(run'.ws).None?)
  {
    hide W.Inv, W.OnTask;
    var t := W.Task(done, mail.signals, mail.timer, mail.cancel);
    var ws' := W.OnTask(cfg.input, run.ws, t);
    if W.Waiting(run.ws).Some? {
      LeavesWait(cfg.input, run.ws, t);
      TaskSchedules(cfg.input, run.ws, t);
    } else if ws'.pc == run.ws.pc {
      IdleStaysIdle(cfg.input, run.ws, t);
    } else {
      TaskSchedules(cfg.input, run.ws, t);
    }
  }

  lemma TaskSchedules(input: CanaryInput, ws: W.State, t: W.Task)
    ensures var ws' := W.OnTask(input, ws, t);
            ws'.pc != ws.pc ==> |ws'.commands| == |ws.commands| + (if W.Waiting(ws').Some? then 1 else 0)
  {
    hide W.Resume, W.Gate, W.Waiting;
  }

  lemma TellKeepsReturns(cfg: Config, run: Run, done: Option<Report>, mail: Mail)
    requires W.Inv(cfg.input, run.ws) && ReturnsOk(cfg, run)
    ensures ReturnsOk(cfg, Tell(cfg, run, done, mail))
  {
    hide W.Inv, Tell;
    TellAdvances(cfg, run, done, mail);
    var run' := Tell(cfg, run, done, mail);
    AdvanceKeepsKnown(run, run', run.returned.Keys);
  }

  lemma AdvanceKeepsKnown(run: Run, run': Run, xs: set<Execution>)
    requires Advances(run, run') && StartedKnown(run, xs)
    ensures StartedKnown(run', xs)
  {
    hide W.Waiting;
  }

  /** A failed or dead attempt: the attempt ends, or the activity does. */
  lemma FailAdvances(cfg: Config, run: Run, a: Activity, mail: Mail)
    requires W.Inv(cfg.input, run.ws) && W.Waiting(run.ws) == Some(a) && ReturnsOk(cfg, run)
    ensures var run' := AttemptFailed(cfg, run, a, mail);
            && Advances(run, run') && ReturnsOk(cfg, run') && run'.returned == run.returned
            && (|run'.ws.commands| == |run.ws.commands| && W.Waiting(run'.ws).Some? ==> run'.stage.Idle?)
  {
    hide W.Inv, Tell, W.Waiting;
    TellAdvances(cfg, run, Some(Failed), mail);
    TellKeepsReturns(cfg, run, Some(Failed), mail);
  }

  lemma EnterAdvances(cfg: Config, run: Run, stage: Stage)
    requires ReturnsOk(cfg, run) && W.Waiting(run.ws).Some? && |run.ws.commands| >= 1
    requires !stage.Idle? && CurrentExecution(cfg, run) !in run.returned && !run.stage.Idle?
    ensures Advances(run, Enter(cfg, run, stage)) && ReturnsOk(cfg, Enter(cfg, run, stage))
  {
    hide W.Waiting;
  }

  lemma BeginAdvances(cfg: Config, run: Run, stage: Stage)
    requires ReturnsOk(cfg, run) && W.Waiting(run.ws).Some? && |run.ws.commands| >= 1 && !stage.Idle?
    ensures var begun := run.(attempt := run.attempt + 1);
            && CurrentExecution(cfg, begun) !in run.returned
            && Advances(run, Enter(cfg, begun, stage)) && ReturnsOk(cfg, Enter(cfg, begun, stage))
  {
    hide W.Waiting;
  }

  /** Everything of the logbook but the rows' agreement with one more row. */
  lemma RowsAdvance(cfg: Config, run: Run, run': Run, t: seq<Entry>, started: set<Execution>)
    requires Logbook(cfg, run, t, started) && Advances(run, run') && ReturnsOk(cfg, run')
    ensures Logbook(cfg, run', t, started)
  {
    hide RowsOk, InOrder, StartsAre, StartedKnown, ReturnsOk, DistinctKeys;
    AdvanceKeepsRows(cfg, run, run', t, started);
  }

  lemma NoRowOfUnknown(cfg: Config, run: Run, t: seq<Entry>, x: Execution)
    requires RowsOk(cfg, run, t) && !Known(run, x) && x.workflowId == cfg.workflowId && x.runId == cfg.runId
    ensures forall i | 0 <= i < |t| :: t[i].execution != x
  {}

  lemma BeginKeepsLogbook(cfg: Config, run: Run, world: World, started: set<Execution>, a: Activity, logged: bool,
                          now: nat)
    requires Logbook(cfg, run, world.table, started) && W.Inv(cfg.input, run.ws)
    requires W.Waiting(run.ws) == Some(a) && run.stage.Idle?
    ensures var st' := BeginAttempt(cfg, run, world, a, logged, now);
            Logbook(cfg, st'.run, st'.world.table,
                    started + if logged then {CurrentExecution(cfg, run.(attempt := run.attempt + 1))} else {})
  {
    hide W.Inv, Calls, Advances, RowsOk, StartsAre, StartedKnown, ReturnsOk, InOrder, DistinctKeys, TypeOf, W.Waiting;
    var t := world.table;
    LastIsPending(cfg.input, run.ws);
    var begun := run.(attempt := run.attempt + 1);
    var stage := StageAt(Calls(cfg.input, a), 0, false);
    BeginAdvances(cfg, run, stage);
    var run' := Enter(cfg, begun, stage);
    RowsAdvance(cfg, run, run', t, started);
    var x := CurrentExecution(cfg, begun);
    var e := StartRow(x, TypeOf(a), now);
    assert !Known(run, x);
    NoRowOfUnknown(cfg, run, t, x);
    if logged {
      AppendRow(cfg, run', t, e);
      AppendStart(cfg, t, e, started);
      OneMoreKnown(run', started, x);
    } else {
      assert started + {} == started;
    }
  }

  lemma OneMoreKnown(run: Run, started: set<Execution>, x: Execution)
    requires StartedKnown(run, started) && Known(run, x)
    ensures StartedKnown(run, started + {x})
  {}

  lemma CallKeepsLogbook(cfg: Config, st: St, started: set<Execution>, a: Activity, reply: Reply, ready: int, now: nat)
    requires Logbook(cfg, st.run, st.world.table, started) && W.Inv(cfg.input, st.run.ws)
    requires W.Waiting(st.run.ws) == Some(a) && st.run.stage.Working? && st.run.stage.next < |Calls(cfg.input, a)|
    ensures var st' := MakeCall(cfg, st.run, st.world, a, reply, ready, now);
            Logbook(cfg, st'.run, st'.world.table, started)
  {
    hide W.Inv, Calls, Advances, Logbook, ReturnsOk, TypeOf, W.Waiting, Do, VerdictAfter, Succeeds;
    var run, t := st.run, st.world.table;
    LastIsPending(cfg.input, run.ws);
    LogbookParts(cfg, run, t, started);
    var st' := MakeCall(cfg, run, st.world, a, reply, ready, now);
    EnterAdvances(cfg, run, st'.run.stage);
    RowsAdvance(cfg, run, st'.run, t, started);
    if st'.world.table != t {
      ApprovalKeepsLogbook(cfg, st'.run, t, started, a, now);
    }
  }

  lemma LogbookParts(cfg: Config, run: Run, t: seq<Entry>, started: set<Execution>)
    requires Logbook(cfg, run, t, started)
    ensures ReturnsOk(cfg, run) && RowsOk(cfg, run, t)
    ensures W.Waiting(run.ws).Some? && run.stage.Working? ==> CurrentExecution(cfg, run) !in run.returned
  {
    hide RowsOk, StartsAre, InOrder, StartedKnown, DistinctKeys, W.Waiting;
  }

  lemma ApprovalKeepsLogbook(cfg: Config, run: Run, t: seq<Entry>, started: set<Execution>, a: Activity, now: nat)
    requires Logbook(cfg, run, t, started) && W.Inv(cfg.input, run.ws)
    requires W.Waiting(run.ws) == Some(a) && a.RecordApproval?
    ensures var e := ApprovalRow(CurrentExecution(cfg, run), a.actor, a.decision, now);
            !HasKey(t, e) ==> Logbook(cfg, run, t + [e], started)
  {
    hide W.Inv, W.Waiting, InOrder, DistinctKeys, StartsAre, StartedKnown, ReturnsOk, Detail;
    LastIsPending(cfg.input, run.ws);
    var e := ApprovalRow(CurrentExecution(cfg, run), a.actor, a.decision, now);
    RecordBeforePromote(cfg.input, run.ws, a);
    NoPromoteRow(cfg, run, t);
    if !HasKey(t, e) {
      AppendRow(cfg, run, t, e);
      AppendStart(cfg, t, e, started);
    }
  }

  lemma RecordBeforePromote(input: CanaryInput, ws: W.State, a: Activity)
    requires W.Inv(input, ws) && W.Waiting(ws) == Some(a) && a.RecordApproval?
    ensures Promote !in ws.commands
  {
    hide W.Inv;
    assert ws.pc.AtRecord? by {
      Laws.UndoRest(input, ws);
    }
    if Promote in ws.commands {
      Laws.PromoteIsSixth(input, ws);
    }
  }

  lemma NoPromoteRow(cfg: Config, run: Run, t: seq<Entry>)
    requires RowsOk(cfg, run, t) && Promote !in run.ws.commands
    ensures forall i | 0 <= i < |t| :: Own(cfg, t[i]) ==> !t[i].activityType.PromoteType?
  {
    forall i | 0 <= i < |t| && Own(cfg, t[i]) ensures !t[i].activityType.PromoteType? {
      assert RowOk(run, t[i]);
      var a := run.ws.commands[t[i].execution.activityId - 1];
      assert a in run.ws.commands;
    }
  }

  lemma ReturnKeepsLogbook(cfg: Config, run: Run, run': Run, t: seq<Entry>, started: set<Execution>, a: Activity,
                           logged: bool, now: nat)
    requires Logbook(cfg, run, t, started) && W.Inv(cfg.input, run.ws)
    requires W.Waiting(run.ws) == Some(a) && run.stage.Returned?
    requires Advances(run, run') && ReturnsOk(cfg, run') && run'.returned == run.returned
    requires |run'.ws.commands| == |run.ws.commands| && W.Waiting(run'.ws).Some? ==> run'.stage.Idle?
    ensures var t' := InsertIf(logged, t, EndRow(CurrentExecution(cfg, run), TypeOf(a), run.stage.failed, now));
            Logbook(cfg, run', t', started)
  {
    hide W.Inv, W.Waiting, InOrder, DistinctKeys, StartsAre, StartedKnown, TypeOf, RowsOk;
    LastIsPending(cfg.input, run.ws);
    RowsAdvance(cfg, run, run', t, started);
    var x := CurrentExecution(cfg, run);
    var e := EndRow(x, TypeOf(a), run.stage.failed, now);
    assert RowOk(run', e);
    if logged && !HasKey(t, e) {
      AppendRow(cfg, run', t, e);
      AppendStart(cfg, t, e, started);
    }
  }

  lemma StepKeepsLogbook(cfg: Config, st: St, ev: Event, started: set<Execution>)
    requires W.Inv(cfg.input, st.run.ws) && Logbook(cfg, st.run, st.world.table, started)
    ensures Logbook(cfg, Step(cfg, st, ev).run, Step(cfg, st, ev).world.table,
                    started + AcceptedBy(cfg, st.run, ev, StartPhase))
  {
    hide W.Inv, W.Waiting, Calls, Logbook, Advances, ReturnsOk, Tell, BeginAttempt, MakeCall, AttemptFailed, TypeOf,
      InsertIf, Insert;
    var run, t := st.run, st.world.table;
    LogbookParts(cfg, run, t, started);
    assert started + {} == started;
    match W.Waiting(run.ws) {
      case None =>
        if ev.Wake? { ToldKeepsLogbook(cfg, run, t, started, ev.mail); }
      case Some(a) =>
        match ev {
          case Begin(logged, now) =>
            if run.stage.Idle? { BeginKeepsLogbook(cfg, run, st.world, started, a, logged, now); }
          case Answer(reply, ready, now) =>
            if run.stage.Working? && run.stage.next < |Calls(cfg.input, a)| {
              CallKeepsLogbook(cfg, st, started, a, reply, ready, now);
            }
          case Return(logged, delivered, mail, now) =>
            if run.stage.Returned? { ReturnedKeepsLogbook(cfg, st, started, a, logged, delivered, mail, now); }
          case Crash(mail) =>
            if !run.stage.Idle? {
              FailAdvances(cfg, run, a, mail);
              RowsAdvance(cfg, run, AttemptFailed(cfg, run, a, mail), t, started);
            }
          case Wake(mail) => ToldKeepsLogbook(cfg, run, t, started, mail);
        }
    }
  }

  lemma ToldKeepsLogbook(cfg: Config, run: Run, t: seq<Entry>, started: set<Execution>, mail: Mail)
    requires W.Inv(cfg.input, run.ws) && Logbook(cfg, run, t, started)
    ensures Logbook(cfg, Tell(cfg, run, None, mail), t, started)
  {
    hide W.Inv, W.Waiting, Logbook, Advances, ReturnsOk, Tell;
    LogbookParts(cfg, run, t, started);
    TellAdvances(cfg, run, None, mail);
    TellKeepsReturns(cfg, run, None, mail);
    RowsAdvance(cfg, run, Tell(cfg, run, None, mail), t, started);
  }

  lemma ReturnedKeepsLogbook(cfg: Config, st: St, started: set<Execution>, a: Activity, logged: bool, delivered: bool,
                             mail: Mail, now: nat)
    requires W.Inv(cfg.input, st.run.ws) && Logbook(cfg, st.run, st.world.table, started)
    requires W.Waiting(st.run.ws) == Some(a) && st.run.stage.Returned?
    ensures var st' := ReturnAttempt(cfg, st.run, st.world, a, logged, delivered, mail, now);
            Logbook(cfg, st'.run, st'.world.table, started)
  {
    hide W.Inv, W.Waiting, Logbook, Advances, ReturnsOk, Tell, AttemptFailed, TypeOf, InsertIf, EndRow;
    var run := st.run;
    LogbookParts(cfg, run, st.world.table, started);
    var run' := ReturnAttempt(cfg, run, st.world, a, logged, delivered, mail, now).run;
    FailAdvances(cfg, run, a, mail);
    TellAdvances(cfg, run, Some(Completed(run.stage.verdict)), mail);
    TellKeepsReturns(cfg, run, Some(Completed(run.stage.verdict)), mail);
    MoreCommands(run, run');
    ReturnKeepsLogbook(cfg, run, run', st.world.table, started, a, logged, now);
  }

  lemma MoreCommands(run: Run, run': Run)
    ensures Advances(run, run') ==> run.ws.commands <= run'.ws.commands
  {
    hide W.Waiting;
  }

  // --- Whole runs ---

  /** The table a run starts with: the run is new, and the index holds. */
  predicate NewRun(cfg: Config, t: seq<Entry>) {
    DistinctKeys(t) && forall i | 0 <= i < |t| :: !Own(cfg, t[i])
  }

  lemma {:induction false} RunLogbook(cfg: Config, world: World, evs: seq<Event>)
    requires NewRun(cfg, world.table)
    ensures var st := Play(cfg, world, evs); Logbook(cfg, st.run, st.world.table, Accepted(cfg, world, evs, StartPhase))
  {
    hide Step, W.Inv, Logbook, NewRun, AcceptedBy;
    if evs != [] {
      var n := |evs| - 1;
      RunLogbook(cfg, world, evs[..n]);
      RunInv(cfg, world, evs[..n]);
      StepKeepsLogbook(cfg, Play(cfg, world, evs[..n]), evs[n], Accepted(cfg, world, evs[..n], StartPhase));
    } else {
      StartLogbook(cfg, world);
    }
  }

  lemma StartLogbook(cfg: Config, world: World)
    requires NewRun(cfg, world.table)
    ensures Logbook(cfg, Initial(cfg, world).run, world.table, {})
  {}

  /** The end row e, after these rows, says failed exactly when that execution of the activity code returned an error,
      and has the start row of the same attempt before it exactly when that attempt's start write was accepted. */
  predicate EndRowTells(cfg: Config, run: Run, started: set<Execution>, before: seq<Entry>, e: Entry) {
    Own(cfg, e) && e.phase.EndPhase? ==>
      && e.execution in run.returned
      && e.status == (if run.returned[e.execution] then FailedStatus else CompletedStatus)
      && (HasKey(before, StartRow(e.execution, e.activityType, 0)) <==> e.execution in started)
  }

  predicate Bracketed(cfg: Config, run: Run, started: set<Execution>, t: seq<Entry>) {
    forall i | 0 <= i < |t| :: EndRowTells(cfg, run, started, t[..i], t[i])
  }

  /** Bracketing. Whatever attempts fail, die or go unreported, and whichever audit writes are lost: no attempt has two
      rows of one phase, and every end row tells the truth. */
  lemma {:induction false} RowsBracketExecutions(cfg: Config, world: World, evs: seq<Event>)
    requires NewRun(cfg, world.table)
    ensures var st := Play(cfg, world, evs);
            DistinctKeys(st.world.table) &&
              Bracketed(cfg, st.run, Accepted(cfg, world, evs, StartPhase), st.world.table)
  {
    hide Play, Accepted;
    RunLogbook(cfg, world, evs);
    var st, started := Play(cfg, world, evs), Accepted(cfg, world, evs, StartPhase);
    var t := st.world.table;
    forall i | 0 <= i < |t| ensures EndRowTells(cfg, st.run, started, t[..i], t[i]) {
      if Own(cfg, t[i]) && t[i].phase.EndPhase? {
        assert RowOk(st.run, t[i]);
        StartComesFirst(cfg, t, started, i);
      }
    }
  }

  lemma StartComesFirst(cfg: Config, t: seq<Entry>, started: set<Execution>, i: nat)
    requires InOrder(cfg, t) && StartsAre(cfg, t, started) && i < |t| && Own(cfg, t[i]) && t[i].phase.EndPhase?
    ensures HasKey(t[..i], StartRow(t[i].execution, t[i].activityType, 0)) <==> t[i].execution in started
  {
    var row := StartRow(t[i].execution, t[i].activityType, 0);
    if t[i].execution in started {
      var j :| 0 <= j < |t| && Own(cfg, t[j]) && t[j].phase.StartPhase? && t[j].execution == t[i].execution;
      assert j < i && SameKey(t[..i][j], row);
    }
    if HasKey(t[..i], row) {
      var j :| 0 <= j < i && SameKey(t[..i][j], row);
      assert Own(cfg, t[j]) && t[j].phase.StartPhase?;
    }
  }

  /** With all start writes accepted, every execution that returned, and so every end row, has its start row. */
  lemma {:induction false} StartsLogged(cfg: Config, world: World, evs: seq<Event>)
    requires forall i | 0 <= i < |evs| :: evs[i].Begin? ==> evs[i].logged
    ensures var run, started := Play(cfg, world, evs).run, Accepted(cfg, world, evs, StartPhase);
            && (forall x | x in run.returned :: x in started)
            && (W.Waiting(run.ws).Some? && !run.stage.Idle? ==> CurrentExecution(cfg, run) in started)
  {
    hide Step, W.Inv, AcceptedBy;
    if evs != [] {
      var n := |evs| - 1;
      StartsLogged(cfg, world, evs[..n]);
      RunInv(cfg, world, evs[..n]);
      StepLogsStart(cfg, Play(cfg, world, evs[..n]), evs[n], Accepted(cfg, world, evs[..n], StartPhase));
    } else {
      assert Play(cfg, world, evs) == Initial(cfg, world);
    }
  }

  lemma StepLogsStart(cfg: Config, st: St, ev: Event, started: set<Execution>)
    requires W.Inv(cfg.input, st.run.ws) && (ev.Begin? ==> ev.logged)
    requires forall x | x in st.run.returned :: x in started
    requires W.Waiting(st.run.ws).Some? && !st.run.stage.Idle? ==> CurrentExecution(cfg, st.run) in started
    ensures var run', started' := Step(cfg, st, ev).run, started + AcceptedBy(cfg, st.run, ev, StartPhase);
            && (forall x | x in run'.returned :: x in started')
            && (W.Waiting(run'.ws).Some? && !run'.stage.Idle? ==> CurrentExecution(cfg, run') in started')
  {
    hide W.Inv, W.Waiting, Calls, Tell, Advances, TypeOf, InsertIf, Do, Succeeds, VerdictAfter, StageAt;
    var run := st.run;
    if ev.Wake? { TellAdvances(cfg, run, None, ev.mail); }
    if ev.Crash? { TellAdvances(cfg, run, Some(Failed), ev.mail); }
    if ev.Return? {
      TellAdvances(cfg, run, Some(Failed), ev.mail);
      if run.stage.Returned? { TellAdvances(cfg, run, Some(Completed(run.stage.verdict)), ev.mail); }
    }
  }

  // --- The approval rows ---

  /** The approval row e, after these rows, carries the one decision the workflow took, with the actor of its result;
      that decision fits the result's status, and no row of Promote comes before it. */
  predicate ApprovalRowTells(cfg: Config, ws: W.State, before: seq<Entry>, e: Entry) {
    Own(cfg, e) && e.phase.ApprovalPhase? ==>
      && e.status.DecidedStatus? && e.actor == ws.res.actor && e.detail == Detail(e.status.decision)
      && |ws.commands| > 4 && ws.commands[4] == RecordApproval(ws.res.actor, e.status.decision)
      && (e.status.decision == Auto <==> cfg.input.autoPromote)
      && (ws.res.status != Unset ==> W.Fits(e.status.decision, ws.res.status))
      && forall r | r in before :: Own(cfg, r) ==> !r.activityType.PromoteType?
  }

  predicate Approvals(cfg: Config, ws: W.State, t: seq<Entry>) {
    forall i | 0 <= i < |t| :: ApprovalRowTells(cfg, ws, t[..i], t[i])
  }

  /** All approval rows of a run, at most one per attempt, tell its one decision and its outcome. */
  lemma {:induction false} ApprovalRowsTellOutcome(cfg: Config, world: World, evs: seq<Event>)
    requires NewRun(cfg, world.table)
    ensures var st := Play(cfg, world, evs); DistinctKeys(st.world.table) && Approvals(cfg, st.run.ws, st.world.table)
  {
    hide Play, W.Inv, Detail, W.Fits, Accepted;
    RunLogbook(cfg, world, evs);
    RunInv(cfg, world, evs);
    var t, run := Play(cfg, world, evs).world.table, Play(cfg, world, evs).run;
    forall i | 0 <= i < |t| ensures ApprovalRowTells(cfg, run.ws, t[..i], t[i]) {
      if Own(cfg, t[i]) && t[i].phase.ApprovalPhase? {
        assert RowOk(run, t[i]);
        Laws.RecordIsFifth(cfg.input, run.ws, t[i].execution.activityId - 1);
        assert forall j | 0 <= j < i :: t[..i][j] == t[j];
      }
    }
  }

  // --- No row is missing ---

  /** Any entry with this key. */
  function Blank(x: Execution, phase: RowPhase): Entry { Entry(x, AlertType, phase, StartedStatus, "", "", 0) }

  predicate HasRow(t: seq<Entry>, x: Execution, phase: RowPhase) { HasKey(t, Blank(x, phase)) }

  lemma InsertRow(written: bool, t: seq<Entry>, e: Entry, x: Execution, phase: RowPhase)
    ensures HasRow(InsertIf(written, t, e), x, phase) <==>
              HasRow(t, x, phase) || (written && e.execution == x && e.phase == phase)
  {
    HasKeyAppend(t, e, Blank(x, phase));
    if HasKey(t, e) && SameKey(e, Blank(x, phase)) {
      var i :| 0 <= i < |t| && SameKey(t[i], e);
      assert SameKey(t[i], Blank(x, phase));
    }
  }

  lemma StepAccepts(cfg: Config, st: St, ev: Event, x: Execution, phase: RowPhase)
    requires Progress(cfg, st)
    ensures HasRow(Step(cfg, st, ev).world.table, x, phase) <==>
              HasRow(st.world.table, x, phase) || x in AcceptedBy(cfg, st.run, ev, phase)
  {
    hide W.Waiting, Tell, AttemptFailed, HasRow, InsertIf, TypeOf, Detail, Do, Succeeds, VerdictAfter, AllHold;
    var run, t := st.run, st.world.table;
    match W.Waiting(run.ws)
    case None =>
    case Some(a) =>
      OneAppend(cfg.input, a);
      hide Calls;
      match ev {
        case Begin(logged, now) =>
          var begun := CurrentExecution(cfg, run.(attempt := run.attempt + 1));
          InsertRow(logged, t, StartRow(begun, TypeOf(a), now), x, phase);
        case Answer(reply, _, now) =>
          if a.RecordApproval? {
            InsertRow(reply.Ok? || reply.WriteLost?, t,
                      ApprovalRow(CurrentExecution(cfg, run), a.actor, a.decision, now), x, phase);
          }
        case Return(logged, _, _, now) =>
          if run.stage.Returned? {
            InsertRow(logged, t, EndRow(CurrentExecution(cfg, run), TypeOf(a), run.stage.failed, now), x, phase);
          }
        case _ =>
      }
  }

  /** Of a new run the table has exactly the rows that were carried out. */
  lemma {:induction false} RowsAreAccepted(cfg: Config, world: World, evs: seq<Event>, x: Execution, phase: RowPhase)
    requires NewRun(cfg, world.table) && x.workflowId == cfg.workflowId && x.runId == cfg.runId
    ensures HasRow(Play(cfg, world, evs).world.table, x, phase) <==> x in Accepted(cfg, world, evs, phase)
  {
    hide Step, Progress, AcceptedBy;
    if evs != [] {
      hide HasRow;
      var n := |evs| - 1;
      RowsAreAccepted(cfg, world, evs[..n], x, phase);
      RunProgress(cfg, world, evs[..n]);
      StepAccepts(cfg, Play(cfg, world, evs[..n]), evs[n], x, phase);
    } else {
      assert Play(cfg, world, evs).world == world;
    }
  }

  /** RecordApproval was reported as completed. */
  predicate ApprovalReported(log: seq<W.Answer>) {
    exists i | 0 <= i < |log| :: log[i].activity.RecordApproval? && log[i].report.Completed?
  }

  lemma ApprovalReportedAppend(log: seq<W.Answer>, last: W.Answer)
    ensures ApprovalReported(log + [last]) ==>
              ApprovalReported(log) || (last.activity.RecordApproval? && last.report.Completed?)
  {
    if i :| 0 <= i < |log| && (log + [last])[i].activity.RecordApproval? && (log + [last])[i].report.Completed? {
      assert log[i] == (log + [last])[i];
    }
  }

  /** An approval that is reported, or about to be, was written. */
  predicate Witnessed(cfg: Config, run: Run, written: set<Execution>) {
    && (W.Waiting(run.ws).Some? && W.Waiting(run.ws).value.RecordApproval? && run.stage.Returned? &&
        !run.stage.failed ==>
          CurrentExecution(cfg, run) in written)
    && (ApprovalReported(run.ws.answers) ==> written != {})
  }

  lemma TellWitnessed(cfg: Config, run: Run, done: Option<Report>, mail: Mail, written: set<Execution>)
    requires W.Inv(cfg.input, run.ws) && Witnessed(cfg, run, written)
    requires done.Some? && done.value.Completed? ==> run.stage.Returned? && !run.stage.failed
    ensures Witnessed(cfg, Tell(cfg, run, done, mail), written)
  {
    hide W.Inv, W.OnTask, W.Waiting, ApprovalReported;
    var t := W.Task(done, mail.signals, mail.timer, mail.cancel);
    TellAdvances(cfg, run, done, mail);
    Laws.AnswersGrow(cfg.input, run.ws, t);
    var ws' := W.OnTask(cfg.input, run.ws, t);
    if ws'.answers != run.ws.answers {
      var a := W.Waiting(run.ws).value;
      var r :| (r == Failed || done == Some(r)) && ws'.answers == run.ws.answers + [W.Answer(a, r)];
      ApprovalReportedAppend(run.ws.answers, W.Answer(a, r));
    }
  }

  lemma StepWitnessed(cfg: Config, st: St, ev: Event, written: set<Execution>)
    requires W.Inv(cfg.input, st.run.ws) && Witnessed(cfg, st.run, written)
    ensures Witnessed(cfg, Step(cfg, st, ev).run, written + AcceptedBy(cfg, st.run, ev, ApprovalPhase))
  {
    hide W.Inv, W.Waiting, Tell, TypeOf, InsertIf, Do, VerdictAfter, ApprovalReported;
    var run := st.run;
    if ev.Wake? { TellWitnessed(cfg, run, None, ev.mail, written); }
    match W.Waiting(run.ws)
    case None =>
    case Some(a) =>
      OneAppend(cfg.input, a);
      hide Calls;
      if ev.Crash? { TellWitnessed(cfg, run, Some(Failed), ev.mail, written); }
      if ev.Return? && run.stage.Returned? {
        TellWitnessed(cfg, run, Some(Failed), ev.mail, written);
        if !run.stage.failed {
          TellWitnessed(cfg, run, Some(Completed(run.stage.verdict)), ev.mail, written);
        }
      }
  }

  lemma {:induction false} RunWitnessed(cfg: Config, world: World, evs: seq<Event>)
    ensures Witnessed(cfg, Play(cfg, world, evs).run, Accepted(cfg, world, evs, ApprovalPhase))
  {
    hide Step, W.Inv, AcceptedBy, Witnessed;
    if evs != [] {
      var n := |evs| - 1;
      RunWitnessed(cfg, world, evs[..n]);
      RunInv(cfg, world, evs[..n]);
      StepWitnessed(cfg, Play(cfg, world, evs[..n]), evs[n], Accepted(cfg, world, evs[..n], ApprovalPhase));
    } else {
      StartWitnessed(cfg, world);
    }
  }

  lemma StartWitnessed(cfg: Config, world: World)
    ensures Witnessed(cfg, Initial(cfg, world).run, {})
  {}

  lemma {:induction false} AcceptedIsOwn(cfg: Config, world: World, evs: seq<Event>, phase: RowPhase)
    ensures forall x | x in Accepted(cfg, world, evs, phase) :: x.workflowId == cfg.workflowId && x.runId == cfg.runId
  {
    hide Step, W.Waiting;
    if evs != [] {
      AcceptedIsOwn(cfg, world, evs[..|evs| - 1], phase);
    }
  }

  predicate HasApproval(cfg: Config, t: seq<Entry>) { exists r :: r in t && Own(cfg, r) && r.phase.ApprovalPhase? }

  /** A decision whose recording was reported as completed is in the table. */
  lemma ReportedApprovalIsThere(cfg: Config, world: World, evs: seq<Event>)
    requires NewRun(cfg, world.table)
    ensures ApprovalReported(Play(cfg, world, evs).run.ws.answers) ==>
              HasApproval(cfg, Play(cfg, world, evs).world.table)
  {
    hide Play, Accepted, NewRun;
    RunWitnessed(cfg, world, evs);
    AcceptedIsOwn(cfg, world, evs, ApprovalPhase);
    var t := Play(cfg, world, evs).world.table;
    if ApprovalReported(Play(cfg, world, evs).run.ws.answers) {
      var x :| x in Accepted(cfg, world, evs, ApprovalPhase);
      RowsAreAccepted(cfg, world, evs, x, ApprovalPhase);
      var i :| 0 <= i < |t| && SameKey(t[i], Blank(x, ApprovalPhase));
      assert t[i] in t && Own(cfg, t[i]);
    }
  }

  // --- The same rows as a query shows them ---

  lemma {:induction false} QueryIsSubset(t: seq<Entry>, workflowId: string)
    ensures forall r | r in Query(t, workflowId) :: r in t
  {
    if t != [] {
      QueryIsSubset(t[..|t| - 1], workflowId);
    }
  }

  lemma {:induction false} QueryIsBracketed(cfg: Config, run: Run, started: set<Execution>, t: seq<Entry>)
    requires Bracketed(cfg, run, started, t)
    ensures Bracketed(cfg, run, started, Query(t, cfg.workflowId))
  {
    hide EndRowTells;
    if t != [] {
      var n := |t| - 1;
      var q := Query(t[..n], cfg.workflowId);
      assert forall i | 0 <= i < n :: t[..n][i] == t[i] && t[..n][..i] == t[..i];
      QueryIsBracketed(cfg, run, started, t[..n]);
      EndRowInQuery(cfg, run, started, t[..n], t[n]);
      assert forall i | 0 <= i < |q| :: (q + [t[n]])[..i] == q[..i];
      assert (q + [t[n]])[..|q|] == q && q + [] == q;
    }
  }

  lemma EndRowInQuery(cfg: Config, run: Run, started: set<Execution>, before: seq<Entry>, e: Entry)
    requires EndRowTells(cfg, run, started, before, e)
    ensures EndRowTells(cfg, run, started, Query(before, cfg.workflowId), e)
  {
    hide Query;
    if Own(cfg, e) {
      QueryKeys(before, StartRow(e.execution, e.activityType, 0), cfg.workflowId);
    }
  }

  lemma {:induction false} QueryShowsApprovals(cfg: Config, ws: W.State, t: seq<Entry>)
    requires Approvals(cfg, ws, t)
    ensures Approvals(cfg, ws, Query(t, cfg.workflowId))
  {
    hide ApprovalRowTells;
    if t != [] {
      var n := |t| - 1;
      var q := Query(t[..n], cfg.workflowId);
      assert forall i | 0 <= i < n :: t[..n][i] == t[i] && t[..n][..i] == t[..i];
      QueryShowsApprovals(cfg, ws, t[..n]);
      ApprovalRowInQuery(cfg, ws, t[..n], t[n]);
      assert forall i | 0 <= i < |q| :: (q + [t[n]])[..i] == q[..i];
      assert (q + [t[n]])[..|q|] == q && q + [] == q;
    }
  }

  lemma ApprovalRowInQuery(cfg: Config, ws: W.State, before: seq<Entry>, e: Entry)
    requires ApprovalRowTells(cfg, ws, before, e)
    ensures ApprovalRowTells(cfg, ws, Query(before, cfg.workflowId), e)
  {
    hide Query, Detail, W.Fits;
    QueryIsSubset(before, cfg.workflowId);
  }

  lemma QueryHasRow(t: seq<Entry>, x: Execution, phase: RowPhase)
    ensures HasRow(Query(t, x.workflowId), x, phase) <==> HasRow(t, x, phase)
  {
    QueryKeys(t, Blank(x, phase), x.workflowId);
  }

  lemma {:induction false} QueryHasApproval(cfg: Config, t: seq<Entry>)
    requires HasApproval(cfg, t)
    ensures HasApproval(cfg, Query(t, cfg.workflowId))
  {
    var r :| r in t && Own(cfg, r) && r.phase.ApprovalPhase?;
    var n := |t| - 1;
    if r in t[..n] {
      QueryHasApproval(cfg, t[..n]);
      var q :| q in Query(t[..n], cfg.workflowId) && Own(cfg, q) && q.phase.ApprovalPhase?;
      assert q in Query(t, cfg.workflowId);
    } else {
      assert r == t[n];
      assert r in Query(t, cfg.workflowId);
    }
  }
}
