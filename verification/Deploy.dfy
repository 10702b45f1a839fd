/** One canary deploy as a step machine: the workflow, the attempts of its current activity, the shared cluster and the
    audit table, driven by whatever the environment does. */
module Deploy {
  import opened Types
  import opened Cluster
  import opened Activities
  import opened Audit
  import W = Workflow

  datatype Config = Config(input: CanaryInput, workflowId: string, runId: string)

  /** The current attempt: not begun, about to make its next call, or returned from the activity code. */
  datatype Stage = Idle | Working(next: nat, verdict: bool) | Returned(failed: bool, verdict: bool)

  /** attempt counts the attempts begun of the activity the workflow waits for; returned remembers what each execution
      of activity code returned. */
  datatype Run = Run(ws: W.State, attempt: nat, stage: Stage, returned: map<Execution, bool>)

  datatype World = World(cluster: Cluster.State, table: seq<Entry>)

  datatype St = St(run: Run, world: World)

  /** What reaches the workflow together with an activity result, or alone. */
  datatype Mail = Mail(signals: seq<ApprovalSignal>, timer: bool, cancel: bool)

  /** Begin: a worker takes the next attempt. Answer: the API server (or the audit database) deals with its next call.
      Return: the activity code returns; delivered tells whether the server hears of it. Crash: the attempt dies or
      times out. Wake: the workflow runs on signals, the timer or a cancellation. logged: the audit row is written. */
  datatype Event =
    | Begin(logged: bool, now: nat)
    | Answer(reply: Reply, ready: int, now: nat)
    | Return(logged: bool, delivered: bool, mail: Mail, now: nat)
    | Crash(mail: Mail)
    | Wake(mail: Mail)

  function MaximumAttempts(a: Activity): nat {
    match a
    case PolicyCheck => 4
    case HealthCheck => 2
    case RecordApproval(_, _) => 3
    case Alert(_, _) => 3
    case _ => 5
  }

  function CurrentExecution(cfg: Config, run: Run): Execution {
    Execution(cfg.workflowId, cfg.runId, |run.ws.commands|, run.attempt)
  }

  /** The stage before call k. */
  function StageAt(calls: seq<Call>, k: nat, verdict: bool): Stage {
    if k < |calls| then Working(k, verdict) else Returned(false, verdict)
  }

  function Enter(cfg: Config, run: Run, stage: Stage): Run {
    run.(stage := stage,
         returned := if stage.Returned? then run.returned[CurrentExecution(cfg, run) := stage.failed] else run.returned)
  }

  /** A workflow task. When it ends the wait for the current activity, what is left of that activity's attempts is void.
      */
  function Tell(cfg: Config, run: Run, done: Option<Report>, mail: Mail): Run {
    var ws := W.OnTask(cfg.input, run.ws, W.Task(done, mail.signals, mail.timer, mail.cancel));
    if ws.pc == run.ws.pc then run.(ws := ws) else Run(ws, 0, Idle, run.returned)
  }

  /** The attempt failed: retry, or report the failure once the attempts are used up. */
  function AttemptFailed(cfg: Config, run: Run, a: Activity, mail: Mail): Run {
    if run.attempt < MaximumAttempts(a) then run.(stage := Idle) else Tell(cfg, run, Some(Failed), mail)
  }

  /** Events that do not fit the current stage do nothing. */
  function Step(cfg: Config, st: St, ev: Event): St {
    var run, world := st.run, st.world;
    match W.Waiting(run.ws)
    case None => if ev.Wake? then St(Tell(cfg, run, None, ev.mail), world) else st
    case Some(a) => StepActivity(cfg, run, world, a, ev)
  }

  function StepActivity(cfg: Config, run: Run, world: World, a: Activity, ev: Event): St {
    match ev
    case Begin(logged, now) => if run.stage.Idle? then BeginAttempt(cfg, run, world, a, logged, now) else St(run, world)
    case Answer(reply, ready, now) =>
      if run.stage.Working? && run.stage.next < |Calls(cfg.input, a)|
      then MakeCall(cfg, run, world, a, reply, ready, now) else St(run, world)
    case Return(logged, delivered, mail, now) =>
      if run.stage.Returned? then ReturnAttempt(cfg, run, world, a, logged, delivered, mail, now) else St(run, world)
    case Crash(mail) => if run.stage.Idle? then St(run, world) else St(AttemptFailed(cfg, run, a, mail), world)
    case Wake(mail) => St(Tell(cfg, run, None, mail), world)
  }

  function BeginAttempt(cfg: Config, run: Run, world: World, a: Activity, logged: bool, now: nat): St {
    var begun := run.(attempt := run.attempt + 1);
    var row := StartRow(CurrentExecution(cfg, begun), TypeOf(a), now);
    St(Enter(cfg, begun, StageAt(Calls(cfg.input, a), 0, false)), world.(table := InsertIf(logged, world.table, row)))
  }

  function MakeCall(cfg: Config, run: Run, world: World, a: Activity, reply: Reply, ready: int, now: nat): St
    requires run.stage.Working? && run.stage.next < |Calls(cfg.input, a)|
  {
    var call := Calls(cfg.input, a)[run.stage.next];
    var verdict := VerdictAfter(world.cluster, call, reply, ready, run.stage.verdict);
    var stage := if Succeeds(world.cluster, call, reply) then StageAt(Calls(cfg.input, a), run.stage.next + 1, verdict)
                 else Returned(true, run.stage.verdict);
    St(Enter(cfg, run, stage),
       World(Do(world.cluster, call, reply), Appended(cfg, run, world.table, a, call, reply, now)))
  }

  /** RecordApproval's one call writes the approval row. */
  function Appended(cfg: Config, run: Run, table: seq<Entry>, a: Activity, call: Call, reply: Reply,
                    now: nat): seq<Entry> {
    if call.Append? && a.RecordApproval?
    then InsertIf(reply.Ok? || reply.WriteLost?, table,
                  ApprovalRow(CurrentExecution(cfg, run), a.actor, a.decision, now))
    else table
  }

  function ReturnAttempt(cfg: Config, run: Run, world: World, a: Activity, logged: bool, delivered: bool, mail: Mail,
                         now: nat): St
    requires run.stage.Returned?
  {
    var row := EndRow(CurrentExecution(cfg, run), TypeOf(a), run.stage.failed, now);
    var run' := if delivered && !run.stage.failed then Tell(cfg, run, Some(Completed(run.stage.verdict)), mail)
                else AttemptFailed(cfg, run, a, mail);
    St(run', world.(table := InsertIf(logged, world.table, row)))
  }

  function Initial(cfg: Config, world: World): St {
    St(Run(W.Start(cfg.input), 0, Idle, map[]), world)
  }

  function Play(cfg: Config, world: World, evs: seq<Event>): St {
    if evs == [] then Initial(cfg, world)
    else Step(cfg, Play(cfg, world, evs[..|evs| - 1]), evs[|evs| - 1])
  }

  // --- The machine and the history view agree ---

  /** The workflow task that an event gives rise to, if any. */
  function TaskOf(cfg: Config, st: St, ev: Event): seq<W.Task> {
    var run := st.run;
    match W.Waiting(run.ws)
    case None => if ev.Wake? then [MailTask(None, ev.mail)] else []
    case Some(a) =>
      match ev
      case Wake(mail) => [MailTask(None, mail)]
      case Crash(mail) =>
        if !run.stage.Idle? && run.attempt >= MaximumAttempts(a) then [MailTask(Some(Failed), mail)] else []
      case Return(_, delivered, mail, _) =>
        if !run.stage.Returned? then []
        else if delivered && !run.stage.failed then [MailTask(Some(Completed(run.stage.verdict)), mail)]
        else if run.attempt >= MaximumAttempts(a) then [MailTask(Some(Failed), mail)]
        else []
      case _ => []
  }

  function MailTask(done: Option<Report>, mail: Mail): W.Task { W.Task(done, mail.signals, mail.timer, mail.cancel) }

  function Tasks(cfg: Config, world: World, evs: seq<Event>): seq<W.Task> {
    if evs == [] then []
    else
      var n := |evs| - 1;
      Tasks(cfg, world, evs[..n]) + TaskOf(cfg, Play(cfg, world, evs[..n]), evs[n])
  }

  lemma StepIsTask(cfg: Config, st: St, ev: Event)
    ensures var ts, ws' := TaskOf(cfg, st, ev), Step(cfg, st, ev).run.ws;
            if ts == [] then ws' == st.run.ws else |ts| == 1 && ws' == W.OnTask(cfg.input, st.run.ws, ts[0])
  {
    hide W.OnTask, Calls, W.Waiting;
  }

  /** The workflow state of a run is the replay of the workflow tasks that it gave rise to. */
  lemma {:induction false} RunReplays(cfg: Config, world: World, evs: seq<Event>)
    ensures Play(cfg, world, evs).run.ws == W.Replay(cfg.input, Tasks(cfg, world, evs))
  {
    hide W.OnTask, Step, TaskOf;
    if evs != [] {
      var n := |evs| - 1;
      RunReplays(cfg, world, evs[..n]);
      var st, h := Play(cfg, world, evs[..n]), Tasks(cfg, world, evs[..n]);
      StepIsTask(cfg, st, evs[n]);
      var ts := TaskOf(cfg, st, evs[n]);
      if ts != [] {
        assert (h + ts)[..|h + ts| - 1] == h;
      } else {
        assert h + ts == h;
      }
    }
  }

  lemma RunInv(cfg: Config, world: World, evs: seq<Event>)
    ensures W.Inv(cfg.input, Play(cfg, world, evs).run.ws)
  {
    hide W.Inv, Play, Tasks;
    RunReplays(cfg, world, evs);
    W.Reachable(cfg.input, Tasks(cfg, world, evs));
  }

  // --- An undisturbed attempt is the activity code's attempt ---

  /** The events of an attempt whose calls get these replies and see these ready counts, from call k on. */
  function AttemptEvents(replies: seq<Reply>, readies: seq<int>, now: nat): seq<Event>
    requires |readies| == |replies|
  {
    if replies == [] then [] else [Answer(replies[0], readies[0], now)] + AttemptEvents(replies[1..], readies[1..], now)
  }

  function PlayFrom(cfg: Config, st: St, evs: seq<Event>): St
    decreases |evs|
  {
    if evs == [] then st else PlayFrom(cfg, Step(cfg, st, evs[0]), evs[1..])
  }

  /** The answer of the audit database, as the writer of a row sees it. */
  function FateOf(r: Reply): Fate { if r.Ok? then Written else if r.WriteLost? then Lost else Refused }

  /** The table with the activity's own row, if it has one. */
  function OwnRow(x: Execution, a: Activity, t: seq<Entry>, r: Reply, now: nat): seq<Entry> {
    if a.RecordApproval? then InsertIf(!FateOf(r).Refused?, t, ApprovalRow(x, a.actor, a.decision, now)) else t
  }

  /** A running attempt changes the cluster and the table exactly as the activity code does on the same replies, returns
      when it does, and reports the same verdict. */
  lemma {:induction false} AttemptAgrees(cfg: Config, st: St, a: Activity, replies: seq<Reply>, readies: seq<int>,
                                         now: nat)
    requires W.Waiting(st.run.ws) == Some(a) && st.run.stage.Working?
    requires st.run.stage.next < |Calls(cfg.input, a)| <= st.run.stage.next + |replies| && |readies| == |replies|
    ensures var rest := Calls(cfg.input, a)[st.run.stage.next..];
            var o := Attempt(st.world.cluster, rest, replies);
            var st' := PlayFrom(cfg, st, AttemptEvents(replies, readies, now));
            && st'.world == World(o.cluster, OwnRow(CurrentExecution(cfg, st.run), a, st.world.table, replies[0], now))
            && st'.run.ws == st.run.ws && st'.run.attempt == st.run.attempt
            && st'.run.stage.Returned? && st'.run.stage.failed == !o.ok
            && (o.ok ==>
                  st'.run.stage.verdict == Verdict(st.world.cluster, rest, replies, readies, st.run.stage.verdict))
            && st'.run.returned == st.run.returned[CurrentExecution(cfg, st.run) := !o.ok]
    decreases |Calls(cfg.input, a)| - st.run.stage.next
  {
    hide W.Waiting, Detail;
    var calls, k := Calls(cfg.input, a), st.run.stage.next;
    OneAppend(cfg.input, a);
    hide Calls, InsertIf;
    var evs := AttemptEvents(replies, readies, now);
    assert evs[1..] == AttemptEvents(replies[1..], readies[1..], now);
    assert calls[k..][0] == calls[k] && calls[k..][1..] == calls[k + 1..];
    var next := Step(cfg, st, evs[0]);
    if next.run.stage.Working? {
      AttemptAgrees(cfg, next, a, replies[1..], readies[1..], now);
    } else {
      AnswersIgnored(cfg, next, replies[1..], readies[1..], now);
    }
  }

  /** Only RecordApproval appends, and does nothing else. */
  lemma OneAppend(input: CanaryInput, a: Activity)
    ensures a.RecordApproval? ==> Calls(input, a) == [Append]
    ensures !a.RecordApproval? ==> forall k | 0 <= k < |Calls(input, a)| :: !Calls(input, a)[k].Append?
  {}

  lemma {:induction false} AnswersIgnored(cfg: Config, st: St, replies: seq<Reply>, readies: seq<int>, now: nat)
    requires st.run.stage.Returned? && |readies| == |replies|
    ensures PlayFrom(cfg, st, AttemptEvents(replies, readies, now)) == st
  {
    hide W.Waiting, Calls;
    if replies != [] {
      var evs := AttemptEvents(replies, readies, now);
      assert evs[1..] == AttemptEvents(replies[1..], readies[1..], now);
      AnswersIgnored(cfg, st, replies[1..], readies[1..], now);
    }
  }

  lemma {:induction false} PlayFromAppend(cfg: Config, st: St, a: seq<Event>, b: seq<Event>)
    ensures PlayFrom(cfg, st, a + b) == PlayFrom(cfg, PlayFrom(cfg, st, a), b)
    decreases |a|
  {
    hide Step;
    if a == [] {
      assert a + b == b;
    } else {
      assert (a + b)[1..] == a[1..] + b;
      PlayFromAppend(cfg, Step(cfg, st, a[0]), a[1..], b);
    }
  }

  lemma {:induction false} PlayIsPlayFrom(cfg: Config, world: World, evs: seq<Event>)
    ensures Play(cfg, world, evs) == PlayFrom(cfg, Initial(cfg, world), evs)
  {
    hide Step, Initial;
    if evs != [] {
      var n := |evs| - 1;
      PlayIsPlayFrom(cfg, world, evs[..n]);
      PlayFromAppend(cfg, Initial(cfg, world), evs[..n], [evs[n]]);
      assert evs == evs[..n] + [evs[n]] && [evs[n]][1..] == [];
    }
  }

  /** An attempt from its beginning until its code returns. */
  lemma AttemptStarts(cfg: Config, st: St, a: Activity, replies: seq<Reply>, readies: seq<int>, logged: bool,
                      begin: nat, now: nat)
    requires W.Waiting(st.run.ws) == Some(a) && st.run.stage.Idle?
    requires |Calls(cfg.input, a)| <= |replies| == |readies|
    ensures var x := CurrentExecution(cfg, st.run.(attempt := st.run.attempt + 1));
            var o := Attempt(st.world.cluster, Calls(cfg.input, a), replies);
            var st' := PlayFrom(cfg, st, [Begin(logged, begin)] + AttemptEvents(replies, readies, now));
            && st'.world.cluster == o.cluster
            && st'.world.table == OwnRow(x, a, InsertIf(logged, st.world.table, StartRow(x, TypeOf(a), begin)),
                                         if replies == [] then Ok else replies[0], now)
            && st'.run.ws == st.run.ws && st'.run.attempt == st.run.attempt + 1
            && st'.run.stage.Returned? && st'.run.stage.failed == !o.ok
            && (o.ok ==>
                  st'.run.stage.verdict == Verdict(st.world.cluster, Calls(cfg.input, a), replies, readies, false))
            && st'.run.returned == st.run.returned[x := !o.ok]
  {
    hide W.Waiting, InsertIf, TypeOf, Detail;
    OneAppend(cfg.input, a);
    hide Calls;
    var evs := AttemptEvents(replies, readies, now);
    var begun := Step(cfg, st, Begin(logged, begin));
    PlayFromAppend(cfg, st, [Begin(logged, begin)], evs);
    assert PlayFrom(cfg, st, [Begin(logged, begin)]) == begun;
    if Calls(cfg.input, a) == [] {
      AnswersIgnored(cfg, begun, replies, readies, now);
    } else {
      AttemptAgrees(cfg, begun, a, replies, readies, now);
      assert Calls(cfg.input, a)[0..] == Calls(cfg.input, a);
    }
  }

  /** A whole attempt of any activity leaves the cluster as its code does, and the audit table as the interceptor and
      the code do, whatever becomes of the calls and of the three writes; and it is remembered as failed exactly when
      the interceptor sees an error. */
  lemma ExecutionAgrees(cfg: Config, st: St, a: Activity, replies: seq<Reply>, readies: seq<int>,
                        start: Fate, end: Fate, delivered: bool, mail: Mail, startNow: nat, ownNow: nat, endNow: nat)
    requires W.Waiting(st.run.ws) == Some(a) && st.run.stage.Idle?
    requires |Calls(cfg.input, a)| <= |replies| == |readies|
    ensures var x := CurrentExecution(cfg, st.run.(attempt := st.run.attempt + 1));
            var o := Attempt(st.world.cluster, Calls(cfg.input, a), replies);
            var own := FateOf(if replies == [] then Ok else replies[0]);
            var evs := [Begin(!start.Refused?, startNow)] + AttemptEvents(replies, readies, ownNow) +
                       [Return(!end.Refused?, delivered, mail, endNow)];
            var st' := PlayFrom(cfg, st, evs);
            && st'.world.cluster == o.cluster
            && st'.world.table == ExecutionRows(st.world.table, x, a, !o.ok, start, own, end, startNow, ownNow, endNow)
            && st'.run.returned == st.run.returned[x := Fails(a, !o.ok, own)]
  {
    hide W.Waiting, Calls, InsertIf, TypeOf, Detail, W.OnTask, MaximumAttempts, AttemptEvents, Attempt;
    AttemptStarts(cfg, st, a, replies, readies, !start.Refused?, startNow, ownNow);
    ApprovalFails(cfg.input, a, st.world.cluster, replies);
    var first := [Begin(!start.Refused?, startNow)] + AttemptEvents(replies, readies, ownNow);
    var last := Return(!end.Refused?, delivered, mail, endNow);
    PlayFromAppend(cfg, st, first, [last]);
    var mid := PlayFrom(cfg, st, first);
    assert PlayFrom(cfg, mid, [last]) == Step(cfg, mid, last) by { hide Step; }
  }

  lemma ApprovalFails(input: CanaryInput, a: Activity, c: Cluster.State, replies: seq<Reply>)
    requires |Calls(input, a)| <= |replies|
    ensures a.RecordApproval? ==>
              replies != [] && (Attempt(c, Calls(input, a), replies).ok <==> FateOf(replies[0]).Written?)
  {
    OneAppend(input, a);
  }
}
