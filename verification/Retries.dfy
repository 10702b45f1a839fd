/** Every activity's retries in numbers, over every run: how often it is tried, how long an attempt may last, how long
    the next one waits; and what an attempt of the policy check and of the bake leads to. */
module Retries {
  import opened Types
  import opened Cluster
  import opened Activities
  import opened Audit
  import opened Deploy
  import opened Timing
  import W = Workflow

  // --- How often ---

  lemma {:induction false} RunInBudget(cfg: Config, world: World, evs: seq<Event>)
    ensures var run := Play(cfg, world, evs).run; W.Over(run.ws.pc) || InBudget(cfg.input, run)
  {
    hide Step, Initial, W.Inv, InBudget;
    if evs == [] {
      StartInBudget(cfg, world);
    } else {
      var n := |evs| - 1;
      var st := Play(cfg, world, evs[..n]);
      RunInBudget(cfg, world, evs[..n]);
      RunInv(cfg, world, evs[..n]);
      if W.Over(st.run.ws.pc) {
        OverIsForever(cfg, st, evs[n]);
      } else {
        StepFits(cfg, st, evs[n], 0.0);
      }
    }
  }

  lemma StartInBudget(cfg: Config, world: World)
    ensures InBudget(cfg.input, Initial(cfg, world).run)
  {}

  /** An attempt is over: it died, timed out, or returned. */
  predicate Ends(st: St, last: Event) {
    (last.Crash? && !st.run.stage.Idle?) || (last.Return? && st.run.stage.Returned?)
  }

  /** The attempt is over and has been heard to succeed. */
  predicate Succeeded(st: St, last: Event) {
    last.Return? && last.delivered && st.run.stage.Returned? && !st.run.stage.failed
  }

  /** The policy check is tried up to four times, the bake twice, a record or an alert three times, all else five times.
      An attempt that is heard to succeed is its activity's result. One that fails, dies or is not heard of leads to
      another until they are used up, and then to a failure. */
  lemma FailuresAreCounted(cfg: Config, world: World, evs: seq<Event>, last: Event)
    ensures var st, run' := Play(cfg, world, evs), Play(cfg, world, evs + [last]).run;
            var run, told := st.run, Tasks(cfg, world, evs + [last]);
            W.Waiting(run.ws).Some? && Ends(st, last) ==>
              var a, mail := W.Waiting(run.ws).value, last.mail;
              var tries := match a
                           case PolicyCheck => 4
                           case HealthCheck => 2
                           case RecordApproval(_, _) => 3
                           case Alert(_, _) => 3
                           case _ => 5;
              && 1 <= run.attempt <= tries
              && if !Succeeded(st, last) && run.attempt < tries
                 then run' == run.(stage := Idle) && told == Tasks(cfg, world, evs)
                 else
                   var report := if Succeeded(st, last) then Completed(run.stage.verdict) else Failed;
                   && told == Tasks(cfg, world, evs) + [W.Task(Some(report), mail.signals, mail.timer, mail.cancel)]
                   && run'.ws.answers == run.ws.answers + [W.Answer(a, report)]
  {
    hide Play, Tasks, W.OnTask, Calls;
    var st := Play(cfg, world, evs);
    if W.Waiting(st.run.ws).Some? && Ends(st, last) {
      RunInBudget(cfg, world, evs);
      PlayAppend(cfg, world, evs, last);
      FailsOrRetries(cfg, st, W.Waiting(st.run.ws).value, last);
      assert Tasks(cfg, world, evs) + [] == Tasks(cfg, world, evs);
    }
  }

  /** A signal, the timer or a cancellation that comes without a result reaches the workflow at any time. */
  lemma {:induction false} MailArrives(cfg: Config, world: World, evs: seq<Event>, mail: Mail)
    ensures Tasks(cfg, world, evs + [Wake(mail)]) ==
            Tasks(cfg, world, evs) + [W.Task(None, mail.signals, mail.timer, mail.cancel)]
  {
    hide Tasks;
    PlayAppend(cfg, world, evs, Wake(mail));
  }

  lemma PlayAppend(cfg: Config, world: World, evs: seq<Event>, last: Event)
    ensures Play(cfg, world, evs + [last]) == Step(cfg, Play(cfg, world, evs), last)
    ensures Tasks(cfg, world, evs + [last]) == Tasks(cfg, world, evs) + TaskOf(cfg, Play(cfg, world, evs), last)
  {
    hide Step, TaskOf;
    assert (evs + [last])[..|evs|] == evs;
  }

  lemma FailsOrRetries(cfg: Config, st: St, a: Activity, last: Event)
    requires W.Waiting(st.run.ws) == Some(a) && Ends(st, last)
    ensures var run, run' := st.run, Step(cfg, st, last).run;
            if Succeeded(st, last) then run'.ws.answers == run.ws.answers + [W.Answer(a, Completed(run.stage.verdict))]
            else if run.attempt < MaximumAttempts(a) then run' == run.(stage := Idle)
            else run'.ws.answers == run.ws.answers + [W.Answer(a, Failed)]
  {
    hide W.OnTask, W.Waiting, W.Resume, MaximumAttempts;
    var run := st.run;
    W.WaitingTask(cfg.input, run.ws, MailTask(Some(Failed), last.mail));
    if Succeeded(st, last) {
      W.WaitingTask(cfg.input, run.ws, MailTask(Some(Completed(run.stage.verdict)), last.mail));
    }
  }

  // --- How long ---

  /** An attempt is cut off after 30 seconds in the policy check, 30 more than the bake in the bake, 15 in a record or
      an alert, and 60 in all else. The next one waits 1, 2 and 4 seconds in the policy check, 2 in the bake, 1 and 2 in
      a record or an alert, and 2, 4, 8 and 16 in all else. The first attempt of an activity does not wait, and the gate
      waits for the approval timeout. Nothing else moves a deadline. */
  lemma WaitsInSeconds(cfg: Config, world: World, ms: seq<Moment>, ev: Event)
    ensures var t, t' := PlayTimed(cfg, world, ms), PlayTimed(cfg, world, ms + [Happen(ev)]);
            var run, run', input, timeout := t.st.run, t'.st.run, cfg.input, cfg.input.approvalTimeout;
            && t'.clock == t.clock
            && if run'.ws.pc != run.ws.pc then
                 t'.left == if run'.ws.pc.AtGate? && timeout > 0 then timeout as real else 0.0
               else match W.Waiting(run'.ws)
                 case None => t'.left == t.left
                 case Some(a) =>
                   if run.stage.Idle? && !run'.stage.Idle? then
                     t'.left == match a
                                case PolicyCheck => 30.0
                                case HealthCheck =>
                                  if input.bakeSeconds < -30 then 0.0 else (input.bakeSeconds + 30) as real
                                case RecordApproval(_, _) => 15.0
                                case Alert(_, _) => 15.0
                                case _ => 60.0
                   else if !run.stage.Idle? && run'.stage.Idle? then
                     var k := run'.attempt;
                     match a
                     case PolicyCheck => 1 <= k <= 3 && t'.left == [1.0, 2.0, 4.0][k - 1]
                     case HealthCheck => k == 1 && t'.left == 2.0
                     case RecordApproval(_, _) => 1 <= k <= 2 && t'.left == [1.0, 2.0][k - 1]
                     case Alert(_, _) => 1 <= k <= 2 && t'.left == [1.0, 2.0][k - 1]
                     case _ => 1 <= k <= 4 && t'.left == [2.0, 4.0, 8.0, 16.0][k - 1]
                   else t'.left == t.left
  {
    hide PlayTimed, Step, Backoff, W.Waiting;
    var t, t' := PlayTimed(cfg, world, ms), PlayTimed(cfg, world, ms + [Happen(ev)]);
    TimedAppend(cfg, world, ms, Happen(ev));
    var run, run' := t.st.run, t'.st.run;
    if run'.ws.pc == run.ws.pc && W.Waiting(run'.ws).Some? && !run.stage.Idle? && run'.stage.Idle? {
      RetryWait(cfg, world, ms, ev, W.Waiting(run'.ws).value);
    }
  }

  lemma TimedAppend(cfg: Config, world: World, ms: seq<Moment>, m: Moment)
    ensures PlayTimed(cfg, world, ms + [m]) == TimedStep(cfg, PlayTimed(cfg, world, ms), m)
  {
    hide TimedStep;
    assert (ms + [m])[..|ms|] == ms;
  }

  lemma RetryWait(cfg: Config, world: World, ms: seq<Moment>, ev: Event, a: Activity)
    requires var run, run' := PlayTimed(cfg, world, ms).st.run, PlayTimed(cfg, world, ms + [Happen(ev)]).st.run;
             run'.ws.pc == run.ws.pc && W.Waiting(run'.ws) == Some(a) && !run.stage.Idle? && run'.stage.Idle?
    ensures var k := PlayTimed(cfg, world, ms + [Happen(ev)]).st.run.attempt;
            && 1 <= k < MaximumAttempts(a)
            && Backoff(OptionsOf(cfg.input, a), k) == match a
                                                      case PolicyCheck => [1, 2, 4][k - 1]
                                                      case HealthCheck => 2
                                                      case RecordApproval(_, _) => [1, 2][k - 1]
                                                      case Alert(_, _) => [1, 2][k - 1]
                                                      case _ => [2, 4, 8, 16][k - 1]
  {
    hide PlayTimed, Step, Power2, InBudget, W.Inv, W.Waiting, Remaining;
    var t, t' := PlayTimed(cfg, world, ms), PlayTimed(cfg, world, ms + [Happen(ev)]);
    RunIsOnTime(cfg, world, ms);
    RunIsOnTime(cfg, world, ms + [Happen(ev)]);
    TimedAppend(cfg, world, ms, Happen(ev));
    KeepsTrying(cfg, t.st, ev, a);
    RetriesLeft(cfg.input, t.st.run, t'.st.run, a);
    PowersOf2();
  }

  lemma RetriesLeft(input: CanaryInput, run: Run, run': Run, a: Activity)
    requires InBudget(input, run) && InBudget(input, run') && run'.attempt == run.attempt
    requires W.Waiting(run.ws).Some? && W.Waiting(run'.ws) == Some(a) && !run.stage.Idle? && run'.stage.Idle?
    ensures 1 <= run'.attempt < MaximumAttempts(a)
  {
    hide MaximumAttempts;
  }

  lemma KeepsTrying(cfg: Config, st: St, ev: Event, a: Activity)
    requires var run, run' := st.run, Step(cfg, st, ev).run;
             run'.ws.pc == run.ws.pc && W.Waiting(run'.ws) == Some(a) && !run.stage.Idle? && run'.stage.Idle?
    ensures W.Waiting(st.run.ws).Some? && Step(cfg, st, ev).run.attempt == st.run.attempt && !W.Over(st.run.ws.pc)
  {
    hide W.OnTask, Calls, MaximumAttempts;
  }

  // --- What an attempt leads to ---

  /** No signal, no timer, no cancellation. */
  function NoMail(): Mail { Mail([], false, false) }

  lemma PolicyReturns(cfg: Config, st: St, ended: bool, now: nat)
    requires st.run.ws.pc.AtPolicy? && st.run.stage.Returned? && !st.run.ws.cancelled
    ensures var st', ws := Step(cfg, st, Return(ended, true, NoMail(), now)), st.run.ws;
            && st'.world.cluster == st.world.cluster
            && if !st.run.stage.failed then
                 && st'.run.ws.answers == ws.answers + [W.Answer(PolicyCheck, Completed(st.run.stage.verdict))]
                 && if st.run.stage.verdict then st'.run.ws.pc.AtScale?
                    else st'.run.ws.pc.AtAlert? && st'.run.ws.res == ws.res.(status := PolicyRejected,
                                                                             reason := PolicyDenied)
               else if st.run.attempt < 4 then st'.run == st.run.(stage := Idle)
               else st'.run.ws.pc.Broken? && st'.run.ws.answers == ws.answers + [W.Answer(PolicyCheck, Failed)]
  {
    hide InsertIf, TypeOf;
  }

  lemma OneAnswer(reply: Reply, ready: int, now: nat)
    ensures AttemptEvents([reply], [ready], now) == [Answer(reply, ready, now)]
  {
    assert [reply][1..] == [] && [ready][1..] == [];
  }

  /** An attempt of the policy check: its dry run is answered, and the server hears of its return. Admission leads on to
      the scale-up. A denial, which is a status that is none of the infrastructure's, ends in a rejection. Any other
      error, a missing Deployment included, is a failed attempt: the check is tried again, and the fourth fails the
      deploy. */
  lemma PolicyAttempt(cfg: Config, st: St, logged: bool, reply: Reply, ready: int, ended: bool, now: nat)
    requires st.run.ws.pc.AtPolicy? && st.run.stage.Idle? && !st.run.ws.cancelled
    ensures var input, ws, c := cfg.input, st.run.ws, st.world.cluster;
            var evs := [Begin(logged, now), Answer(reply, ready, now), Return(ended, true, NoMail(), now)];
            var st' := PlayFrom(cfg, st, evs);
            var ws' := st'.run.ws;
            && st'.world.cluster == c
            && if !input.simulatePolicyReject && input.service + "-canary" in c && reply.Ok? then
                 ws'.pc.AtScale? && ws'.answers == ws.answers + [W.Answer(PolicyCheck, Completed(true))]
               else if input.simulatePolicyReject || (input.service + "-canary" in c && reply.err.OtherStatus?) then
                 && ws'.pc.AtAlert? && ws'.res == ws.res.(status := PolicyRejected, reason := PolicyDenied)
                 && ws'.answers == ws.answers + [W.Answer(PolicyCheck, Completed(false))]
               else if st.run.attempt < 3 then
                 ws' == ws && st'.run.stage.Idle? && st'.run.attempt == st.run.attempt + 1
               else ws'.pc.Broken? && ws'.answers == ws.answers + [W.Answer(PolicyCheck, Failed)]
  {
    hide Step, Verdict, Attempt, Calls, PlayFrom, AttemptEvents, TypeOf, InsertIf;
    var first, last := [Begin(logged, now), Answer(reply, ready, now)], Return(ended, true, NoMail(), now);
    OneAnswer(reply, ready, now);
    assert |Calls(cfg.input, PolicyCheck)| <= 1 by { OneDryRun(cfg.input); }
    AttemptStarts(cfg, st, PolicyCheck, [reply], [ready], logged, now, now);
    PolicyIsThreeWay(cfg.input, st.world.cluster, reply, ready);
    assert first == [Begin(logged, now)] + AttemptEvents([reply], [ready], now);
    PolicyReturns(cfg, PlayFrom(cfg, st, first), ended, now);
    PlayLast(cfg, st, first, last);
    assert first + [last] == [Begin(logged, now), Answer(reply, ready, now), last];
  }

  lemma OneDryRun(input: CanaryInput)
    ensures |Calls(input, PolicyCheck)| <= 1
  {}

  lemma PlayLast(cfg: Config, st: St, first: seq<Event>, last: Event)
    ensures PlayFrom(cfg, st, first + [last]) == Step(cfg, PlayFrom(cfg, st, first), last)
  {
    hide Step;
    PlayFromAppend(cfg, st, first, [last]);
    assert [last][1..] == [];
  }

  lemma BakeReturns(cfg: Config, st: St, ended: bool, now: nat)
    requires st.run.ws.pc.AtHealth? && st.run.stage.Returned? && !st.run.ws.cancelled
    ensures var st', ws := Step(cfg, st, Return(ended, true, NoMail(), now)), st.run.ws;
            && st'.world.cluster == st.world.cluster
            && if !st.run.stage.failed then
                 if st.run.stage.verdict then st'.run.ws.pc.AtShift?
                 else
                   W.Disconnected(st'.run.ws.pc) && st'.run.ws.res == ws.res.(status := RolledBack, reason := Unhealthy)
               else if st.run.attempt < 2 then st'.run == st.run.(stage := Idle)
               else
                 W.Disconnected(st'.run.ws.pc) && st'.run.ws.res == ws.res.(status := RolledBack, reason := HealthError)
  {
    hide InsertIf, TypeOf, W.UndoFrom, W.Continues;
  }

  /** An attempt of the bake until its code returns. */
  lemma BakeRuns(cfg: Config, st: St, logged: bool, replies: seq<Reply>, readies: seq<int>, now: nat)
    requires st.run.ws.pc.AtHealth? && st.run.stage.Idle?
    requires cfg.input.bakeSeconds <= |replies| == |readies|
    ensures var mid := PlayFrom(cfg, st, [Begin(logged, now)] + AttemptEvents(replies, readies, now));
            && mid.world.cluster == st.world.cluster && mid.run.ws == st.run.ws
            && mid.run.attempt == st.run.attempt + 1 && mid.run.stage.Returned?
            && (!mid.run.stage.failed <==> Polled(cfg.input, st.world.cluster, replies))
            && (!mid.run.stage.failed ==>
                  (mid.run.stage.verdict <==> SeenHealthy(cfg.input, st.world.cluster, readies)))
  {
    hide Step, Verdict, Attempt, Calls, PlayFrom, AttemptEvents, TypeOf, InsertIf;
    BakeIsAttempt(cfg.input, st.world.cluster, replies, readies);
    AttemptStarts(cfg, st, HealthCheck, replies, readies, logged, now, now);
  }

  /** Every second of the bake got a good answer. */
  predicate Polled(input: CanaryInput, c: Cluster.State, replies: seq<Reply>)
    requires input.bakeSeconds <= |replies|
  {
    && (forall k | 0 <= k < input.bakeSeconds :: replies[k].Ok?)
    && (input.bakeSeconds <= 0 || input.simulateHealthFail || input.service + "-canary" in c)
  }

  /** There was a poll, and the last one saw some replicas wanted and all of them ready. */
  predicate SeenHealthy(input: CanaryInput, c: Cluster.State, readies: seq<int>)
    requires input.bakeSeconds <= |readies|
  {
    var n, canary := input.bakeSeconds, input.service + "-canary";
    !input.simulateHealthFail && n > 0 && canary in c && c[canary].replicas != 0 && readies[n - 1] >= c[canary].replicas
  }

  /** An attempt of the bake: its polls are answered, and the server hears of its return. It takes one answer for each
      second, all good, for a verdict. The last one's sample then decides between the shift and a rollback. Anything
      else is a failed attempt: there is a second one, and then a rollback. */
  lemma BakeAttempt(cfg: Config, st: St, logged: bool, replies: seq<Reply>, readies: seq<int>, ended: bool, now: nat)
    requires st.run.ws.pc.AtHealth? && st.run.stage.Idle? && !st.run.ws.cancelled
    requires cfg.input.bakeSeconds <= |replies| == |readies|
    ensures var input, ws, c := cfg.input, st.run.ws, st.world.cluster;
            var evs := [Begin(logged, now)] + AttemptEvents(replies, readies, now) +
                       [Return(ended, true, NoMail(), now)];
            var st' := PlayFrom(cfg, st, evs);
            var ws' := st'.run.ws;
            && st'.world.cluster == c
            && if Polled(input, c, replies) then
                 if SeenHealthy(input, c, readies) then ws'.pc.AtShift?
                 else W.Disconnected(ws'.pc) && ws'.res == ws.res.(status := RolledBack, reason := Unhealthy)
               else if st.run.attempt == 0 then ws' == ws && st'.run.stage.Idle? && st'.run.attempt == 1
               else W.Disconnected(ws'.pc) && ws'.res == ws.res.(status := RolledBack, reason := HealthError)
  {
    hide Step, PlayFrom, AttemptEvents, W.Disconnected, Polled, SeenHealthy;
    var first := [Begin(logged, now)] + AttemptEvents(replies, readies, now);
    BakeRuns(cfg, st, logged, replies, readies, now);
    BakeReturns(cfg, PlayFrom(cfg, st, first), ended, now);
    PlayLast(cfg, st, first, Return(ended, true, NoMail(), now));
  }
}
