/** What the result of a deploy says about the cluster, from any starting cluster. */
module Outcomes {
  import opened Types
  import opened Cluster
  import opened Activities
  import opened Deploy
  import opened DeployLaws
  import W = Workflow
  import Laws = WorkflowLaws
  import S = Safety

  /** A bake can only come out healthy if it polls and there is something to poll. */
  predicate CanBake(input: CanaryInput) {
    input.bakeSeconds >= 1 && ToInt32(input.canaryReplicas) != 0 && !input.simulateHealthFail
  }

  predicate CanaryScaled(input: CanaryInput, c: Cluster.State) {
    CanaryName(input.service) in c && c[CanaryName(input.service)].replicas == ToInt32(input.canaryReplicas)
  }

  /** The running attempt would report a true verdict. */
  predicate Positive(stage: Stage) {
    match stage
    case Idle => false
    case Working(_, verdict) => verdict
    case Returned(failed, verdict) => !failed && verdict
  }

  predicate Telling(cfg: Config, c0: Cluster.State, st: St) {
    var input, ws, c := cfg.input, st.run.ws, st.world.cluster;
    && (ws.pc.AtPolicy? || ws.pc.Broken? || ws.res.status.PolicyRejected? ==> c == c0)
    && (ws.res.status.Promoted? ==> AllHold(c, Calls(input, Promote), 3))
    && (ws.pc.AtHealth? ==> CanaryScaled(input, c))
    && (ws.pc.AtHealth? && Positive(st.run.stage) ==> CanBake(input))
    && (!CanBake(input) ==>
          && !(ws.pc.AtShift? || ws.pc.AtGate? || ws.pc.AtRecord? || ws.pc.AtPromote?)
          && |ws.stack| <= 1 && !ws.res.status.Promoted?)
  }

  lemma PolicyCallIsDry(input: CanaryInput, c: Cluster.State, k: nat, r: Reply)
    requires k < |Calls(input, PolicyCheck)|
    ensures Do(c, Calls(input, PolicyCheck)[k], r) == c
  {}

  lemma BakeCall(input: CanaryInput, c: Cluster.State, k: nat, r: Reply, ready: int, before: bool)
    requires k < |Calls(input, HealthCheck)| && CanaryScaled(input, c)
    ensures Do(c, Calls(input, HealthCheck)[k], r) == c
    ensures VerdictAfter(c, Calls(input, HealthCheck)[k], r, ready, before) ==> before || CanBake(input)
  {
    hide ToInt32;
  }

  /** Which points make calls, and whose they are. */
  lemma Callers(input: CanaryInput, ws: W.State, a: Activity)
    requires W.Inv(input, ws) && W.Waiting(ws) == Some(a) && |Calls(input, a)| > 0
    ensures !ws.res.status.Promoted? && !ws.res.status.PolicyRejected? && !W.Over(ws.pc)
    ensures ws.pc.AtPolicy? ==> a == PolicyCheck
    ensures ws.pc.AtHealth? ==> a == HealthCheck
  {
    hide W.Inv;
    S.UndoUnwinds(input, ws);
    if !W.Disconnected(ws.pc) {
      Laws.EarlyStack(input, ws);
    }
  }

  lemma CallTelling(cfg: Config, c0: Cluster.State, st: St, st': St, a: Activity, reply: Reply, ready: int)
    requires W.Inv(cfg.input, st.run.ws) && W.Waiting(st.run.ws) == Some(a) && st.run.stage.Working?
    requires st.run.stage.next < |Calls(cfg.input, a)| && CallStep(cfg, st, st', a, reply, ready)
    requires Telling(cfg, c0, st)
    ensures Telling(cfg, c0, st')
  {
    hide W.Inv, W.Waiting, Calls, CanBake, CanaryScaled, Do, VerdictAfter, Succeeds, AllHold;
    Callers(cfg.input, st.run.ws, a);
    var c, k := st.world.cluster, st.run.stage.next;
    if st.run.ws.pc.AtPolicy? {
      PolicyCallIsDry(cfg.input, c, k, reply);
    }
    if st.run.ws.pc.AtHealth? {
      BakeCall(cfg.input, c, k, reply, ready, st.run.stage.verdict);
    }
  }

  lemma QuietTelling(cfg: Config, c0: Cluster.State, st: St, st': St)
    requires QuietStep(cfg, st, st') && Telling(cfg, c0, st)
    ensures Telling(cfg, c0, st')
  {
    hide W.Waiting, Calls, CanBake, CanaryScaled, AllHold;
  }

  lemma ToldTelling(cfg: Config, c0: Cluster.State, st: St, st': St, done: Option<Report>, mail: Mail)
    requires W.Inv(cfg.input, st.run.ws) && Progress(cfg, st) && ToldStep(cfg, st, st', done, mail)
    requires Telling(cfg, c0, st)
    ensures Telling(cfg, c0, st')
  {
    hide W.Inv, W.OnTask, CanBake, Progress, Calls, AllHold, CanaryScaled;
    var ws := st.run.ws;
    Laws.TaskMoves(cfg.input, ws, MailTask(done, mail));
    if Laws.Won(done) && W.Waiting(ws).Some? {
      S.WonHolds(cfg, st, done.value.verdict);
      if ws.pc.AtScale? { ScaledHolds(cfg.input, st.world.cluster); }
      if ws.pc.AtPromote? { PromotedHolds(cfg.input); }
    }
    if !W.Over(ws.pc) && !W.Disconnected(ws.pc) {
      Laws.EarlyStack(cfg.input, ws);
    }
    StackStays(cfg.input, ws, MailTask(done, mail));
  }

  lemma StackStays(input: CanaryInput, ws: W.State, t: W.Task)
    requires W.Inv(input, ws)
    ensures |W.OnTask(input, ws, t).stack| <= 2
    ensures |W.OnTask(input, ws, t).stack| == 2 ==> |ws.stack| == 2 || ws.pc.AtShift?
  {
    hide W.Inv, W.OnTask;
    W.TaskKeepsInv(input, ws, t);
    Laws.UndoRest(input, ws);
    Laws.UndoRest(input, W.OnTask(input, ws, t));
    Laws.TaskMoves(input, ws, t);
    if !W.Over(ws.pc) && !W.Disconnected(ws.pc) {
      Laws.EarlyStack(input, ws);
    }
    OneMore(input, ws, t);
  }

  lemma OneMore(input: CanaryInput, ws: W.State, t: W.Task)
    ensures |W.OnTask(input, ws, t).stack| <= |ws.stack| + 1
  {
    hide W.Resume, W.Gate;
  }

  lemma ScaledHolds(input: CanaryInput, c: Cluster.State)
    requires AllHold(c, Calls(input, ScaleCanary), |Calls(input, ScaleCanary)|)
    ensures CanaryScaled(input, c)
  {
    hide ToInt32;
    assert Holds(c, Calls(input, ScaleCanary)[1]);
  }

  lemma PromotedHolds(input: CanaryInput)
    ensures |Calls(input, Promote)| == 3
  {}

  lemma StepTelling(cfg: Config, c0: Cluster.State, st: St, ev: Event)
    requires W.Inv(cfg.input, st.run.ws) && Progress(cfg, st) && Telling(cfg, c0, st)
    ensures Telling(cfg, c0, Step(cfg, st, ev))
  {
    hide Step, W.Inv, Progress, KindOf, Telling, QuietStep, CallStep, ToldStep;
    StepKind(cfg, st, ev);
    var st' := Step(cfg, st, ev);
    match KindOf(st, ev)
    case Quiet => QuietTelling(cfg, c0, st, st');
    case Called(reply, ready) => CallTelling(cfg, c0, st, st', W.Waiting(st.run.ws).value, reply, ready);
    case Told(done, mail) => ToldTelling(cfg, c0, st, st', done, mail);
  }

  lemma {:induction false} RunTelling(cfg: Config, world: World, evs: seq<Event>)
    ensures Telling(cfg, world.cluster, Play(cfg, world, evs))
  {
    hide Step, W.Inv, Progress, Telling;
    if evs != [] {
      var n := |evs| - 1;
      RunTelling(cfg, world, evs[..n]);
      RunInv(cfg, world, evs[..n]);
      RunProgress(cfg, world, evs[..n]);
      StepTelling(cfg, world.cluster, Play(cfg, world, evs[..n]), evs[n]);
    } else {
      StartTelling(cfg, world);
    }
  }

  lemma StartTelling(cfg: Config, world: World)
    ensures Telling(cfg, world.cluster, Initial(cfg, world))
  {}

  /** A run that returns Promoted leaves stable on the new image at the target count and the canary at zero. One that
      returns PolicyRejected or fails leaves the cluster as it found it. */
  lemma {:induction false} ResultTellsCluster(cfg: Config, world: World, evs: seq<Event>)
    ensures var st := Play(cfg, world, evs);
            var input, c := cfg.input, st.world.cluster;
            && (st.run.ws.res.status == Promoted ==>
                  && S.Present(input, c)
                  && S.StableOf(input, c) == Deployment(input.imageTag, ToInt32(input.targetReplicas))
                  && S.CanaryOf(input, c).replicas == 0)
            && (st.run.ws.res.status == PolicyRejected || st.run.ws.pc.Broken? ==> c == world.cluster)
  {
    hide Play, ToInt32, StableName, CanaryName, CanBake;
    RunTelling(cfg, world, evs);
    var st := Play(cfg, world, evs);
    if st.run.ws.res.status == Promoted {
      var calls := Calls(cfg.input, Promote);
      assert Holds(st.world.cluster, calls[0]) && Holds(st.world.cluster, calls[1]) &&
        Holds(st.world.cluster, calls[2]);
    }
  }

  /** With no other writer, a deploy that asks for no canary replicas, or for no bake, never shifts traffic and never
      promotes. */
  lemma {:induction false} NoBakeNoShift(cfg: Config, world: World, evs: seq<Event>)
    requires ToInt32(cfg.input.canaryReplicas) == 0 || cfg.input.bakeSeconds <= 0
    ensures var ws := Play(cfg, world, evs).run.ws;
            ShiftTraffic !in ws.commands && Promote !in ws.commands && ws.res.status != Promoted
  {
    hide Play, ToInt32, W.Inv, Laws.Ordered, Calls, AllHold;
    RunTelling(cfg, world, evs);
    S.RunSound(cfg, world, evs);
    RunShiftNeedsBake(cfg, world, evs);
    var ws := Play(cfg, world, evs).run.ws;
    if Promote in ws.commands {
      Laws.PromoteIsSixth(cfg.input, ws);
    }
  }

  lemma {:induction false} RunShiftNeedsBake(cfg: Config, world: World, evs: seq<Event>)
    ensures !CanBake(cfg.input) ==> ShiftTraffic !in Play(cfg, world, evs).run.ws.commands
  {
    hide Step, Telling, CanBake, W.Inv;
    if evs != [] && !CanBake(cfg.input) {
      var n := |evs| - 1;
      RunShiftNeedsBake(cfg, world, evs[..n]);
      RunTelling(cfg, world, evs);
      RunInv(cfg, world, evs);
      StepSchedules(cfg, Play(cfg, world, evs[..n]), evs[n]);
      NotAtShift(cfg, world.cluster, Play(cfg, world, evs));
    }
  }

  lemma NotAtShift(cfg: Config, c0: Cluster.State, st: St)
    requires Telling(cfg, c0, st) && !CanBake(cfg.input) && W.Inv(cfg.input, st.run.ws)
    ensures W.Waiting(st.run.ws) != Some(ShiftTraffic)
  {
    hide CanBake, AllHold, Calls, W.Inv;
    Laws.UndoRest(cfg.input, st.run.ws);
  }

  /** A step schedules at most the activity it then waits for. */
  lemma StepSchedules(cfg: Config, st: St, ev: Event)
    ensures var ws, ws' := st.run.ws, Step(cfg, st, ev).run.ws;
            ShiftTraffic in ws'.commands ==> ShiftTraffic in ws.commands || W.Waiting(ws') == Some(ShiftTraffic)
  {
    hide Step, TaskOf, W.OnTask, W.Waiting;
    StepIsTask(cfg, st, ev);
    var ts := TaskOf(cfg, st, ev);
    if ts != [] {
      TaskSchedules(cfg.input, st.run.ws, ts[0]);
    }
  }

  lemma TaskSchedules(input: CanaryInput, s: W.State, t: W.Task)
    ensures var s' := W.OnTask(input, s, t);
            ShiftTraffic in s'.commands ==> ShiftTraffic in s.commands || W.Waiting(s') == Some(ShiftTraffic)
  {
    hide W.Resume, W.Gate;
  }
}
