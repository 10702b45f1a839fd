/** When exactly a completed rollback restores the cluster, and a condition on the environment that suffices. */
module Rollback {
  import opened Types
  import opened Cluster
  import opened Activities
  import opened Deploy
  import opened DeployLaws
  import opened Safety
  import W = Workflow
  import Laws = WorkflowLaws

  /** The counts a rollback is meant to end with. */
  predicate CountsRestored(input: CanaryInput, c: Cluster.State) {
    Present(input, c) && CanaryOf(input, c).replicas == 0 && StableOf(input, c).replicas == input.targetReplicas
  }

  /** Where a rollback is meant to end: no canary, whatever its idle image, and stable as it was, image and count. */
  predicate Restored(input: CanaryInput, before: Cluster.State, c: Cluster.State)
    requires Present(input, before)
  {
    Present(input, c) && CanaryOf(input, c).replicas == 0 && StableOf(input, c) == StableOf(input, before)
  }

  /** No scaling by a step without a registered compensation has landed: with nothing registered, no scale-up of the
      canary to a count above zero; with only the scale-down registered, no lowering of stable. */
  predicate NothingUnreported(input: CanaryInput, stack: seq<Activity>, landed: Landed) {
    match |stack|
    case 0 => !(landed.scaled && input.canaryReplicas > 0)
    case 1 => !landed.shifted
    case _ => true
  }

  /** No patch of stable by Promote has landed, unless the image was the new one already. */
  predicate ImageKept(input: CanaryInput, before: Cluster.State, landed: Landed)
    requires Present(input, before)
  {
    landed.patched ==> StableOf(input, before).image == input.imageTag
  }

  /** Restoration at any point of any run, whatever its compensations have reported: the cluster is back exactly if the
      canary's last landed count is zero, stable has been raised since it was last lowered, and no patch of stable has
      landed. */
  lemma {:induction false} BackExactlyWhen(cfg: Config, world: World, evs: seq<Event>)
    requires Baseline(cfg.input, world.cluster)
    ensures var c, landed := Play(cfg, world, evs).world.cluster, LandedBy(cfg, world, evs);
            && (CountsRestored(cfg.input, c) <==> landed.canary == 0 && !landed.low)
            && (Restored(cfg.input, world.cluster, c) <==>
                  landed.canary == 0 && !landed.low && ImageKept(cfg.input, world.cluster, landed))
  {
    hide Play, LandedBy;
    ClusterIsWhatLanded(cfg, world, evs);
  }

  /** Restoration, exactly. A finished rollback or timeout whose compensations all completed has its counts back if and
      only if no scaling by an unreported step had landed, and is wholly back if and only if no patch of stable by
      Promote had landed either. */
  lemma {:induction false} RestoredExactlyWhen(cfg: Config, world: World, evs: seq<Event>)
    requires Baseline(cfg.input, world.cluster)
    requires var ws := Play(cfg, world, evs).run.ws;
             ws.pc.Finished? && W.Unwinding(ws.res) && Laws.CompensationsCompleted(ws.answers)
    ensures var st, landed := Play(cfg, world, evs), LandedBy(cfg, world, evs);
            && Present(cfg.input, st.world.cluster)
            && (CountsRestored(cfg.input, st.world.cluster) <==>
                  NothingUnreported(cfg.input, st.run.ws.stack, landed))
            && (Restored(cfg.input, world.cluster, st.world.cluster) <==>
                  NothingUnreported(cfg.input, st.run.ws.stack, landed) && ImageKept(cfg.input, world.cluster, landed))
  {
    hide Play, W.Inv, LandedBy, Laws.CompensationsCompleted;
    RunInv(cfg, world, evs);
    Laws.UndoRest(cfg.input, Play(cfg, world, evs).run.ws);
    RunAccounted(cfg, world, evs);
    BackExactlyWhen(cfg, world, evs);
    if Play(cfg, world, evs).run.ws.stack != [] {
      Restoration(cfg, world, evs);
    }
  }

  // --- Acknowledged runs ---

  /** No write is applied behind an error, and an attempt whose calls all succeeded is heard of: it does not die before
      its return, its return is delivered, and no cancellation overtakes it. */
  predicate Acknowledged(st: St, ev: Event) {
    && (ev.Answer? ==> !ev.reply.WriteLost?)
    && (st.run.stage.Returned? && !st.run.stage.failed ==>
          !ev.Crash? && (ev.Return? ==> ev.delivered) && (ev.Wake? ==> !ev.mail.cancel))
  }

  predicate AllAcknowledged(cfg: Config, world: World, evs: seq<Event>) {
    evs == [] ||
    (AllAcknowledged(cfg, world, evs[..|evs| - 1]) && Acknowledged(Play(cfg, world, evs[..|evs| - 1]), evs[|evs| - 1]))
  }

  /** While the code waits on a context that can be cancelled, it has not been. */
  lemma WaitsUncancelled(input: CanaryInput, s: W.State, t: W.Task)
    requires !W.Over(s.pc)
    ensures var s' := W.OnTask(input, s, t); !W.Disconnected(s'.pc) && !W.Over(s'.pc) ==> !s'.cancelled
  {
    hide W.UndoFrom;
  }

  lemma ReplayUncancelled(input: CanaryInput, history: seq<W.Task>)
    ensures var s := W.Replay(input, history); !W.Disconnected(s.pc) && !W.Over(s.pc) ==> !s.cancelled
  {
    hide W.OnTask;
    if history != [] {
      var n := |history| - 1;
      var s := W.Replay(input, history[..n]);
      if W.Over(s.pc) {
        Laws.OverStays(input, s, history[n]);
      } else {
        WaitsUncancelled(input, s, history[n]);
      }
    }
  }

  /** Once stable's lowering has landed, the shift has succeeded, and is reported or about to be. */
  predicate InHand(st: St, shifted: bool) {
    shifted ==> |st.run.ws.stack| == 2 || (st.run.ws.pc.AtShift? && st.run.stage.Returned? && !st.run.stage.failed)
  }

  /** The lowering is the shift's last call. */
  lemma LoweringIsLast(input: CanaryInput, c: Cluster.State, k: nat, r: Reply)
    requires Present(input, c) && k < |Calls(input, ShiftTraffic)| && r.Ok?
    ensures k == 1 ==> k + 1 == |Calls(input, ShiftTraffic)| && Succeeds(c, Calls(input, ShiftTraffic)[k], r)
  {
    hide CanaryShare, StableShare;
  }

  lemma StepInHand(cfg: Config, st: St, ev: Event, l: Landed)
    requires W.Inv(cfg.input, st.run.ws) && Progress(cfg, st) && Present(cfg.input, st.world.cluster)
    requires InHand(st, l.shifted) && Acknowledged(st, ev)
    requires st.run.ws.pc.AtShift? ==> !st.run.ws.cancelled
    ensures InHand(Step(cfg, st, ev), Note(cfg.input, l, st, ev).shifted)
  {
    hide Step, W.Inv, Progress, Calls, ToldStep, CallStep, QuietStep, W.OnTask, Acknowledged, KindOf, InHand, Note;
    StepKind(cfg, st, ev);
    NothingReached(cfg.input, st, ev, l);
    var st' := Step(cfg, st, ev);
    match KindOf(st, ev)
    case Quiet => QuietInHand(cfg, st, ev, st', l.shifted);
    case Called(reply, ready) => CallInHand(cfg, st, ev, st', reply, ready, l);
    case Told(done, mail) => ToldInHand(cfg, st, ev, st', done, mail, l.shifted);
  }

  lemma QuietInHand(cfg: Config, st: St, ev: Event, st': St, shifted: bool)
    requires InHand(st, shifted) && Acknowledged(st, ev)
    requires st' == Step(cfg, st, ev) && KindOf(st, ev).Quiet? && QuietStep(cfg, st, st')
    ensures InHand(st', shifted)
  {
    hide Calls, W.OnTask, W.Waiting;
    if st.run.ws.pc.AtShift? {
      AtShiftWaits(st.run.ws);
    }
  }

  lemma AtShiftWaits(ws: W.State)
    ensures ws.pc.AtShift? ==> W.Waiting(ws) == Some(ShiftTraffic)
  {}

  lemma CallInHand(cfg: Config, st: St, ev: Event, st': St, reply: Reply, ready: int, l: Landed)
    requires W.Inv(cfg.input, st.run.ws) && Present(cfg.input, st.world.cluster)
    requires InHand(st, l.shifted) && Acknowledged(st, ev)
    requires ev.Answer? && ev.reply == reply && W.Waiting(st.run.ws).Some? && st.run.stage.Working?
    requires st.run.stage.next < |Calls(cfg.input, W.Waiting(st.run.ws).value)|
    requires CallStep(cfg, st, st', W.Waiting(st.run.ws).value, reply, ready)
    ensures InHand(st', Note(cfg.input, l, st, ev).shifted)
  {
    hide W.Inv, Calls, W.Waiting, Do, Succeeds, VerdictAfter;
    if Reaches(st, ev, ShiftTraffic, 1) {
      ShiftIsAtShift(cfg.input, st.run.ws);
      LoweringIsLast(cfg.input, st.world.cluster, st.run.stage.next, reply);
    }
  }

  lemma ShiftIsAtShift(input: CanaryInput, ws: W.State)
    requires W.Inv(input, ws) && W.Waiting(ws) == Some(ShiftTraffic)
    ensures ws.pc.AtShift?
  {
    hide W.Inv;
    Laws.UndoRest(input, ws);
  }

  lemma ToldInHand(cfg: Config, st: St, ev: Event, st': St, done: Option<Report>, mail: Mail, shifted: bool)
    requires W.Inv(cfg.input, st.run.ws) && InHand(st, shifted) && Acknowledged(st, ev)
    requires KindOf(st, ev) == Told(done, mail) && ToldStep(cfg, st, st', done, mail)
    requires st.run.ws.pc.AtShift? ==> !st.run.ws.cancelled
    ensures InHand(st', shifted)
  {
    hide W.Inv, Calls, W.OnTask, W.Waiting;
    var ws, t := st.run.ws, MailTask(done, mail);
    TwoStaysTwo(cfg.input, ws, t);
    if ws.pc.AtShift? {
      AtShiftWaits(ws);
      Laws.EarlyStack(cfg.input, ws);
      ShiftTask(cfg.input, ws, t);
    }
  }

  lemma TwoStaysTwo(input: CanaryInput, ws: W.State, t: W.Task)
    requires W.Inv(input, ws)
    ensures |ws.stack| == 2 ==> |W.OnTask(input, ws, t).stack| == 2
  {
    hide W.Inv, W.OnTask;
    W.TaskKeepsInv(input, ws, t);
    Laws.UndoRest(input, W.OnTask(input, ws, t));
  }

  /** A completed shift is registered; an uncancelled wait goes on without a result. */
  lemma ShiftTask(input: CanaryInput, ws: W.State, t: W.Task)
    requires ws.pc.AtShift? && !ws.cancelled
    ensures var ws' := W.OnTask(input, ws, t);
            && (t.done.Some? && t.done.value.Completed? ==> |ws'.stack| == |ws.stack| + 1)
            && (t.done.None? && !t.cancel ==> ws' == W.Deliver(ws, t))
  {
    hide W.Resume;
  }

  lemma RunUncancelled(cfg: Config, world: World, evs: seq<Event>)
    ensures var ws := Play(cfg, world, evs).run.ws; ws.pc.AtShift? ==> !ws.cancelled
  {
    hide Play, Tasks, W.Replay;
    RunReplays(cfg, world, evs);
    ReplayUncancelled(cfg.input, Tasks(cfg, world, evs));
  }

  lemma {:induction false} LoweringIsInHand(cfg: Config, world: World, evs: seq<Event>)
    requires Baseline(cfg.input, world.cluster) && AllAcknowledged(cfg, world, evs)
    ensures InHand(Play(cfg, world, evs), LandedBy(cfg, world, evs).shifted)
  {
    hide Step, Accounted, InHand, Note, Acknowledged, W.Inv, Progress;
    if evs != [] {
      var n := |evs| - 1;
      LoweringIsInHand(cfg, world, evs[..n]);
      RunInv(cfg, world, evs[..n]);
      RunProgress(cfg, world, evs[..n]);
      RunAccounted(cfg, world, evs[..n]);
      AccountedIsPresent(cfg, Play(cfg, world, evs[..n]), LandedBy(cfg, world, evs[..n]));
      RunUncancelled(cfg, world, evs[..n]);
      StepInHand(cfg, Play(cfg, world, evs[..n]), evs[n], LandedBy(cfg, world, evs[..n]));
    } else {
      assert InHand(Play(cfg, world, evs), false) by { NothingInHand(Play(cfg, world, evs)); }
    }
  }

  lemma NothingInHand(st: St)
    ensures InHand(st, false)
  {}

  /** In a run where failed calls are not applied and no success is lost, every rollback or timeout whose scale-up was
      reported and whose compensations completed ends with the canary at zero and stable at its target, after any number
      of partial attempts of the shift or the promotion. It is wholly back if and only if none of these had patched
      stable, as when Promote was never scheduled. */
  lemma {:induction false} AcknowledgedRunsRestore(cfg: Config, world: World, evs: seq<Event>)
    requires Baseline(cfg.input, world.cluster) && AllAcknowledged(cfg, world, evs)
    requires var ws := Play(cfg, world, evs).run.ws;
             ws.pc.Finished? && W.Unwinding(ws.res) && Laws.CompensationsCompleted(ws.answers)
    requires Laws.Reported(Play(cfg, world, evs).run.ws.answers, ScaleCanary)
    ensures var st, landed := Play(cfg, world, evs), LandedBy(cfg, world, evs);
            && CountsRestored(cfg.input, st.world.cluster)
            && (Restored(cfg.input, world.cluster, st.world.cluster) <==> ImageKept(cfg.input, world.cluster, landed))
            && (Promote !in st.run.ws.commands ==> Restored(cfg.input, world.cluster, st.world.cluster))
  {
    hide Play, LandedBy, AllAcknowledged, Laws.CompensationsCompleted, W.Inv, Laws.Reported;
    RestoredExactlyWhen(cfg, world, evs);
    RunImaged(cfg, world, evs);
    LoweringIsInHand(cfg, world, evs);
    RunInv(cfg, world, evs);
    Laws.UndoRest(cfg.input, Play(cfg, world, evs).run.ws);
    ReportedScaleIsStacked(cfg, world, evs);
  }

  lemma ReportedScaleIsStacked(cfg: Config, world: World, evs: seq<Event>)
    requires Laws.Reported(Play(cfg, world, evs).run.ws.answers, ScaleCanary)
    ensures Play(cfg, world, evs).run.ws.stack != []
  {
    hide Play, Tasks, W.Replay;
    RunReplays(cfg, world, evs);
    Laws.StackHoldsInverses(cfg.input, Tasks(cfg, world, evs));
    ScaleHasInverse(Play(cfg, world, evs).run.ws.answers);
  }

  lemma {:induction false} ScaleHasInverse(log: seq<W.Answer>)
    requires Laws.Reported(log, ScaleCanary)
    ensures Laws.Inverses(log) != []
  {
    var n := |log| - 1;
    var i :| 0 <= i < |log| && log[i].activity == ScaleCanary && log[i].report.Completed?;
    if i < n {
      assert log[..n][i] == log[i];
      ScaleHasInverse(log[..n]);
    }
  }
}
