/** What a deploy does to its two Deployments, over every run. */
module DeployLaws {
  import opened Types
  import opened Cluster
  import opened Activities
  import opened Deploy
  import W = Workflow

  // --- What a running attempt has achieved ---

  /** The call's target is met. */
  predicate Holds(c: Cluster.State, call: Call) {
    match call
    case Patch(n, image) => n in c && c[n].image == image
    case Scale(n, replicas) => Met(c, call)
    case Abort => false
    case _ => true
  }

  predicate AllHold(c: Cluster.State, calls: seq<Call>, k: nat) {
    k <= |calls| && forall j | 0 <= j < k :: Holds(c, calls[j])
  }

  predicate Progress(cfg: Config, st: St) {
    var run := st.run;
    match W.Waiting(run.ws)
    case None => run.stage.Idle?
    case Some(a) =>
      var calls := Calls(cfg.input, a);
      match run.stage
      case Idle => true
      case Working(k, _) => k < |calls| && AllHold(st.world.cluster, calls, k)
      case Returned(failed, _) => failed || AllHold(st.world.cluster, calls, |calls|)
  }

  /** No later call of an activity disturbs an earlier one's target. */
  lemma CallsAreIndependent(input: CanaryInput, a: Activity, c: Cluster.State, k: nat, r: Reply)
    requires k < |Calls(input, a)| && AllHold(c, Calls(input, a), k)
    ensures AllHold(Do(c, Calls(input, a)[k], r), Calls(input, a), k)
  {
    NamesNeverCollide(input.service, input.service);
    hide ToInt32, CanaryShare, StableShare, StableName, CanaryName;
  }

  lemma SuccessHolds(c: Cluster.State, call: Call, r: Reply)
    requires Succeeds(c, call, r)
    ensures Holds(Do(c, call, r), call)
  {}

  // --- The three kinds of step ---

  /** Quiet: neither the workflow nor the cluster changes. Called: the next API call. Told: a workflow task. */
  datatype Kind = Quiet | Called(reply: Reply, ready: int) | Told(done: Option<Report>, mail: Mail)

  function KindOf(st: St, ev: Event): Kind {
    var run := st.run;
    match W.Waiting(run.ws)
    case None => if ev.Wake? then Told(None, ev.mail) else Quiet
    case Some(a) =>
      match ev
      case Begin(_, _) => Quiet
      case Answer(reply, ready, _) => if run.stage.Working? then Called(reply, ready) else Quiet
      case Return(_, delivered, mail, _) =>
        if !run.stage.Returned? then Quiet
        else if delivered && !run.stage.failed then Told(Some(Completed(run.stage.verdict)), mail)
        else if run.attempt >= MaximumAttempts(a) then Told(Some(Failed), mail)
        else Quiet
      case Crash(mail) =>
        if !run.stage.Idle? && run.attempt >= MaximumAttempts(a) then Told(Some(Failed), mail) else Quiet
      case Wake(mail) => Told(None, mail)
  }

  predicate QuietStep(cfg: Config, st: St, st': St) {
    && st'.world.cluster == st.world.cluster
    && st'.run.ws == st.run.ws
    && (st'.run.stage.Idle? || st'.run.stage == st.run.stage ||
        (W.Waiting(st.run.ws).Some? &&
         st'.run.stage == StageAt(Calls(cfg.input, W.Waiting(st.run.ws).value), 0, false)))
  }

  predicate CallStep(cfg: Config, st: St, st': St, a: Activity, reply: Reply, ready: int)
    requires st.run.stage.Working? && st.run.stage.next < |Calls(cfg.input, a)|
  {
    var c, calls, k, v := st.world.cluster, Calls(cfg.input, a), st.run.stage.next, st.run.stage.verdict;
    && st'.world.cluster == Do(c, calls[k], reply)
    && st'.run.ws == st.run.ws
    && st'.run.stage == if Succeeds(c, calls[k], reply)
                        then StageAt(calls, k + 1, VerdictAfter(c, calls[k], reply, ready, v))
                        else Returned(true, v)
  }

  predicate ToldStep(cfg: Config, st: St, st': St, done: Option<Report>, mail: Mail) {
    && st'.world.cluster == st.world.cluster
    && st'.run.ws == W.OnTask(cfg.input, st.run.ws, MailTask(done, mail))
    && (if st'.run.ws.pc == st.run.ws.pc then st'.run.stage == st.run.stage else st'.run.stage.Idle?)
    && (done.Some? && done.value.Completed? ==> st.run.stage == Returned(false, done.value.verdict))
  }

  lemma StepKind(cfg: Config, st: St, ev: Event)
    requires Progress(cfg, st)
    ensures match KindOf(st, ev)
            case Quiet => QuietStep(cfg, st, Step(cfg, st, ev))
            case Called(reply, ready) =>
              && W.Waiting(st.run.ws).Some? && st.run.stage.Working?
              && st.run.stage.next < |Calls(cfg.input, W.Waiting(st.run.ws).value)|
              && CallStep(cfg, st, Step(cfg, st, ev), W.Waiting(st.run.ws).value, reply, ready)
            case Told(done, mail) => ToldStep(cfg, st, Step(cfg, st, ev), done, mail)
  {
    hide W.OnTask, Calls, W.Waiting, AllHold, Do, Succeeds, VerdictAfter;
  }

  /** An activity result always moves the code on. */
  lemma LeavesWait(input: CanaryInput, ws: W.State, t: W.Task)
    requires W.Waiting(ws).Some? && W.Inv(input, ws)
    ensures var ws' := W.OnTask(input, ws, t);
            if ws'.pc == ws.pc then t.done == None && ws' == W.Deliver(ws, t)
            else |ws'.answers| == |ws.answers| + 1
  {
    hide W.OnTask, W.Resume, W.Inv, W.Waiting;
    var m := W.Deliver(ws, t);
    W.WaitingTask(input, ws, t);
    ResumeLeaves(input, m, Failed);
    if t.done.Some? {
      ResumeLeaves(input, m, t.done.value);
    }
  }

  lemma ResumeLeaves(input: CanaryInput, s: W.State, r: Report)
    requires W.Waiting(s).Some?
    ensures W.Resume(input, s, r).pc != s.pc
    ensures |W.Resume(input, s, r).answers| == |s.answers| + 1
  {
    hide W.Decided, W.ToRecord, W.Gate, W.Unwind;
  }

  /** The wait after a task: either nothing was decided and the same attempt goes on, or the code moved on. */
  lemma ToldWait(cfg: Config, st: St, st': St, done: Option<Report>, mail: Mail)
    requires W.Inv(cfg.input, st.run.ws) && ToldStep(cfg, st, st', done, mail)
    ensures st'.run.stage.Idle? || (st'.run.stage == st.run.stage && W.Waiting(st'.run.ws) == W.Waiting(st.run.ws))
    ensures st'.run.ws.pc == st.run.ws.pc && W.Waiting(st.run.ws).Some? ==>
            st'.run.ws == W.Deliver(st.run.ws, MailTask(done, mail))
  {
    hide W.OnTask, W.Inv;
    var t := MailTask(done, mail);
    if st'.run.ws.pc == st.run.ws.pc {
      if W.Waiting(st.run.ws).Some? {
        LeavesWait(cfg.input, st.run.ws, t);
      } else {
        IdleStaysIdle(cfg.input, st.run.ws, t);
      }
    }
  }

  lemma IdleStaysIdle(input: CanaryInput, ws: W.State, t: W.Task)
    requires W.Waiting(ws).None? && W.OnTask(input, ws, t).pc == ws.pc
    ensures W.Waiting(W.OnTask(input, ws, t)).None?
  {
    hide W.OnTask;
  }

  lemma StepKeepsProgress(cfg: Config, st: St, ev: Event)
    requires Progress(cfg, st) && W.Inv(cfg.input, st.run.ws)
    ensures Progress(cfg, Step(cfg, st, ev))
  {
    hide Step, W.Inv, Progress, QuietStep, CallStep, ToldStep, KindOf;
    StepKind(cfg, st, ev);
    var st' := Step(cfg, st, ev);
    match KindOf(st, ev)
    case Quiet => QuietProgress(cfg, st, st');
    case Called(reply, ready) => CallProgress(cfg, st, st', W.Waiting(st.run.ws).value, reply, ready);
    case Told(done, mail) => ToldProgress(cfg, st, st', done, mail);
  }

  lemma QuietProgress(cfg: Config, st: St, st': St)
    requires Progress(cfg, st) && QuietStep(cfg, st, st')
    ensures Progress(cfg, st')
  {
    hide W.Waiting, Calls, Holds;
  }

  lemma CallProgress(cfg: Config, st: St, st': St, a: Activity, reply: Reply, ready: int)
    requires Progress(cfg, st) && W.Waiting(st.run.ws) == Some(a) && st.run.stage.Working?
    requires st.run.stage.next < |Calls(cfg.input, a)| && CallStep(cfg, st, st', a, reply, ready)
    ensures Progress(cfg, st')
  {
    hide W.Waiting, Calls, Holds, Do, Succeeds, VerdictAfter;
    var k := st.run.stage.next;
    CallsAreIndependent(cfg.input, a, st.world.cluster, k, reply);
    if Succeeds(st.world.cluster, Calls(cfg.input, a)[k], reply) {
      SuccessHolds(st.world.cluster, Calls(cfg.input, a)[k], reply);
    }
  }

  lemma ToldProgress(cfg: Config, st: St, st': St, done: Option<Report>, mail: Mail)
    requires Progress(cfg, st) && W.Inv(cfg.input, st.run.ws) && ToldStep(cfg, st, st', done, mail)
    ensures Progress(cfg, st')
  {
    hide W.Waiting, W.Inv, W.OnTask, Calls, AllHold;
    ToldWait(cfg, st, st', done, mail);
  }

  lemma {:induction false} RunProgress(cfg: Config, world: World, evs: seq<Event>)
    ensures Progress(cfg, Play(cfg, world, evs))
  {
    hide Progress, Step, W.Inv;
    if evs != [] {
      var n := |evs| - 1;
      RunProgress(cfg, world, evs[..n]);
      RunInv(cfg, world, evs[..n]);
      StepKeepsProgress(cfg, Play(cfg, world, evs[..n]), evs[n]);
    } else {
      StartProgress(cfg, world);
    }
  }

  lemma StartProgress(cfg: Config, world: World)
    ensures Progress(cfg, Initial(cfg, world))
  {}
}
