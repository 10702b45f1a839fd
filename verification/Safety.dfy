/** Capacity, restoration and the end state of a deploy, over every run of the machine. */
module Safety {
  import opened Types
  import opened Cluster
  import opened Activities
  import opened Deploy
  import opened DeployLaws
  import W = Workflow
  import Laws = WorkflowLaws

  // --- The two Deployments of a deploy ---

  predicate Present(input: CanaryInput, c: Cluster.State) {
    StableName(input.service) in c && CanaryName(input.service) in c
  }

  function StableOf(input: CanaryInput, c: Cluster.State): Deployment
    requires Present(input, c)
  {
    c[StableName(input.service)]
  }

  function CanaryOf(input: CanaryInput, c: Cluster.State): Deployment
    requires Present(input, c)
  {
    c[CanaryName(input.service)]
  }

  /** The replicas that the two Deployments ask for together. */
  function Together(input: CanaryInput, c: Cluster.State): int
    requires Present(input, c)
  {
    StableOf(input, c).replicas + CanaryOf(input, c).replicas
  }

  /** Where a deploy is meant to start: stable at its target, the canary at zero. */
  predicate Baseline(input: CanaryInput, c: Cluster.State) {
    && Present(input, c)
    && 1 <= input.targetReplicas < 0x8000_0000
    && 0 <= input.canaryReplicas < 0x8000_0000
    && StableOf(input, c).replicas == input.targetReplicas
    && CanaryOf(input, c).replicas == 0
  }

  /** The replica counts after the shift. */
  function ShiftedCanary(input: CanaryInput): int { (input.targetReplicas + 1) / 2 }

  function ShiftedStable(input: CanaryInput): int { input.targetReplicas / 2 }

  /** What one call does to the two replica counts, and what its predecessors have done. */
  lemma CallLands(input: CanaryInput, a: Activity, c: Cluster.State, k: nat, r: Reply)
    requires Present(input, c) && Sized(input) && k < |Calls(input, a)| && AllHold(c, Calls(input, a), k)
    ensures var d := Do(c, Calls(input, a)[k], r);
            Present(input, d) &&
            CallCounted(input, a, k, r.Ok? || r.WriteLost?, StableOf(input, c), CanaryOf(input, c), StableOf(input, d),
                        CanaryOf(input, d))
  {
    NamesNeverCollide(input.service, input.service);
    SplitAtHalf(input.targetReplicas);
    hide ToInt32, CanaryShare, StableShare, StableName, CanaryName;
    assert ToInt32(input.targetReplicas) == input.targetReplicas == ToInt32(Total(input.targetReplicas));
    assert ToInt32(input.canaryReplicas) == input.canaryReplicas;
    var calls := Calls(input, a);
    if k > 0 { assert Holds(c, calls[0]); }
    if k > 1 { assert Holds(c, calls[1]); }
  }

  /** Call k of the activity, which took effect or did not, takes the Deployments from (s, c) to (s', c'). */
  predicate CallCounted(input: CanaryInput, a: Activity, k: nat, hit: bool, s: Deployment, c: Deployment,
                        s': Deployment, c': Deployment) {
    && s'.replicas == (if hit && a.ShiftTraffic? && k == 1 then ShiftedStable(input)
                       else if hit && (a.Promote? || a.ShiftTrafficBack?) && k == 1 then input.targetReplicas
                       else s.replicas)
    && c'.replicas == (if hit && a.ScaleCanary? && k == 1 then input.canaryReplicas
                       else if hit && a.ShiftTraffic? && k == 0 && !input.simulateTrafficFail then ShiftedCanary(input)
                       else if hit && a.Promote? && k == 2 then 0
                       else if hit && (a.ScaleDownCanary? || a.ShiftTrafficBack?) && k == 0 then 0
                       else c.replicas)
    && (a.ShiftTraffic? && k == 1 ==> c.replicas == ShiftedCanary(input))
    && (a.Promote? && k == 2 ==> s.replicas == input.targetReplicas)
    && (a.ShiftTrafficBack? && k == 1 ==> c.replicas == 0)
  }

  /** What a completed activity has achieved. */
  lemma CompletedEffect(input: CanaryInput, a: Activity, c: Cluster.State)
    requires AllHold(c, Calls(input, a), |Calls(input, a)|)
    requires 1 <= input.targetReplicas < 0x8000_0000 && 0 <= input.canaryReplicas < 0x8000_0000
    ensures match a
            case ScaleCanary =>
              CanaryName(input.service) in c && c[CanaryName(input.service)].replicas == input.canaryReplicas
            case ShiftTraffic =>
              Present(input, c) && CanaryOf(input, c).replicas == ShiftedCanary(input) &&
              StableOf(input, c).replicas == ShiftedStable(input)
            case Promote =>
              Present(input, c) && StableOf(input, c) == Deployment(input.imageTag, input.targetReplicas) &&
              CanaryOf(input, c).replicas == 0
            case ScaleDownCanary => CanaryName(input.service) in c && c[CanaryName(input.service)].replicas == 0
            case ShiftTrafficBack =>
              Present(input, c) && CanaryOf(input, c).replicas == 0 &&
                StableOf(input, c).replicas == input.targetReplicas
            case _ => true
  {
    SplitAtHalf(input.targetReplicas);
    var calls := Calls(input, a);
    hide ToInt32, CanaryShare, StableShare, StableName, CanaryName;
    if |calls| == 3 {
      assert Holds(c, calls[0]) && Holds(c, calls[1]) && Holds(c, calls[2]);
    } else if |calls| == 2 {
      assert Holds(c, calls[0]) && Holds(c, calls[1]);
    } else if |calls| == 1 {
      assert Holds(c, calls[0]);
    }
  }

  // --- The replica counts at every point of a run ---

  predicate Counts(input: CanaryInput, ws: W.State, s: int, c: int) {
    && c >= 0
    && (s == input.targetReplicas || s == ShiftedStable(input))
    && (ws.pc.AtPolicy? || ws.pc.AtScale? || ws.pc.AtHealth? ==> s == input.targetReplicas)
    && (!W.Unwinding(ws.res) ==> s == input.targetReplicas || c == ShiftedCanary(input))
    && (ws.pc.AtGate? || ws.pc.AtRecord? ==> s == ShiftedStable(input) && c == ShiftedCanary(input))
    && (Laws.Reported(ws.answers, ScaleDownCanary) ==> c == 0)
    && (Laws.Reported(ws.answers, ShiftTrafficBack) ==> s == input.targetReplicas && c == 0)
  }

  predicate Counted(input: CanaryInput, st: St) {
    && Present(input, st.world.cluster)
    && Counts(input, st.run.ws, StableOf(input, st.world.cluster).replicas, CanaryOf(input, st.world.cluster).replicas)
  }

  predicate Sound(cfg: Config, st: St) {
    W.Inv(cfg.input, st.run.ws) && Laws.Ordered(st.run.ws) && Progress(cfg, st)
  }

  predicate Sized(input: CanaryInput) {
    1 <= input.targetReplicas < 0x8000_0000 && 0 <= input.canaryReplicas < 0x8000_0000
  }

  /** Which activity runs at which point, and what has been reported by then. */
  lemma WaitPoint(input: CanaryInput, ws: W.State, a: Activity)
    requires W.Inv(input, ws) && Laws.Ordered(ws) && W.Waiting(ws) == Some(a)
    ensures a.ScaleCanary? ==> ws.pc.AtScale?
    ensures a.ShiftTraffic? ==> ws.pc.AtShift?
    ensures a.Promote? ==> ws.pc.AtPromote?
    ensures a.ScaleDownCanary? ==> ws.pc.AtUndo?
    ensures a.ShiftTrafficBack? ==> ws.pc.AtUndo?
    ensures !a.ScaleDownCanary? && !a.Alert? ==>
              !Laws.Reported(ws.answers, ScaleDownCanary) && !Laws.Reported(ws.answers, ShiftTrafficBack)
    ensures ws.pc.AtUndo? ==> W.Unwinding(ws.res)
    ensures W.Disconnected(ws.pc) <==> a.ScaleDownCanary? || a.ShiftTrafficBack? || a.Alert?
  {
    hide W.Inv, Laws.Ordered, Laws.Reported;
    Laws.UndoRest(input, ws);
    UndoUnwinds(input, ws);
    if !a.ScaleDownCanary? && !a.Alert? {
      Laws.NoUndoReported(input, ws);
    }
  }

  lemma UndoUnwinds(input: CanaryInput, ws: W.State)
    requires W.Inv(input, ws)
    ensures ws.pc.AtUndo? ==> W.Unwinding(ws.res)
  {
    hide W.Forward, W.Tail, W.Facts;
  }

  lemma CallCounts(input: CanaryInput, ws: W.State, a: Activity, k: nat, hit: bool,
                   s: Deployment, c: Deployment, s': Deployment, c': Deployment)
    requires Sized(input) && W.Inv(input, ws) && Laws.Ordered(ws) && W.Waiting(ws) == Some(a)
    requires Counts(input, ws, s.replicas, c.replicas) && CallCounted(input, a, k, hit, s, c, s', c')
    ensures Counts(input, ws, s'.replicas, c'.replicas)
  {
    hide W.Inv, Laws.Ordered, Laws.Reported, W.Waiting;
    WaitPoint(input, ws, a);
  }

  /** Nothing is reported as completed but what the attempt has achieved. */
  lemma ToldCounts(cfg: Config, st: St, st': St, done: Option<Report>, mail: Mail)
    requires Sized(cfg.input) && Sound(cfg, st) && Counted(cfg.input, st) && ToldStep(cfg, st, st', done, mail)
    ensures Counted(cfg.input, st')
  {
    hide W.Inv, Laws.Ordered, Laws.Reported, W.OnTask, Counts, Calls, Progress, Laws.Move;
    var ws, ws', t := st.run.ws, st'.run.ws, MailTask(done, mail);
    Laws.TaskMoves(cfg.input, ws, t);
    Laws.AnswersGrow(cfg.input, ws, t);
    Laws.StatusIsFinal(cfg.input, ws, t);
    var s, c := StableOf(cfg.input, st.world.cluster), CanaryOf(cfg.input, st.world.cluster);
    if Laws.Won(done) && W.Waiting(ws).Some? {
      WonHolds(cfg, st, done.value.verdict);
      CompletedEffect(cfg.input, W.Waiting(ws).value, st.world.cluster);
    }
    if ws'.answers != ws.answers {
      var a := W.Waiting(ws).value;
      var r :| (r == Failed || done == Some(r)) && ws'.answers == ws.answers + [W.Answer(a, r)];
      Laws.ReportedAppend(ws.answers, W.Answer(a, r), ScaleDownCanary);
      Laws.ReportedAppend(ws.answers, W.Answer(a, r), ShiftTrafficBack);
      MoveCounts(cfg.input, ws, ws', done, r, s.replicas, c.replicas);
    } else {
      MoveCounts(cfg.input, ws, ws', done, Failed, s.replicas, c.replicas);
    }
  }

  lemma WonHolds(cfg: Config, st: St, verdict: bool)
    requires Progress(cfg, st) && st.run.stage == Returned(false, verdict) && W.Waiting(st.run.ws).Some?
    ensures var calls := Calls(cfg.input, W.Waiting(st.run.ws).value); AllHold(st.world.cluster, calls, |calls|)
  {
    hide Calls, AllHold;
  }

  /** A move of the workflow keeps the counts right, given what the completed activity achieved. */
  lemma MoveCounts(input: CanaryInput, ws: W.State, ws': W.State, done: Option<Report>, r: Report, s: int, c: int)
    requires Counts(input, ws, s, c) && Laws.Move(ws, done, ws') && (r == Failed || done == Some(r))
    requires W.Unwinding(ws.res) ==> W.Unwinding(ws'.res)
    requires Laws.Won(done) && ws.pc.AtShift? ==> s == ShiftedStable(input) && c == ShiftedCanary(input)
    requires Laws.Won(done) && W.Waiting(ws) == Some(ScaleDownCanary) ==> c == 0
    requires Laws.Won(done) && W.Waiting(ws) == Some(ShiftTrafficBack) ==> s == input.targetReplicas && c == 0
    requires forall a | a == ScaleDownCanary || a == ShiftTrafficBack ::
               Laws.Reported(ws'.answers, a) ==>
                 Laws.Reported(ws.answers, a) || (W.Waiting(ws) == Some(a) && r.Completed?)
    ensures Counts(input, ws', s, c)
  {
    hide Laws.Reported, W.Waiting;
  }

  lemma StepCounts(cfg: Config, st: St, ev: Event)
    requires Sized(cfg.input) && Sound(cfg, st) && Counted(cfg.input, st)
    ensures Counted(cfg.input, Step(cfg, st, ev))
  {
    hide Step, W.Inv, Laws.Ordered, Progress, KindOf, Calls, Counts, CallCounted, ToldStep, Do;
    StepKind(cfg, st, ev);
    var st' := Step(cfg, st, ev);
    match KindOf(st, ev)
    case Quiet =>
    case Called(reply, ready) =>
      var a, k := W.Waiting(st.run.ws).value, st.run.stage.next;
      WorkingHolds(cfg, st);
      CallLands(cfg.input, a, st.world.cluster, k, reply);
      CallCounts(cfg.input, st.run.ws, a, k, reply.Ok? || reply.WriteLost?,
                 StableOf(cfg.input, st.world.cluster), CanaryOf(cfg.input, st.world.cluster),
                 StableOf(cfg.input, st'.world.cluster), CanaryOf(cfg.input, st'.world.cluster));
    case Told(done, mail) =>
      ToldCounts(cfg, st, st', done, mail);
  }

  lemma WorkingHolds(cfg: Config, st: St)
    requires Progress(cfg, st) && st.run.stage.Working? && W.Waiting(st.run.ws).Some?
    ensures AllHold(st.world.cluster, Calls(cfg.input, W.Waiting(st.run.ws).value), st.run.stage.next)
  {
    hide Calls, AllHold;
  }

  lemma RunSound(cfg: Config, world: World, evs: seq<Event>)
    ensures Sound(cfg, Play(cfg, world, evs))
  {
    hide W.Inv, Laws.Ordered, Progress, Play, Tasks;
    RunInv(cfg, world, evs);
    RunProgress(cfg, world, evs);
    RunReplays(cfg, world, evs);
    Laws.AnswersInOrder(cfg.input, Tasks(cfg, world, evs));
  }

  lemma {:induction false} RunCounts(cfg: Config, world: World, evs: seq<Event>)
    requires Baseline(cfg.input, world.cluster)
    ensures Counted(cfg.input, Play(cfg, world, evs))
  {
    hide Step, Sound, Counted;
    if evs != [] {
      var n := |evs| - 1;
      RunCounts(cfg, world, evs[..n]);
      RunSound(cfg, world, evs[..n]);
      StepCounts(cfg, Play(cfg, world, evs[..n]), evs[n]);
    } else {
      StartCounts(cfg, world);
    }
  }

  lemma StartCounts(cfg: Config, world: World)
    requires Baseline(cfg.input, world.cluster)
    ensures Counted(cfg.input, Initial(cfg, world))
  {}

  /** Capacity. At every point of every run, however attempts fail, die or lose replies: before the unwinding starts the
      two Deployments together never ask for fewer replicas than the target, and during and after it never for fewer
      than half. */
  lemma CapacityIsKept(cfg: Config, world: World, evs: seq<Event>)
    requires Baseline(cfg.input, world.cluster)
    ensures var st := Play(cfg, world, evs);
            && Present(cfg.input, st.world.cluster)
            && var total := Together(cfg.input, st.world.cluster);
               && total >= cfg.input.targetReplicas / 2
               && (!W.Unwinding(st.run.ws.res) ==> total >= cfg.input.targetReplicas)
  {
    hide Play, Sound;
    RunCounts(cfg, world, evs);
  }

  // --- Which writes have landed, by the replies alone ---

  /** This event answers call k of the activity so that its write takes effect, or has no need to. */
  predicate Reaches(st: St, ev: Event, a: Activity, k: nat) {
    W.Waiting(st.run.ws) == Some(a) && st.run.stage.Working? && st.run.stage.next == k &&
    ev.Answer? && (ev.reply.Ok? || ev.reply.WriteLost?)
  }

  /** built: the canary's new image. patched: stable's new image. scaled: the canary's scale-up. shifted: stable's
      lowering. low: stable's lowering, and no raise since. dropped: the canary's drop in a compensation. canary: the
      canary's count as last written. */
  datatype Landed = Landed(
    built: bool,
    patched: bool,
    scaled: bool,
    shifted: bool,
    low: bool,
    dropped: bool,
    canary: int)

  function CanaryCount(input: CanaryInput, before: int, st: St, ev: Event): int {
    if Reaches(st, ev, ScaleCanary, 1) then input.canaryReplicas
    else if Reaches(st, ev, ShiftTraffic, 0) && !input.simulateTrafficFail then ShiftedCanary(input)
    else if Reaches(st, ev, Promote, 2) || Reaches(st, ev, ShiftTrafficBack, 0) || Reaches(st, ev, ScaleDownCanary, 0)
    then 0
    else before
  }

  function Note(input: CanaryInput, l: Landed, st: St, ev: Event): Landed {
    Landed(l.built || Reaches(st, ev, ScaleCanary, 0),
           l.patched || Reaches(st, ev, Promote, 0),
           l.scaled || Reaches(st, ev, ScaleCanary, 1),
           l.shifted || Reaches(st, ev, ShiftTraffic, 1),
           Reaches(st, ev, ShiftTraffic, 1) ||
             (l.low && !Reaches(st, ev, Promote, 1) && !Reaches(st, ev, ShiftTrafficBack, 1)),
           l.dropped || Reaches(st, ev, ShiftTrafficBack, 0) || Reaches(st, ev, ScaleDownCanary, 0),
           CanaryCount(input, l.canary, st, ev))
  }

  function Nothing(): Landed { Landed(false, false, false, false, false, false, 0) }

  function LandedBy(cfg: Config, world: World, evs: seq<Event>): Landed {
    if evs == [] then Nothing()
    else
      var n := |evs| - 1;
      Note(cfg.input, LandedBy(cfg, world, evs[..n]), Play(cfg, world, evs[..n]), evs[n])
  }

  lemma NothingReached(input: CanaryInput, st: St, ev: Event, l: Landed)
    ensures !KindOf(st, ev).Called? ==> Note(input, l, st, ev) == l
    ensures KindOf(st, ev).Called? ==> ev.Answer? && KindOf(st, ev).reply == ev.reply
  {
    hide W.Waiting;
  }

  // --- The images ---

  /** The images are those of the patches that have landed. */
  predicate Imaged(cfg: Config, c0: Cluster.State, st: St, l: Landed)
    requires Present(cfg.input, c0)
  {
    var input, c := cfg.input, st.world.cluster;
    && Present(input, c)
    && StableOf(input, c).image == (if l.patched then input.imageTag else StableOf(input, c0).image)
    && CanaryOf(input, c).image == (if l.built then input.imageTag else CanaryOf(input, c0).image)
    && (l.patched ==> Promote in st.run.ws.commands)
  }

  /** What one call does to the two images. */
  lemma CallPatches(input: CanaryInput, a: Activity, c: Cluster.State, k: nat, r: Reply)
    requires Present(input, c) && k < |Calls(input, a)|
    ensures var d, hit := Do(c, Calls(input, a)[k], r), r.Ok? || r.WriteLost?;
            && Present(input, d)
            && StableOf(input, d).image == (if hit && a.Promote? && k == 0 then input.imageTag
                                            else StableOf(input, c).image)
            && CanaryOf(input, d).image ==
                 (if hit && a.ScaleCanary? && k == 0 then input.imageTag else CanaryOf(input, c).image)
  {
    NamesNeverCollide(input.service, input.service);
    hide ToInt32, CanaryShare, StableShare, StableName, CanaryName;
  }

  lemma PendingIsScheduled(input: CanaryInput, ws: W.State)
    requires W.Inv(input, ws)
    ensures W.Waiting(ws).Some? ==> W.Waiting(ws).value in ws.commands
  {
    hide W.Milestone, W.Tail;
  }

  lemma StepImaged(cfg: Config, c0: Cluster.State, st: St, ev: Event, l: Landed)
    requires W.Inv(cfg.input, st.run.ws) && Progress(cfg, st) && Present(cfg.input, c0) && Imaged(cfg, c0, st, l)
    ensures Imaged(cfg, c0, Step(cfg, st, ev), Note(cfg.input, l, st, ev))
  {
    hide Step, W.Inv, Progress, Calls, Do, W.OnTask, W.Waiting, KindOf, Succeeds, VerdictAfter;
    StepKind(cfg, st, ev);
    NothingReached(cfg.input, st, ev, l);
    if KindOf(st, ev).Called? {
      PendingIsScheduled(cfg.input, st.run.ws);
      CallPatches(cfg.input, W.Waiting(st.run.ws).value, st.world.cluster, st.run.stage.next, ev.reply);
    }
  }

  lemma {:induction false} RunImaged(cfg: Config, world: World, evs: seq<Event>)
    requires Present(cfg.input, world.cluster)
    ensures Imaged(cfg, world.cluster, Play(cfg, world, evs), LandedBy(cfg, world, evs))
  {
    hide Step, W.Inv, Progress, Imaged, Note;
    if evs != [] {
      var n := |evs| - 1;
      RunImaged(cfg, world, evs[..n]);
      RunInv(cfg, world, evs[..n]);
      RunProgress(cfg, world, evs[..n]);
      StepImaged(cfg, world.cluster, Play(cfg, world, evs[..n]), evs[n], LandedBy(cfg, world, evs[..n]));
    } else {
      StartImaged(cfg, world);
    }
  }

  lemma StartImaged(cfg: Config, world: World)
    requires Present(cfg.input, world.cluster)
    ensures Imaged(cfg, world.cluster, Initial(cfg, world), Nothing())
  {}

  // --- The counts ---

  /** The counts are those of the writes that have landed. */
  predicate Accounted(cfg: Config, st: St, l: Landed) {
    var ws, c := st.run.ws, st.world.cluster;
    && Present(cfg.input, c)
    && StableOf(cfg.input, c).replicas == (if l.low then ShiftedStable(cfg.input) else cfg.input.targetReplicas)
    && CanaryOf(cfg.input, c).replicas == l.canary
    && (l.low && !l.dropped ==> l.canary == ShiftedCanary(cfg.input))
    && (l.dropped ==> l.canary == 0 && W.Unwinding(ws.res))
    && (l.shifted ==> |ws.stack| >= 1)
    && (|ws.stack| <= 1 ==> (l.low <==> l.shifted))
    && (|ws.stack| == 0 ==> l.canary == if l.scaled then cfg.input.canaryReplicas else 0)
  }

  /** Which activities make calls with how much on the stack. */
  lemma Writers(input: CanaryInput, ws: W.State, a: Activity)
    requires W.Inv(input, ws) && W.Waiting(ws) == Some(a)
    ensures a.ScaleCanary? ==> |ws.stack| == 0
    ensures a.ShiftTraffic? ==> |ws.stack| == 1
    ensures a.Promote? || a.ShiftTrafficBack? ==> |ws.stack| == 2
    ensures a.ScaleDownCanary? ==> |ws.stack| >= 1
    ensures W.Unwinding(ws.res) ==> a.ScaleDownCanary? || a.ShiftTrafficBack? || a.Alert?
    ensures a.ScaleDownCanary? || a.ShiftTrafficBack? ==> W.Unwinding(ws.res)
  {
    hide W.Inv;
    Laws.UndoRest(input, ws);
    UndoUnwinds(input, ws);
    if !W.Disconnected(ws.pc) {
      Laws.EarlyStack(input, ws);
    }
  }

  lemma CallAccounted(cfg: Config, st: St, st': St, ev: Event, a: Activity, l: Landed)
    requires Sized(cfg.input) && W.Inv(cfg.input, st.run.ws) && W.Waiting(st.run.ws) == Some(a) &&
             st'.run.ws == st.run.ws
    requires Accounted(cfg, st, l) && Present(cfg.input, st'.world.cluster)
    requires st.run.stage.Working? && ev.Answer?
    requires CallCounted(cfg.input, a, st.run.stage.next, ev.reply.Ok? || ev.reply.WriteLost?,
                         StableOf(cfg.input, st.world.cluster), CanaryOf(cfg.input, st.world.cluster),
                         StableOf(cfg.input, st'.world.cluster), CanaryOf(cfg.input, st'.world.cluster))
    ensures Accounted(cfg, st', Note(cfg.input, l, st, ev))
  {
    hide W.Inv, W.Waiting;
    Writers(cfg.input, st.run.ws, a);
  }

  lemma ToldAccounted(cfg: Config, st: St, st': St, done: Option<Report>, mail: Mail, l: Landed)
    requires W.Inv(cfg.input, st.run.ws) && Accounted(cfg, st, l) &&
             ToldStep(cfg, st, st', done, mail)
    ensures Accounted(cfg, st', l)
  {
    hide W.OnTask, W.Inv;
    Laws.StatusIsFinal(cfg.input, st.run.ws, MailTask(done, mail));
  }

  lemma StepAccounted(cfg: Config, st: St, ev: Event, l: Landed)
    requires Sized(cfg.input) && W.Inv(cfg.input, st.run.ws) && Progress(cfg, st)
    requires Accounted(cfg, st, l)
    ensures Accounted(cfg, Step(cfg, st, ev), Note(cfg.input, l, st, ev))
  {
    hide Step, W.Inv, Progress, Calls, CallCounted, ToldStep, Do, Accounted, Note;
    StepKind(cfg, st, ev);
    var st' := Step(cfg, st, ev);
    AccountedIsPresent(cfg, st, l);
    NothingReached(cfg.input, st, ev, l);
    match KindOf(st, ev)
    case Quiet => QuietAccounted(cfg, st, st', l);
    case Called(reply, ready) =>
      var a, k := W.Waiting(st.run.ws).value, st.run.stage.next;
      WorkingHolds(cfg, st);
      CallLands(cfg.input, a, st.world.cluster, k, reply);
      CallAccounted(cfg, st, st', ev, a, l);
    case Told(done, mail) => ToldAccounted(cfg, st, st', done, mail, l);
  }

  lemma AccountedIsPresent(cfg: Config, st: St, l: Landed)
    requires Accounted(cfg, st, l)
    ensures Present(cfg.input, st.world.cluster)
  {}

  lemma QuietAccounted(cfg: Config, st: St, st': St, l: Landed)
    requires Accounted(cfg, st, l) && QuietStep(cfg, st, st')
    ensures Accounted(cfg, st', l)
  {}

  lemma {:induction false} RunAccounted(cfg: Config, world: World, evs: seq<Event>)
    requires Baseline(cfg.input, world.cluster)
    ensures Accounted(cfg, Play(cfg, world, evs), LandedBy(cfg, world, evs))
  {
    hide Step, W.Inv, Progress, Accounted, Note;
    if evs != [] {
      var n := |evs| - 1;
      RunAccounted(cfg, world, evs[..n]);
      RunInv(cfg, world, evs[..n]);
      RunProgress(cfg, world, evs[..n]);
      StepAccounted(cfg, Play(cfg, world, evs[..n]), evs[n], LandedBy(cfg, world, evs[..n]));
    } else {
      StartAccounted(cfg, world);
    }
  }

  lemma StartAccounted(cfg: Config, world: World)
    requires Baseline(cfg.input, world.cluster)
    ensures Accounted(cfg, Initial(cfg, world), Nothing())
  {}

  /** The dip, exactly. The two Deployments together ask for fewer replicas than the target when and only when stable's
      lowering has landed and no raise since, and a compensation's drop of the canary has landed; then the run is
      unwinding and they ask for half the target. */
  lemma {:induction false} CapacityDipsExactlyWhen(cfg: Config, world: World, evs: seq<Event>)
    requires Baseline(cfg.input, world.cluster)
    ensures var st, l := Play(cfg, world, evs), LandedBy(cfg, world, evs);
            && Present(cfg.input, st.world.cluster)
            && var total := Together(cfg.input, st.world.cluster);
               && (total < cfg.input.targetReplicas <==> l.low && l.dropped)
               && (total < cfg.input.targetReplicas ==>
                     W.Unwinding(st.run.ws.res) && total == cfg.input.targetReplicas / 2)
  {
    hide Play, LandedBy;
    RunCounts(cfg, world, evs);
    RunAccounted(cfg, world, evs);
  }

  /** The two Deployments that the landed writes make of those of c0. */
  function StableWritten(input: CanaryInput, c0: Cluster.State, l: Landed): Deployment
    requires Present(input, c0)
  {
    Deployment(if l.patched then input.imageTag else StableOf(input, c0).image,
               if l.low then ShiftedStable(input) else input.targetReplicas)
  }

  function CanaryWritten(input: CanaryInput, c0: Cluster.State, l: Landed): Deployment
    requires Present(input, c0)
  {
    Deployment(if l.built then input.imageTag else CanaryOf(input, c0).image, l.canary)
  }

  /** At every point of every run the two Deployments, images and counts, are what the landed writes have made of them.
      */
  lemma {:induction false} ClusterIsWhatLanded(cfg: Config, world: World, evs: seq<Event>)
    requires Baseline(cfg.input, world.cluster)
    ensures var c, l := Play(cfg, world, evs).world.cluster, LandedBy(cfg, world, evs);
            && Present(cfg.input, c)
            && StableOf(cfg.input, c) == StableWritten(cfg.input, world.cluster, l)
            && CanaryOf(cfg.input, c) == CanaryWritten(cfg.input, world.cluster, l)
  {
    hide Play, LandedBy;
    RunImaged(cfg, world, evs);
    RunAccounted(cfg, world, evs);
  }

  // --- Restoration ---

  /** Restoration. A finished rollback or timeout whose scale-up had been reported and whose registered compensations
      all completed leaves the canary at zero. It leaves stable at its target exactly if the traffic shift had been
      reported (so that its compensation was registered) or its lowering of stable had never landed. Stable runs the new
      image exactly if a patch of Promote had landed, which needs Promote to be scheduled: no compensation takes it
      back. */
  lemma {:induction false} Restoration(cfg: Config, world: World, evs: seq<Event>)
    requires Baseline(cfg.input, world.cluster)
    requires var ws := Play(cfg, world, evs).run.ws;
             ws.pc.Finished? && W.Unwinding(ws.res) && ws.stack != [] && Laws.CompensationsCompleted(ws.answers)
    ensures var ws, c := Play(cfg, world, evs).run.ws, Play(cfg, world, evs).world.cluster;
            && Present(cfg.input, c)
            && CanaryOf(cfg.input, c).replicas == 0
            && (StableOf(cfg.input, c).replicas == cfg.input.targetReplicas <==>
                  ShiftTrafficBack in ws.stack || !LandedBy(cfg, world, evs).shifted)
            && StableOf(cfg.input, c).image == (if LandedBy(cfg, world, evs).patched then cfg.input.imageTag
                                                else StableOf(cfg.input, world.cluster).image)
            && (Promote !in ws.commands ==> StableOf(cfg.input, c).image == StableOf(cfg.input, world.cluster).image)
  {
    hide Play, W.Inv, Laws.Ordered, Progress, LandedBy, Laws.Reported;
    RunCounts(cfg, world, evs);
    RunSound(cfg, world, evs);
    RunAccounted(cfg, world, evs);
    RunImaged(cfg, world, evs);
    Laws.FinishedRollback(cfg.input, Play(cfg, world, evs).run.ws);
    Laws.UndoRest(cfg.input, Play(cfg, world, evs).run.ws);
  }
}
