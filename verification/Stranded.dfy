/** Runs that a rollback does not clean up, for every input and starting cluster, as the code registers a compensation
    only after its step has reported success; and a run in which the rollback drops the canary before it raises stable.
    */
module Stranded {
  import opened Types
  import opened Cluster
  import opened Activities
  import opened Deploy
  import opened Safety
  import opened Rollback
  import W = Workflow
  import Laws = WorkflowLaws

  function NoMail(): Mail { Mail([], false, false) }

  /** A whole attempt: it begins, its calls get these replies, and it returns or dies. */
  function Whole(replies: seq<Reply>, readies: seq<int>, dies: bool): seq<Event>
    requires |readies| == |replies|
  {
    [Begin(true, 1)] + AttemptEvents(replies, readies, 1) +
    [if dies then Crash(NoMail()) else Return(true, true, NoMail(), 1)]
  }

  function Repeat(evs: seq<Event>, n: nat): seq<Event> { if n == 0 then [] else evs + Repeat(evs, n - 1) }

  function Told(cfg: Config, ws: W.State, r: Report): W.State { W.OnTask(cfg.input, ws, MailTask(Some(r), NoMail())) }

  lemma AttemptRuns(cfg: Config, st: St, a: Activity, replies: seq<Reply>, readies: seq<int>, dies: bool)
    requires W.Waiting(st.run.ws) == Some(a) && st.run.stage.Idle?
    requires |Calls(cfg.input, a)| <= |replies| == |readies|
    ensures var o := Attempt(st.world.cluster, Calls(cfg.input, a), replies);
            var st' := PlayFrom(cfg, st, Whole(replies, readies, dies));
            && st'.world.cluster == o.cluster
            && if o.ok && !dies then
                 var v := Verdict(st.world.cluster, Calls(cfg.input, a), replies, readies, false);
                 st'.run.ws == Told(cfg, st.run.ws, Completed(v)) &&
                 (st'.run.ws.pc != st.run.ws.pc ==> st'.run.stage.Idle? && st'.run.attempt == 0)
               else if st.run.attempt + 1 >= MaximumAttempts(a) then
                 st'.run.ws == Told(cfg, st.run.ws, Failed) &&
                 (st'.run.ws.pc != st.run.ws.pc ==> st'.run.stage.Idle? && st'.run.attempt == 0)
               else
                 st'.run.ws == st.run.ws && st'.run.stage.Idle? && st'.run.attempt == st.run.attempt + 1
  {
    hide W.Waiting, Calls, W.OnTask, MaximumAttempts, AttemptEvents;
    AttemptStarts(cfg, st, a, replies, readies, true, 1, 1);
    var first := [Begin(true, 1)] + AttemptEvents(replies, readies, 1);
    var last := if dies then Crash(NoMail()) else Return(true, true, NoMail(), 1);
    PlayFromAppend(cfg, st, first, [last]);
    var mid := PlayFrom(cfg, st, first);
    assert PlayFrom(cfg, mid, [last]) == Step(cfg, mid, last) by { hide Step; }
  }

  /** All attempts that are left fail alike, and leave the cluster at d. */
  lemma {:induction false} AllAttemptsFail(cfg: Config, st: St, a: Activity, replies: seq<Reply>, readies: seq<int>,
                                           dies: bool,
                                           d: Cluster.State)
    requires W.Waiting(st.run.ws) == Some(a) && st.run.stage.Idle?
    requires |Calls(cfg.input, a)| <= |replies| == |readies| && st.run.attempt < MaximumAttempts(a)
    requires Attempt(st.world.cluster, Calls(cfg.input, a), replies).cluster == d
    requires Attempt(d, Calls(cfg.input, a), replies).cluster == d
    requires dies || (!Attempt(st.world.cluster, Calls(cfg.input, a), replies).ok &&
                      !Attempt(d, Calls(cfg.input, a), replies).ok)
    ensures var st' := PlayFrom(cfg, st, Repeat(Whole(replies, readies, dies), MaximumAttempts(a) - st.run.attempt));
            && st'.world.cluster == d && st'.run.ws == Told(cfg, st.run.ws, Failed)
            && (st'.run.ws.pc != st.run.ws.pc ==> st'.run.stage.Idle? && st'.run.attempt == 0)
    decreases MaximumAttempts(a) - st.run.attempt
  {
    hide W.Waiting, Calls, W.OnTask, MaximumAttempts, Attempt, Whole, Told;
    AttemptRuns(cfg, st, a, replies, readies, dies);
    var whole, n := Whole(replies, readies, dies), MaximumAttempts(a) - st.run.attempt;
    PlayFromAppend(cfg, st, whole, Repeat(whole, n - 1));
    var next := PlayFrom(cfg, st, whole);
    if n > 1 {
      AllAttemptsFail(cfg, next, a, replies, readies, dies, d);
    } else {
      assert PlayFrom(cfg, next, []) == next;
    }
  }

  // --- Points of the runs below ---

  /** The run waits at this point, uncancelled, with nothing in its inbox and no attempt begun. */
  predicate Waits(st: St, pc: W.Pc, stack: seq<Activity>, log: seq<W.Answer>) {
    && st.run.ws.pc == pc && st.run.ws.stack == stack && st.run.ws.answers == log
    && !st.run.ws.cancelled && st.run.ws.inbox == []
    && st.run.stage.Idle? && st.run.attempt == 0
  }

  lemma ToldResumes(cfg: Config, ws: W.State, r: Report)
    requires W.Waiting(ws).Some?
    ensures Told(cfg, ws, r) == W.Resume(cfg.input, ws, r)
  {
    hide W.Resume;
    assert ws.inbox + [] == ws.inbox;
  }

  lemma PassPolicy(cfg: Config, st: St)
    requires Waits(st, W.AtPolicy, [], []) && CanaryName(cfg.input.service) in st.world.cluster &&
             !cfg.input.simulatePolicyReject
    ensures var st' := PlayFrom(cfg, st, Whole([Ok], [0], false));
            Waits(st', W.AtScale, [], [W.Answer(PolicyCheck, Completed(true))]) && st'.world.cluster == st.world.cluster
  {
    hide PlayFrom, Whole, Told, CanaryName;
    AttemptRuns(cfg, st, PolicyCheck, [Ok], [0], false);
    ToldResumes(cfg, st.run.ws, Completed(true));
    var call := DryRun(CanaryName(cfg.input.service));
    assert Calls(cfg.input, PolicyCheck) == [call];
    OneCall(st.world.cluster, call, Ok, 0);
  }

  lemma OneCall(c: Cluster.State, call: Call, r: Reply, ready: int)
    ensures Attempt(c, [call], [r]).cluster == Do(c, call, r)
    ensures Attempt(c, [call], [r]).ok == Succeeds(c, call, r)
    ensures Verdict(c, [call], [r], [ready], false) == VerdictAfter(c, call, r, ready, false)
  {
    hide Do, Succeeds, VerdictAfter;
  }

  lemma ThreeCalls(c: Cluster.State, x: Call, y: Call, z: Call, r: Reply)
    requires Succeeds(c, x, Ok) && Succeeds(Do(c, x, Ok), y, Ok)
    ensures var d := Do(Do(c, x, Ok), y, Ok);
            var o := Attempt(c, [x, y, z], [Ok, Ok, r]);
            o.cluster == Do(d, z, r) && o.ok == Succeeds(d, z, r)
  {
    var d := Do(c, x, Ok);
    assert [x, y, z][1..] == [y, z] && [y, z][1..] == [z] && [Ok, Ok, r][1..] == [Ok, r] && [Ok, r][1..] == [r];
    OneCall(Do(d, y, Ok), z, r, 0);
    hide Do, Succeeds;
    assert Attempt(d, [y, z], [Ok, r]).ok == Succeeds(Do(d, y, Ok), z, r);
  }

  /** The cluster with the canary on the new image and scaled. */
  function Raise(input: CanaryInput, c: Cluster.State): Cluster.State {
    c[CanaryName(input.service) := Deployment(input.imageTag, input.canaryReplicas)]
  }

  /** An attempt of ScaleCanary does all its writes, whatever becomes of its last read. */
  lemma ScaleAttempt(input: CanaryInput, c: Cluster.State, r: Reply)
    requires CanaryName(input.service) in c && Sized(input)
    ensures var o := Attempt(c, Calls(input, ScaleCanary), [Ok, Ok, r]);
            o.cluster == Raise(input, c) && o.ok == r.Ok?
    ensures Raise(input, Raise(input, c)) == Raise(input, c)
  {
    var n := CanaryName(input.service);
    hide CanaryName;
    assert ToInt32(input.canaryReplicas) == input.canaryReplicas;
    ThreeCalls(c, Patch(n, input.imageTag), Scale(n, input.canaryReplicas), Status(n), r);
  }

  lemma EndWithAlert(cfg: Config, st: St, stack: seq<Activity>, log: seq<W.Answer>)
    requires Waits(st, W.AtAlert, stack, log)
    ensures var st' := PlayFrom(cfg, st, Whole([], [], false));
            && st'.run.ws.pc.Finished? && st'.run.ws.res == st.run.ws.res && st'.run.ws.stack == stack
            && st'.world.cluster == st.world.cluster
            && exists a: Activity, r :: a.Alert? && st'.run.ws.answers == log + [W.Answer(a, r)]
  {
    hide PlayFrom, Whole, Told;
    var a := W.Waiting(st.run.ws).value;
    AttemptRuns(cfg, st, a, [], [], false);
    ToldResumes(cfg, st.run.ws, Completed(false));
    var done := W.Resume(cfg.input, st.run.ws, Completed(false));
    assert a.Alert? && done.answers == log + [W.Answer(a, Completed(false))];
  }

  /** Attempts that only fail where nothing was applied, and whose returns are heard. */
  predicate Tame(ev: Event) {
    ev.Begin? || (ev.Answer? && !ev.reply.WriteLost?) || (ev.Return? && ev.delivered) || (ev.Wake? && !ev.mail.cancel)
  }

  lemma {:induction false} TameIsAcknowledged(cfg: Config, world: World, evs: seq<Event>)
    requires forall i | 0 <= i < |evs| :: Tame(evs[i])
    ensures AllAcknowledged(cfg, world, evs)
  {
    if evs != [] {
      TameIsAcknowledged(cfg, world, evs[..|evs| - 1]);
    }
  }

  lemma {:induction false} WholeIsTame(replies: seq<Reply>, readies: seq<int>)
    requires |replies| == |readies| && forall i | 0 <= i < |replies| :: !replies[i].WriteLost?
    ensures forall i | 0 <= i < |AttemptEvents(replies, readies, 1)| :: Tame(AttemptEvents(replies, readies, 1)[i])
    ensures forall i | 0 <= i < |Whole(replies, readies, false)| :: Tame(Whole(replies, readies, false)[i])
  {
    if replies != [] {
      WholeIsTame(replies[1..], readies[1..]);
    }
  }

  lemma {:induction false} RepeatIsTame(evs: seq<Event>, n: nat)
    requires forall i | 0 <= i < |evs| :: Tame(evs[i])
    ensures forall i | 0 <= i < |Repeat(evs, n)| :: Tame(Repeat(evs, n)[i])
  {
    if n > 0 {
      RepeatIsTame(evs, n - 1);
    }
  }

  lemma AppendPlay(cfg: Config, world: World, a: seq<Event>, b: seq<Event>)
    ensures Play(cfg, world, a + b) == PlayFrom(cfg, Play(cfg, world, a), b)
  {
    hide Play, PlayFrom, Initial;
    PlayIsPlayFrom(cfg, world, a);
    PlayIsPlayFrom(cfg, world, a + b);
    PlayFromAppend(cfg, Initial(cfg, world), a, b);
  }

  /** When every attempt of ScaleCanary fails at its last read, nothing is registered and the canary stays scaled,
      although no failed call was applied, nothing was lost, nothing died and every compensation, there being none,
      completed. */
  lemma StrandedCanary(cfg: Config, world: World) returns (evs: seq<Event>)
    requires Baseline(cfg.input, world.cluster) && cfg.input.canaryReplicas > 0 && !cfg.input.simulatePolicyReject
    ensures AllAcknowledged(cfg, world, evs)
    ensures var ws := Play(cfg, world, evs).run.ws;
            ws.pc.Finished? && ws.res.status == RolledBack && ws.res.reason == ScaleFailed &&
              Laws.CompensationsCompleted(ws.answers)
    ensures Play(cfg, world, evs).world.cluster == Raise(cfg.input, world.cluster)
  {
    hide Play, PlayFrom, Whole, Repeat, Told, Raise, AllAcknowledged, Initial, CanaryName, StableName;
    var lost := ReadError(Transport);
    var e0, one, e2 := Whole([Ok], [0], false), Whole([Ok, Ok, lost], [0, 0, 0], false), Whole([], [], false);
    var e1 := Repeat(one, 5);
    evs := (e0 + e1) + e2;
    StartWaits(cfg, world);
    assert Play(cfg, world, []) == Initial(cfg, world) by { StartIsEmpty(cfg, world); }
    AppendPlay(cfg, world, [], e0);
    assert [] + e0 == e0;
    PassPolicy(cfg, Initial(cfg, world));
    AppendPlay(cfg, world, e0, e1);
    ScaleNeverReported(cfg, Play(cfg, world, e0), lost);
    AppendPlay(cfg, world, e0 + e1, e2);
    var log := [W.Answer(PolicyCheck, Completed(true)), W.Answer(ScaleCanary, Failed)];
    EndWithAlert(cfg, Play(cfg, world, e0 + e1), [], log);
    WholeIsTame([Ok], [0]);
    WholeIsTame([Ok, Ok, lost], [0, 0, 0]);
    WholeIsTame([], []);
    RepeatIsTame(one, 5);
    TameIsAcknowledged(cfg, world, evs);
  }

  lemma StartWaits(cfg: Config, world: World)
    ensures Waits(Initial(cfg, world), W.AtPolicy, [], []) && Initial(cfg, world).world == world
  {}

  lemma StartIsEmpty(cfg: Config, world: World)
    ensures Play(cfg, world, []) == Initial(cfg, world)
  {}

  lemma ScaleNeverReported(cfg: Config, st: St, lost: Reply)
    requires Waits(st, W.AtScale, [], [W.Answer(PolicyCheck, Completed(true))])
    requires CanaryName(cfg.input.service) in st.world.cluster && Sized(cfg.input) && lost.ReadError?
    ensures var st' := PlayFrom(cfg, st, Repeat(Whole([Ok, Ok, lost], [0, 0, 0], false), 5));
            && Waits(st', W.AtAlert, [], [W.Answer(PolicyCheck, Completed(true)), W.Answer(ScaleCanary, Failed)])
            && st'.run.ws.res.status == RolledBack && st'.run.ws.res.reason == ScaleFailed
            && st'.world.cluster == Raise(cfg.input, st.world.cluster)
  {
    hide PlayFrom, Whole, Repeat, Told, CanaryName;
    var c := st.world.cluster;
    ScaleAttempt(cfg.input, c, lost);
    ScaleAttempt(cfg.input, Raise(cfg.input, c), lost);
    AllAttemptsFail(cfg, st, ScaleCanary, [Ok, Ok, lost], [0, 0, 0], false, Raise(cfg.input, c));
    ToldResumes(cfg, st.run.ws, Failed);
  }

  lemma PassScale(cfg: Config, st: St)
    requires Waits(st, W.AtScale, [], [W.Answer(PolicyCheck, Completed(true))])
    requires CanaryName(cfg.input.service) in st.world.cluster && Sized(cfg.input)
    ensures var st' := PlayFrom(cfg, st, Whole([Ok, Ok, Ok], [0, 0, 0], false));
            && st'.world.cluster == Raise(cfg.input, st.world.cluster)
            && |st'.run.ws.answers| == 2
            && Waits(st', W.AtHealth, [ScaleDownCanary], st'.run.ws.answers)
            && Scaled(st'.run.ws.answers)
  {
    hide PlayFrom, Whole, Told, CanaryName;
    ScaleAttempt(cfg.input, st.world.cluster, Ok);
    AttemptRuns(cfg, st, ScaleCanary, [Ok, Ok, Ok], [0, 0, 0], false);
    var v := Verdict(st.world.cluster, Calls(cfg.input, ScaleCanary), [Ok, Ok, Ok], [0, 0, 0], false);
    ToldResumes(cfg, st.run.ws, Completed(v));
    var log := PlayFrom(cfg, st, Whole([Ok, Ok, Ok], [0, 0, 0], false)).run.ws.answers;
    assert log[1] == W.Answer(ScaleCanary, Completed(v));
  }

  /** The scale-up was reported, and no compensation failed. */
  predicate Scaled(log: seq<W.Answer>) { Laws.Reported(log, ScaleCanary) && Laws.CompensationsCompleted(log) }

  lemma ScaledAppend(log: seq<W.Answer>, a: W.Answer)
    requires Scaled(log) && (W.IsCompensation(a.activity) ==> a.report.Completed?)
    ensures Scaled(log + [a])
  {
    Laws.ReportedAppend(log, a, ScaleCanary);
    hide Laws.Reported;
  }

  lemma PassBake(cfg: Config, st: St)
    requires Waits(st, W.AtHealth, [ScaleDownCanary], st.run.ws.answers) && Scaled(st.run.ws.answers)
    requires Present(cfg.input, st.world.cluster) &&
             CanaryOf(cfg.input, st.world.cluster).replicas == cfg.input.canaryReplicas > 0
    requires cfg.input.bakeSeconds >= 1 && !cfg.input.simulateHealthFail
    ensures var n := cfg.input.bakeSeconds;
            var st' := PlayFrom(cfg, st, Whole(seq(n, _ => Ok), seq(n, _ => cfg.input.canaryReplicas), false));
            && st'.world.cluster == st.world.cluster
            && Waits(st', W.AtShift, [ScaleDownCanary], st'.run.ws.answers) && Scaled(st'.run.ws.answers)
  {
    hide PlayFrom, Whole, Told, CanaryName, StableName, Scaled;
    var n, c := cfg.input.bakeSeconds, st.world.cluster;
    var replies, readies := seq(n, _ => Ok), seq(n, _ => cfg.input.canaryReplicas);
    var calls := Calls(cfg.input, HealthCheck);
    assert calls == seq(n, _ => Status(CanaryName(cfg.input.service)));
    BakeVerdict(c, CanaryName(cfg.input.service), n, replies, readies, false);
    ReadsSucceed(c, Status(CanaryName(cfg.input.service)), n, replies);
    AttemptRuns(cfg, st, HealthCheck, replies, readies, false);
    ToldResumes(cfg, st.run.ws, Completed(true));
    ScaledAppend(st.run.ws.answers, W.Answer(HealthCheck, Completed(true)));
  }

  /** The cluster after the traffic shift. */
  function Halve(input: CanaryInput, c: Cluster.State): Cluster.State
    requires Present(input, c)
  {
    c[CanaryName(input.service) := CanaryOf(input, c).(replicas := ShiftedCanary(input))]
     [StableName(input.service) := StableOf(input, c).(replicas := ShiftedStable(input))]
  }

  lemma ShiftAttempt(input: CanaryInput, c: Cluster.State)
    requires Present(input, c) && Sized(input) && !input.simulateTrafficFail
    ensures Attempt(c, Calls(input, ShiftTraffic), [Ok, Ok]).cluster == Halve(input, c)
    ensures Present(input, Halve(input, c)) && Halve(input, Halve(input, c)) == Halve(input, c)
    ensures StableOf(input, Halve(input, c)).replicas == ShiftedStable(input)
  {
    NamesNeverCollide(input.service, input.service);
    SplitAtHalf(input.targetReplicas);
    hide CanaryName, StableName, CanaryShare, StableShare;
    var x := Scale(CanaryName(input.service), ShiftedCanary(input));
    var y := Scale(StableName(input.service), ShiftedStable(input));
    assert Calls(input, ShiftTraffic) == [x, y];
    AttemptSplit(c, x, [y], [Ok, Ok]);
    assert [x] + [y] == [x, y] && [Ok, Ok][1..] == [Ok];
    OneCall(Do(c, x, Ok), y, Ok, 0);
    assert Attempt(c, [x], [Ok, Ok]).cluster == Do(c, x, Ok) && Attempt(c, [x], [Ok, Ok]).ok by { hide Do; }
  }

  lemma ShiftDies(cfg: Config, st: St)
    requires Waits(st, W.AtShift, [ScaleDownCanary], st.run.ws.answers) && Scaled(st.run.ws.answers)
    requires Present(cfg.input, st.world.cluster) && Sized(cfg.input) && !cfg.input.simulateTrafficFail
    ensures var st' := PlayFrom(cfg, st, Repeat(Whole([Ok, Ok], [0, 0], true), 5));
            && st'.world.cluster == Halve(cfg.input, st.world.cluster)
            && Waits(st', W.AtUndo([], ScaleDownCanary), [ScaleDownCanary], st'.run.ws.answers) &&
               Scaled(st'.run.ws.answers)
            && st'.run.ws.res.status == RolledBack
  {
    hide PlayFrom, Whole, Repeat, Told, CanaryName, StableName, Scaled, Halve;
    var c := st.world.cluster;
    ShiftAttempt(cfg.input, c);
    ShiftAttempt(cfg.input, Halve(cfg.input, c));
    ShiftHasTwoCalls(cfg.input);
    AllAttemptsFail(cfg, st, ShiftTraffic, [Ok, Ok], [0, 0], true, Halve(cfg.input, c));
    ToldResumes(cfg, st.run.ws, Failed);
    ScaledAppend(st.run.ws.answers, W.Answer(ShiftTraffic, Failed));
  }

  /** Requests that get as far as the traffic shift when nothing fails, and then to the approval gate. */
  predicate ReachesShift(input: CanaryInput) {
    && Sized(input) && input.canaryReplicas > 0 && input.bakeSeconds >= 1
    && !input.simulatePolicyReject && !input.simulateHealthFail && !input.simulateTrafficFail
  }

  predicate ReachesGate(input: CanaryInput) { ReachesShift(input) && !input.autoPromote }

  lemma RaiseCounts(input: CanaryInput, c: Cluster.State)
    requires Present(input, c)
    ensures var d := Raise(input, c);
            Present(input, d) && CanaryOf(input, d).replicas == input.canaryReplicas &&
              StableOf(input, d) == StableOf(input, c)
  {
    NamesNeverCollide(input.service, input.service);
    hide CanaryName, StableName;
  }

  /** The way to the traffic shift, with nothing failing. */
  lemma ComeToShift(cfg: Config, world: World) returns (evs: seq<Event>)
    requires Baseline(cfg.input, world.cluster) && ReachesShift(cfg.input)
    ensures var st := Play(cfg, world, evs);
            && Waits(st, W.AtShift, [ScaleDownCanary], st.run.ws.answers) && Scaled(st.run.ws.answers)
            && st.world.cluster == Raise(cfg.input, world.cluster)
    ensures Present(cfg.input, Raise(cfg.input, world.cluster))
    ensures StableOf(cfg.input, Raise(cfg.input, world.cluster)) == StableOf(cfg.input, world.cluster)
    ensures forall i | 0 <= i < |evs| :: Tame(evs[i])
  {
    hide Play, PlayFrom, Whole, Told, Raise, Initial, Scaled, CanaryName, StableName;
    var n := cfg.input.bakeSeconds;
    var e0, e1 := Whole([Ok], [0], false), Whole([Ok, Ok, Ok], [0, 0, 0], false);
    var e2 := Whole(seq(n, _ => Ok), seq(n, _ => cfg.input.canaryReplicas), false);
    StartWaits(cfg, world);
    StartIsEmpty(cfg, world);
    AppendPlay(cfg, world, [], e0);
    assert [] + e0 == e0;
    PassPolicy(cfg, Initial(cfg, world));
    AppendPlay(cfg, world, e0, e1);
    PassScale(cfg, Play(cfg, world, e0));
    RaiseCounts(cfg.input, world.cluster);
    AppendPlay(cfg, world, e0 + e1, e2);
    PassBake(cfg, Play(cfg, world, e0 + e1));
    evs := e0 + e1 + e2;
    WholeIsTame([Ok], [0]);
    WholeIsTame([Ok, Ok, Ok], [0, 0, 0]);
    WholeIsTame(seq(n, _ => Ok), seq(n, _ => cfg.input.canaryReplicas));
  }

  lemma ShiftSucceeds(input: CanaryInput, c: Cluster.State)
    requires Present(input, c) && !input.simulateTrafficFail
    ensures |Calls(input, ShiftTraffic)| == 2 && Attempt(c, Calls(input, ShiftTraffic), [Ok, Ok]).ok
  {
    hide CanaryName, StableName, CanaryShare, StableShare;
    var calls := Calls(input, ShiftTraffic);
    AttemptSplit(c, calls[0], [calls[1]], [Ok, Ok]);
    assert calls == [calls[0]] + [calls[1]] && [Ok, Ok][1..] == [Ok];
    OneCall(Do(c, calls[0], Ok), calls[1], Ok, 0);
    assert Attempt(c, [calls[0]], [Ok, Ok]).ok;
  }

  /** A shift that succeeds leads to the gate, or past it if there is no time to wait. */
  lemma PassShift(cfg: Config, st: St)
    requires Waits(st, W.AtShift, [ScaleDownCanary], st.run.ws.answers) && ReachesGate(cfg.input)
    requires Present(cfg.input, st.world.cluster)
    ensures var st' := PlayFrom(cfg, st, Whole([Ok, Ok], [0, 0], false));
            && st'.world.cluster == Halve(cfg.input, st.world.cluster)
            && Waits(st', if W.ReadyAtOnce(cfg.input) then W.AtRecord(Timeout) else W.AtGate,
                     [ScaleDownCanary, ShiftTrafficBack], st'.run.ws.answers)
  {
    hide PlayFrom, Whole, Told, CanaryName, StableName, Halve, Attempt, Calls;
    ShiftAttempt(cfg.input, st.world.cluster);
    ShiftSucceeds(cfg.input, st.world.cluster);
    AttemptRuns(cfg, st, ShiftTraffic, [Ok, Ok], [0, 0], false);
    var v := Verdict(st.world.cluster, Calls(cfg.input, ShiftTraffic), [Ok, Ok], [0, 0], false);
    ToldResumes(cfg, st.run.ws, Completed(v));
  }

  /** The timer fires, unless it already has. */
  function TimeOut(input: CanaryInput): seq<Event> {
    if W.ReadyAtOnce(input) then [] else [Wake(Mail([], true, false))]
  }

  lemma PassGate(cfg: Config, st: St)
    requires Waits(st, if W.ReadyAtOnce(cfg.input) then W.AtRecord(Timeout) else W.AtGate,
                   [ScaleDownCanary, ShiftTrafficBack], st.run.ws.answers)
    ensures var st' := PlayFrom(cfg, st, TimeOut(cfg.input));
            && Waits(st', W.AtRecord(Timeout), [ScaleDownCanary, ShiftTrafficBack], st'.run.ws.answers)
            && st'.world.cluster == st.world.cluster
  {
    if !W.ReadyAtOnce(cfg.input) {
      var fired := Wake(Mail([], true, false));
      assert TimeOut(cfg.input) == [fired] && [fired][1..] == [];
      assert PlayFrom(cfg, st, [fired]) == Step(cfg, st, fired);
      assert st.run.ws.inbox + [] == st.run.ws.inbox;
    }
  }

  lemma PassRecord(cfg: Config, st: St)
    requires Waits(st, W.AtRecord(Timeout), [ScaleDownCanary, ShiftTrafficBack], st.run.ws.answers)
    ensures var st' := PlayFrom(cfg, st, Whole([Ok], [0], false));
            && Waits(st', W.AtUndo([ScaleDownCanary], ShiftTrafficBack), [ScaleDownCanary, ShiftTrafficBack],
                     st'.run.ws.answers)
            && st'.world.cluster == st.world.cluster && W.Unwinding(st'.run.ws.res)
  {
    hide PlayFrom, Whole, Told;
    var a := W.Waiting(st.run.ws).value;
    OneCall(st.world.cluster, Append, Ok, 0);
    AttemptRuns(cfg, st, a, [Ok], [0], false);
    ToldResumes(cfg, st.run.ws, Completed(false));
    assert [ScaleDownCanary, ShiftTrafficBack][..1] == [ScaleDownCanary];
  }

  /** The compensation begins and drops the canary. */
  lemma DropCanary(cfg: Config, st: St)
    requires Waits(st, W.AtUndo([ScaleDownCanary], ShiftTrafficBack), [ScaleDownCanary, ShiftTrafficBack],
                   st.run.ws.answers)
    requires Present(cfg.input, st.world.cluster)
    ensures var st' := PlayFrom(cfg, st, [Begin(true, 1), Answer(Ok, 0, 1)]);
            && st'.run.ws == st.run.ws && Present(cfg.input, st'.world.cluster)
            && StableOf(cfg.input, st'.world.cluster) == StableOf(cfg.input, st.world.cluster)
            && CanaryOf(cfg.input, st'.world.cluster).replicas == 0
  {
    NamesNeverCollide(cfg.input.service, cfg.input.service);
    hide CanaryName, StableName, ToInt32;
    var begun := Step(cfg, st, Begin(true, 1));
    var evs := [Begin(true, 1), Answer(Ok, 0, 1)];
    assert evs[1..] == [Answer(Ok, 0, 1)] && evs[1..][1..] == [];
    var dropped := Step(cfg, begun, Answer(Ok, 0, 1));
    assert PlayFrom(cfg, begun, evs[1..]) == PlayFrom(cfg, dropped, []) == dropped;
  }

  /** The dip is reached from every baseline, in a run in which nothing fails or is lost: the shift is reported, the
      gate times out, and ShiftTrafficBack has made its first write and not its second. */
  lemma UnwindingDips(cfg: Config, world: World) returns (evs: seq<Event>)
    requires Baseline(cfg.input, world.cluster) && ReachesGate(cfg.input)
    ensures var st := Play(cfg, world, evs);
            && W.Unwinding(st.run.ws.res) && Present(cfg.input, st.world.cluster)
            && Together(cfg.input, st.world.cluster) == cfg.input.targetReplicas / 2 < cfg.input.targetReplicas
  {
    hide Play, PlayFrom, Whole, Told, Raise, Halve, CanaryName, StableName;
    var e3, e4, e5 := Whole([Ok, Ok], [0, 0], false), TimeOut(cfg.input), Whole([Ok], [0], false);
    var e6 := [Begin(true, 1), Answer(Ok, 0, 1)];
    evs := ComeToShift(cfg, world);
    AppendPlay(cfg, world, evs, e3);
    PassShift(cfg, Play(cfg, world, evs));
    ShiftAttempt(cfg.input, Raise(cfg.input, world.cluster));
    evs := evs + e3;
    AppendPlay(cfg, world, evs, e4);
    PassGate(cfg, Play(cfg, world, evs));
    evs := evs + e4;
    AppendPlay(cfg, world, evs, e5);
    PassRecord(cfg, Play(cfg, world, evs));
    evs := evs + e5;
    AppendPlay(cfg, world, evs, e6);
    DropCanary(cfg, Play(cfg, world, evs));
    evs := evs + e6;
  }

  lemma ShiftHasTwoCalls(input: CanaryInput)
    ensures |Calls(input, ShiftTraffic)| <= 2
  {}

  lemma UndoCanary(cfg: Config, st: St, stack: seq<Activity>)
    requires Waits(st, W.AtUndo([], ScaleDownCanary), stack, st.run.ws.answers) && Scaled(st.run.ws.answers)
    requires Present(cfg.input, st.world.cluster)
    ensures var st' := PlayFrom(cfg, st, Whole([Ok], [0], false));
            && Present(cfg.input, st'.world.cluster)
            && StableOf(cfg.input, st'.world.cluster) == StableOf(cfg.input, st.world.cluster)
            && CanaryOf(cfg.input, st'.world.cluster).replicas == 0
            && Waits(st', W.AtAlert, stack, st'.run.ws.answers) && Scaled(st'.run.ws.answers)
            && st'.run.ws.res == st.run.ws.res
  {
    NamesNeverCollide(cfg.input.service, cfg.input.service);
    hide PlayFrom, Whole, Told, CanaryName, StableName, Scaled;
    var call := Scale(CanaryName(cfg.input.service), 0);
    assert Calls(cfg.input, ScaleDownCanary) == [call];
    OneCall(st.world.cluster, call, Ok, 0);
    AttemptRuns(cfg, st, ScaleDownCanary, [Ok], [0], false);
    var v := Verdict(st.world.cluster, [call], [Ok], [0], false);
    ToldResumes(cfg, st.run.ws, Completed(v));
    ScaledAppend(st.run.ws.answers, W.Answer(ScaleDownCanary, Completed(v)));
  }

  /** When every attempt of the traffic shift dies after its writes, its compensation is not registered: the rollback
      completes with the canary at zero and stable left at half its target. */
  lemma {:induction false} StrandedStable(cfg: Config, world: World) returns (evs: seq<Event>)
    requires Baseline(cfg.input, world.cluster) && ReachesShift(cfg.input)
    ensures var ws, c := Play(cfg, world, evs).run.ws, Play(cfg, world, evs).world.cluster;
            && ws.pc.Finished? && ws.res.status == RolledBack
            && Laws.Reported(ws.answers, ScaleCanary) && Laws.CompensationsCompleted(ws.answers)
            && Present(cfg.input, c) && CanaryOf(cfg.input, c).replicas == 0
            && StableOf(cfg.input, c).replicas == cfg.input.targetReplicas / 2 < cfg.input.targetReplicas
  {
    hide Play, PlayFrom, Whole, Repeat, Told, Raise, Halve, Scaled, CanaryName, StableName;
    var e3, e4, e5 := Repeat(Whole([Ok, Ok], [0, 0], true), 5), Whole([Ok], [0], false), Whole([], [], false);
    evs := ComeToShift(cfg, world);
    AppendPlay(cfg, world, evs, e3);
    ShiftDies(cfg, Play(cfg, world, evs));
    ShiftAttempt(cfg.input, Raise(cfg.input, world.cluster));
    evs := evs + e3;
    AppendPlay(cfg, world, evs, e4);
    UndoCanary(cfg, Play(cfg, world, evs), [ScaleDownCanary]);
    evs := evs + e4;
    AppendPlay(cfg, world, evs, e5);
    var st := Play(cfg, world, evs);
    EndWithAlert(cfg, st, [ScaleDownCanary], st.run.ws.answers);
    evs := evs + e5;
    AlertedScaled(st.run.ws.answers, Play(cfg, world, evs).run.ws.answers);
  }

  lemma AlertedScaled(log: seq<W.Answer>, log': seq<W.Answer>)
    requires Scaled(log) && exists a: Activity, r :: a.Alert? && log' == log + [W.Answer(a, r)]
    ensures Laws.Reported(log', ScaleCanary) && Laws.CompensationsCompleted(log')
  {
    var a: Activity, r :| a.Alert? && log' == log + [W.Answer(a, r)];
    ScaledAppend(log, W.Answer(a, r));
  }

  // --- A rollback that leaves the new image on stable ---

  function Decision(input: CanaryInput): Types.Decision { if input.autoPromote then Auto else Approved }

  function Approval(): Event { Wake(Mail([ApprovalSignal(true, "")], false, false)) }

  /** The approval, sent before the gate is reached, unless none is asked for. */
  function EarlyApproval(input: CanaryInput): seq<Event> { if input.autoPromote then [] else [Approval()] }

  lemma HearApproval(cfg: Config, st: St)
    requires Waits(st, W.AtShift, [ScaleDownCanary], st.run.ws.answers)
    ensures PlayFrom(cfg, st, EarlyApproval(cfg.input)) ==
            if cfg.input.autoPromote then st
            else st.(run := st.run.(ws := st.run.ws.(inbox := [ApprovalSignal(true, "")])))
  {
    assert st.run.ws.inbox + [ApprovalSignal(true, "")] == [ApprovalSignal(true, "")];
    if !cfg.input.autoPromote {
      assert [Approval()][1..] == [];
      assert PlayFrom(cfg, st, [Approval()]) == Step(cfg, st, Approval());
    }
  }

  /** A shift that succeeds leads past the gate when the approval is there. */
  lemma PassApprovedShift(cfg: Config, st: St)
    requires Waits(st, W.AtShift, [ScaleDownCanary], st.run.ws.answers) && Scaled(st.run.ws.answers)
    requires ReachesShift(cfg.input) && Present(cfg.input, st.world.cluster)
    ensures var st' := PlayFrom(cfg, st, EarlyApproval(cfg.input) + Whole([Ok, Ok], [0, 0], false));
            && st'.world.cluster == Halve(cfg.input, st.world.cluster)
            && Waits(st', W.AtRecord(Decision(cfg.input)), [ScaleDownCanary, ShiftTrafficBack], st'.run.ws.answers)
            && Scaled(st'.run.ws.answers)
  {
    hide PlayFrom, Whole, Told, CanaryName, StableName, Halve, Attempt, Calls, Scaled;
    HearApproval(cfg, st);
    PlayFromAppend(cfg, st, EarlyApproval(cfg.input), Whole([Ok, Ok], [0, 0], false));
    var heard := PlayFrom(cfg, st, EarlyApproval(cfg.input));
    ShiftAttempt(cfg.input, st.world.cluster);
    ShiftSucceeds(cfg.input, st.world.cluster);
    AttemptRuns(cfg, heard, ShiftTraffic, [Ok, Ok], [0, 0], false);
    var v := Verdict(st.world.cluster, Calls(cfg.input, ShiftTraffic), [Ok, Ok], [0, 0], false);
    ToldResumes(cfg, heard.run.ws, Completed(v));
    ScaledAppend(st.run.ws.answers, W.Answer(ShiftTraffic, Completed(v)));
  }

  lemma RecordApproved(cfg: Config, st: St)
    requires Waits(st, W.AtRecord(Decision(cfg.input)), [ScaleDownCanary, ShiftTrafficBack], st.run.ws.answers)
    requires Scaled(st.run.ws.answers)
    ensures var st' := PlayFrom(cfg, st, Whole([Ok], [0], false));
            && Waits(st', W.AtPromote, [ScaleDownCanary, ShiftTrafficBack], st'.run.ws.answers)
            && Scaled(st'.run.ws.answers) && st'.world.cluster == st.world.cluster
  {
    hide PlayFrom, Whole, Told, Scaled;
    var a := W.Waiting(st.run.ws).value;
    OneCall(st.world.cluster, Append, Ok, 0);
    AttemptRuns(cfg, st, a, [Ok], [0], false);
    ToldResumes(cfg, st.run.ws, Completed(false));
    ScaledAppend(st.run.ws.answers, W.Answer(a, Completed(false)));
  }

  /** The cluster with stable on the new image. */
  function Repaint(input: CanaryInput, c: Cluster.State): Cluster.State
    requires Present(input, c)
  {
    c[StableName(input.service) := StableOf(input, c).(image := input.imageTag)]
  }

  /** An attempt of Promote that patches stable and then cannot read its count. */
  lemma PatchOnly(input: CanaryInput, c: Cluster.State, lost: Reply)
    requires Present(input, c) && lost.ReadError?
    ensures |Calls(input, Promote)| == 3
    ensures var o := Attempt(c, Calls(input, Promote), [Ok, lost, lost]); o.cluster == Repaint(input, c) && !o.ok
    ensures Present(input, Repaint(input, c)) && Repaint(input, Repaint(input, c)) == Repaint(input, c)
    ensures StableOf(input, Repaint(input, c)) == StableOf(input, c).(image := input.imageTag)
  {
    hide CanaryName, StableName, ToInt32;
    var calls, replies := Calls(input, Promote), [Ok, lost, lost];
    assert replies[1..] == [lost, lost] && calls[1..][0] == calls[1];
    var d := Do(c, calls[0], Ok);
    assert d == Repaint(input, c) && Succeeds(c, calls[0], Ok);
    assert Attempt(d, calls[1..], [lost, lost]).cluster == d && !Attempt(d, calls[1..], [lost, lost]).ok;
  }

  lemma PromoteOnlyPatches(cfg: Config, st: St, lost: Reply)
    requires Waits(st, W.AtPromote, [ScaleDownCanary, ShiftTrafficBack], st.run.ws.answers)
    requires Scaled(st.run.ws.answers) && Present(cfg.input, st.world.cluster) && lost.ReadError?
    ensures var st' := PlayFrom(cfg, st, Repeat(Whole([Ok, lost, lost], [0, 0, 0], false), 5));
            && st'.world.cluster == Repaint(cfg.input, st.world.cluster)
            && Waits(st', W.AtUndo([ScaleDownCanary], ShiftTrafficBack), [ScaleDownCanary, ShiftTrafficBack],
                     st'.run.ws.answers)
            && Scaled(st'.run.ws.answers)
            && st'.run.ws.res.status == RolledBack && st'.run.ws.res.reason == PromoteFailed
  {
    hide PlayFrom, Whole, Repeat, Told, CanaryName, StableName, Scaled, Repaint, Calls, Attempt;
    var c := st.world.cluster;
    PatchOnly(cfg.input, c, lost);
    PatchOnly(cfg.input, Repaint(cfg.input, c), lost);
    AllAttemptsFail(cfg, st, Promote, [Ok, lost, lost], [0, 0, 0], false, Repaint(cfg.input, c));
    ToldResumes(cfg, st.run.ws, Failed);
    ScaledAppend(st.run.ws.answers, W.Answer(Promote, Failed));
    assert [ScaleDownCanary, ShiftTrafficBack][..1] == [ScaleDownCanary];
  }

  /** An attempt of ShiftTrafficBack that succeeds. */
  lemma BackAttempt(input: CanaryInput, c: Cluster.State)
    requires Present(input, c) && Sized(input)
    ensures |Calls(input, ShiftTrafficBack)| == 2
    ensures var o := Attempt(c, Calls(input, ShiftTrafficBack), [Ok, Ok]);
            && o.ok && Present(input, o.cluster)
            && StableOf(input, o.cluster) == StableOf(input, c).(replicas := input.targetReplicas)
  {
    NamesNeverCollide(input.service, input.service);
    hide CanaryName, StableName;
    assert ToInt32(Total(input.targetReplicas)) == input.targetReplicas;
    var x, y := Scale(CanaryName(input.service), 0), Scale(StableName(input.service), input.targetReplicas);
    assert Calls(input, ShiftTrafficBack) == [x, y];
    AttemptSplit(c, x, [y], [Ok, Ok]);
    assert [x] + [y] == [x, y] && [Ok, Ok][1..] == [Ok];
    OneCall(Do(c, x, Ok), y, Ok, 0);
    assert Attempt(c, [x], [Ok, Ok]).cluster == Do(c, x, Ok) && Attempt(c, [x], [Ok, Ok]).ok by { hide Do; }
  }

  lemma UndoShift(cfg: Config, st: St)
    requires Waits(st, W.AtUndo([ScaleDownCanary], ShiftTrafficBack), [ScaleDownCanary, ShiftTrafficBack],
                   st.run.ws.answers)
    requires Scaled(st.run.ws.answers) && Present(cfg.input, st.world.cluster) && Sized(cfg.input)
    ensures var st' := PlayFrom(cfg, st, Whole([Ok, Ok], [0, 0], false));
            && Present(cfg.input, st'.world.cluster)
            && StableOf(cfg.input, st'.world.cluster) ==
                 StableOf(cfg.input, st.world.cluster).(replicas := cfg.input.targetReplicas)
            && Waits(st', W.AtUndo([], ScaleDownCanary), [ScaleDownCanary, ShiftTrafficBack], st'.run.ws.answers)
            && Scaled(st'.run.ws.answers) && st'.run.ws.res == st.run.ws.res
  {
    hide PlayFrom, Whole, Told, CanaryName, StableName, Scaled, Attempt, Calls;
    BackAttempt(cfg.input, st.world.cluster);
    AttemptRuns(cfg, st, ShiftTrafficBack, [Ok, Ok], [0, 0], false);
    var v := Verdict(st.world.cluster, Calls(cfg.input, ShiftTrafficBack), [Ok, Ok], [0, 0], false);
    ToldResumes(cfg, st.run.ws, Completed(v));
    ScaledAppend(st.run.ws.answers, W.Answer(ShiftTrafficBack, Completed(v)));
    assert [ScaleDownCanary][..0] == [];
  }

  /** When every attempt of Promote fails after its patch, the rollback gives the counts back but not the image: it
      ends, in a run in which no failed call was applied, nothing was lost and every compensation completed, with stable
      wholly on the new image. */
  lemma StrandedImage(cfg: Config, world: World) returns (evs: seq<Event>)
    requires Baseline(cfg.input, world.cluster) && ReachesShift(cfg.input)
    ensures AllAcknowledged(cfg, world, evs)
    ensures var ws, c := Play(cfg, world, evs).run.ws, Play(cfg, world, evs).world.cluster;
            && ws.pc.Finished? && ws.res.status == RolledBack && ws.res.reason == PromoteFailed
            && Laws.Reported(ws.answers, ScaleCanary) && Laws.CompensationsCompleted(ws.answers)
            && CountsRestored(cfg.input, c)
            && StableOf(cfg.input, c) == Deployment(cfg.input.imageTag, cfg.input.targetReplicas)
            && (StableOf(cfg.input, world.cluster).image != cfg.input.imageTag ==>
                  !Restored(cfg.input, world.cluster, c))
  {
    hide Play, PlayFrom, Whole, Repeat, Told, Raise, Halve, Repaint, Scaled, CanaryName, StableName, AllAcknowledged,
      EarlyApproval;
    var lost := ReadError(Transport);
    evs := ComeToShift(cfg, world);
    var start := Play(cfg, world, evs);
    var more := ImageTail(cfg, start, lost);
    AppendPlay(cfg, world, evs, more);
    evs := evs + more;
    TameIsAcknowledged(cfg, world, evs);
  }

  /** Promote fails after its patch, and the rollback succeeds. */
  lemma ImageTail(cfg: Config, st: St, lost: Reply) returns (evs: seq<Event>)
    requires Waits(st, W.AtShift, [ScaleDownCanary], st.run.ws.answers) && Scaled(st.run.ws.answers)
    requires ReachesShift(cfg.input) && Present(cfg.input, st.world.cluster) && lost.ReadError?
    ensures forall i | 0 <= i < |evs| :: Tame(evs[i])
    ensures var ws, c := PlayFrom(cfg, st, evs).run.ws, PlayFrom(cfg, st, evs).world.cluster;
            && ws.pc.Finished? && ws.res.status == RolledBack && ws.res.reason == PromoteFailed
            && Laws.Reported(ws.answers, ScaleCanary) && Laws.CompensationsCompleted(ws.answers)
            && CountsRestored(cfg.input, c)
            && StableOf(cfg.input, c) == Deployment(cfg.input.imageTag, cfg.input.targetReplicas)
  {
    hide PlayFrom, Whole, Repeat, Told, Halve, Repaint, Scaled, CanaryName, StableName;
    var two, one := Whole([Ok, Ok], [0, 0], false), Whole([Ok], [0], false);
    var patch := Whole([Ok, lost, lost], [0, 0, 0], false);
    PassApprovedShift(cfg, st);
    ShiftAttempt(cfg.input, st.world.cluster);
    evs := EarlyApproval(cfg.input) + two;
    PlayFromAppend(cfg, st, evs, one);
    RecordApproved(cfg, PlayFrom(cfg, st, evs));
    evs := evs + one;
    PlayFromAppend(cfg, st, evs, Repeat(patch, 5));
    PromoteOnlyPatches(cfg, PlayFrom(cfg, st, evs), lost);
    PatchOnly(cfg.input, Halve(cfg.input, st.world.cluster), lost);
    evs := evs + Repeat(patch, 5);
    var tail := CleanRollback(cfg, PlayFrom(cfg, st, evs));
    PlayFromAppend(cfg, st, evs, tail);
    WholeIsTame([Ok, Ok], [0, 0]);
    WholeIsTame([Ok], [0]);
    WholeIsTame([Ok, lost, lost], [0, 0, 0]);
    RepeatIsTame(patch, 5);
    evs := evs + tail;
  }

  /** Both compensations succeed. */
  lemma CleanRollback(cfg: Config, st: St) returns (evs: seq<Event>)
    requires Waits(st, W.AtUndo([ScaleDownCanary], ShiftTrafficBack), [ScaleDownCanary, ShiftTrafficBack],
                   st.run.ws.answers)
    requires Scaled(st.run.ws.answers) && Present(cfg.input, st.world.cluster) && Sized(cfg.input)
    ensures forall i | 0 <= i < |evs| :: Tame(evs[i])
    ensures var ws, c := PlayFrom(cfg, st, evs).run.ws, PlayFrom(cfg, st, evs).world.cluster;
            && ws.pc.Finished? && ws.res == st.run.ws.res
            && Laws.Reported(ws.answers, ScaleCanary) && Laws.CompensationsCompleted(ws.answers)
            && Present(cfg.input, c) && CanaryOf(cfg.input, c).replicas == 0
            && StableOf(cfg.input, c) ==
                 StableOf(cfg.input, st.world.cluster).(replicas := cfg.input.targetReplicas)
  {
    hide PlayFrom, Whole, Told, Scaled, CanaryName, StableName;
    var u := [ScaleDownCanary, ShiftTrafficBack];
    var two, one, none := Whole([Ok, Ok], [0, 0], false), Whole([Ok], [0], false), Whole([], [], false);
    UndoShift(cfg, st);
    PlayFromAppend(cfg, st, two, one);
    UndoCanary(cfg, PlayFrom(cfg, st, two), u);
    evs := two + one;
    PlayFromAppend(cfg, st, evs, none);
    var last := PlayFrom(cfg, st, evs);
    EndWithAlert(cfg, last, u, last.run.ws.answers);
    evs := evs + none;
    AlertedScaled(last.run.ws.answers, PlayFrom(cfg, st, evs).run.ws.answers);
    WholeIsTame([Ok, Ok], [0, 0]);
    WholeIsTame([Ok], [0]);
    WholeIsTame([], []);
  }
}
