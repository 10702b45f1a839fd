/** The time bound is exact: a run that is still going when it is reached. */
module Slowest {
  import opened Types
  import opened Cluster
  import opened Activities
  import opened Audit
  import opened Deploy
  import opened Timing
  import S = Stranded
  import Safety
  import W = Workflow

  function Lift(evs: seq<Event>): seq<Moment> { if evs == [] then [] else [Happen(evs[0])] + Lift(evs[1..]) }

  lemma AnswerIsInstant(cfg: Config, t: Timed, ev: Event)
    requires ev.Answer? && !t.st.run.stage.Idle? && W.Waiting(t.st.run.ws).Some?
    ensures var st' := Step(cfg, t.st, ev);
            && TimedStep(cfg, t, Happen(ev)) == Timed(st', t.clock, t.left)
            && !st'.run.stage.Idle? && st'.run.ws == t.st.run.ws
  {
    hide W.Waiting, Calls, Do, Succeeds, VerdictAfter, InsertIf;
  }

  /** API calls take no time here: the whole attempt is spent waiting for its end. */
  lemma {:induction false} CallsAreInstant(cfg: Config, t: Timed, replies: seq<Reply>, readies: seq<int>)
    requires |replies| == |readies| && !t.st.run.stage.Idle? && W.Waiting(t.st.run.ws).Some?
    ensures TimedFrom(cfg, t, Lift(AttemptEvents(replies, readies, 1))) ==
            Timed(PlayFrom(cfg, t.st, AttemptEvents(replies, readies, 1)), t.clock, t.left)
    decreases |replies|
  {
    hide W.Waiting, Step, TimedStep;
    var evs := AttemptEvents(replies, readies, 1);
    if replies != [] {
      var ev := Answer(replies[0], readies[0], 1);
      AnswerIsInstant(cfg, t, ev);
      CallsAreInstant(cfg, TimedStep(cfg, t, Happen(ev)), replies[1..], readies[1..]);
      assert evs[0] == ev && evs[1..] == AttemptEvents(replies[1..], readies[1..], 1);
      var lifted := Lift(evs);
      assert lifted[0] == Happen(ev) && lifted[1..] == Lift(evs[1..]);
    }
  }

  /** The run waits for an activity whose first k attempts are gone, and whose next one is due in left. */
  predicate Due(cfg: Config, t: Timed, a: Activity) {
    && W.Waiting(t.st.run.ws) == Some(a) && t.st.run.stage.Idle?
    && t.st.run.attempt < MaximumAttempts(a)
    && t.left == Backoff(OptionsOf(cfg.input, a), t.st.run.attempt) as real
  }

  /** Wait out the backoff, and begin. */
  lemma BeginLate(cfg: Config, t: Timed, a: Activity)
    requires Due(cfg, t, a)
    ensures var t' := TimedFrom(cfg, t, [Pass(t.left), Happen(Begin(true, 1))]);
            && t'.st == Step(cfg, t.st, Begin(true, 1))
            && t'.st.world.cluster == t.st.world.cluster && t'.st.run.ws == t.st.run.ws &&
               t'.st.run.attempt == t.st.run.attempt + 1
            && !t'.st.run.stage.Idle?
            && t'.clock == t.clock + t.left && t'.left == OptionsOf(cfg.input, a).startToClose as real
  {
    hide W.Waiting, Calls, OptionsOf, MaximumAttempts, Backoff;
    FromTwo(cfg, t, Pass(t.left), Happen(Begin(true, 1)));
    var mid := TimedStep(cfg, t, Pass(t.left));
    assert mid == Timed(t.st, t.clock + t.left, 0.0);
  }

  lemma CutOffIsNatural(input: CanaryInput, a: Activity)
    ensures OptionsOf(input, a).startToClose >= 0
  {}

  /** Let the attempt last as long as it may, and end it. */
  lemma EndLate(cfg: Config, t: Timed, a: Activity, last: Event)
    requires W.Waiting(t.st.run.ws) == Some(a) && t.left == OptionsOf(cfg.input, a).startToClose as real
    ensures TimedFrom(cfg, t, [Pass(t.left)]) == Timed(t.st, t.clock + t.left, 0.0)
    ensures TimedFrom(cfg, t, [Pass(t.left), Happen(last)]) ==
            Timed(Step(cfg, t.st, last), t.clock + t.left, NewLeft(cfg, t.st.run, Step(cfg, t.st, last).run, 0.0))
  {
    hide W.Waiting, Step, NewLeft, OptionsOf;
    CutOffIsNatural(cfg.input, a);
    FromTwo(cfg, t, Pass(t.left), Happen(last));
  }

  /** From t to t' the activity took this long and left this cluster, and the code moved on to ws. */
  predicate Took(cfg: Config, t: Timed, t': Timed, seconds: int, ws: W.State, cluster: Cluster.State) {
    && t'.clock == t.clock + seconds as real
    && t'.st.run.ws == ws && t'.st.world.cluster == cluster
    && (ws.pc != t.st.run.ws.pc ==>
          && t'.st.run.stage.Idle? && t'.st.run.attempt == 0
          && t'.left == if ws.pc.AtGate? then GateWait(cfg.input) as real else 0.0)
  }

  /** Just before its last moment the run still waited, and the clock already showed its end. */
  predicate UntilTheEnd(cfg: Config, t: Timed, ms: seq<Moment>) {
    ms != [] &&
    var t', before := TimedFrom(cfg, t, ms), TimedFrom(cfg, t, ms[..|ms| - 1]);
    before.clock == t'.clock && before.st.run.ws == t.st.run.ws
  }

  lemma DieLate(cfg: Config, t: Timed, a: Activity) returns (ms: seq<Moment>)
    requires Due(cfg, t, a)
    ensures var t', o := TimedFrom(cfg, t, ms), OptionsOf(cfg.input, a);
            && UntilTheEnd(cfg, t, ms)
            && if t.st.run.attempt + 1 < MaximumAttempts(a) then
                 && Due(cfg, t', a) && t'.st.run.attempt == t.st.run.attempt + 1
                 && t'.st.run.ws == t.st.run.ws && t'.st.world.cluster == t.st.world.cluster
                 && t'.clock == t.clock + t.left + o.startToClose as real
               else
                 Took(cfg, t, t', Backoff(o, t.st.run.attempt) + o.startToClose, S.Told(cfg, t.st.run.ws, Failed),
                      t.st.world.cluster)
  {
    hide W.Waiting, OptionsOf, MaximumAttempts, Backoff, Step, TimedFrom, TimedStep, W.OnTask;
    var crash := Crash(S.NoMail());
    BeginLate(cfg, t, a);
    var begin := [Pass(t.left), Happen(Begin(true, 1))];
    var mid := TimedFrom(cfg, t, begin);
    EndLate(cfg, mid, a, crash);
    var end := [Pass(mid.left), Happen(crash)];
    TimedFromAppend(cfg, t, begin, end);
    TimedFromAppend(cfg, t, begin, [Pass(mid.left)]);
    ms := begin + end;
    assert ms[..|ms| - 1] == begin + [Pass(mid.left)];
    CrashEnds(cfg, mid, a);
  }

  lemma CrashEnds(cfg: Config, t: Timed, a: Activity)
    requires W.Waiting(t.st.run.ws) == Some(a) && !t.st.run.stage.Idle?
    ensures var st' := Step(cfg, t.st, Crash(S.NoMail()));
            && st'.world == t.st.world
            && if t.st.run.attempt < MaximumAttempts(a) then
                 st'.run == t.st.run.(stage := Idle) &&
                 NewLeft(cfg, t.st.run, st'.run, 0.0) == Backoff(OptionsOf(cfg.input, a), t.st.run.attempt) as real
               else
                 st'.run.ws == S.Told(cfg, t.st.run.ws, Failed) &&
                 (st'.run.ws.pc != t.st.run.ws.pc ==>
                    st'.run.stage.Idle? && st'.run.attempt == 0 &&
                    NewLeft(cfg, t.st.run, st'.run, 0.0) ==
                      if st'.run.ws.pc.AtGate? then GateWait(cfg.input) as real else 0.0)
  {
    hide W.Waiting, OptionsOf, MaximumAttempts, Backoff, W.OnTask, Calls;
  }

  /** Every attempt dies at the last moment: the activity takes its whole budget and fails. */
  lemma {:induction false} AllDieLate(cfg: Config, t: Timed, a: Activity) returns (ms: seq<Moment>)
    requires Due(cfg, t, a)
    ensures UntilTheEnd(cfg, t, ms)
    ensures Took(cfg, t, TimedFrom(cfg, t, ms), Rest(OptionsOf(cfg.input, a), t.st.run.attempt),
                 S.Told(cfg, t.st.run.ws, Failed), t.st.world.cluster)
    decreases MaximumAttempts(a) - t.st.run.attempt
  {
    hide W.Waiting, OptionsOf, MaximumAttempts, Backoff, TimedFrom, S.Told;
    var first := DieLate(cfg, t, a);
    var t', o := TimedFrom(cfg, t, first), OptionsOf(cfg.input, a);
    AttemptsOf(cfg.input, a);
    if t.st.run.attempt + 1 < MaximumAttempts(a) {
      var rest := AllDieLate(cfg, t', a);
      ms := first + rest;
      TimedFromAppend(cfg, t, first, rest);
      TimedFromAppend(cfg, t, first, rest[..|rest| - 1]);
      assert ms[..|ms| - 1] == first + rest[..|rest| - 1];
    } else {
      ms := first;
      assert Rest(o, t.st.run.attempt + 1) == 0;
    }
  }

  lemma AttemptsOf(input: CanaryInput, a: Activity)
    ensures OptionsOf(input, a).attempts == MaximumAttempts(a)
  {}

  /** Every attempt but the last dies, and the last one succeeds at the last moment. */
  lemma {:induction false} WinLate(cfg: Config, t: Timed, a: Activity, replies: seq<Reply>, readies: seq<int>)
    returns (ms: seq<Moment>)
    requires Due(cfg, t, a)
    requires |Calls(cfg.input, a)| <= |replies| == |readies|
    requires Attempt(t.st.world.cluster, Calls(cfg.input, a), replies).ok
    ensures Took(cfg, t, TimedFrom(cfg, t, ms), Rest(OptionsOf(cfg.input, a), t.st.run.attempt),
                 S.Told(cfg, t.st.run.ws,
                        Completed(Verdict(t.st.world.cluster, Calls(cfg.input, a), replies, readies, false))),
                 Attempt(t.st.world.cluster, Calls(cfg.input, a), replies).cluster)
    decreases MaximumAttempts(a) - t.st.run.attempt
  {
    hide W.Waiting, OptionsOf, MaximumAttempts, Backoff, TimedFrom, S.Told, Calls, Attempt, Verdict;
    AttemptsOf(cfg.input, a);
    var o := OptionsOf(cfg.input, a);
    if t.st.run.attempt + 1 < MaximumAttempts(a) {
      var first := DieLate(cfg, t, a);
      var rest := WinLate(cfg, TimedFrom(cfg, t, first), a, replies, readies);
      ms := first + rest;
      TimedFromAppend(cfg, t, first, rest);
    } else {
      ms := WinNow(cfg, t, a, replies, readies);
      assert Rest(o, t.st.run.attempt + 1) == 0;
    }
  }

  lemma WinNow(cfg: Config, t: Timed, a: Activity, replies: seq<Reply>, readies: seq<int>) returns (ms: seq<Moment>)
    requires Due(cfg, t, a)
    requires |Calls(cfg.input, a)| <= |replies| == |readies|
    requires Attempt(t.st.world.cluster, Calls(cfg.input, a), replies).ok
    ensures var o := OptionsOf(cfg.input, a);
            Took(cfg, t, TimedFrom(cfg, t, ms), Backoff(o, t.st.run.attempt) + o.startToClose,
                 S.Told(cfg, t.st.run.ws,
                        Completed(Verdict(t.st.world.cluster, Calls(cfg.input, a), replies, readies, false))),
                 Attempt(t.st.world.cluster, Calls(cfg.input, a), replies).cluster)
  {
    hide W.Waiting, OptionsOf, MaximumAttempts, Backoff, TimedFrom, S.Told, Calls, Attempt, Verdict, Step, TimedStep;
    BeginLate(cfg, t, a);
    var begin, calls := [Pass(t.left), Happen(Begin(true, 1))], Lift(AttemptEvents(replies, readies, 1));
    var begun := TimedFrom(cfg, t, begin);
    CallsAreInstant(cfg, begun, replies, readies);
    AttemptStarts(cfg, t.st, a, replies, readies, true, 1, 1);
    BeginFirst(cfg, t.st, AttemptEvents(replies, readies, 1));
    var called := TimedFrom(cfg, begun, calls);
    var last := Return(true, true, S.NoMail(), 1);
    EndLate(cfg, called, a, last);
    var end := [Pass(called.left), Happen(last)];
    TimedFromAppend(cfg, t, begin, calls);
    TimedFromAppend(cfg, t, begin + calls, end);
    ms := begin + calls + end;
    ReturnEnds(cfg, called, a, called.st.run.stage.verdict);
  }

  lemma BeginFirst(cfg: Config, st: St, evs: seq<Event>)
    ensures PlayFrom(cfg, st, [Begin(true, 1)] + evs) == PlayFrom(cfg, Step(cfg, st, Begin(true, 1)), evs)
  {
    hide Step;
    assert ([Begin(true, 1)] + evs)[1..] == evs;
  }

  lemma ReturnEnds(cfg: Config, t: Timed, a: Activity, verdict: bool)
    requires W.Waiting(t.st.run.ws) == Some(a) && t.st.run.stage == Returned(false, verdict)
    ensures var st' := Step(cfg, t.st, Return(true, true, S.NoMail(), 1));
            && st'.world.cluster == t.st.world.cluster
            && st'.run.ws == S.Told(cfg, t.st.run.ws, Completed(verdict))
            && (st'.run.ws.pc != t.st.run.ws.pc ==>
                  st'.run.stage.Idle? && st'.run.attempt == 0 &&
                  NewLeft(cfg, t.st.run, st'.run, 0.0) ==
                    if st'.run.ws.pc.AtGate? then GateWait(cfg.input) as real else 0.0)
  {
    hide W.Waiting, OptionsOf, MaximumAttempts, Backoff, W.OnTask, Calls, InsertIf, EndRow;
  }

  // --- The slowest run, activity by activity ---

  /** The code has just come to this point, with nothing in its inbox and no cancellation. */
  predicate At(cfg: Config, t: Timed, pc: W.Pc, stack: seq<Activity>) {
    && t.st.run.ws.pc == pc && t.st.run.ws.stack == stack && !t.st.run.ws.cancelled && t.st.run.ws.inbox == []
    && t.st.run.stage.Idle? && t.st.run.attempt == 0
    && t.left == if pc.AtGate? then GateWait(cfg.input) as real else 0.0
  }

  /** The next point is reached after this long. */
  predicate Reaches(cfg: Config, t: Timed, ms: seq<Moment>, seconds: int, pc: W.Pc, stack: seq<Activity>,
                    cluster: Cluster.State) {
    var t' := TimedFrom(cfg, t, ms);
    At(cfg, t', pc, stack) && t'.clock == t.clock + seconds as real && t'.st.world.cluster == cluster
  }

  lemma AtIsDue(cfg: Config, t: Timed, pc: W.Pc, stack: seq<Activity>, a: Activity)
    requires At(cfg, t, pc, stack) && W.Waiting(t.st.run.ws) == Some(a)
    ensures Due(cfg, t, a) && Rest(OptionsOf(cfg.input, a), 0) == Seconds(cfg.input, a)
  {
    BudgetInSeconds(cfg.input, a);
  }

  /** An activity that fails as late as it can. */
  lemma Fail(cfg: Config, t: Timed, pc: W.Pc, stack: seq<Activity>, a: Activity) returns (ms: seq<Moment>)
    requires At(cfg, t, pc, stack) && W.Waiting(t.st.run.ws) == Some(a)
    ensures UntilTheEnd(cfg, t, ms)
    ensures Took(cfg, t, TimedFrom(cfg, t, ms), Seconds(cfg.input, a), W.Resume(cfg.input, t.st.run.ws, Failed),
                 t.st.world.cluster)
  {
    hide TimedFrom, S.Told, W.Resume, MaximumAttempts, Backoff, W.Waiting;
    AtIsDue(cfg, t, pc, stack, a);
    S.ToldResumes(cfg, t.st.run.ws, Failed);
    ms := AllDieLate(cfg, t, a);
  }

  /** An activity that succeeds as late as it can. */
  lemma Win(cfg: Config, t: Timed, pc: W.Pc, stack: seq<Activity>, a: Activity, replies: seq<Reply>, readies: seq<int>,
            verdict: bool)
    returns (ms: seq<Moment>)
    requires At(cfg, t, pc, stack) && W.Waiting(t.st.run.ws) == Some(a)
    requires |Calls(cfg.input, a)| <= |replies| == |readies|
    requires Attempt(t.st.world.cluster, Calls(cfg.input, a), replies).ok
    requires verdict == Verdict(t.st.world.cluster, Calls(cfg.input, a), replies, readies, false)
    ensures Took(cfg, t, TimedFrom(cfg, t, ms), Seconds(cfg.input, a),
                 W.Resume(cfg.input, t.st.run.ws, Completed(verdict)),
                 Attempt(t.st.world.cluster, Calls(cfg.input, a), replies).cluster)
  {
    hide TimedFrom, S.Told, W.Resume, MaximumAttempts, Backoff, W.Waiting, Calls, Attempt, Verdict;
    AtIsDue(cfg, t, pc, stack, a);
    S.ToldResumes(cfg, t.st.run.ws, Completed(verdict));
    ms := WinLate(cfg, t, a, replies, readies);
  }

  lemma SlowPolicy(cfg: Config, t: Timed) returns (ms: seq<Moment>)
    requires At(cfg, t, W.AtPolicy, [])
    requires CanaryName(cfg.input.service) in t.st.world.cluster && !cfg.input.simulatePolicyReject
    ensures Reaches(cfg, t, ms, 127, W.AtScale, [], t.st.world.cluster)
  {
    hide TimedFrom, CanaryName;
    var call := DryRun(CanaryName(cfg.input.service));
    assert Calls(cfg.input, PolicyCheck) == [call];
    S.OneCall(t.st.world.cluster, call, Ok, 0);
    ms := Win(cfg, t, W.AtPolicy, [], PolicyCheck, [Ok], [0], true);
  }

  lemma SlowScale(cfg: Config, t: Timed) returns (ms: seq<Moment>)
    requires At(cfg, t, W.AtScale, [])
    requires CanaryName(cfg.input.service) in t.st.world.cluster && Safety.Sized(cfg.input)
    ensures Reaches(cfg, t, ms, 330, W.AtHealth, [ScaleDownCanary], S.Raise(cfg.input, t.st.world.cluster))
  {
    hide TimedFrom, CanaryName, Attempt;
    var verdict := Verdict(t.st.world.cluster, Calls(cfg.input, ScaleCanary), [Ok, Ok, Ok], [0, 0, 0], false);
    S.ScaleAttempt(cfg.input, t.st.world.cluster, Ok);
    ms := Win(cfg, t, W.AtScale, [], ScaleCanary, [Ok, Ok, Ok], [0, 0, 0], verdict);
  }

  lemma SlowBake(cfg: Config, t: Timed) returns (ms: seq<Moment>)
    requires At(cfg, t, W.AtHealth, [ScaleDownCanary]) && cfg.input.bakeSeconds >= 1 && !cfg.input.simulateHealthFail
    requires CanaryName(cfg.input.service) in t.st.world.cluster
    requires t.st.world.cluster[CanaryName(cfg.input.service)].replicas == cfg.input.canaryReplicas > 0
    ensures Reaches(cfg, t, ms, 2 * cfg.input.bakeSeconds + 62, W.AtShift, [ScaleDownCanary], t.st.world.cluster)
  {
    hide TimedFrom, CanaryName;
    var n, c, name := cfg.input.bakeSeconds, t.st.world.cluster, CanaryName(cfg.input.service);
    var replies, readies := seq(n, _ => Ok), seq(n, _ => cfg.input.canaryReplicas);
    assert Calls(cfg.input, HealthCheck) == seq(n, _ => Status(name));
    BakeVerdict(c, name, n, replies, readies, false);
    ReadsSucceed(c, Status(name), n, replies);
    ms := Win(cfg, t, W.AtHealth, [ScaleDownCanary], HealthCheck, replies, readies, true);
  }

  lemma SlowShift(cfg: Config, t: Timed) returns (ms: seq<Moment>)
    requires At(cfg, t, W.AtShift, [ScaleDownCanary]) && !W.ReadyAtOnce(cfg.input)
    requires Safety.Present(cfg.input, t.st.world.cluster) && !cfg.input.simulateTrafficFail && !cfg.input.autoPromote
    ensures Reaches(cfg, t, ms, 330, W.AtGate, [ScaleDownCanary, ShiftTrafficBack],
                    Attempt(t.st.world.cluster, Calls(cfg.input, ShiftTraffic), [Ok, Ok]).cluster)
  {
    hide TimedFrom, CanaryName, StableName, Attempt;
    S.ShiftSucceeds(cfg.input, t.st.world.cluster);
    var verdict := Verdict(t.st.world.cluster, Calls(cfg.input, ShiftTraffic), [Ok, Ok], [0, 0], false);
    ms := Win(cfg, t, W.AtShift, [ScaleDownCanary], ShiftTraffic, [Ok, Ok], [0, 0], verdict);
  }

  /** The approval comes at the last moment. */
  lemma SlowApproval(cfg: Config, t: Timed) returns (ms: seq<Moment>)
    requires At(cfg, t, W.AtGate, [ScaleDownCanary, ShiftTrafficBack])
    ensures Reaches(cfg, t, ms, GateWait(cfg.input), W.AtRecord(Approved), [ScaleDownCanary, ShiftTrafficBack],
                    t.st.world.cluster)
  {
    hide TimedFrom;
    FromTwo(cfg, t, Pass(t.left), Happen(S.Approval()));
    ms := [Pass(t.left), Happen(S.Approval())];
    assert t.st.run.ws.inbox + [ApprovalSignal(true, "")] == [ApprovalSignal(true, "")];
  }

  /** With no time to wait at the gate, the approval has to come before it. */
  lemma HearApproval(cfg: Config, t: Timed)
    requires At(cfg, t, W.AtShift, [ScaleDownCanary])
    ensures var t' := TimedFrom(cfg, t, [Happen(S.Approval())]);
            t' == t.(st := t.st.(run := t.st.run.(ws := t.st.run.ws.(inbox := [ApprovalSignal(true, "")]))))
  {
    FromOne(cfg, t, Happen(S.Approval()));
    assert t.st.run.ws.inbox + [ApprovalSignal(true, "")] == [ApprovalSignal(true, "")];
  }

  lemma SlowHeardShift(cfg: Config, t: Timed) returns (ms: seq<Moment>)
    requires At(cfg, t, W.AtShift, [ScaleDownCanary]) && !cfg.input.autoPromote
    requires Safety.Present(cfg.input, t.st.world.cluster) && !cfg.input.simulateTrafficFail
    ensures Reaches(cfg, t, ms, 330, W.AtRecord(Approved), [ScaleDownCanary, ShiftTrafficBack],
                    Attempt(t.st.world.cluster, Calls(cfg.input, ShiftTraffic), [Ok, Ok]).cluster)
  {
    hide TimedFrom, CanaryName, StableName, Attempt, S.Told, Calls, Verdict;
    HearApproval(cfg, t);
    var heard := TimedFrom(cfg, t, [Happen(S.Approval())]);
    S.ShiftSucceeds(cfg.input, t.st.world.cluster);
    var v := Verdict(t.st.world.cluster, Calls(cfg.input, ShiftTraffic), [Ok, Ok], [0, 0], false);
    BudgetInSeconds(cfg.input, ShiftTraffic);
    var rest := WinLate(cfg, heard, ShiftTraffic, [Ok, Ok], [0, 0]);
    S.ToldResumes(cfg, heard.st.run.ws, Completed(v));
    ms := [Happen(S.Approval())] + rest;
    TimedFromAppend(cfg, t, [Happen(S.Approval())], rest);
  }

  lemma SlowRecord(cfg: Config, t: Timed) returns (ms: seq<Moment>)
    requires At(cfg, t, W.AtRecord(Approved), [ScaleDownCanary, ShiftTrafficBack])
    ensures Reaches(cfg, t, ms, 48, W.AtPromote, [ScaleDownCanary, ShiftTrafficBack], t.st.world.cluster)
  {
    hide TimedFrom;
    ms := Fail(cfg, t, W.AtRecord(Approved), [ScaleDownCanary, ShiftTrafficBack],
               RecordApproval(t.st.run.ws.res.actor, Approved));
  }

  lemma SlowPromote(cfg: Config, t: Timed) returns (ms: seq<Moment>)
    requires At(cfg, t, W.AtPromote, [ScaleDownCanary, ShiftTrafficBack])
    ensures Reaches(cfg, t, ms, 330, W.AtUndo([ScaleDownCanary], ShiftTrafficBack), [ScaleDownCanary, ShiftTrafficBack],
                    t.st.world.cluster)
  {
    hide TimedFrom;
    ms := Fail(cfg, t, W.AtPromote, [ScaleDownCanary, ShiftTrafficBack], Promote);
    assert [ScaleDownCanary, ShiftTrafficBack][..1] == [ScaleDownCanary];
  }

  lemma SlowUndo(cfg: Config, t: Timed, rest: seq<Activity>, current: Activity) returns (ms: seq<Moment>)
    requires At(cfg, t, W.AtUndo(rest, current), [ScaleDownCanary, ShiftTrafficBack])
    requires (rest == [ScaleDownCanary] && current == ShiftTrafficBack) || (rest == [] && current == ScaleDownCanary)
    ensures Reaches(cfg, t, ms, 330, if rest == [] then W.AtAlert else W.AtUndo([], ScaleDownCanary),
                    [ScaleDownCanary, ShiftTrafficBack], t.st.world.cluster)
  {
    hide TimedFrom;
    ms := Fail(cfg, t, W.AtUndo(rest, current), [ScaleDownCanary, ShiftTrafficBack], current);
    assert [ScaleDownCanary][..0] == [];
  }

  lemma Chain(cfg: Config, t: Timed, a: seq<Moment>, b: seq<Moment>, x: int, y: int, p: W.Pc, q: W.Pc, u: seq<Activity>,
              v: seq<Activity>, c: Cluster.State, d: Cluster.State)
    requires Reaches(cfg, t, a, x, p, u, c) && Reaches(cfg, TimedFrom(cfg, t, a), b, y, q, v, d)
    ensures Reaches(cfg, t, a + b, x + y, q, v, d)
  {
    hide TimedFrom, At;
    TimedFromAppend(cfg, t, a, b);
  }

  /** Policy, scale-up and bake, each at its slowest. */
  lemma SlowStart(cfg: Config, t: Timed) returns (ms: seq<Moment>)
    requires At(cfg, t, W.AtPolicy, []) && S.ReachesGate(cfg.input) && Safety.Present(cfg.input, t.st.world.cluster)
    ensures Reaches(cfg, t, ms, 127 + 330 + (2 * cfg.input.bakeSeconds + 62), W.AtShift, [ScaleDownCanary],
                    S.Raise(cfg.input, t.st.world.cluster))
    ensures Safety.Present(cfg.input, S.Raise(cfg.input, t.st.world.cluster))
  {
    hide TimedFrom, At, S.Raise, CanaryName, StableName, Attempt, Calls;
    var c0 := t.st.world.cluster;
    var c1 := S.Raise(cfg.input, c0);
    S.RaiseCounts(cfg.input, c0);
    var m1 := SlowPolicy(cfg, t);
    var m2 := SlowScale(cfg, TimedFrom(cfg, t, m1));
    Chain(cfg, t, m1, m2, 127, 330, W.AtScale, W.AtHealth, [], [ScaleDownCanary], c0, c1);
    ms := m1 + m2;
    var m3 := SlowBake(cfg, TimedFrom(cfg, t, ms));
    Chain(cfg, t, ms, m3, 457, 2 * cfg.input.bakeSeconds + 62, W.AtHealth, W.AtShift, [ScaleDownCanary],
          [ScaleDownCanary], c1, c1);
    ms := ms + m3;
  }

  /** The shift and an approval, each at its slowest. */
  lemma SlowMiddle(cfg: Config, t: Timed) returns (ms: seq<Moment>, c: Cluster.State)
    requires At(cfg, t, W.AtShift, [ScaleDownCanary]) && S.ReachesGate(cfg.input) &&
             Safety.Present(cfg.input, t.st.world.cluster)
    ensures Reaches(cfg, t, ms, 330 + GateWait(cfg.input), W.AtRecord(Approved), [ScaleDownCanary, ShiftTrafficBack], c)
  {
    hide TimedFrom, At, CanaryName, StableName, Attempt, Calls;
    var u := [ScaleDownCanary, ShiftTrafficBack];
    c := Attempt(t.st.world.cluster, Calls(cfg.input, ShiftTraffic), [Ok, Ok]).cluster;
    if W.ReadyAtOnce(cfg.input) {
      ms := SlowHeardShift(cfg, t);
    } else {
      var m1 := SlowShift(cfg, t);
      var m2 := SlowApproval(cfg, TimedFrom(cfg, t, m1));
      Chain(cfg, t, m1, m2, 330, GateWait(cfg.input), W.AtGate, W.AtRecord(Approved), u, u, c, c);
      ms := m1 + m2;
    }
  }

  /** The record, a promotion and both compensations that fail, each at its slowest. */
  lemma SlowBackward(cfg: Config, t: Timed) returns (ms: seq<Moment>)
    requires At(cfg, t, W.AtRecord(Approved), [ScaleDownCanary, ShiftTrafficBack])
    ensures Reaches(cfg, t, ms, 48 + 330 + 330 + 330, W.AtAlert, [ScaleDownCanary, ShiftTrafficBack],
                    t.st.world.cluster)
  {
    hide TimedFrom, At;
    var c, u := t.st.world.cluster, [ScaleDownCanary, ShiftTrafficBack];
    ms := SlowRecord(cfg, t);
    var m3 := SlowPromote(cfg, TimedFrom(cfg, t, ms));
    var back := W.AtUndo([ScaleDownCanary], ShiftTrafficBack);
    Chain(cfg, t, ms, m3, 48, 330, W.AtPromote, back, u, u, c, c);
    ms := ms + m3;
    var m4 := SlowUndo(cfg, TimedFrom(cfg, t, ms), [ScaleDownCanary], ShiftTrafficBack);
    var down := W.AtUndo([], ScaleDownCanary);
    Chain(cfg, t, ms, m4, 378, 330, back, down, u, u, c, c);
    ms := ms + m4;
    var m5 := SlowUndo(cfg, TimedFrom(cfg, t, ms), [], ScaleDownCanary);
    Chain(cfg, t, ms, m5, 708, 330, down, W.AtAlert, u, u, c, c);
    ms := ms + m5;
  }

  lemma SlowAlert(cfg: Config, t: Timed) returns (ms: seq<Moment>)
    requires At(cfg, t, W.AtAlert, [ScaleDownCanary, ShiftTrafficBack])
    ensures UntilTheEnd(cfg, t, ms)
    ensures TimedFrom(cfg, t, ms).clock == t.clock + 48.0 && TimedFrom(cfg, t, ms).st.run.ws.pc.Finished?
  {
    hide TimedFrom;
    ms := Fail(cfg, t, W.AtAlert, [ScaleDownCanary, ShiftTrafficBack], W.Waiting(t.st.run.ws).value);
  }

  /** The time bound cannot be lowered: for every such request there is a run that is still going when the clock shows
      exactly 1935 seconds, twice the bake and the approval timeout. */
  lemma BoundIsReached(cfg: Config, world: World) returns (ms: seq<Moment>)
    requires S.ReachesGate(cfg.input) && Safety.Present(cfg.input, world.cluster)
    ensures var t, timeout := PlayTimed(cfg, world, ms), cfg.input.approvalTimeout;
            && t.clock == (1935 + 2 * cfg.input.bakeSeconds + (if timeout < 0 then 0 else timeout)) as real
            && !W.Over(t.st.run.ws.pc)
  {
    hide PlayTimed, TimedFrom, UntilTheEnd, Initial, S.Raise;
    var u := [ScaleDownCanary, ShiftTrafficBack];
    var t0 := Timed(Initial(cfg, world), 0.0, 0.0);
    assert At(cfg, t0, W.AtPolicy, []) && t0.st.world == world by { StartIsAt(cfg, world); }
    var m1 := SlowStart(cfg, t0);
    var t1 := TimedFrom(cfg, t0, m1);
    var m2, c := SlowMiddle(cfg, t1);
    Chain(cfg, t0, m1, m2, 2 * cfg.input.bakeSeconds + 519, 330 + GateWait(cfg.input), W.AtShift, W.AtRecord(Approved),
          [ScaleDownCanary], u, S.Raise(cfg.input, world.cluster), c);
    m1 := m1 + m2;
    m2 := SlowBackward(cfg, TimedFrom(cfg, t0, m1));
    TimedFromAppend(cfg, t0, m1, m2);
    var t2 := TimedFrom(cfg, t0, m1 + m2);
    var m3 := SlowAlert(cfg, t2);
    StillThere(cfg, t2, m3);
    ms := m1 + m2 + m3[..|m3| - 1];
    TimedFromAppend(cfg, t0, m1 + m2, m3[..|m3| - 1]);
    PlayTimedIsFrom(cfg, world, ms);
  }

  lemma StartIsAt(cfg: Config, world: World)
    ensures At(cfg, Timed(Initial(cfg, world), 0.0, 0.0), W.AtPolicy, []) && Initial(cfg, world).world == world
  {}

  lemma StillThere(cfg: Config, t: Timed, ms: seq<Moment>)
    requires UntilTheEnd(cfg, t, ms)
    ensures ms != []
    ensures var before := TimedFrom(cfg, t, ms[..|ms| - 1]);
            before.clock == TimedFrom(cfg, t, ms).clock && before.st.run.ws == t.st.run.ws
  {
    hide TimedFrom;
  }
}
