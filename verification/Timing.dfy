/** How long a deploy can take: retry budgets, and a clock on the machine that only the timeouts, the backoff and the
    approval timer hold back. Times are in seconds. */
module Timing {
  import opened Types
  import opened Cluster
  import opened Activities
  import opened Audit
  import opened Deploy
  import opened DeployLaws
  import W = Workflow
  import Laws = WorkflowLaws

  // --- Retry budgets ---

  /** The coefficient is 2. An attempt is cut off after startToClose. */
  datatype Options = Options(startToClose: int, initial: nat, cap: nat, attempts: nat)

  /** The bake as its timeout counts it: an attempt cannot be cut off before it begins. */
  function Bake(input: CanaryInput): int { if input.bakeSeconds < -30 then -30 else input.bakeSeconds }

  /** The client library's defaults: a first interval of 1 second, and a cap of 100 times the first interval. */
  function OptionsOf(input: CanaryInput, a: Activity): Options {
    match a
    case PolicyCheck => Options(30, 1, 10, MaximumAttempts(a))
    case HealthCheck => Options(Bake(input) + 30, 2, 200, MaximumAttempts(a))
    case RecordApproval(_, _) => Options(15, 1, 100, MaximumAttempts(a))
    case Alert(_, _) => Options(15, 1, 100, MaximumAttempts(a))
    case _ => Options(60, 2, 20, MaximumAttempts(a))
  }

  function Power2(n: nat): nat { if n == 0 then 1 else 2 * Power2(n - 1) }

  /** The wait after the k-th failed attempt, capped. */
  function Backoff(o: Options, k: nat): nat {
    if k == 0 then 0
    else if o.initial * Power2(k - 1) < o.cap then o.initial * Power2(k - 1) else o.cap
  }

  /** The waits after the first n attempts together. */
  function Backoffs(o: Options, n: nat): nat { if n == 0 then 0 else Backoffs(o, n - 1) + Backoff(o, n) }

  /** A capped geometric sum: t waits double from the first, the others are the cap. */
  lemma BackoffsAreGeometric(o: Options, t: nat, n: nat)
    requires t <= n
    requires t > 0 ==> o.initial * Power2(t - 1) <= o.cap
    requires n > t ==> o.initial * Power2(t) >= o.cap
    ensures Backoffs(o, n) == o.initial * (Power2(t) - 1) + (n - t) * o.cap
  {
    hide Backoffs, Backoff, Power2;
    BackoffsDouble(o, t);
    BackoffsLevelOff(o, t, n);
  }

  lemma {:induction false} BackoffsDouble(o: Options, t: nat)
    requires t > 0 ==> o.initial * Power2(t - 1) <= o.cap
    ensures Backoffs(o, t) == o.initial * (Power2(t) - 1)
  {
    if t > 0 {
      if t > 1 {
        MulMonotone(Power2(t - 2), Power2(t - 1), o.initial);
      }
      BackoffsDouble(o, t - 1);
      Double(o.initial, Power2(t - 1));
    }
  }

  lemma Double(x: nat, p: nat)
    ensures x * (2 * p - 1) == x * (p - 1) + x * p
  {}

  lemma {:induction false} BackoffsLevelOff(o: Options, t: nat, n: nat)
    requires t <= n && (n > t ==> o.initial * Power2(t) >= o.cap)
    ensures Backoffs(o, n) == Backoffs(o, t) + (n - t) * o.cap
  {
    if n > t {
      BackoffsLevelOff(o, t, n - 1);
      PowerGrows(t, n - 1);
      MulMonotone(Power2(t), Power2(n - 1), o.initial);
      OneMore(n - t, o.cap);
    }
  }

  lemma {:induction false} PowerGrows(m: int, n: nat)
    requires m <= n
    ensures m >= 0 ==> Power2(m) <= Power2(n)
  {
    if 0 <= m < n {
      PowerGrows(m, n - 1);
    }
  }

  /** What the attempts after the k-th can take: the wait, the attempt, and so on. */
  function Rest(o: Options, k: nat): int
    decreases o.attempts - k
  {
    if k >= o.attempts then 0 else Backoff(o, k) + o.startToClose + Rest(o, k + 1)
  }

  /** What a whole activity can take. */
  function Budget(input: CanaryInput, a: Activity): int { Rest(OptionsOf(input, a), 0) }

  lemma {:induction false} RestIsSum(o: Options, k: nat)
    requires 1 <= k <= o.attempts
    ensures Rest(o, k) == (o.attempts - k) * o.startToClose + Backoffs(o, o.attempts - 1) - Backoffs(o, k - 1)
    decreases o.attempts - k
  {
    hide Backoff;
    if k < o.attempts {
      RestIsSum(o, k + 1);
      OneMore(o.attempts - k, o.startToClose);
    } else {
      assert (o.attempts - k) * o.startToClose == 0;
    }
  }

  lemma OneMore(n: int, x: int)
    ensures n * x == (n - 1) * x + x
  {}

  /** An activity takes at most its attempts, each cut off, and the backoffs between them. */
  lemma BudgetIsSum(input: CanaryInput, a: Activity)
    ensures var o := OptionsOf(input, a);
            Budget(input, a) == o.attempts * o.startToClose + Backoffs(o, o.attempts - 1)
    ensures var bake := if input.bakeSeconds < -30 then -30 else input.bakeSeconds;
            Budget(input, a) == match a
                                case PolicyCheck => 4 * 30 + (1 + 2 + 4)
                                case HealthCheck => 2 * (bake + 30) + 2
                                case RecordApproval(_, _) => 3 * 15 + (1 + 2)
                                case Alert(_, _) => 3 * 15 + (1 + 2)
                                case _ => 5 * 60 + (2 + 4 + 8 + 16)
  {
    hide Power2, Backoffs;
    var o := OptionsOf(input, a);
    RestIsSum(o, 1);
    OneMore(o.attempts, o.startToClose);
    PowersOf2();
    assert Backoffs(o, 0) == 0 by { NoBackoff(o); }
    BackoffsAreGeometric(o, o.attempts - 1, o.attempts - 1);
  }

  lemma NoBackoff(o: Options)
    ensures Backoffs(o, 0) == 0
  {}

  function Seconds(input: CanaryInput, a: Activity): int {
    match a
    case PolicyCheck => 127
    case HealthCheck => 2 * Bake(input) + 62
    case RecordApproval(_, _) => 48
    case Alert(_, _) => 48
    case _ => 330
  }

  lemma BudgetInSeconds(input: CanaryInput, a: Activity)
    ensures Budget(input, a) == Seconds(input, a)
    ensures var bake := if input.bakeSeconds < -30 then -30 else input.bakeSeconds;
            Budget(input, a) == match a
                                case PolicyCheck => 127
                                case HealthCheck => 2 * bake + 62
                                case RecordApproval(_, _) => 48
                                case Alert(_, _) => 48
                                case _ => 330
  {
    hide Budget;
    BudgetIsSum(input, a);
  }

  lemma PowersOf2()
    ensures Power2(0) == 1 && Power2(1) == 2 && Power2(2) == 4 && Power2(3) == 8 && Power2(4) == 16
  {}

  // --- The longest way from each point ---

  /** The gate waits no longer than the approval timeout; a timer with no time to wait fires at once. */
  function GateWait(input: CanaryInput): nat { if input.approvalTimeout < 0 then 0 else input.approvalTimeout }

  /** How many waits lie between a point of the forward path and the promotion. */
  function Stages(pc: W.Pc): nat {
    match pc
    case AtPolicy => 6
    case AtScale => 5
    case AtHealth => 4
    case AtShift => 3
    case AtGate => 2
    case AtRecord(_) => 1
    case _ => 0
  }

  /** What can follow once the current wait is over. */
  function After(input: CanaryInput, pc: W.Pc): int
    decreases Stages(pc)
  {
    match pc
    case AtPolicy => 330 + After(input, W.AtScale)
    case AtScale => 2 * Bake(input) + 62 + After(input, W.AtHealth)
    case AtHealth => 330 + After(input, W.AtShift)
    case AtShift => GateWait(input) + After(input, W.AtGate)
    case AtGate => 48 + After(input, W.AtRecord(Timeout))
    case AtRecord(_) => 330 + After(input, W.AtPromote)
    case AtPromote => 330 + 330 + 48
    case AtUndo(rest, _) => 330 * |rest| + 48
    case _ => 0
  }

  /** A new wait, and what can follow it. */
  function Cost(input: CanaryInput, ws: W.State): int {
    match W.Waiting(ws)
    case Some(a) => Seconds(input, a) + After(input, ws.pc)
    case None => if ws.pc.AtGate? then GateWait(input) + After(input, ws.pc) else 0
  }

  /** However the code moves on, the new wait and all that can follow fit in what could follow the old one. */
  lemma MovesFit(input: CanaryInput, ws: W.State, t: W.Task)
    requires W.Inv(input, ws) && !W.Over(ws.pc) && W.OnTask(input, ws, t).pc != ws.pc
    ensures Cost(input, W.OnTask(input, ws, t)) <= After(input, ws.pc)
  {
    hide W.Inv, W.OnTask;
    var ws' := W.OnTask(input, ws, t);
    W.TaskKeepsInv(input, ws, t);
    Laws.TaskMoves(input, ws, t);
    if W.Disconnected(ws.pc) {
      UndoFits(input, ws, t);
    } else {
      RecordMovesOn(input, ws, t);
      if W.Disconnected(ws'.pc) {
        UnwoundCost(input, ws');
      }
    }
  }

  lemma UnwoundCost(input: CanaryInput, ws: W.State)
    requires W.Inv(input, ws) && W.Disconnected(ws.pc)
    ensures Cost(input, ws) <= 330 + 330 + 48
  {
    hide W.Inv;
    Laws.UndoRest(input, ws);
  }

  lemma UndoFits(input: CanaryInput, ws: W.State, t: W.Task)
    requires W.Inv(input, ws) && W.Disconnected(ws.pc) && W.OnTask(input, ws, t).pc != ws.pc
    ensures Cost(input, W.OnTask(input, ws, t)) <= After(input, ws.pc)
  {
    hide W.Inv;
    Laws.UndoRest(input, ws);
    if ws.pc.AtUndo? && ws.pc.rest != [] {
      var last := ws.pc.rest[|ws.pc.rest| - 1];
      assert last == ws.stack[|ws.pc.rest| - 1];
      assert last.ScaleDownCanary? || last.ShiftTrafficBack?;
    }
  }

  lemma RecordMovesOn(input: CanaryInput, ws: W.State, t: W.Task)
    ensures var pc' := W.OnTask(input, ws, t).pc;
            ws.pc.AtRecord? ==> pc' == ws.pc || pc'.AtPromote? || W.Disconnected(pc')
  {
    hide W.Decided, W.Gate;
  }

  // --- The clock ---

  /** Time passes, or something happens in no time. */
  datatype Moment = Pass(dt: real) | Happen(event: Event)

  /** left is how much longer the current attempt, backoff or approval wait can last. */
  datatype Timed = Timed(st: St, clock: real, left: real)

  /** Attempts are cut off, retries and new activities begin, and the timer fires, in time: there is no queueing delay.
      */
  function NewLeft(cfg: Config, run: Run, run': Run, left: real): real {
    if run'.ws.pc != run.ws.pc then (if run'.ws.pc.AtGate? then GateWait(cfg.input) as real else 0.0)
    else match W.Waiting(run'.ws)
      case None => left
      case Some(a) =>
        var o := OptionsOf(cfg.input, a);
        if run.stage.Idle? && !run'.stage.Idle? then o.startToClose as real
        else if !run.stage.Idle? && run'.stage.Idle? then Backoff(o, run'.attempt) as real
        else left
  }

  /** While a run goes on, time passes no further than its current deadline; once it is over, freely. */
  function TimedStep(cfg: Config, t: Timed, m: Moment): Timed {
    match m
    case Happen(ev) =>
      var st' := Step(cfg, t.st, ev);
      Timed(st', t.clock, NewLeft(cfg, t.st.run, st'.run, t.left))
    case Pass(dt) =>
      if 0.0 <= dt && (W.Over(t.st.run.ws.pc) || dt <= t.left) then Timed(t.st, t.clock + dt, t.left - dt) else t
  }

  function PlayTimed(cfg: Config, world: World, ms: seq<Moment>): Timed {
    if ms == [] then Timed(Initial(cfg, world), 0.0, 0.0)
    else TimedStep(cfg, PlayTimed(cfg, world, ms[..|ms| - 1]), ms[|ms| - 1])
  }

  function Events(ms: seq<Moment>): seq<Event> {
    if ms == [] then []
    else
      var last := ms[|ms| - 1];
      Events(ms[..|ms| - 1]) + if last.Happen? then [last.event] else []
  }

  /** The clock only watches: a timed run is the run of its events. */
  lemma {:induction false} ClockOnlyWatches(cfg: Config, world: World, ms: seq<Moment>)
    ensures PlayTimed(cfg, world, ms).st == Play(cfg, world, Events(ms))
  {
    hide Step, Initial, NewLeft;
    if ms != [] {
      var n := |ms| - 1;
      ClockOnlyWatches(cfg, world, ms[..n]);
      var evs := Events(ms[..n]);
      if ms[n].Happen? {
        assert (evs + [ms[n].event])[..|evs|] == evs;
      } else {
        assert evs + [] == evs;
      }
    }
  }

  /** Attempts stay within their number. */
  predicate InBudget(input: CanaryInput, run: Run) {
    match W.Waiting(run.ws)
    case None => true
    case Some(a) => if run.stage.Idle? then run.attempt < MaximumAttempts(a) else 1 <= run.attempt <= MaximumAttempts(a)
  }

  /** The longest the run can still go on. */
  function Remaining(input: CanaryInput, run: Run, left: real): real {
    match W.Waiting(run.ws)
    case None => if run.ws.pc.AtGate? then left + After(input, run.ws.pc) as real else 0.0
    case Some(a) =>
      var o := OptionsOf(input, a);
      var rest := if run.stage.Idle? then o.startToClose + Rest(o, run.attempt + 1) else Rest(o, run.attempt);
      left + rest as real + After(input, run.ws.pc) as real
  }

  lemma {:induction false} RestIsNatural(o: Options, k: nat)
    requires o.startToClose >= 0
    ensures Rest(o, k) >= 0
    decreases o.attempts - k
  {
    if k < o.attempts {
      RestIsNatural(o, k + 1);
    }
  }

  /** A new wait, its first attempt not yet begun, can go on for its cost. */
  lemma FreshRemaining(input: CanaryInput, run: Run, left: real)
    requires run.attempt == 0 && run.stage.Idle? && !W.Over(run.ws.pc)
    requires left == if run.ws.pc.AtGate? then GateWait(input) as real else 0.0
    ensures Remaining(input, run, left) == Cost(input, run.ws) as real
    ensures InBudget(input, run)
  {
    hide After, GateWait;
    if W.Waiting(run.ws).Some? {
      var a := W.Waiting(run.ws).value;
      BudgetInSeconds(input, a);
      assert Budget(input, a) == OptionsOf(input, a).startToClose + Rest(OptionsOf(input, a), 1);
    }
  }

  lemma RemainingCovers(input: CanaryInput, run: Run, left: real)
    requires InBudget(input, run) && left >= 0.0 && !W.Over(run.ws.pc)
    ensures Remaining(input, run, left) >= left + After(input, run.ws.pc) as real
  {
    hide After;
    if W.Waiting(run.ws).Some? {
      var o := OptionsOf(input, W.Waiting(run.ws).value);
      RestIsNatural(o, run.attempt);
      RestIsNatural(o, run.attempt + 1);
    }
  }

  /** A workflow task never adds to what can remain. */
  lemma TellFits(cfg: Config, run: Run, done: Option<Report>, mail: Mail, left: real)
    requires W.Inv(cfg.input, run.ws) && InBudget(cfg.input, run) && left >= 0.0
    requires !W.Over(run.ws.pc) && (W.Waiting(run.ws).None? ==> done.None?)
    ensures var run' := Tell(cfg, run, done, mail);
            && Fits(cfg.input, run, run', left, NewLeft(cfg, run, run', left))
            && (done.Some? ==> run'.ws.pc != run.ws.pc)
  {
    hide W.Inv, W.OnTask, After, Remaining, InBudget;
    var t := W.Task(done, mail.signals, mail.timer, mail.cancel);
    var run' := Tell(cfg, run, done, mail);
    if W.Waiting(run.ws).Some? {
      LeavesWait(cfg.input, run.ws, t);
    }
    if run'.ws.pc != run.ws.pc {
      RemainingCovers(cfg.input, run, left);
      MovesFit(cfg.input, run.ws, t);
      if !W.Over(run'.ws.pc) {
        FreshRemaining(cfg.input, run', NewLeft(cfg, run, run', left));
      }
    } else {
      SameWait(cfg.input, run, run', left);
    }
  }

  predicate Fits(input: CanaryInput, run: Run, run': Run, left: real, left': real) {
    !W.Over(run'.ws.pc) ==>
      InBudget(input, run') && left' >= 0.0 && Remaining(input, run', left') <= Remaining(input, run, left)
  }

  lemma SameWait(input: CanaryInput, run: Run, run': Run, left: real)
    requires run'.attempt == run.attempt && run'.stage == run.stage && run'.ws.pc == run.ws.pc
    requires W.Waiting(run.ws).Some? ==> W.Waiting(run'.ws) == W.Waiting(run.ws)
    ensures Remaining(input, run', left) == Remaining(input, run, left)
    ensures InBudget(input, run) ==> InBudget(input, run')
  {
    hide After;
  }

  lemma FailFits(cfg: Config, run: Run, a: Activity, mail: Mail, left: real)
    requires W.Inv(cfg.input, run.ws) && InBudget(cfg.input, run) && left >= 0.0
    requires W.Waiting(run.ws) == Some(a) && !run.stage.Idle? && !W.Over(run.ws.pc)
    ensures var run' := AttemptFailed(cfg, run, a, mail);
            Fits(cfg.input, run, run', left, NewLeft(cfg, run, run', left))
  {
    hide W.Inv, Tell, After, W.Waiting, MaximumAttempts;
    TellFits(cfg, run, Some(Failed), mail, left);
  }

  lemma StepFits(cfg: Config, st: St, ev: Event, left: real)
    requires W.Inv(cfg.input, st.run.ws) && InBudget(cfg.input, st.run) && left >= 0.0
    requires !W.Over(st.run.ws.pc)
    ensures var st' := Step(cfg, st, ev);
            Fits(cfg.input, st.run, st'.run, left, NewLeft(cfg, st.run, st'.run, left))
  {
    hide W.Inv, Tell, After, W.Waiting, MaximumAttempts, Calls, AttemptFailed, TypeOf, InsertIf, Do, Succeeds,
      VerdictAfter, Backoff;
    var run := st.run;
    match W.Waiting(run.ws)
    case None =>
      if ev.Wake? { TellFits(cfg, run, None, ev.mail, left); }
    case Some(a) =>
      match ev {
        case Begin(logged, now) =>
          if run.stage.Idle? { BeginFits(cfg, run, a, Step(cfg, st, ev).run, left); }
        case Return(logged, delivered, mail, now) =>
          if run.stage.Returned? {
            FailFits(cfg, run, a, mail, left);
            TellFits(cfg, run, Some(Completed(run.stage.verdict)), mail, left);
          }
        case Crash(mail) =>
          if !run.stage.Idle? { FailFits(cfg, run, a, mail, left); }
        case Wake(mail) => TellFits(cfg, run, None, mail, left);
        case Answer(_, _, _) =>
      }
  }

  lemma BeginFits(cfg: Config, run: Run, a: Activity, run': Run, left: real)
    requires W.Waiting(run.ws) == Some(a) && run.stage.Idle? && InBudget(cfg.input, run) && left >= 0.0
    requires run'.ws == run.ws && run'.attempt == run.attempt + 1 && !run'.stage.Idle?
    ensures Fits(cfg.input, run, run', left, NewLeft(cfg, run, run', left))
  {
    hide After, W.Waiting, MaximumAttempts;
  }

  function Bound(input: CanaryInput): int { 1935 + 2 * Bake(input) + GateWait(input) }

  predicate OnTime(input: CanaryInput, t: Timed) {
    !W.Over(t.st.run.ws.pc) ==>
      && InBudget(input, t.st.run) && t.left >= 0.0
      && t.clock + Remaining(input, t.st.run, t.left) <= Bound(input) as real
  }

  lemma MomentIsOnTime(cfg: Config, t: Timed, m: Moment)
    requires W.Inv(cfg.input, t.st.run.ws) && OnTime(cfg.input, t)
    ensures OnTime(cfg.input, TimedStep(cfg, t, m))
  {
    hide W.Inv, Step, NewLeft, InBudget, After, Bound, W.Waiting, Rest;
    if W.Over(t.st.run.ws.pc) {
      if m.Happen? { OverIsForever(cfg, t.st, m.event); }
    } else if m.Happen? {
      StepFits(cfg, t.st, m.event, t.left);
    } else {
      PassFits(cfg.input, t.st.run, t.left, m.dt);
    }
  }

  lemma PassFits(input: CanaryInput, run: Run, left: real, dt: real)
    requires !W.Over(run.ws.pc)
    ensures Remaining(input, run, left - dt) == Remaining(input, run, left) - dt
  {
    hide After, Rest;
  }

  lemma OverIsForever(cfg: Config, st: St, ev: Event)
    requires W.Over(st.run.ws.pc)
    ensures W.Over(Step(cfg, st, ev).run.ws.pc)
  {
    hide Step, TaskOf;
    StepIsTask(cfg, st, ev);
  }

  lemma StartIsOnTime(cfg: Config, world: World)
    ensures OnTime(cfg.input, Timed(Initial(cfg, world), 0.0, 0.0))
  {
    var run := Initial(cfg, world).run;
    FreshRemaining(cfg.input, run, 0.0);
    assert Cost(cfg.input, run.ws) == Bound(cfg.input);
  }

  lemma {:induction false} RunIsOnTime(cfg: Config, world: World, ms: seq<Moment>)
    ensures OnTime(cfg.input, PlayTimed(cfg, world, ms))
  {
    hide TimedStep, OnTime, W.Inv, Initial;
    if ms != [] {
      var n := |ms| - 1;
      RunIsOnTime(cfg, world, ms[..n]);
      ClockOnlyWatches(cfg, world, ms[..n]);
      RunInv(cfg, world, Events(ms[..n]));
      MomentIsOnTime(cfg, PlayTimed(cfg, world, ms[..n]), ms[n]);
    } else {
      StartIsOnTime(cfg, world);
    }
  }

  /** Whatever fails, dies, is signalled or cancelled, and whatever the request, no run is still going after 1935
      seconds, twice the bake and the approval timeout. */
  lemma EndsInTime(cfg: Config, world: World, ms: seq<Moment>)
    ensures var t := PlayTimed(cfg, world, ms);
            var bake := if cfg.input.bakeSeconds < -30 then -30 else cfg.input.bakeSeconds;
            var wait := if cfg.input.approvalTimeout < 0 then 0 else cfg.input.approvalTimeout;
            t.clock > (1935 + 2 * bake + wait) as real ==> W.Over(t.st.run.ws.pc)
  {
    hide PlayTimed;
    RunIsOnTime(cfg, world, ms);
    var t := PlayTimed(cfg, world, ms);
    if !W.Over(t.st.run.ws.pc) {
      RemainingCovers(cfg.input, t.st.run, t.left);
      AfterIsNatural(cfg.input, t.st.run.ws.pc);
    }
  }

  lemma AfterIsNatural(input: CanaryInput, pc: W.Pc)
    ensures After(input, pc) >= 0
  {
    assert After(input, W.AtHealth) >= 0;
  }

  // --- The clock never gets stuck ---

  /** How far a point is from the end; every move of the code comes nearer. */
  function Distance(pc: W.Pc): nat {
    match pc
    case AtPolicy => 11
    case AtScale => 10
    case AtHealth => 9
    case AtShift => 8
    case AtGate => 7
    case AtRecord(_) => 6
    case AtPromote => 5
    case AtUndo(rest, _) => |rest| + 2
    case AtAlert => 1
    case _ => 0
  }

  lemma MovesComeNearer(input: CanaryInput, ws: W.State, t: W.Task)
    requires W.Inv(input, ws)
    ensures var pc' := W.OnTask(input, ws, t).pc; pc' != ws.pc ==> Distance(pc') < Distance(ws.pc)
  {
    hide W.Inv, W.OnTask;
    var ws' := W.OnTask(input, ws, t);
    W.TaskKeepsInv(input, ws, t);
    Laws.TaskMoves(input, ws, t);
    Laws.UndoRest(input, ws');
    if W.Disconnected(ws.pc) {
      UndoComesNearer(input, ws, t);
    } else {
      RecordMovesOn(input, ws, t);
    }
  }

  lemma UndoComesNearer(input: CanaryInput, ws: W.State, t: W.Task)
    requires W.Disconnected(ws.pc)
    ensures var pc' := W.OnTask(input, ws, t).pc; pc' != ws.pc ==> Distance(pc') < Distance(ws.pc)
  {}

  function TimedFrom(cfg: Config, t: Timed, ms: seq<Moment>): Timed
    decreases |ms|
  {
    if ms == [] then t else TimedFrom(cfg, TimedStep(cfg, t, ms[0]), ms[1..])
  }

  lemma {:induction false} TimedFromAppend(cfg: Config, t: Timed, a: seq<Moment>, b: seq<Moment>)
    ensures TimedFrom(cfg, t, a + b) == TimedFrom(cfg, TimedFrom(cfg, t, a), b)
    decreases |a|
  {
    hide TimedStep;
    if a == [] {
      assert a + b == b;
    } else {
      assert (a + b)[1..] == a[1..] + b;
      TimedFromAppend(cfg, TimedStep(cfg, t, a[0]), a[1..], b);
    }
  }

  lemma FromOne(cfg: Config, t: Timed, m: Moment)
    ensures TimedFrom(cfg, t, [m]) == TimedStep(cfg, t, m)
  {
    hide TimedStep;
    assert [m][1..] == [];
  }

  lemma FromTwo(cfg: Config, t: Timed, m: Moment, n: Moment)
    ensures TimedFrom(cfg, t, [m]) == TimedStep(cfg, t, m)
    ensures TimedFrom(cfg, t, [m, n]) == TimedStep(cfg, TimedStep(cfg, t, m), n)
  {
    hide TimedStep, TimedFrom;
    FromOne(cfg, t, m);
    FromOne(cfg, TimedStep(cfg, t, m), n);
    TimedFromAppend(cfg, t, [m], [n]);
    assert [m] + [n] == [m, n];
  }

  lemma {:induction false} PlayTimedIsFrom(cfg: Config, world: World, ms: seq<Moment>)
    ensures PlayTimed(cfg, world, ms) == TimedFrom(cfg, Timed(Initial(cfg, world), 0.0, 0.0), ms)
  {
    hide TimedStep, Initial;
    if ms != [] {
      var n, start := |ms| - 1, Timed(Initial(cfg, world), 0.0, 0.0);
      PlayTimedIsFrom(cfg, world, ms[..n]);
      TimedFromAppend(cfg, start, ms[..n], [ms[n]]);
      FromOne(cfg, TimedFrom(cfg, start, ms[..n]), ms[n]);
      assert ms == ms[..n] + [ms[n]];
    }
  }

  /** What comes when the deadline is up: the next attempt, the end of the current one, or the timer. */
  function NextEvent(run: Run): Event {
    if run.ws.pc.AtGate? then Wake(Mail([], true, false))
    else if run.stage.Idle? then Begin(true, 0)
    else Crash(Mail([], false, false))
  }

  /** The attempts that are left, a begun one counting half. */
  function AttemptsLeft(run: Run): int {
    match W.Waiting(run.ws)
    case None => 0
    case Some(a) => 2 * (MaximumAttempts(a) - run.attempt) + if run.stage.Idle? then 0 else 1
  }

  /** The run comes nearer its end, or its activity nearer its last attempt. */
  predicate Nearer(run: Run, run': Run) {
    || Distance(run'.ws.pc) < Distance(run.ws.pc)
    || (run'.ws.pc == run.ws.pc && 0 <= AttemptsLeft(run') < AttemptsLeft(run))
  }

  lemma NextComesNearer(cfg: Config, st: St)
    requires W.Inv(cfg.input, st.run.ws) && InBudget(cfg.input, st.run) && !W.Over(st.run.ws.pc)
    ensures Nearer(st.run, Step(cfg, st, NextEvent(st.run)).run)
  {
    hide W.Inv, Step, Nearer, InBudget;
    if st.run.ws.pc.AtGate? {
      TimerComesNearer(cfg, st);
    } else {
      var a := W.Waiting(st.run.ws).value;
      if st.run.stage.Idle? {
        BeginComesNearer(cfg, st, a);
      } else {
        CrashComesNearer(cfg, st, a);
      }
    }
  }

  lemma TimerComesNearer(cfg: Config, st: St)
    requires W.Inv(cfg.input, st.run.ws) && st.run.ws.pc.AtGate?
    ensures Nearer(st.run, Step(cfg, st, Wake(Mail([], true, false))).run)
  {
    hide W.Inv, Distance, AttemptsLeft;
    var t := W.Task(None, [], true, false);
    assert W.OnTask(cfg.input, st.run.ws, t).pc != W.AtGate;
    MovesComeNearer(cfg.input, st.run.ws, t);
  }

  lemma BeginComesNearer(cfg: Config, st: St, a: Activity)
    requires W.Waiting(st.run.ws) == Some(a) && InBudget(cfg.input, st.run) && st.run.stage.Idle?
    ensures Nearer(st.run, Step(cfg, st, Begin(true, 0)).run)
  {
    hide W.Waiting, Calls, TypeOf, Insert, Distance, MaximumAttempts;
  }

  lemma CrashComesNearer(cfg: Config, st: St, a: Activity)
    requires W.Inv(cfg.input, st.run.ws) && InBudget(cfg.input, st.run)
    requires W.Waiting(st.run.ws) == Some(a) && !st.run.stage.Idle?
    ensures Nearer(st.run, Step(cfg, st, Crash(Mail([], false, false))).run)
  {
    hide W.Inv, W.OnTask, W.Waiting, Calls, Distance, MaximumAttempts;
    var t := W.Task(Some(Failed), [], false, false);
    LeavesWait(cfg.input, st.run.ws, t);
    MovesComeNearer(cfg.input, st.run.ws, t);
  }

  lemma StepKeepsInv(cfg: Config, st: St, ev: Event)
    requires W.Inv(cfg.input, st.run.ws)
    ensures W.Inv(cfg.input, Step(cfg, st, ev).run.ws)
  {
    hide Step, TaskOf, W.Inv, W.OnTask;
    StepIsTask(cfg, st, ev);
    var ts := TaskOf(cfg, st, ev);
    if ts != [] {
      W.TaskKeepsInv(cfg.input, st.run.ws, ts[0]);
    }
  }

  /** Let the deadline run out, then let what is due come. */
  lemma OneDeadline(cfg: Config, t: Timed)
    requires W.Inv(cfg.input, t.st.run.ws) && OnTime(cfg.input, t) && !W.Over(t.st.run.ws.pc)
    ensures var t' := TimedFrom(cfg, t, [Pass(t.left), Happen(NextEvent(t.st.run))]);
            && W.Inv(cfg.input, t'.st.run.ws) && OnTime(cfg.input, t')
            && t'.clock == t.clock + t.left && Nearer(t.st.run, t'.st.run)
  {
    hide W.Inv, Step, Nearer, InBudget, Remaining, NextEvent, NewLeft, TimedFrom;
    var pass, next := Pass(t.left), Happen(NextEvent(t.st.run));
    FromTwo(cfg, t, pass, next);
    MomentIsOnTime(cfg, t, pass);
    MomentIsOnTime(cfg, TimedStep(cfg, t, pass), next);
    StepKeepsInv(cfg, t.st, NextEvent(t.st.run));
    NextComesNearer(cfg, t.st);
  }

  /** From every reachable state the run can end, each deadline on the way running out. */
  lemma {:induction false} RunCanEnd(cfg: Config, t: Timed) returns (ms: seq<Moment>)
    requires W.Inv(cfg.input, t.st.run.ws) && OnTime(cfg.input, t)
    ensures W.Over(TimedFrom(cfg, t, ms).st.run.ws.pc) && TimedFrom(cfg, t, ms).clock >= t.clock
    decreases Distance(t.st.run.ws.pc), AttemptsLeft(t.st.run)
  {
    hide W.Inv, InBudget, Remaining, NextEvent, TimedStep, Distance, AttemptsLeft, Bound;
    if W.Over(t.st.run.ws.pc) {
      ms := [];
    } else {
      OneDeadline(cfg, t);
      var first := [Pass(t.left), Happen(NextEvent(t.st.run))];
      var rest := RunCanEnd(cfg, TimedFrom(cfg, t, first));
      ms := first + rest;
      TimedFromAppend(cfg, t, first, rest);
    }
  }

  /** Time can always go on: from every reachable state some moments lead to the end of the run and then to any time. */
  lemma {:induction false} ClockNeverSticks(cfg: Config, world: World, ms: seq<Moment>, time: real)
    returns (more: seq<Moment>)
    ensures var t := PlayTimed(cfg, world, ms + more); W.Over(t.st.run.ws.pc) && t.clock >= time
  {
    hide PlayTimed, TimedFrom, W.Inv, OnTime, Initial, Play, Events;
    var t, start := PlayTimed(cfg, world, ms), Timed(Initial(cfg, world), 0.0, 0.0);
    RunIsOnTime(cfg, world, ms);
    ClockOnlyWatches(cfg, world, ms);
    RunInv(cfg, world, Events(ms));
    var ending := RunCanEnd(cfg, t);
    var over := TimedFrom(cfg, t, ending);
    var wait := Pass(if time < over.clock then 0.0 else time - over.clock);
    more := ending + [wait];
    TimedFromAppend(cfg, t, ending, [wait]);
    FromOne(cfg, over, wait);
    PlayTimedIsFrom(cfg, world, ms);
    PlayTimedIsFrom(cfg, world, ms + more);
    TimedFromAppend(cfg, start, ms, more);
  }
}
