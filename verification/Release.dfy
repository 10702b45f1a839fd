/** A release: one canary deploy per service, all at once on the shared cluster and audit table. */
module Release {
  import opened Types
  import opened Cluster
  import opened Activities
  import opened Audit
  import opened Deploy
  import W = Workflow

  // --- The children ---

  datatype ReleaseInput = ReleaseInput(releaseId: string, services: seq<CanaryInput>)

  /** The approval is given once for the whole release. */
  function ChildInput(svc: CanaryInput): CanaryInput { svc.(autoPromote := true) }

  function ChildId(releaseId: string, service: string): string { releaseId + "-" + service }

  function ChildConfig(rel: ReleaseInput, i: nat, runId: string): Config
    requires i < |rel.services|
  {
    Config(ChildInput(rel.services[i]), ChildId(rel.releaseId, rel.services[i].service), runId)
  }

  predicate DistinctServices(rel: ReleaseInput) {
    forall i, j | 0 <= i < j < |rel.services| :: rel.services[i].service != rel.services[j].service
  }

  /** Children of one release get ids of their own exactly when their services differ. */
  lemma ChildIdsDiffer(releaseId: string, s: string, t: string)
    ensures ChildId(releaseId, s) == ChildId(releaseId, t) <==> s == t
  {
    assert ChildId(releaseId, s)[|releaseId| + 1..] == s;
    assert ChildId(releaseId, t)[|releaseId| + 1..] == t;
  }

  // --- All children on one world ---

  datatype All = All(runs: seq<Run>, world: World)

  /** One event of one child. */
  datatype Turn = Turn(child: nat, event: Event)

  function Turned(cfgs: seq<Config>, m: All, t: Turn): (m': All)
    requires |m.runs| == |cfgs|
    ensures |m'.runs| == |cfgs|
  {
    if t.child >= |cfgs| then m
    else
      var st := Step(cfgs[t.child], St(m.runs[t.child], m.world), t.event);
      All(m.runs[t.child := st.run], st.world)
  }

  function Begun(cfgs: seq<Config>, world: World): All {
    All(seq(|cfgs|, i requires 0 <= i < |cfgs| => Initial(cfgs[i], world).run), world)
  }

  function PlayAll(cfgs: seq<Config>, world: World, turns: seq<Turn>): (m: All)
    ensures |m.runs| == |cfgs|
  {
    if turns == [] then Begun(cfgs, world)
    else Turned(cfgs, PlayAll(cfgs, world, turns[..|turns| - 1]), turns[|turns| - 1])
  }

  /** The events of one child, in their order. */
  function Own(turns: seq<Turn>, i: nat): seq<Event> {
    if turns == [] then []
    else
      var last := turns[|turns| - 1];
      Own(turns[..|turns| - 1], i) + if last.child == i then [last.event] else []
  }

  // --- A step sees and touches nothing but its own service ---

  predicate SameEntry(c: Cluster.State, d: Cluster.State, n: string) {
    (n in c <==> n in d) && (n in c ==> c[n] == d[n])
  }

  /** The two clusters agree on the service's two Deployments. */
  predicate SameAt(service: string, c: Cluster.State, d: Cluster.State) {
    SameEntry(c, d, StableName(service)) && SameEntry(c, d, CanaryName(service))
  }

  /** A call on one of the service's Deployments, or on none. */
  predicate Local(service: string, call: Call) {
    call.Append? || call.Tick? || call.Abort? || call.name == StableName(service) || call.name == CanaryName(service)
  }

  lemma CallsAreLocal(input: CanaryInput, a: Activity, k: nat)
    requires k < |Calls(input, a)|
    ensures Local(input.service, Calls(input, a)[k])
  {
    hide StableName, CanaryName, ToInt32, CanaryShare, StableShare;
  }

  lemma LocalCall(service: string, call: Call, c: Cluster.State, d: Cluster.State, r: Reply, ready: int, before: bool)
    requires Local(service, call) && SameAt(service, c, d)
    ensures Succeeds(c, call, r) == Succeeds(d, call, r)
    ensures VerdictAfter(c, call, r, ready, before) == VerdictAfter(d, call, r, ready, before)
    ensures SameAt(service, Do(c, call, r), Do(d, call, r))
  {
    hide StableName, CanaryName;
  }

  lemma ForeignCall(service: string, other: string, call: Call, c: Cluster.State, r: Reply)
    requires Local(other, call) && service != other
    ensures SameAt(service, Do(c, call, r), c)
  {
    NamesNeverCollide(service, other);
    NamesNeverCollide(other, service);
    hide StableName, CanaryName;
  }

  /** The two worlds look the same to a deploy of this service under this workflow id. */
  predicate SameWorld(service: string, workflowId: string, w: World, v: World) {
    && SameAt(service, w.cluster, v.cluster)
    && Query(w.table, workflowId) == Query(v.table, workflowId)
    && DistinctKeys(w.table) && DistinctKeys(v.table)
  }

  lemma InsertSame(workflowId: string, t: seq<Entry>, u: seq<Entry>, e: Entry, written: bool)
    requires Query(t, workflowId) == Query(u, workflowId) && DistinctKeys(t) && DistinctKeys(u)
    ensures Query(InsertIf(written, t, e), workflowId) == Query(InsertIf(written, u, e), workflowId)
    ensures DistinctKeys(InsertIf(written, t, e)) && DistinctKeys(InsertIf(written, u, e))
  {
    hide Insert, Query, DistinctKeys;
    QueryOfInsert(t, e, workflowId);
    QueryOfInsert(u, e, workflowId);
  }

  lemma InsertForeign(workflowId: string, t: seq<Entry>, e: Entry, written: bool)
    requires e.execution.workflowId != workflowId && DistinctKeys(t)
    ensures Query(InsertIf(written, t, e), workflowId) == Query(t, workflowId)
    ensures DistinctKeys(InsertIf(written, t, e))
  {
    hide Insert, Query, DistinctKeys;
    QueryOfInsert(t, e, workflowId);
  }

  /** A deploy takes the same step in worlds that look the same to it, and they still do afterwards. */
  lemma OwnStep(cfg: Config, run: Run, w: World, v: World, ev: Event)
    requires SameWorld(cfg.input.service, cfg.workflowId, w, v)
    ensures var st, su := Step(cfg, St(run, w), ev), Step(cfg, St(run, v), ev);
            st.run == su.run && SameWorld(cfg.input.service, cfg.workflowId, st.world, su.world)
  {
    hide W.Waiting, Calls, Tell, AttemptFailed, Query, DistinctKeys, SameAt, InsertIf, StartRow, EndRow, TypeOf;
    match W.Waiting(run.ws) {
      case None =>
      case Some(a) =>
        match ev {
          case Begin(logged, now) =>
            InsertSame(cfg.workflowId, w.table, v.table,
                       StartRow(CurrentExecution(cfg, run.(attempt := run.attempt + 1)), TypeOf(a), now), logged);
          case Answer(reply, ready, now) =>
            if run.stage.Working? && run.stage.next < |Calls(cfg.input, a)| {
              OwnCall(cfg, run, w, v, a, reply, ready, now);
            }
          case Return(logged, delivered, mail, now) =>
            if run.stage.Returned? {
              InsertSame(cfg.workflowId, w.table, v.table,
                         EndRow(CurrentExecution(cfg, run), TypeOf(a), run.stage.failed, now), logged);
            }
          case _ =>
        }
    }
  }

  lemma OwnCall(cfg: Config, run: Run, w: World, v: World, a: Activity, reply: Reply, ready: int, now: nat)
    requires SameWorld(cfg.input.service, cfg.workflowId, w, v)
    requires run.stage.Working? && run.stage.next < |Calls(cfg.input, a)|
    ensures var st, su := MakeCall(cfg, run, w, a, reply, ready, now), MakeCall(cfg, run, v, a, reply, ready, now);
            st.run == su.run && SameWorld(cfg.input.service, cfg.workflowId, st.world, su.world)
  {
    hide W.Waiting, Calls, Query, DistinctKeys, SameAt, InsertIf, Succeeds, Do, VerdictAfter, Detail;
    var k := run.stage.next;
    CallsAreLocal(cfg.input, a, k);
    LocalCall(cfg.input.service, Calls(cfg.input, a)[k], w.cluster, v.cluster, reply, ready, run.stage.verdict);
    if a.RecordApproval? {
      InsertSame(cfg.workflowId, w.table, v.table,
                 ApprovalRow(CurrentExecution(cfg, run), a.actor, a.decision, now), reply.Ok? || reply.WriteLost?);
    }
  }

  /** A step of another service's deploy changes nothing this service can see. */
  lemma ForeignStep(cfg: Config, st: St, ev: Event, service: string, workflowId: string)
    requires service != cfg.input.service && workflowId != cfg.workflowId && DistinctKeys(st.world.table)
    ensures SameWorld(service, workflowId, Step(cfg, st, ev).world, st.world)
  {
    hide W.Waiting, Calls, Tell, AttemptFailed, Query, DistinctKeys, InsertIf, TypeOf, StableName, CanaryName;
    var run, t := st.run, st.world.table;
    match W.Waiting(run.ws) {
      case None =>
      case Some(a) =>
        match ev {
          case Begin(logged, now) =>
            InsertForeign(workflowId, t,
                          StartRow(CurrentExecution(cfg, run.(attempt := run.attempt + 1)), TypeOf(a), now), logged);
          case Answer(reply, ready, now) =>
            if run.stage.Working? && run.stage.next < |Calls(cfg.input, a)| {
              ForeignMakeCall(cfg, run, st.world, a, reply, ready, now, service, workflowId);
            }
          case Return(logged, delivered, mail, now) =>
            if run.stage.Returned? {
              InsertForeign(workflowId, t, EndRow(CurrentExecution(cfg, run), TypeOf(a), run.stage.failed, now),
                            logged);
            }
          case _ =>
        }
    }
  }

  lemma ForeignMakeCall(cfg: Config, run: Run, w: World, a: Activity, reply: Reply, ready: int, now: nat,
                        service: string, workflowId: string)
    requires service != cfg.input.service && workflowId != cfg.workflowId && DistinctKeys(w.table)
    requires run.stage.Working? && run.stage.next < |Calls(cfg.input, a)|
    ensures SameWorld(service, workflowId, MakeCall(cfg, run, w, a, reply, ready, now).world, w)
  {
    hide W.Waiting, Calls, Query, DistinctKeys, SameAt, InsertIf, Succeeds, Do, VerdictAfter, Detail;
    CallsAreLocal(cfg.input, a, run.stage.next);
    ForeignCall(service, cfg.input.service, Calls(cfg.input, a)[run.stage.next], w.cluster, reply);
    if a.RecordApproval? {
      InsertForeign(workflowId, w.table, ApprovalRow(CurrentExecution(cfg, run), a.actor, a.decision, now),
                    reply.Ok? || reply.WriteLost?);
    }
  }

  lemma SameWorldTrans(service: string, workflowId: string, u: World, v: World, w: World)
    requires SameWorld(service, workflowId, u, v) && SameWorld(service, workflowId, v, w)
    ensures SameWorld(service, workflowId, u, w)
  {
    hide StableName, CanaryName, Query, DistinctKeys;
  }

  // --- Non-interference ---

  predicate Apart(cfgs: seq<Config>) {
    forall i, j | 0 <= i < |cfgs| && 0 <= j < |cfgs| && i != j ::
      cfgs[i].input.service != cfgs[j].input.service && cfgs[i].workflowId != cfgs[j].workflowId
  }

  /** However the children's events interleave, each child's run, result, two Deployments and audit rows are exactly
      what they would be had it run alone on its own events. */
  lemma {:induction false} ChildrenDoNotInterfere(cfgs: seq<Config>, world: World, turns: seq<Turn>, i: nat)
    requires Apart(cfgs) && i < |cfgs| && DistinctKeys(world.table)
    ensures var m, alone := PlayAll(cfgs, world, turns), Play(cfgs[i], world, Own(turns, i));
            m.runs[i] == alone.run && SameWorld(cfgs[i].input.service, cfgs[i].workflowId, m.world, alone.world)
  {
    hide Step, Apart, SameWorld, DistinctKeys, Initial;
    if turns == [] {
      SameWorldRefl(cfgs[i].input.service, cfgs[i].workflowId, world);
      NothingYet(cfgs[i], world);
    } else {
      var n := |turns| - 1;
      var t, m, own := turns[n], PlayAll(cfgs, world, turns[..n]), Own(turns[..n], i);
      ChildrenDoNotInterfere(cfgs, world, turns[..n], i);
      var alone := Play(cfgs[i], world, own);
      if t.child == i {
        OwnStep(cfgs[i], m.runs[i], m.world, alone.world, t.event);
        assert (own + [t.event])[..|own|] == own;
      } else {
        assert own + [] == own;
        if t.child < |cfgs| {
          ForeignTurn(cfgs, m, t, i, alone.world);
        }
      }
    }
  }

  lemma NothingYet(cfg: Config, world: World)
    ensures Play(cfg, world, []) == Initial(cfg, world) && Initial(cfg, world).world == world
  {}

  lemma SameWorldRefl(service: string, workflowId: string, w: World)
    requires DistinctKeys(w.table)
    ensures SameWorld(service, workflowId, w, w)
  {}

  lemma ForeignTurn(cfgs: seq<Config>, m: All, t: Turn, i: nat, alone: World)
    requires Apart(cfgs) && i < |cfgs| && t.child < |cfgs| == |m.runs| && t.child != i
    requires SameWorld(cfgs[i].input.service, cfgs[i].workflowId, m.world, alone)
    ensures SameWorld(cfgs[i].input.service, cfgs[i].workflowId, Turned(cfgs, m, t).world, alone)
  {
    hide Step, SameAt, Query, DistinctKeys;
    ForeignStep(cfgs[t.child], St(m.runs[t.child], m.world), t.event, cfgs[i].input.service, cfgs[i].workflowId);
    SameWorldTrans(cfgs[i].input.service, cfgs[i].workflowId, Turned(cfgs, m, t).world, m.world, alone);
  }
}
