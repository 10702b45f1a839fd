/** The release workflow: fan out one child per service, fan in their outcomes, and what the aggregate says about the
    cluster. */
module Orchestrator {
  import opened Types
  import opened Cluster
  import opened Audit
  import opened Release
  import Deploy
  import Outcomes
  import Trail
  import W = Workflow
  import S = Safety
  import R = Rollback
  import Laws = WorkflowLaws
  import Told = WorkflowResults

  /** How a child ended: with a result, or with an error of its own. */
  datatype Ended = Result(res: CanaryResult) | ChildFailed

  /** The server reports the end of a child. */
  datatype Completion = Completion(child: nat, ended: Ended)

  datatype ReleaseResult = ReleaseResult(
    releaseId: string,
    results: seq<CanaryResult>,
    promoted: seq<string>,
    notPromoted: seq<string>,
    allPromoted: bool)

  // --- The aggregate ---

  /** What is first reported about a child; a future resolves once. */
  function FirstOf(cs: seq<Completion>, i: nat): Option<Ended> {
    if cs == [] then None
    else
      var before := FirstOf(cs[..|cs| - 1], i);
      if before.Some? then before
      else if cs[|cs| - 1].child == i then Some(cs[|cs| - 1].ended) else None
  }

  lemma {:induction false} FirstOfPrefix(cs: seq<Completion>, n: nat, i: nat)
    requires n <= |cs| && FirstOf(cs[..n], i).Some?
    ensures FirstOf(cs, i) == FirstOf(cs[..n], i)
  {
    if n < |cs| {
      assert cs[..|cs| - 1][..n] == cs[..n];
      FirstOfPrefix(cs[..|cs| - 1], n, i);
    } else {
      assert cs[..n] == cs;
    }
  }

  lemma {:induction false} FirstIsFirst(cs: seq<Completion>, i: nat)
    ensures match FirstOf(cs, i)
            case None => forall n | 0 <= n < |cs| :: cs[n].child != i
            case Some(e) =>
              exists n | 0 <= n < |cs| && cs[n] == Completion(i, e) :: forall m | 0 <= m < n :: cs[m].child != i
  {
    if cs != [] {
      var k := |cs| - 1;
      var before := cs[..k];
      FirstIsFirst(before, i);
      assert cs == before + [cs[k]];
      if FirstOf(before, i).Some? {
        var e := FirstOf(before, i).value;
        var n :| 0 <= n < k && before[n] == Completion(i, e) && forall m | 0 <= m < n :: before[m].child != i;
        assert cs[n] == Completion(i, e) && forall m | 0 <= m < n :: cs[m] == before[m];
      } else if cs[k].child == i {
        assert cs[k] == Completion(i, cs[k].ended) && forall m | 0 <= m < k :: cs[m] == before[m];
      }
    }
  }

  /** A child's entry in the results: its own result, or a rollback in its name. */
  function Row(service: string, ended: Ended): CanaryResult {
    match ended
    case Result(res) => res
    case ChildFailed => CanaryResult(service, RolledBack, ChildError, "")
  }

  /** The services whose result is a promotion, or is not one, in the order of the results. */
  function Names(results: seq<CanaryResult>, promoted: bool): seq<string> {
    if results == [] then []
    else
      var n := |results| - 1;
      Names(results[..n], promoted) + if results[n].status.Promoted? == promoted then [results[n].service] else []
  }

  function Positions(results: seq<CanaryResult>, promoted: bool): seq<nat> {
    if results == [] then []
    else
      var n := |results| - 1;
      Positions(results[..n], promoted) + if results[n].status.Promoted? == promoted then [n] else []
  }

  predicate Increasing(s: seq<nat>) { forall i, j | 0 <= i < j < |s| :: s[i] < s[j] }

  /** at holds, in increasing order, exactly the positions of the results of this kind, and names their services. */
  predicate Selects(results: seq<CanaryResult>, promoted: bool, at: seq<nat>, names: seq<string>) {
    && |names| == |at| && Increasing(at)
    && (forall k | 0 <= k < |at| :: at[k] < |results| && names[k] == results[at[k]].service)
    && (forall i | 0 <= i < |results| :: i in at <==> results[i].status.Promoted? == promoted)
  }

  lemma SelectsSkip(results: seq<CanaryResult>, last: CanaryResult, promoted: bool, at: seq<nat>, names: seq<string>)
    requires Selects(results, promoted, at, names) && last.status.Promoted? != promoted
    ensures Selects(results + [last], promoted, at, names)
  {
    assert |results| !in at;
  }

  lemma SelectsOneMore(results: seq<CanaryResult>, last: CanaryResult, promoted: bool, at: seq<nat>, names: seq<string>)
    requires Selects(results, promoted, at, names) && last.status.Promoted? == promoted
    ensures Selects(results + [last], promoted, at + [|results|], names + [last.service])
  {
    var at' := at + [|results|];
    assert forall i | 0 <= i < |results| :: i in at' <==> i in at;
    assert at'[|at|] == |results|;
  }

  /** The two lists are an order-preserving partition of the results by status, and the second is empty just when every
      status is Promoted. */
  lemma {:induction false} NamesArePartition(results: seq<CanaryResult>)
    ensures Selects(results, true, Positions(results, true), Names(results, true))
    ensures Selects(results, false, Positions(results, false), Names(results, false))
    ensures |Names(results, true)| + |Names(results, false)| == |results|
    ensures Names(results, false) == [] <==> forall i | 0 <= i < |results| :: results[i].status.Promoted?
  {
    hide Positions, Names;
    NamesAreSelected(results, true);
    NamesAreSelected(results, false);
    NamesAreAll(results);
    var at := Positions(results, false);
    if at != [] {
      assert at[0] in at;
    }
  }

  lemma {:induction false} NamesAreSelected(results: seq<CanaryResult>, promoted: bool)
    ensures Selects(results, promoted, Positions(results, promoted), Names(results, promoted))
  {
    hide Selects;
    if results == [] {
      NothingToSelect(promoted);
    } else {
      var n := |results| - 1;
      var before, last := results[..n], results[n];
      var at, names := Positions(before, promoted), Names(before, promoted);
      NamesAreSelected(before, promoted);
      assert before + [last] == results;
      if last.status.Promoted? == promoted {
        SelectsOneMore(before, last, promoted, at, names);
      } else {
        SelectsSkip(before, last, promoted, at, names);
        assert at + [] == at && names + [] == names;
      }
    }
  }

  lemma {:induction false} NamesAreAll(results: seq<CanaryResult>)
    ensures |Names(results, true)| + |Names(results, false)| == |results|
  {
    if results != [] {
      NamesAreAll(results[..|results| - 1]);
    }
  }

  lemma NothingToSelect(promoted: bool)
    ensures Selects([], promoted, [], [])
  {}

  // --- The release code ---

  /** The parent's view of its children: what it has started, and which ends it has heard of. */
  class Children {
    const completions: seq<Completion>
    var pos: nat
    var resolved: map<nat, Ended>
    var started: seq<(string, CanaryInput)>

    constructor (completions: seq<Completion>)
      ensures this.completions == completions && Valid() && started == [] && pos == 0
    {
      this.completions := completions;
      pos, resolved, started := 0, map[], [];
    }

    ghost predicate Valid()
      reads this
    {
      && pos <= |completions|
      && forall i: nat :: match FirstOf(completions[..pos], i)
                          case None => i !in resolved
                          case Some(e) => i in resolved && resolved[i] == e
    }

    /** Start a child without waiting for it. The future is the child's index. */
    method ExecuteChildWorkflow(id: string, input: CanaryInput) returns (future: nat)
      requires Valid()
      modifies this`started
      ensures Valid() && started == old(started) + [(id, input)] && future == |old(started)|
    {
      future := |started|;
      started := started + [(id, input)];
    }

    /** Wait for a child, taking note of the others that end meanwhile. */
    method Get(future: nat) returns (blocked: bool, ended: Ended)
      requires Valid()
      modifies this`pos, this`resolved
      ensures Valid()
      ensures match FirstOf(completions, future)
              case None => blocked
              case Some(e) => !blocked && ended == e
      ensures if blocked then forall n | 0 <= n < |completions| :: completions[n].child != future
              else exists n | 0 <= n < |completions| && completions[n] == Completion(future, ended) ::
                     forall m | 0 <= m < n :: completions[m].child != future
    {
      FirstIsFirst(completions, future);
      while future !in resolved && pos < |completions|
        invariant Valid()
      {
        var c := completions[pos];
        assert completions[..pos + 1][..pos] == completions[..pos];
        if c.child !in resolved { resolved := resolved[c.child := c.ended]; }
        pos := pos + 1;
      }
      if future in resolved {
        FirstOfPrefix(completions, pos, future);
        return false, resolved[future];
      }
      assert completions[..pos] == completions;
      return true, ChildFailed;
    }
  }

  /** The ids and requests of the children, in the order of the services. */
  function Started(rel: ReleaseInput, n: nat): seq<(string, CanaryInput)>
    requires n <= |rel.services|
  {
    seq(n, i requires 0 <= i < n => (ChildId(rel.releaseId, rel.services[i].service), ChildInput(rel.services[i])))
  }

  predicate AllEnded(cs: seq<Completion>, n: nat) { forall i | 0 <= i < n :: FirstOf(cs, i).Some? }

  function Results(rel: ReleaseInput, cs: seq<Completion>, n: nat): seq<CanaryResult>
    requires n <= |rel.services| && AllEnded(cs, n)
  {
    seq(n, i requires 0 <= i < n => Row(rel.services[i].service, FirstOf(cs, i).value))
  }

  /** The release starts every child before it waits for any; it returns exactly when all have ended, in whatever order,
      with one entry per service in the order of the request. */
  method ReleaseOrchestratorWorkflow(ctx: Children, rel: ReleaseInput) returns (blocked: bool, result: ReleaseResult)
    requires ctx.Valid() && ctx.started == [] && ctx.pos == 0
    modifies ctx
    ensures ctx.started == Started(rel, |rel.services|)
    ensures |ctx.started| == |rel.services|
    ensures forall i | 0 <= i < |rel.services| ::
              ctx.started[i] ==
              (rel.releaseId + "-" + rel.services[i].service, rel.services[i].(autoPromote := true))
    ensures blocked <==> !AllEnded(ctx.completions, |rel.services|)
    ensures !blocked ==>
              var results := Results(rel, ctx.completions, |rel.services|);
              result == ReleaseResult(rel.releaseId, results, Names(results, true), Names(results, false),
                                      forall i | 0 <= i < |results| :: results[i].status.Promoted?)
    ensures !blocked ==>
              && |result.results| == |rel.services|
              && forall i | 0 <= i < |rel.services| ::
                   match FirstOf(ctx.completions, i)
                   case None => false
                   case Some(Result(res)) => result.results[i] == res
                   case Some(ChildFailed) =>
                     result.results[i] == CanaryResult(rel.services[i].service, RolledBack, ChildError, "")
  {
    var futures: seq<(string, nat)> := [];
    var i := 0;
    while i < |rel.services|
      invariant 0 <= i <= |rel.services| && ctx.Valid()
      invariant ctx.started == Started(rel, i) && ctx.pos == 0
      invariant |futures| == i && forall k | 0 <= k < i :: futures[k] == (rel.services[k].service, k)
    {
      var svc := rel.services[i].(autoPromote := true);
      var future := ctx.ExecuteChildWorkflow(rel.releaseId + "-" + svc.service, svc);
      futures := futures + [(svc.service, future)];
      i := i + 1;
    }
    blocked, result := FanIn(ctx, rel, futures);
  }

  method FanIn(ctx: Children, rel: ReleaseInput, futures: seq<(string, nat)>)
    returns (blocked: bool, result: ReleaseResult)
    requires ctx.Valid() && |futures| == |rel.services|
    requires forall k | 0 <= k < |futures| :: futures[k] == (rel.services[k].service, k)
    modifies ctx`pos, ctx`resolved
    ensures blocked <==> !AllEnded(ctx.completions, |rel.services|)
    ensures !blocked ==>
              var results := Results(rel, ctx.completions, |rel.services|);
              result == ReleaseResult(rel.releaseId, results, Names(results, true), Names(results, false),
                                      forall i | 0 <= i < |results| :: results[i].status.Promoted?)
    ensures !blocked ==>
              && |result.results| == |rel.services|
              && forall i | 0 <= i < |rel.services| ::
                   match FirstOf(ctx.completions, i)
                   case None => false
                   case Some(Result(res)) => result.results[i] == res
                   case Some(ChildFailed) =>
                     result.results[i] == CanaryResult(rel.services[i].service, RolledBack, ChildError, "")
  {
    hide FirstOf, Positions, Names, Results, Selects, AllEnded;
    NothingEnded(rel, ctx.completions);
    result := ReleaseResult(rel.releaseId, [], [], [], false);
    var i := 0;
    while i < |futures|
      invariant 0 <= i <= |futures| && ctx.Valid()
      invariant AllEnded(ctx.completions, i)
      invariant result.releaseId == rel.releaseId && result.results == Results(rel, ctx.completions, i)
      invariant result.promoted == Names(result.results, true) && result.notPromoted == Names(result.results, false)
    {
      var (service, future) := futures[i];
      var waiting, ended := ctx.Get(future);
      NextEnded(rel, ctx.completions, i);
      if waiting { return true, result; }
      var res := match ended case Result(r) => r case ChildFailed => CanaryResult(service, RolledBack, ChildError, "");
      NamesOfAppend(result.results, res);
      result := result.(results := result.results + [res]);
      if res.status == Promoted {
        result := result.(promoted := result.promoted + [res.service]);
      } else {
        result := result.(notPromoted := result.notPromoted + [res.service]);
      }
      i := i + 1;
    }
    NamesArePartition(result.results);
    ResultsAreRows(rel, ctx.completions);
    result := result.(allPromoted := |result.notPromoted| == 0);
    return false, result;
  }

  lemma NothingEnded(rel: ReleaseInput, cs: seq<Completion>)
    ensures AllEnded(cs, 0) && Results(rel, cs, 0) == [] && Names([], true) == [] == Names([], false)
  {}

  lemma NextEnded(rel: ReleaseInput, cs: seq<Completion>, i: nat)
    requires i < |rel.services| && AllEnded(cs, i)
    ensures FirstOf(cs, i).None? ==> !AllEnded(cs, |rel.services|)
    ensures FirstOf(cs, i).Some? ==>
              AllEnded(cs, i + 1) &&
                Results(rel, cs, i + 1) == Results(rel, cs, i) + [Row(rel.services[i].service, FirstOf(cs, i).value)]
  {
    hide FirstOf, Row;
  }

  lemma ResultsAreRows(rel: ReleaseInput, cs: seq<Completion>)
    requires AllEnded(cs, |rel.services|)
    ensures forall i | 0 <= i < |rel.services| ::
              match FirstOf(cs, i)
              case None => false
              case Some(Result(res)) => Results(rel, cs, |rel.services|)[i] == res
              case Some(ChildFailed) =>
                Results(rel, cs, |rel.services|)[i] ==
                CanaryResult(rel.services[i].service, RolledBack, ChildError, "")
    ensures |Results(rel, cs, |rel.services|)| == |rel.services|
  {
    hide FirstOf;
  }

  lemma NamesOfAppend(results: seq<CanaryResult>, res: CanaryResult)
    ensures Names(results + [res], true) == Names(results, true) + if res.status.Promoted? then [res.service] else []
    ensures Names(results + [res], false) == Names(results, false) + if res.status.Promoted? then [] else [res.service]
  {
    assert (results + [res])[..|results|] == results;
  }

  // --- What the aggregate says about the cluster ---

  function Configs(rel: ReleaseInput, runIds: seq<string>): (cfgs: seq<Deploy.Config>)
    requires |runIds| == |rel.services|
    ensures |cfgs| == |rel.services|
  {
    seq(|rel.services|, i requires 0 <= i < |rel.services| => ChildConfig(rel, i, runIds[i]))
  }

  lemma ChildrenAreApart(rel: ReleaseInput, runIds: seq<string>)
    requires |runIds| == |rel.services| && DistinctServices(rel)
    ensures Apart(Configs(rel, runIds))
  {
    var cfgs := Configs(rel, runIds);
    forall i, j | 0 <= i < |cfgs| && 0 <= j < |cfgs| && i != j
      ensures cfgs[i].input.service != cfgs[j].input.service && cfgs[i].workflowId != cfgs[j].workflowId
    {
      ChildIdsDiffer(rel.releaseId, rel.services[i].service, rel.services[j].service);
      if i < j {
        assert rel.services[i].service != rel.services[j].service;
      } else {
        assert rel.services[j].service != rel.services[i].service;
      }
    }
  }

  function EndOf(ws: W.State): Ended { if ws.pc.Broken? then ChildFailed else Result(ws.res) }

  /** Each completion reported is that of a child that is over, and reports how it ended. */
  predicate Truthful(cs: seq<Completion>, m: All) {
    forall i | 0 <= i < |m.runs| && FirstOf(cs, i).Some? ::
      W.Over(m.runs[i].ws.pc) && FirstOf(cs, i).value == EndOf(m.runs[i].ws)
  }

  /** The cluster tells the truth of a result row: promoted means fully rolled out, rejected or failed means untouched.
      */
  predicate Shows(input: CanaryInput, row: CanaryResult, before: Cluster.State, after: Cluster.State) {
    && row.service == input.service
    && !row.status.Unset?
    && (row.status.Promoted? ==>
          && S.Present(input, after)
          && S.StableOf(input, after) == Deployment(input.imageTag, ToInt32(input.targetReplicas))
          && S.CanaryOf(input, after).replicas == 0)
    && (row.status.PolicyRejected? || row.reason.ChildError? ==> SameAt(input.service, after, before))
  }

  lemma AloneShows(cfg: Deploy.Config, world: Deploy.World, evs: seq<Deploy.Event>)
    requires W.Over(Deploy.Play(cfg, world, evs).run.ws.pc)
    ensures var st := Deploy.Play(cfg, world, evs);
            Shows(cfg.input, Row(cfg.input.service, EndOf(st.run.ws)), world.cluster, st.world.cluster)
  {
    hide Deploy.Play, W.Inv, ToInt32, StableName, CanaryName;
    Outcomes.ResultTellsCluster(cfg, world, evs);
    Deploy.RunInv(cfg, world, evs);
    OverIsDecided(cfg.input, Deploy.Play(cfg, world, evs).run.ws);
    NoChildError(cfg, world, evs);
  }

  lemma OverIsDecided(input: CanaryInput, ws: W.State)
    requires W.Inv(input, ws)
    ensures ws.pc.Finished? ==> ws.res.status != Unset
    ensures ws.res.service == input.service
  {
    hide W.Milestone, W.Tail, W.Forward;
  }

  /** A deploy itself never reports a child error. */
  lemma {:induction false} ReplayHasNoChildError(input: CanaryInput, history: seq<W.Task>)
    ensures !W.Replay(input, history).res.reason.ChildError?
  {
    hide W.OnTask;
    if history != [] {
      var n := |history| - 1;
      ReplayHasNoChildError(input, history[..n]);
      TaskHasNoChildError(input, W.Replay(input, history[..n]), history[n]);
    }
  }

  lemma TaskHasNoChildError(input: CanaryInput, s: W.State, t: W.Task)
    requires !s.res.reason.ChildError?
    ensures !W.OnTask(input, s, t).res.reason.ChildError?
  {
    hide W.Resume, W.Gate;
    var m := W.Deliver(s, t);
    GateHasNoChildError(m, t.timer);
    ResumeHasNoChildError(input, m, Failed);
    if t.done.Some? {
      ResumeHasNoChildError(input, m, t.done.value);
    }
  }

  lemma GateHasNoChildError(s: W.State, timer: bool)
    requires !s.res.reason.ChildError?
    ensures !W.Gate(s, timer).res.reason.ChildError?
  {
    hide W.Continues, W.UndoFrom, W.Schedule;
  }

  lemma ResumeHasNoChildError(input: CanaryInput, s: W.State, r: Report)
    requires !s.res.reason.ChildError?
    ensures !W.Resume(input, s, r).res.reason.ChildError?
  {
    hide W.Continues, W.UndoFrom, W.Schedule, W.Gate;
    var a := W.Answered(s, r);
    GateHasNoChildError(a.(stack := a.stack + [ShiftTrafficBack], phase := W.AwaitingPhase), W.ReadyAtOnce(input));
  }

  lemma NoChildError(cfg: Deploy.Config, world: Deploy.World, evs: seq<Deploy.Event>)
    ensures !Deploy.Play(cfg, world, evs).run.ws.res.reason.ChildError?
  {
    hide Deploy.Play, Deploy.Tasks, W.Replay;
    Deploy.RunReplays(cfg, world, evs);
    ReplayHasNoChildError(cfg.input, Deploy.Tasks(cfg, world, evs));
  }

  lemma ShowsSame(input: CanaryInput, row: CanaryResult, before: Cluster.State, alone: Cluster.State,
                  after: Cluster.State)
    requires Shows(input, row, before, alone) && SameAt(input.service, after, alone)
    ensures Shows(input, row, before, after)
  {
    hide ToInt32, StableName, CanaryName;
  }

  /** The cluster tells the truth of a rolled-back or timed-out row: once its compensations have completed, the service
      has its counts back exactly if no scaling by an unreported step had landed, and is wholly back exactly if no patch
      of stable by Promote had landed either. Whatever they did, its cluster is what the landed writes have made of it.
      */
  predicate ShowsRollback(input: CanaryInput, row: CanaryResult, ws: W.State, landed: S.Landed, before: Cluster.State,
                          after: Cluster.State) {
    S.Baseline(input, before) && W.Unwinding(row) && !row.reason.ChildError? ==>
      && (R.CountsRestored(input, after) <==> landed.canary == 0 && !landed.low)
      && (R.Restored(input, before, after) <==> R.CountsRestored(input, after) && R.ImageKept(input, before, landed))
      && (Laws.CompensationsCompleted(ws.answers) ==>
            (R.CountsRestored(input, after) <==> R.NothingUnreported(input, ws.stack, landed)))
  }

  lemma AloneShowsRollback(cfg: Deploy.Config, world: Deploy.World, evs: seq<Deploy.Event>)
    requires W.Over(Deploy.Play(cfg, world, evs).run.ws.pc)
    ensures var st := Deploy.Play(cfg, world, evs);
            ShowsRollback(cfg.input, Row(cfg.input.service, EndOf(st.run.ws)), st.run.ws, S.LandedBy(cfg, world, evs),
                          world.cluster, st.world.cluster)
  {
    hide Deploy.Play, S.LandedBy, R.CountsRestored, R.Restored, R.NothingUnreported, R.ImageKept,
      Laws.CompensationsCompleted;
    var st := Deploy.Play(cfg, world, evs);
    if S.Baseline(cfg.input, world.cluster) {
      R.BackExactlyWhen(cfg, world, evs);
      if st.run.ws.pc.Finished? && W.Unwinding(st.run.ws.res) && Laws.CompensationsCompleted(st.run.ws.answers) {
        R.RestoredExactlyWhen(cfg, world, evs);
      }
    }
  }

  lemma RestoredSame(input: CanaryInput, before: Cluster.State, alone: Cluster.State, after: Cluster.State)
    requires SameAt(input.service, after, alone)
    ensures R.CountsRestored(input, after) <==> R.CountsRestored(input, alone)
    ensures S.Present(input, before) ==> (R.Restored(input, before, after) <==> R.Restored(input, before, alone))
  {
    hide StableName, CanaryName;
  }

  /** Child i of a release, in terms of its run alone. */
  lemma ChildAlone(rel: ReleaseInput, runIds: seq<string>, world: Deploy.World, turns: seq<Turn>, i: nat)
    requires |runIds| == |rel.services| && DistinctServices(rel) && DistinctKeys(world.table) && i < |rel.services|
    ensures var m := PlayAll(Configs(rel, runIds), world, turns);
            var alone := Deploy.Play(ChildConfig(rel, i, runIds[i]), world, Own(turns, i));
            m.runs[i] == alone.run && SameAt(rel.services[i].service, m.world.cluster, alone.world.cluster)
  {
    hide PlayAll, Deploy.Play, Own, SameAt;
    ChildrenAreApart(rel, runIds);
    ChildrenDoNotInterfere(Configs(rel, runIds), world, turns, i);
  }

  /** The result of a release of distinct services, however their deploys interleaved: one row per service in the order
      of the request, each the row the deploy would have produced alone, and each true of the shared cluster.
      AllPromoted means that every service runs its new image at its target with its canary at zero. */
  lemma {:induction false} ReleaseTellsCluster(rel: ReleaseInput, runIds: seq<string>, world: Deploy.World,
                                               turns: seq<Turn>, cs: seq<Completion>)
    requires |runIds| == |rel.services| && DistinctServices(rel) && DistinctKeys(world.table)
    requires Truthful(cs, PlayAll(Configs(rel, runIds), world, turns)) && AllEnded(cs, |rel.services|)
    ensures var m, results := PlayAll(Configs(rel, runIds), world, turns), Results(rel, cs, |rel.services|);
            forall i | 0 <= i < |rel.services| :: ChildTells(rel, runIds, world, turns, m, results[i], i)
  {
    hide ChildTells, PlayAll;
    var m, results := PlayAll(Configs(rel, runIds), world, turns), Results(rel, cs, |rel.services|);
    forall i | 0 <= i < |rel.services| ensures ChildTells(rel, runIds, world, turns, m, results[i], i) {
      assert FirstOf(cs, i).Some?;
      OneChildTells(rel, runIds, world, turns, m, i);
    }
  }

  predicate ChildTells(rel: ReleaseInput, runIds: seq<string>, world: Deploy.World, turns: seq<Turn>, m: All,
                       row: CanaryResult, i: nat)
    requires |runIds| == |rel.services| == |m.runs| && i < |rel.services|
  {
    var input, cfg := ChildInput(rel.services[i]), ChildConfig(rel, i, runIds[i]);
    && row == Row(input.service, EndOf(Deploy.Play(cfg, world, Own(turns, i)).run.ws))
    && Shows(input, row, world.cluster, m.world.cluster)
    && ShowsRollback(input, row, m.runs[i].ws, S.LandedBy(cfg, world, Own(turns, i)), world.cluster, m.world.cluster)
  }

  lemma OneChildTells(rel: ReleaseInput, runIds: seq<string>, world: Deploy.World, turns: seq<Turn>, m: All, i: nat)
    requires |runIds| == |rel.services| && DistinctServices(rel) && DistinctKeys(world.table) && i < |rel.services|
    requires m == PlayAll(Configs(rel, runIds), world, turns) && W.Over(m.runs[i].ws.pc)
    ensures ChildTells(rel, runIds, world, turns, m, Row(rel.services[i].service, EndOf(m.runs[i].ws)), i)
  {
    hide PlayAll, Deploy.Play, Shows, Own, SameAt, S.LandedBy, R.CountsRestored, R.Restored, R.NothingUnreported,
      R.ImageKept, Laws.CompensationsCompleted;
    var cfg, evs := ChildConfig(rel, i, runIds[i]), Own(turns, i);
    var alone := Deploy.Play(cfg, world, evs);
    ChildAlone(rel, runIds, world, turns, i);
    AloneShows(cfg, world, evs);
    AloneShowsRollback(cfg, world, evs);
    ShowsSame(cfg.input, Row(cfg.input.service, EndOf(alone.run.ws)), world.cluster, alone.world.cluster,
              m.world.cluster);
    RestoredSame(cfg.input, world.cluster, alone.world.cluster, m.world.cluster);
  }

  /** A service of a release has its counts back after a rollback that followed a reported scale-up and whose
      compensations completed, if none of its own failed calls was applied and none of its own successes was lost,
      whatever the others did; and it is wholly back exactly if none of its promotion's attempts had patched stable. */
  lemma {:induction false} ReleaseRestores(rel: ReleaseInput, runIds: seq<string>, world: Deploy.World,
                                           turns: seq<Turn>, i: nat)
    requires |runIds| == |rel.services| && DistinctServices(rel) && DistinctKeys(world.table) && i < |rel.services|
    requires S.Baseline(ChildInput(rel.services[i]), world.cluster)
    requires R.AllAcknowledged(ChildConfig(rel, i, runIds[i]), world, Own(turns, i))
    requires var ws := PlayAll(Configs(rel, runIds), world, turns).runs[i].ws;
             && ws.pc.Finished? && W.Unwinding(ws.res) && Laws.CompensationsCompleted(ws.answers)
             && Laws.Reported(ws.answers, ScaleCanary)
    ensures var input, m := ChildInput(rel.services[i]), PlayAll(Configs(rel, runIds), world, turns);
            var landed := S.LandedBy(ChildConfig(rel, i, runIds[i]), world, Own(turns, i));
            && R.CountsRestored(input, m.world.cluster)
            && (R.Restored(input, world.cluster, m.world.cluster) <==> R.ImageKept(input, world.cluster, landed))
            && (Promote !in m.runs[i].ws.commands ==> R.Restored(input, world.cluster, m.world.cluster))
  {
    hide PlayAll, Deploy.Play, Own, SameAt, R.CountsRestored, R.Restored, R.ImageKept, R.AllAcknowledged, S.LandedBy,
      Laws.CompensationsCompleted, Laws.Reported;
    var cfg, evs := ChildConfig(rel, i, runIds[i]), Own(turns, i);
    ChildAlone(rel, runIds, world, turns, i);
    R.AcknowledgedRunsRestore(cfg, world, evs);
    RestoredSame(cfg.input, world.cluster, Deploy.Play(cfg, world, evs).world.cluster,
                 PlayAll(Configs(rel, runIds), world, turns).world.cluster);
  }

  /** Capacity holds for every service of a release at every moment, whatever the other deploys are doing. */
  lemma ReleaseKeepsCapacity(rel: ReleaseInput, runIds: seq<string>, world: Deploy.World, turns: seq<Turn>, i: nat)
    requires |runIds| == |rel.services| && DistinctServices(rel) && DistinctKeys(world.table)
    requires i < |rel.services| && S.Baseline(rel.services[i], world.cluster)
    ensures var m, input := PlayAll(Configs(rel, runIds), world, turns), rel.services[i];
            && S.Present(input, m.world.cluster)
            && var total := S.Together(input, m.world.cluster);
               && total >= input.targetReplicas / 2
               && (!W.Unwinding(m.runs[i].ws.res) ==> total >= input.targetReplicas)
  {
    hide PlayAll, Deploy.Play, Own, StableName, CanaryName;
    ChildAlone(rel, runIds, world, turns, i);
    S.CapacityIsKept(ChildConfig(rel, i, runIds[i]), world, Own(turns, i));
  }

  /** Whatever else happens on the shared world, a child is at the state some history of its own leads to. */
  lemma {:induction false} ChildReplays(rel: ReleaseInput, runIds: seq<string>, world: Deploy.World, turns: seq<Turn>,
                                        i: nat)
    returns (history: seq<W.Task>)
    requires |runIds| == |rel.services| && i < |rel.services|
    ensures PlayAll(Configs(rel, runIds), world, turns).runs[i].ws ==
            W.Replay(ChildInput(rel.services[i]), history)
  {
    hide Deploy.Step, W.OnTask, Deploy.TaskOf, ChildInput;
    if turns == [] {
      history := [];
    } else {
      var n := |turns| - 1;
      var t, m := turns[n], PlayAll(Configs(rel, runIds), world, turns[..n]);
      history := ChildReplays(rel, runIds, world, turns[..n], i);
      if t.child == i {
        var cfg, st := ChildConfig(rel, i, runIds[i]), Deploy.St(m.runs[i], m.world);
        Deploy.StepIsTask(cfg, st, t.event);
        var ts := Deploy.TaskOf(cfg, st, t.event);
        if ts != [] {
          assert (history + ts)[..|history|] == history;
          history := history + ts;
        }
      }
    }
  }

  /** A child of a release runs its service's request with auto-promotion, whatever the request says. At no moment does
      it wait for a decision; every decision it records is the automatic one; and it never times out. */
  lemma ChildrenAreAutomatic(rel: ReleaseInput, runIds: seq<string>, world: Deploy.World, turns: seq<Turn>, i: nat)
    requires |runIds| == |rel.services| && i < |rel.services|
    ensures var svc, ws := rel.services[i], PlayAll(Configs(rel, runIds), world, turns).runs[i].ws;
            && Configs(rel, runIds)[i] ==
               Deploy.Config(svc.(autoPromote := true), rel.releaseId + "-" + svc.service, runIds[i])
            && !ws.pc.AtGate? && ws.phase != W.AwaitingPhase && ws.res.status != TimedOut
            && ws.res.actor in ["", "auto-release"]
            && forall a | a in ws.commands && a.RecordApproval? :: a == RecordApproval("auto-release", Auto)
  {
    hide PlayAll, W.Replay;
    var history := ChildReplays(rel, runIds, world, turns, i);
    Told.AutoRuns(ChildInput(rel.services[i]), history);
  }

  /** Of a release whose children have all ended, no row is a timeout, and a promoted one names the release as its
      approver. */
  lemma RowsAreAutomatic(rel: ReleaseInput, runIds: seq<string>, world: Deploy.World, turns: seq<Turn>,
                         cs: seq<Completion>, i: nat)
    requires |runIds| == |rel.services| && i < |rel.services|
    requires Truthful(cs, PlayAll(Configs(rel, runIds), world, turns)) && AllEnded(cs, |rel.services|)
    ensures var row := Results(rel, cs, |rel.services|)[i];
            && row.service == rel.services[i].service
            && row.status in {Promoted, RolledBack, PolicyRejected}
            && (row.status == Promoted ==> row.actor == "auto-release" && row.reason == ApprovedBy("auto-release"))
            && (row.status == PolicyRejected ==> row.reason == PolicyDenied)
  {
    hide PlayAll, W.Replay;
    var history := ChildReplays(rel, runIds, world, turns, i);
    assert FirstOf(cs, i).Some?;
    hide FirstOf;
    Told.ResultTellsLog(ChildInput(rel.services[i]), history);
  }

  /** The audit rows that a query for one child shows are all its rows that were carried out, and they tell the truth
      about it, whatever rows the others write between. */
  lemma {:induction false} ReleaseIsAudited(rel: ReleaseInput, runIds: seq<string>, world: Deploy.World,
                                            turns: seq<Turn>, i: nat)
    requires |runIds| == |rel.services| && DistinctServices(rel) && i < |rel.services|
    requires Trail.NewRun(ChildConfig(rel, i, runIds[i]), world.table)
    ensures var m, cfg := PlayAll(Configs(rel, runIds), world, turns), ChildConfig(rel, i, runIds[i]);
            var rows := Query(m.world.table, cfg.workflowId);
            && DistinctKeys(m.world.table)
            && Trail.Bracketed(cfg, m.runs[i], Trail.Accepted(cfg, world, Own(turns, i), StartPhase), rows)
            && Trail.Approvals(cfg, m.runs[i].ws, rows)
            && Complete(cfg, world, Own(turns, i), rows)
            && (Trail.ApprovalReported(m.runs[i].ws.answers) ==> Trail.HasApproval(cfg, rows))
  {
    hide PlayAll, Deploy.Play, Own, SameAt, Trail.Accepted, Query, Trail.Bracketed, Trail.Approvals, Complete,
      Trail.ApprovalReported, Trail.HasApproval, Trail.NewRun;
    var cfgs, cfg, evs := Configs(rel, runIds), ChildConfig(rel, i, runIds[i]), Own(turns, i);
    ChildrenAreApart(rel, runIds);
    assert DistinctKeys(world.table) by { NewRunIsDistinct(cfg, world.table); }
    ChildrenDoNotInterfere(cfgs, world, turns, i);
    var alone := Deploy.Play(cfg, world, evs);
    Trail.RowsBracketExecutions(cfg, world, evs);
    Trail.ApprovalRowsTellOutcome(cfg, world, evs);
    Trail.QueryIsBracketed(cfg, alone.run, Trail.Accepted(cfg, world, evs, StartPhase), alone.world.table);
    Trail.QueryShowsApprovals(cfg, alone.run.ws, alone.world.table);
    QueryIsComplete(cfg, world, evs);
    Trail.ReportedApprovalIsThere(cfg, world, evs);
    if Trail.ApprovalReported(alone.run.ws.answers) {
      Trail.QueryHasApproval(cfg, alone.world.table);
    }
  }

  lemma NewRunIsDistinct(cfg: Deploy.Config, t: seq<Entry>)
    requires Trail.NewRun(cfg, t)
    ensures DistinctKeys(t)
  {}

  /** The rows of the run are those that were carried out, of every execution and phase. */
  ghost predicate Complete(cfg: Deploy.Config, world: Deploy.World, evs: seq<Deploy.Event>, rows: seq<Entry>) {
    forall x: Execution, phase: RowPhase | x.workflowId == cfg.workflowId && x.runId == cfg.runId ::
      Trail.HasRow(rows, x, phase) <==> x in Trail.Accepted(cfg, world, evs, phase)
  }

  lemma QueryIsComplete(cfg: Deploy.Config, world: Deploy.World, evs: seq<Deploy.Event>)
    requires Trail.NewRun(cfg, world.table)
    ensures Complete(cfg, world, evs, Query(Deploy.Play(cfg, world, evs).world.table, cfg.workflowId))
  {
    hide Deploy.Play, Trail.Accepted, Query, Trail.HasRow, Trail.NewRun;
    var t := Deploy.Play(cfg, world, evs).world.table;
    forall x: Execution, phase: RowPhase | x.workflowId == cfg.workflowId && x.runId == cfg.runId
      ensures Trail.HasRow(Query(t, cfg.workflowId), x, phase) <==> x in Trail.Accepted(cfg, world, evs, phase)
    {
      Trail.RowsAreAccepted(cfg, world, evs, x, phase);
      Trail.QueryHasRow(t, x, phase);
    }
  }
}
