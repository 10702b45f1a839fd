/** The append-only audit log: its uniqueness index, its queries, and the rows around each activity execution. */
module Audit {
  import opened Types

  datatype ActivityType =
    | PolicyCheckType | ScaleCanaryType | HealthCheckType | ShiftTrafficType | RecordApprovalType
    | PromoteType | ScaleDownCanaryType | ShiftTrafficBackType | AlertType

  function TypeOf(a: Activity): ActivityType {
    match a
    case PolicyCheck => PolicyCheckType
    case ScaleCanary => ScaleCanaryType
    case HealthCheck => HealthCheckType
    case ShiftTraffic => ShiftTrafficType
    case RecordApproval(_, _) => RecordApprovalType
    case Promote => PromoteType
    case ScaleDownCanary => ScaleDownCanaryType
    case ShiftTrafficBack => ShiftTrafficBackType
    case Alert(_, _) => AlertType
  }

  datatype RowPhase = StartPhase | EndPhase | ApprovalPhase

  datatype RowStatus = StartedStatus | CompletedStatus | FailedStatus | DecidedStatus(decision: Decision)

  /** What identifies one execution of an activity. */
  datatype Execution = Execution(workflowId: string, runId: string, activityId: nat, attempt: nat)

  /** A zero timestamp is filled in when the entry is recorded. */
  datatype Entry = Entry(
    execution: Execution,
    activityType: ActivityType,
    phase: RowPhase,
    status: RowStatus,
    actor: string,
    detail: string,
    timestamp: nat)

  // --- The table ---

  /** The columns of the unique index. */
  predicate SameKey(d: Entry, e: Entry) { d.execution == e.execution && d.phase == e.phase }

  predicate HasKey(t: seq<Entry>, e: Entry) { exists i | 0 <= i < |t| :: SameKey(t[i], e) }

  /** INSERT OR IGNORE. */
  function Insert(t: seq<Entry>, e: Entry): seq<Entry> { if HasKey(t, e) then t else t + [e] }

  function InsertAll(t: seq<Entry>, log: seq<Entry>): seq<Entry> {
    if log == [] then t else Insert(InsertAll(t, log[..|log| - 1]), log[|log| - 1])
  }

  /** The entries of the log that no earlier entry of the log shares its key with, in call order. */
  function FirstOccurrences(log: seq<Entry>): seq<Entry> {
    if log == [] then []
    else
      var n := |log| - 1;
      FirstOccurrences(log[..n]) + if HasKey(log[..n], log[n]) then [] else [log[n]]
  }

  predicate DistinctKeys(t: seq<Entry>) { forall i, j | 0 <= i < j < |t| :: !SameKey(t[i], t[j]) }

  function Query(t: seq<Entry>, workflowId: string): seq<Entry> {
    if t == [] then []
    else
      var n := |t| - 1;
      Query(t[..n], workflowId) + if t[n].execution.workflowId == workflowId then [t[n]] else []
  }

  /** The table holds the first occurrence of every recorded key and nothing else. */
  lemma {:induction false} TableIsFirstOccurrences(log: seq<Entry>)
    ensures InsertAll([], log) == FirstOccurrences(log)
    ensures DistinctKeys(InsertAll([], log))
    ensures forall e: Entry :: HasKey(InsertAll([], log), e) <==> HasKey(log, e)
  {
    if log != [] {
      var n := |log| - 1;
      var t, t' := InsertAll([], log[..n]), InsertAll([], log);
      TableIsFirstOccurrences(log[..n]);
      assert log == log[..n] + [log[n]];
      forall e: Entry ensures HasKey(t', e) <==> HasKey(log, e) {
        HasKeyAppend(log[..n], log[n], e);
        HasKeyAppend(t, log[n], e);
        if HasKey(t, log[n]) && SameKey(log[n], e) {
          var i :| 0 <= i < |t| && SameKey(t[i], log[n]);
          assert SameKey(t[i], e);
        }
      }
    }
  }

  lemma HasKeyAppend(t: seq<Entry>, last: Entry, e: Entry)
    ensures HasKey(t + [last], e) <==> HasKey(t, e) || SameKey(last, e)
  {
    if HasKey(t, e) {
      var i :| 0 <= i < |t| && SameKey(t[i], e);
      assert (t + [last])[i] == t[i];
    }
    if SameKey(last, e) {
      assert (t + [last])[|t|] == last;
    }
  }

  /** Recording again, in any order and with any payload, what is already recorded changes nothing. */
  lemma {:induction false} RerecordingIsIgnored(t: seq<Entry>, again: seq<Entry>)
    requires forall i | 0 <= i < |again| :: HasKey(t, again[i])
    ensures InsertAll(t, again) == t
  {
    if again != [] {
      RerecordingIsIgnored(t, again[..|again| - 1]);
    }
  }

  /** A query is the workflow's own sub-log in order: it drops other workflows' rows and keeps its own. */
  lemma QueryOfInsert(t: seq<Entry>, e: Entry, workflowId: string)
    requires DistinctKeys(t)
    ensures Query(Insert(t, e), workflowId) ==
            if e.execution.workflowId == workflowId then Insert(Query(t, workflowId), e) else Query(t, workflowId)
    ensures DistinctKeys(Insert(t, e))
  {
    assert (t + [e])[..|t|] == t;
    if e.execution.workflowId == workflowId {
      QueryKeys(t, e, workflowId);
    }
  }

  lemma {:induction false} QueryKeys(t: seq<Entry>, e: Entry, workflowId: string)
    requires e.execution.workflowId == workflowId
    ensures HasKey(Query(t, workflowId), e) <==> HasKey(t, e)
  {
    if t != [] {
      var n := |t| - 1;
      QueryKeys(t[..n], e, workflowId);
      HasKeyAppend(t[..n], t[n], e);
      HasKeyAppend(Query(t[..n], workflowId), t[n], e);
      assert t == t[..n] + [t[n]] && Query(t[..n], workflowId) + [] == Query(t[..n], workflowId);
    }
  }

  /** Whatever is recorded later, an earlier query result stays a prefix of every later one. */
  lemma {:induction false} QueriesOnlyGrow(t: seq<Entry>, log: seq<Entry>, workflowId: string)
    ensures Query(t, workflowId) <= Query(InsertAll(t, log), workflowId)
  {
    if log != [] {
      var n := |log| - 1;
      QueriesOnlyGrow(t, log[..n], workflowId);
      var before := InsertAll(t, log[..n]);
      assert (before + [log[n]])[..|before|] == before;
    }
  }

  // --- The rows of an execution ---

  function StartRow(x: Execution, activityType: ActivityType, now: nat): Entry {
    Entry(x, activityType, StartPhase, StartedStatus, "", "", now)
  }

  function EndRow(x: Execution, activityType: ActivityType, failed: bool, now: nat): Entry {
    if failed then Entry(x, activityType, EndPhase, FailedStatus, "", "error", now)
    else Entry(x, activityType, EndPhase, CompletedStatus, "", "", now)
  }

  function Detail(d: Decision): string {
    match d
    case Auto => "promoted via release orchestrator"
    case Timeout => "no approval within the timeout"
    case Rejected => "promotion rejected"
    case Approved => "promotion approved"
  }

  function ApprovalRow(x: Execution, actor: string, d: Decision, now: nat): Entry {
    Entry(x, RecordApprovalType, ApprovalPhase, DecidedStatus(d), actor, Detail(d), now)
  }

  function InsertIf(written: bool, t: seq<Entry>, e: Entry): seq<Entry> { if written then Insert(t, e) else t }

  /** How the database deals with a statement. Lost: it is carried out but the caller sees an error. */
  datatype Fate = Written | Refused | Lost

  /** An execution fails if its activity does; RecordApproval does if its own row is not acknowledged. */
  predicate Fails(a: Activity, failed: bool, own: Fate) { if a.RecordApproval? then !own.Written? else failed }

  /** The table after one whole execution: start row, the activity's own row if it has one, end row. */
  function ExecutionRows(t: seq<Entry>, x: Execution, a: Activity, failed: bool, start: Fate, own: Fate, end: Fate,
                         startNow: nat, ownNow: nat, endNow: nat): seq<Entry> {
    var started := InsertIf(!start.Refused?, t, StartRow(x, TypeOf(a), startNow));
    var recorded := if a.RecordApproval?
                    then InsertIf(!own.Refused?, started, ApprovalRow(x, a.actor, a.decision, ownNow))
                    else started;
    InsertIf(!end.Refused?, recorded, EndRow(x, TypeOf(a), Fails(a, failed, own), endNow))
  }

  // --- The store and its writers ---

  /** How a query can go wrong: at once, on scanning a row, or on moving past one. */
  datatype QueryFault = NoFault | NotRun | BadRow(at: nat) | CutOff(at: nat)

  class Store {
    var table: seq<Entry>

    constructor ()
      ensures table == []
    {
      table := [];
    }

    /** now is the clock. */
    method Record(e: Entry, now: nat, fate: Fate) returns (ok: bool)
      modifies this
      ensures table == InsertIf(!fate.Refused?, old(table), if e.timestamp == 0 then e.(timestamp := now) else e)
      ensures var t, x := old(table), e.execution;
              var known := exists i | 0 <= i < |t| ::
                             && t[i].execution.workflowId == x.workflowId && t[i].execution.runId == x.runId
                             && t[i].execution.activityId == x.activityId && t[i].execution.attempt == x.attempt
                             && t[i].phase == e.phase;
              table == if fate.Refused? || known then t
                       else t + [if e.timestamp == 0 then e.(timestamp := now) else e]
      ensures ok == fate.Written?
    {
      var entry := e;
      if entry.timestamp == 0 { entry := entry.(timestamp := now); }
      if fate.Refused? { return false; }
      var i := 0;
      while i < |table|
        invariant 0 <= i <= |table|
        invariant table == old(table)
        invariant forall j | 0 <= j < i :: !SameKey(table[j], entry)
      {
        if SameKey(table[i], entry) { return fate.Written?; }
        i := i + 1;
      }
      table := table + [entry];
      return fate.Written?;
    }

    /** A row that cannot be scanned loses the whole result; a cut-off result is returned with the error. */
    method QueryByWorkflow(workflowId: string, fault: QueryFault) returns (out: seq<Entry>, ok: bool)
      ensures var all := Query(table, workflowId);
              match fault
              case NoFault => ok && out == all
              case NotRun => !ok && out == []
              case BadRow(at) => if at < |all| then !ok && out == [] else ok && out == all
              case CutOff(at) => !ok && out == all[..if at < |all| then at else |all|]
    {
      hide Query;
      out := [];
      if fault.NotRun? { return out, false; }
      QueryOfNothing(table, workflowId);
      var i := 0;
      while i < |table|
        invariant 0 <= i <= |table|
        invariant out == Query(table[..i], workflowId)
        invariant !fault.NotRun? && (fault.BadRow? || fault.CutOff? ==> |out| <= fault.at)
      {
        QueryRow(table, i, workflowId);
        if table[i].execution.workflowId == workflowId {
          if fault == BadRow(|out|) { return [], false; }
          if fault == CutOff(|out|) { return out, false; }
          out := out + [table[i]];
        }
        i := i + 1;
      }
      assert table[..|table|] == table;
      return out, !fault.CutOff?;
    }
  }

  /** What a query has found by row i is the beginning of what it finds. */
  lemma {:induction false} QueryGrows(t: seq<Entry>, i: nat, workflowId: string)
    requires i <= |t|
    ensures Query(t[..i], workflowId) <= Query(t, workflowId)
  {
    if i < |t| {
      var n := |t| - 1;
      assert t[..n][..i] == t[..i];
      QueryGrows(t[..n], i, workflowId);
    } else {
      assert t[..i] == t;
    }
  }

  lemma QueryOfNothing(t: seq<Entry>, workflowId: string)
    ensures Query(t[..0], workflowId) == []
  {}

  /** Row i adds itself to what a query has found, or nothing. */
  lemma QueryRow(t: seq<Entry>, i: nat, workflowId: string)
    requires i < |t|
    ensures var own := if t[i].execution.workflowId == workflowId then [t[i]] else [];
            Query(t[..i + 1], workflowId) == Query(t[..i], workflowId) + own <= Query(t, workflowId)
  {
    assert t[..i + 1][..i] == t[..i];
    QueryGrows(t, i + 1, workflowId);
  }

  /** The process-wide store; recording without one is a no-op. */
  class Default {
    var store: Store?

    method SetDefault(s: Store?)
      modifies this
      ensures store == s
    {
      store := s;
    }

    method Record(e: Entry, now: nat, fate: Fate) returns (ok: bool)
      modifies store
      ensures store == null ==> ok
      ensures store != null ==>
                ok == fate.Written? &&
                store.table == InsertIf(!fate.Refused?, old(store.table),
                                        if e.timestamp == 0 then e.(timestamp := now) else e)
    {
      if store == null { return true; }
      ok := store.Record(e, now, fate);
    }

    /** The RecordApproval activity: one approval row for this attempt. */
    method RecordApproval(x: Execution, actor: string, d: Decision, now: nat, fate: Fate) returns (ok: bool)
      modifies store
      ensures store == null ==> ok
      ensures store != null ==>
                ok == fate.Written? &&
                  store.table == InsertIf(!fate.Refused?, old(store.table), ApprovalRow(x, actor, d, now))
      ensures ApprovalRow(x, actor, d, now) ==
              Entry(x, RecordApprovalType, ApprovalPhase, DecidedStatus(d), actor,
                    match d
                    case Auto => "promoted via release orchestrator"
                    case Timeout => "no approval within the timeout"
                    case Rejected => "promotion rejected"
                    case Approved => "promotion approved",
                    now)
    {
      ok := Record(ApprovalRow(x, actor, d, 0), now, fate);
    }
  }

  /** The interceptor around one activity execution. RecordApproval writes its own row to the process-wide store, which
      need not be the interceptor's. start, own and end are the fates of the writes; failed is what any other activity
      returns. */
  method ExecuteActivity(default: Default, store: Store, x: Execution, a: Activity, failed: bool,
                         start: Fate, own: Fate, end: Fate, startNow: nat, ownNow: nat, endNow: nat) returns (err: bool)
    modifies store, default.store
    ensures err == if a.RecordApproval? then default.store != null && !own.Written? else failed
    ensures var kind := match a
                        case PolicyCheck => PolicyCheckType
                        case ScaleCanary => ScaleCanaryType
                        case HealthCheck => HealthCheckType
                        case ShiftTraffic => ShiftTrafficType
                        case RecordApproval(_, _) => RecordApprovalType
                        case Promote => PromoteType
                        case ScaleDownCanary => ScaleDownCanaryType
                        case ShiftTrafficBack => ShiftTrafficBackType
                        case Alert(_, _) => AlertType;
            var first := Entry(x, kind, StartPhase, StartedStatus, "", "", startNow);
            var last := Entry(x, kind, EndPhase, if err then FailedStatus else CompletedStatus, "",
                              if err then "error" else "", endNow);
            var started := InsertIf(!start.Refused?, old(store.table), first);
            var recorded := if a.RecordApproval? && default.store == store
                            then InsertIf(!own.Refused?, started, ApprovalRow(x, a.actor, a.decision, ownNow))
                            else started;
            store.table == InsertIf(!end.Refused?, recorded, last)
    ensures default.store == store ==>
              store.table == ExecutionRows(old(store.table), x, a, failed, start, own, end, startNow, ownNow, endNow)
    ensures default.store != null && default.store != store ==>
              default.store.table == if a.RecordApproval?
                                     then InsertIf(!own.Refused?, old(default.store.table),
                                                   ApprovalRow(x, a.actor, a.decision, ownNow))
                                     else old(default.store.table)
  {
    hide InsertIf, Detail;
    var base := Entry(x, TypeOf(a), StartPhase, StartedStatus, "", "", 0);
    var _ := store.Record(base, startNow, start);
    err := failed;
    if a.RecordApproval? {
      var ok := default.RecordApproval(x, a.actor, a.decision, ownNow, own);
      err := !ok;
    }
    var last := base.(phase := EndPhase);
    if err {
      last := last.(status := FailedStatus, detail := "error");
    } else {
      last := last.(status := CompletedStatus);
    }
    var _ := store.Record(last, endNow, end);
  }
}
