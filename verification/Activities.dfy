/** The activities: which API calls each one makes, in which order, and the code that makes them. */
module Activities {
  import opened Types
  import opened Cluster

  const SHIFT_WEIGHT := 50

  // --- The traffic split ---

  function Total(target: int): int { if target < 1 then 1 else target }

  /** total * weight / 100 rounded half up. */
  function RoundedShare(target: int, weight: nat): int { (2 * (Total(target) * weight) + 100) / 200 }

  /** Canary replicas for a weight: the share rounded half up, and at least 1 for a non-zero weight. */
  function CanaryShare(target: int, weight: nat): int {
    var share := ToInt32(RoundedShare(target, weight));
    if share < 1 && weight > 0 then 1 else share
  }

  function StableShare(target: int, weight: nat): int {
    var rest := ToInt32(ToInt32(Total(target)) - CanaryShare(target, weight));
    if rest < 0 then 0 else rest
  }

  /** math.Round: to the nearest integer, halves away from zero. */
  function Round(x: real): int {
    if x < 0.0 then -((0.5 - x).Floor) else (x + 0.5).Floor
  }

  /** quotient is the floating-point value of p / 100. */
  predicate IsQuotient(p: int, quotient: real) {
    && p as real / 100.0 - 0.005 < quotient < p as real / 100.0 + 0.005
    && (p % 50 == 0 ==> quotient == p as real / 100.0)
  }

  /** Rounding a quotient by 100 gives the integer formula. The quotient may carry a representation error below
      1/200, as long as integers and halves, which are exact in binary, are computed exactly. */
  lemma RoundedQuotient(p: nat, q: real)
    requires IsQuotient(p, q)
    ensures Round(q) == (2 * p + 100) / 200
  {
    var f := (2 * p + 100) / 200;
    var d := p + 50 - 100 * f;
    assert 0 <= d < 100;
    if d == 0 {
      assert p == 50 * (2 * f - 1);
      assert p % 50 == 0;
    }
    FloorBetween(p as real / 100.0, q, f, d);
  }

  lemma FloorBetween(x: real, q: real, f: int, d: int)
    requires x - 0.005 < q < x + 0.005 && x >= 0.0
    requires 0 <= d < 100 && x + 0.5 == f as real + d as real / 100.0
    requires d == 0 ==> q == x
    ensures Round(q) == f
  {
    assert f as real <= q + 0.5 < f as real + 1.0;
    if q < 0.0 {
      assert x < 0.005 && d == 50 && f == 0;
      assert 0.0 <= 0.5 - q < 1.0;
    }
  }

  lemma RoundedShareOfQuotient(target: int, weight: nat, q: real)
    requires IsQuotient(Total(target) * weight, q)
    ensures Round(q) == RoundedShare(target, weight) == (2 * ((if target < 1 then 1 else target) * weight) + 100) / 200
  {
    MulMonotone(0, weight, Total(target));
    RoundedQuotient(Total(target) * weight, q);
  }

  lemma MulMonotone(a: int, b: int, k: nat)
    requires a <= b
    ensures a * k <= b * k && k * a <= k * b
  {}

  /** For weights 0..100 and int32-sized totals the split loses no replica, both parts are non-negative, and the
      canary's part is within half a replica of the exact share unless the floor of 1 raised it. */
  lemma SplitIsFair(target: int, weight: nat)
    requires target < 0x8000_0000 && weight <= 100
    ensures var total, canary := if target < 1 then 1 else target, CanaryShare(target, weight);
            && canary + StableShare(target, weight) == total
            && 0 <= canary <= total
            && (canary == 0 <==> weight == 0)
            && (-100 <= 2 * (100 * canary - total * weight) <= 100 || (canary == 1 && 2 * (total * weight) < 100))
  {
    var total := Total(target);
    MulMonotone(weight, 100, total);
    var x := RoundedShare(target, weight);
    assert 200 * x <= 2 * (total * weight) + 100 < 200 * x + 200;
    assert 0 <= x <= total;
    if weight > 0 {
      MulMonotone(1, weight, total);
    }
  }

  lemma SplitIsMonotone(target: int, low: nat, high: nat)
    requires target < 0x8000_0000 && low <= high <= 100
    ensures CanaryShare(target, low) <= CanaryShare(target, high)
  {
    var total := Total(target);
    MulMonotone(0, low, total);
    MulMonotone(low, high, total);
    MulMonotone(high, 100, total);
    assert 0 <= RoundedShare(target, low) <= RoundedShare(target, high) <= total;
  }

  /** At the workflow's weight the canary takes the larger half. */
  lemma SplitAtHalf(target: int)
    requires 1 <= target < 0x8000_0000
    ensures CanaryShare(target, SHIFT_WEIGHT) == (target + 1) / 2
    ensures StableShare(target, SHIFT_WEIGHT) == target / 2
  {
    assert RoundedShare(target, SHIFT_WEIGHT) == (target + 1) / 2;
  }

  // --- The calls of each activity ---

  /** The seconds of a bake; an injected failure also waits them out. */
  function Polls(input: CanaryInput): nat { if input.bakeSeconds < 0 then 0 else input.bakeSeconds }

  function Calls(input: CanaryInput, a: Activity): seq<Call> {
    var stable, canary := StableName(input.service), CanaryName(input.service);
    match a
    case PolicyCheck => if input.simulatePolicyReject then [] else [DryRun(canary)]
    case ScaleCanary => [Patch(canary, input.imageTag), Scale(canary, ToInt32(input.canaryReplicas)), Status(canary)]
    case HealthCheck => seq(Polls(input), _ => if input.simulateHealthFail then Tick else Status(canary))
    case ShiftTraffic =>
      if input.simulateTrafficFail then [Abort]
      else [Scale(canary, CanaryShare(input.targetReplicas, SHIFT_WEIGHT)),
            Scale(stable, StableShare(input.targetReplicas, SHIFT_WEIGHT))]
    case Promote =>
      [Patch(stable, input.imageTag), Scale(stable, ToInt32(input.targetReplicas)), Scale(canary, 0)]
    case ScaleDownCanary => [Scale(canary, 0)]
    case ShiftTrafficBack => [Scale(canary, 0), Scale(stable, ToInt32(Total(input.targetReplicas)))]
    case RecordApproval(_, _) => [Append]
    case Alert(_, _) => []
  }

  lemma OneScaleEachActivity(input: CanaryInput, a: Activity)
    ensures OneScaleEach(Calls(input, a))
  {
    NamesNeverCollide(input.service, input.service);
  }

  /** At-least-once execution of any activity, from any cluster: after any number of attempts that stopped anywhere, one
      that completes leaves the cluster as a single clean execution would, and over all of them each Deployment was
      scaled at most once, and not at all if it was at its target before. */
  lemma ActivityConverges(input: CanaryInput, a: Activity, c: State, scripts: seq<seq<Reply>>, clean: seq<Reply>,
                          n: string)
    requires Attempts(c, Calls(input, a), scripts).ok && Attempt(c, Calls(input, a), clean).ok
    ensures var o := Attempts(c, Calls(input, a), scripts);
            && o.cluster == Attempt(c, Calls(input, a), clean).cluster
            && Count(o.updates, n) <= if Reached(c, Calls(input, a), n) then 0 else 1
  {
    hide Calls, Attempt, Attempts;
    OneScaleEachActivity(input, a);
    RetriesConverge(c, Calls(input, a), scripts, clean);
    RetriesWriteOnce(c, Calls(input, a), scripts, n);
  }

  /** What the running attempt would report after this call: policy admission, or the latest readiness sample. */
  function VerdictAfter(c: State, call: Call, r: Reply, ready: int, before: bool): bool {
    match call
    case DryRun(_) => r.Ok?
    case Status(n) => n in c && c[n].replicas != 0 && ready >= c[n].replicas
    case _ => before
  }

  /** The verdict of a whole attempt whose k-th call sees readies[k] ready pods. */
  function Verdict(c: State, calls: seq<Call>, replies: seq<Reply>, readies: seq<int>, before: bool): bool
    requires |calls| <= |replies| && |calls| <= |readies|
  {
    if calls == [] then before
    else Verdict(Do(c, calls[0], replies[0]), calls[1..], replies[1..], readies[1..],
                 VerdictAfter(c, calls[0], replies[0], readies[0], before))
  }

  /** Calls that only read or wait change nothing, and succeed together exactly when each is answered. */
  lemma {:induction false} ReadsSucceed(c: State, call: Call, n: nat, replies: seq<Reply>)
    requires call.Tick? || call.Status?
    ensures var o := Attempt(c, seq(n, _ => call), replies);
            && o.cluster == c
            && (o.ok <==>
                  && n <= |replies| && (forall k | 0 <= k < n :: replies[k].Ok?)
                  && (n == 0 || call.Tick? || call.name in c))
  {
    if n > 0 && replies != [] {
      var calls, rest := seq(n, _ => call), replies[1..];
      assert calls[1..] == seq(n - 1, _ => call);
      ReadsSucceed(c, call, n - 1, rest);
      assert forall k | 1 <= k < |replies| :: replies[k] == rest[k - 1];
    }
  }

  lemma {:induction false} TicksKeepVerdict(c: State, n: nat, replies: seq<Reply>, readies: seq<int>, before: bool)
    requires n <= |replies| && n <= |readies|
    ensures Verdict(c, seq(n, _ => Tick), replies, readies, before) == before
  {
    if n > 0 {
      assert seq(n, _ => Tick)[1..] == seq(n - 1, _ => Tick);
      TicksKeepVerdict(c, n - 1, replies[1..], readies[1..], before);
    }
  }

  /** A bake is healthy exactly when it polled at least once, every poll succeeded, and the last poll saw every desired
      replica ready and at least one desired; earlier samples do not matter. */
  lemma {:induction false} BakeVerdict(c: State, name: string, polls: nat, replies: seq<Reply>, readies: seq<int>,
                                       before: bool)
    requires polls <= |replies| && polls <= |readies|
    ensures var calls := seq(polls, _ => Status(name));
            && (Attempt(c, calls, replies).ok <==>
                  polls == 0 || (name in c && forall k | 0 <= k < polls :: replies[k].Ok?))
            && (polls == 0 || name in c ==>
                  Verdict(c, calls, replies, readies, before) ==
                  if polls == 0 then before else c[name].replicas != 0 && readies[polls - 1] >= c[name].replicas)
  {
    var calls := seq(polls, _ => Status(name));
    ReadsSucceed(c, Status(name), polls, replies);
    if polls > 0 {
      assert calls[1..] == seq(polls - 1, _ => Status(name));
      BakeVerdict(c, name, polls - 1, replies[1..], readies[1..],
                  VerdictAfter(c, calls[0], replies[0], readies[0], before));
    }
  }

  // --- The policy gate ---

  datatype PolicyOutcome = Allowed | Denied | Retryable(err: ApiError)

  function Policy(simulateReject: bool, answer: Reply): PolicyOutcome {
    if simulateReject then Denied
    else if answer.Ok? then Allowed
    else if IsInfraError(answer.err) then Retryable(answer.err)
    else Denied
  }

  /** The gate is three-way: it lets an image pass only on a clean dry run, denies it on a status that is none of the
      infrastructure's, and retries on any other error, a missing Deployment included; and these are the error and the
      verdict of the activity's one call. */
  lemma PolicyIsThreeWay(input: CanaryInput, c: State, r: Reply, ready: int)
    ensures var present, reject := input.service + "-canary" in c, input.simulatePolicyReject;
            var p := Policy(reject, if present then r else ReadError(NotFound));
            var calls := Calls(input, PolicyCheck);
            var passes, denied := !reject && present && r.Ok?, reject || (present && !r.Ok? && r.err == OtherStatus);
            && (p.Allowed? <==> passes) && (p.Denied? <==> denied)
            && (p.Retryable? <==> !passes && !denied)
            && (p.Retryable? ==>
                  p.err in {ServerTimeout, ServiceUnavailable, RequestTimeout, InternalError, TooManyRequests, NotFound,
                            Transport})
            && (Attempt(c, calls, [r]).ok <==> passes || denied)
            && (passes || denied ==> (Verdict(c, calls, [r], [ready], false) <==> passes))
            && Attempt(c, calls, [r]).cluster == c
  {
    var calls := Calls(input, PolicyCheck);
    if calls != [] {
      assert calls[1..] == [] && [r][1..] == [];
    }
  }

  // --- The activity code ---

  /** An attempt of a first call and the rest is the first call's attempt followed by the rest's. */
  lemma AttemptSplit(c: State, first: Call, rest: seq<Call>, replies: seq<Reply>)
    ensures var one := Attempt(c, [first], replies);
            var whole := Attempt(c, [first] + rest, replies);
            var tail := if replies == [] then [] else replies[1..];
            whole == if one.ok
                     then var o := Attempt(one.cluster, rest, tail); o.(updates := one.updates + o.updates)
                     else one
  {
    assert ([first] + rest)[1..] == rest;
    if replies != [] {
      assert Attempt(Do(c, first, replies[0]), [], replies[1..]).updates == [];
    }
  }

  /** Two replica writes in order, the second only after the first succeeded. */
  method ScaleTwo(k8s: Kubernetes, first: string, m: int, second: string, n: int) returns (ok: bool)
    modifies k8s
    ensures var o := Attempt(old(k8s.deployments), [Scale(first, m), Scale(second, n)], old(k8s.script));
            k8s.deployments == o.cluster && k8s.updates == old(k8s.updates) + o.updates && ok == o.ok
  {
    AttemptSplit(k8s.deployments, Scale(first, m), [Scale(second, n)], k8s.script);
    assert [Scale(first, m)] + [Scale(second, n)] == [Scale(first, m), Scale(second, n)];
    ok := k8s.ScaleDeployment(first, m);
    if !ok { return false; }
    ok := k8s.ScaleDeployment(second, n);
  }

  method RunScaleCanary(k8s: Kubernetes, input: CanaryInput, readyNow: int) returns (ready: int, ok: bool)
    modifies k8s
    ensures var canary := input.service + "-canary";
            var calls := [Patch(canary, input.imageTag), Scale(canary, ToInt32(input.canaryReplicas)), Status(canary)];
            var o := Attempt(old(k8s.deployments), calls, old(k8s.script));
            && k8s.deployments == o.cluster && k8s.updates == old(k8s.updates) + o.updates && ok == o.ok
            && Calls(input, ScaleCanary) == calls
    ensures ok ==> ready == readyNow
  {
    ready, ok := RollOut(k8s, CanaryName(input.service), input.imageTag, ToInt32(input.canaryReplicas), readyNow);
  }

  method ScaleAndRead(k8s: Kubernetes, name: string, replicas: int, readyNow: int) returns (ready: int, ok: bool)
    modifies k8s
    ensures var o := Attempt(old(k8s.deployments), [Scale(name, replicas), Status(name)], old(k8s.script));
            k8s.deployments == o.cluster && k8s.updates == old(k8s.updates) + o.updates && ok == o.ok
    ensures ok ==> ready == readyNow
  {
    AttemptSplit(k8s.deployments, Scale(name, replicas), [Status(name)], k8s.script);
    assert [Scale(name, replicas)] + [Status(name)] == [Scale(name, replicas), Status(name)];
    ok := k8s.ScaleDeployment(name, replicas);
    if !ok { return 0, false; }
    var desired;
    ready, desired, ok := k8s.DeploymentStatus(name, readyNow);
  }

  /** The new image, then the replica count, then a read of the status; each only after the previous one succeeded. */
  method RollOut(k8s: Kubernetes, name: string, image: string, replicas: int, readyNow: int)
    returns (ready: int, ok: bool)
    modifies k8s
    ensures var o := Attempt(old(k8s.deployments), [Patch(name, image), Scale(name, replicas), Status(name)],
                             old(k8s.script));
            k8s.deployments == o.cluster && k8s.updates == old(k8s.updates) + o.updates && ok == o.ok
    ensures ok ==> ready == readyNow
  {
    AttemptSplit(k8s.deployments, Patch(name, image), [Scale(name, replicas), Status(name)], k8s.script);
    assert [Patch(name, image)] + [Scale(name, replicas), Status(name)]
        == [Patch(name, image), Scale(name, replicas), Status(name)];
    ok := k8s.SetImage(name, image);
    if !ok { return 0, false; }
    ready, ok := ScaleAndRead(k8s, name, replicas, readyNow);
  }

  method RunScaleDownCanary(k8s: Kubernetes, input: CanaryInput) returns (ok: bool)
    modifies k8s
    ensures var calls := [Scale(input.service + "-canary", 0)];
            var o := Attempt(old(k8s.deployments), calls, old(k8s.script));
            && k8s.deployments == o.cluster && k8s.updates == old(k8s.updates) + o.updates && ok == o.ok
            && Calls(input, ScaleDownCanary) == calls
  {
    ok := k8s.ScaleDeployment(CanaryName(input.service), 0);
  }

  /** The clamped and rounded replica counts of a traffic split. */
  method ShiftCounts(targetReplicas: int, weight: nat, quotient: real) returns (canary: int, stable: int)
    requires IsQuotient((if targetReplicas < 1 then 1 else targetReplicas) * weight, quotient)
    ensures canary == CanaryShare(targetReplicas, weight)
    ensures stable == StableShare(targetReplicas, weight)
    ensures var total := if targetReplicas < 1 then 1 else targetReplicas;
            var share := ToInt32((2 * (total * weight) + 100) / 200);
            var rest := ToInt32(ToInt32(total) - canary);
            && canary == (if share < 1 && weight > 0 then 1 else share)
            && stable == if rest < 0 then 0 else rest
  {
    var total := targetReplicas;
    if total < 1 { total := 1; }
    RoundedShareOfQuotient(targetReplicas, weight, quotient);
    canary := ToInt32(Round(quotient));
    if canary < 1 && weight > 0 { canary := 1; }
    stable := ToInt32(ToInt32(total) - canary);
    if stable < 0 { stable := 0; }
  }

  method RunShiftTraffic(k8s: Kubernetes, input: CanaryInput, weight: nat, quotient: real) returns (ok: bool)
    requires IsQuotient((if input.targetReplicas < 1 then 1 else input.targetReplicas) * weight, quotient)
    modifies k8s
    ensures var counts := (CanaryShare(input.targetReplicas, weight), StableShare(input.targetReplicas, weight));
            var calls := if input.simulateTrafficFail then [Abort]
                         else [Scale(input.service + "-canary", counts.0), Scale(input.service + "-stable", counts.1)];
            var o := Attempt(old(k8s.deployments), calls, old(k8s.script));
            && k8s.deployments == o.cluster && k8s.updates == old(k8s.updates) + o.updates && ok == o.ok
            && (weight == 50 ==> calls == Calls(input, ShiftTraffic))
            && (input.targetReplicas < 1 && 0 < weight <= 100 ==> counts == (1, 0))
  {
    if input.simulateTrafficFail { return false; }
    var canary, stable := ShiftCounts(input.targetReplicas, weight, quotient);
    ok := ScaleTwo(k8s, CanaryName(input.service), canary, StableName(input.service), stable);
  }

  method RunShiftTrafficBack(k8s: Kubernetes, input: CanaryInput) returns (ok: bool)
    modifies k8s
    ensures var target := if input.targetReplicas < 1 then 1 else input.targetReplicas;
            var calls := [Scale(input.service + "-canary", 0), Scale(input.service + "-stable", ToInt32(target))];
            var o := Attempt(old(k8s.deployments), calls, old(k8s.script));
            && k8s.deployments == o.cluster && k8s.updates == old(k8s.updates) + o.updates && ok == o.ok
            && Calls(input, ShiftTrafficBack) == calls
  {
    var target := input.targetReplicas;
    if target < 1 { target := 1; }
    ok := ScaleTwo(k8s, CanaryName(input.service), 0, StableName(input.service), ToInt32(target));
  }

  method RunPromote(k8s: Kubernetes, input: CanaryInput) returns (ok: bool)
    modifies k8s
    ensures var stable := input.service + "-stable";
            var calls := [Patch(stable, input.imageTag), Scale(stable, ToInt32(input.targetReplicas)),
                          Scale(input.service + "-canary", 0)];
            var o := Attempt(old(k8s.deployments), calls, old(k8s.script));
            && k8s.deployments == o.cluster && k8s.updates == old(k8s.updates) + o.updates && ok == o.ok
            && Calls(input, Promote) == calls
  {
    ghost var stable, canary := StableName(input.service), CanaryName(input.service);
    ghost var replicas := ToInt32(input.targetReplicas);
    AttemptSplit(k8s.deployments, Patch(stable, input.imageTag), [Scale(stable, replicas), Scale(canary, 0)],
                 k8s.script);
    assert Calls(input, Promote) == [Patch(stable, input.imageTag)] + [Scale(stable, replicas), Scale(canary, 0)];
    ok := k8s.SetImage(StableName(input.service), input.imageTag);
    if !ok { return false; }
    ok := ScaleTwo(k8s, StableName(input.service), ToInt32(input.targetReplicas), CanaryName(input.service), 0);
  }

  /** The injected failure: wait out every second of the bake, then report an unhealthy canary. */
  method SimulateBake(k8s: Kubernetes, input: CanaryInput) returns (ok: bool)
    modifies k8s`script
    ensures ok <==> input.bakeSeconds <= |old(k8s.script)| &&
                    forall k | 0 <= k < input.bakeSeconds :: old(k8s.script)[k].Ok?
    ensures ok ==> k8s.script == old(k8s.script)[if input.bakeSeconds < 0 then 0 else input.bakeSeconds..]
  {
    var i := 0;
    while i < input.bakeSeconds
      invariant 0 <= i && (i <= input.bakeSeconds || i == 0)
      invariant i <= |old(k8s.script)| && k8s.script == old(k8s.script)[i..]
      invariant forall k | 0 <= k < i :: old(k8s.script)[k].Ok?
    {
      var ticked := k8s.Tick();
      if !ticked { return false; }
      i := i + 1;
    }
    return true;
  }

  /** readies[k] is the ready count that poll k reads; the script holds an answer for every second or the worker dies.
      A bake that completes has used one answer for each second, and its last sample decides. */
  method RunHealthCheck(k8s: Kubernetes, input: CanaryInput, readies: seq<int>) returns (healthy: bool, ok: bool)
    requires |readies| >= input.bakeSeconds
    modifies k8s`script
    ensures var n, name, rs := input.bakeSeconds, input.service + "-canary", old(k8s.script);
            && (ok <==> n <= |rs| && (forall k | 0 <= k < n :: rs[k].Ok?) &&
                        (n <= 0 || input.simulateHealthFail || name in k8s.deployments))
            && (ok ==> k8s.script == rs[if n < 0 then 0 else n..])
            && (healthy <==> ok && !input.simulateHealthFail && n > 0 && k8s.deployments[name].replicas != 0 &&
                             readies[n - 1] >= k8s.deployments[name].replicas)
  {
    if input.simulateHealthFail {
      ok := SimulateBake(k8s, input);
      return false, ok;
    }
    var name := CanaryName(input.service);
    var ready, desired := 0, 0;
    var i := 0;
    while i < input.bakeSeconds
      invariant 0 <= i && (i <= input.bakeSeconds || i == 0)
      invariant i <= |old(k8s.script)| && k8s.script == old(k8s.script)[i..]
      invariant forall k | 0 <= k < i :: old(k8s.script)[k].Ok?
      invariant i == 0 ==> ready == 0 && desired == 0
      invariant i > 0 ==>
                  name in k8s.deployments && ready == readies[i - 1] && desired == k8s.deployments[name].replicas
    {
      var polled;
      ready, desired, polled := k8s.DeploymentStatus(name, readies[i]);
      if !polled { return false, false; }
      i := i + 1;
    }
    return !(desired == 0 || ready < desired), true;
  }

  /** The activity makes one call for each second of the bake, and the outcome of the bake code is that of its calls. */
  lemma BakeIsAttempt(input: CanaryInput, c: State, replies: seq<Reply>, readies: seq<int>)
    ensures var n, name := input.bakeSeconds, input.service + "-canary";
            var o := Attempt(c, Calls(input, HealthCheck), replies);
            && |Calls(input, HealthCheck)| == (if n < 0 then 0 else n)
            && o.cluster == c
            && (o.ok <==> n <= |replies| && (forall k | 0 <= k < n :: replies[k].Ok?) &&
                          (n <= 0 || input.simulateHealthFail || name in c))
            && (o.ok && n <= |readies| ==>
                  (Verdict(c, Calls(input, HealthCheck), replies, readies, false) <==>
                     !input.simulateHealthFail && n > 0 && c[name].replicas != 0 && readies[n - 1] >= c[name].replicas))
  {
    var polls, name := Polls(input), CanaryName(input.service);
    var call := if input.simulateHealthFail then Tick else Status(name);
    assert Calls(input, HealthCheck) == seq(polls, _ => call);
    ReadsSucceed(c, call, polls, replies);
    if polls <= |replies| && polls <= |readies| {
      if input.simulateHealthFail {
        TicksKeepVerdict(c, polls, replies, readies, false);
      } else {
        BakeVerdict(c, name, polls, replies, readies, false);
      }
    }
  }
}
