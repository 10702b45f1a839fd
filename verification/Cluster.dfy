/** The Deployments of the namespace and the API calls the activities make on them. */
module Cluster {

  datatype Deployment = Deployment(image: string, replicas: int)

  type State = map<string, Deployment>

  /** Go's conversion of an int to int32: keep the low 32 bits. */
  function ToInt32(n: int): (r: int)
    ensures -0x8000_0000 <= r < 0x8000_0000
    ensures (n - r) % 0x1_0000_0000 == 0
    ensures -0x8000_0000 <= n < 0x8000_0000 ==> r == n
  {
    (n + 0x8000_0000) % 0x1_0000_0000 - 0x8000_0000
  }

  function StableName(service: string): string { service + "-stable" }

  function CanaryName(service: string): string { service + "-canary" }

  /** No two services share a Deployment, and a service's two Deployments differ. */
  lemma NamesNeverCollide(s: string, t: string)
    ensures StableName(s) != CanaryName(t)
    ensures StableName(s) == StableName(t) <==> s == t
    ensures CanaryName(s) == CanaryName(t) <==> s == t
  {
    var x, y := StableName(s), CanaryName(t);
    assert x[|x| - 1] == 'e' && y[|y| - 1] == 'y';
    assert s == StableName(s)[..|StableName(s)| - 7] == CanaryName(s)[..|CanaryName(s)| - 7];
    assert t == StableName(t)[..|StableName(t)| - 7] == CanaryName(t)[..|CanaryName(t)| - 7];
  }

  /** The error categories the client library distinguishes; a transport error carries no API status. */
  datatype ApiError =
    | ServerTimeout
    | ServiceUnavailable
    | RequestTimeout
    | InternalError
    | TooManyRequests
    | NotFound
    | OtherStatus
    | Transport

  predicate IsInfraError(err: ApiError) {
    err.ServerTimeout? || err.ServiceUnavailable? || err.RequestTimeout? || err.InternalError? ||
    err.TooManyRequests? || err.NotFound? || err.Transport?
  }

  /** How the API server deals with one call. WriteLost: the write is applied but the caller sees an error. */
  datatype Reply = Ok | ReadError(err: ApiError) | WriteError(err: ApiError) | WriteLost(err: ApiError)

  /** One call of an activity. Scale reads the current count and writes only on a difference; Append writes the audit
      log; Tick waits a second, unless the activity's context ends first; Abort is an injected failure and reaches no
      server. */
  datatype Call =
    | DryRun(name: string)
    | Patch(name: string, image: string)
    | Scale(name: string, replicas: int)
    | Status(name: string)
    | Append
    | Tick
    | Abort

  /** The cluster once the call has taken effect. */
  function Apply(c: State, call: Call): State {
    match call
    case Patch(n, image) => if n in c then c[n := c[n].(image := image)] else c
    case Scale(n, replicas) => if n in c then c[n := c[n].(replicas := replicas)] else c
    case _ => c
  }

  /** The target of a Scale call is already met. */
  predicate Met(c: State, call: Call) {
    call.Scale? && call.name in c && c[call.name].replicas == call.replicas
  }

  /** The call takes effect under this reply. */
  predicate Lands(c: State, call: Call, r: Reply) {
    (call.Patch? || call.Scale?) && call.name in c && !Met(c, call) && (r.Ok? || r.WriteLost?)
  }

  /** The call returns no error. A policy denial of a dry run is a verdict, not an error. */
  predicate Succeeds(c: State, call: Call, r: Reply) {
    match call
    case Abort => false
    case Append => r.Ok?
    case Tick => r.Ok?
    case DryRun(n) => n in c && (r.Ok? || !IsInfraError(r.err))
    case Patch(n, _) => n in c && r.Ok?
    case Scale(n, _) => n in c && (r.Ok? || (Met(c, call) && !r.ReadError?))
    case Status(n) => n in c && r.Ok?
  }

  function Do(c: State, call: Call, r: Reply): State {
    if Lands(c, call, r) then Apply(c, call) else c
  }

  /** The Deployment whose scale subresource the call writes, if any. */
  function ScaleWrites(c: State, call: Call, r: Reply): seq<string> {
    if call.Scale? && Lands(c, call, r) then [call.name] else []
  }

  datatype Outcome = Outcome(cluster: State, updates: seq<string>, ok: bool)

  /** One attempt: the calls in order, stopping at the first error or when the worker dies (no reply left). */
  function Attempt(c: State, calls: seq<Call>, replies: seq<Reply>): Outcome {
    if calls == [] then Outcome(c, [], true)
    else if replies == [] then Outcome(c, [], false)
    else
      var c' := Do(c, calls[0], replies[0]);
      var writes := ScaleWrites(c, calls[0], replies[0]);
      if Succeeds(c, calls[0], replies[0]) then
        var rest := Attempt(c', calls[1..], replies[1..]);
        rest.(updates := writes + rest.updates)
      else Outcome(c', writes, false)
  }

  /** Any number of attempts, one after the other; ok tells whether the last one completed. */
  function Attempts(c: State, calls: seq<Call>, scripts: seq<seq<Reply>>): Outcome {
    if scripts == [] then Outcome(c, [], false)
    else
      var n := |scripts| - 1;
      var before := Attempts(c, calls, scripts[..n]);
      var last := Attempt(before.cluster, calls, scripts[n]);
      last.(updates := before.updates + last.updates)
  }

  function Settle(c: State, calls: seq<Call>): State {
    if calls == [] then c else Settle(Apply(c, calls[0]), calls[1..])
  }

  // --- At-least-once execution converges ---

  predicate PatchesSome(calls: seq<Call>, n: string) {
    exists k | 0 <= k < |calls| :: calls[k].Patch? && calls[k].name == n
  }

  predicate ScalesSome(calls: seq<Call>, n: string) {
    exists k | 0 <= k < |calls| :: calls[k].Scale? && calls[k].name == n
  }

  /** The two clusters differ at most in fields that some call overwrites. */
  ghost predicate SameBeside(c: State, d: State, calls: seq<Call>) {
    && c.Keys == d.Keys
    && (forall n | n in c :: c[n].image == d[n].image || PatchesSome(calls, n))
    && (forall n | n in c :: c[n].replicas == d[n].replicas || ScalesSome(calls, n))
  }

  lemma {:induction false} SettleForgets(c: State, d: State, calls: seq<Call>)
    requires SameBeside(c, d, calls)
    ensures Settle(c, calls) == Settle(d, calls)
  {
    if calls == [] {
      assert forall n | n in c :: c[n] == d[n];
    } else {
      var c', d', rest := Apply(c, calls[0]), Apply(d, calls[0]), calls[1..];
      assert SameBeside(c', d', rest) by {
        forall n | n in c'
          ensures c'[n].image == d'[n].image || PatchesSome(rest, n)
          ensures c'[n].replicas == d'[n].replicas || ScalesSome(rest, n)
        {
          if k :| 0 < k < |calls| && calls[k].Patch? && calls[k].name == n {
            assert rest[k - 1] == calls[k];
          }
          if k :| 0 < k < |calls| && calls[k].Scale? && calls[k].name == n {
            assert rest[k - 1] == calls[k];
          }
        }
      }
      SettleForgets(c', d', rest);
    }
  }

  lemma {:induction false} SettleTouches(c: State, calls: seq<Call>, k: nat)
    requires k <= |calls|
    ensures SameBeside(Settle(c, calls[..k]), c, calls)
  {
    if k > 0 {
      var first, rest := calls[0], calls[1..];
      assert calls[..k][0] == first && calls[..k][1..] == rest[..k - 1];
      SettleTouches(Apply(c, first), rest, k - 1);
      assert forall j | 0 <= j < |rest| :: rest[j] == calls[j + 1];
    }
  }

  /** A partial attempt leaves the effects of some prefix of its calls; a completed one leaves them all. */
  lemma {:induction false} AttemptIsPrefix(c: State, calls: seq<Call>, replies: seq<Reply>) returns (k: nat)
    ensures k <= |calls|
    ensures Attempt(c, calls, replies).cluster == Settle(c, calls[..k])
    ensures Attempt(c, calls, replies).ok ==> k == |calls|
  {
    if calls == [] || replies == [] {
      k := 0;
    } else {
      var call, r := calls[0], replies[0];
      if Succeeds(c, call, r) {
        assert Do(c, call, r) == Apply(c, call);
        var j := AttemptIsPrefix(Apply(c, call), calls[1..], replies[1..]);
        k := j + 1;
        assert calls[..k][0] == call && calls[..k][1..] == calls[1..][..j];
      } else if Lands(c, call, r) {
        k := 1;
        assert calls[..1] == [call];
        assert Settle(c, [call]) == Settle(Apply(c, call), []);
      } else {
        k := 0;
      }
    }
  }

  lemma {:induction false} AttemptsTouch(c: State, calls: seq<Call>, scripts: seq<seq<Reply>>)
    ensures SameBeside(Attempts(c, calls, scripts).cluster, c, calls)
  {
    if scripts != [] {
      var n := |scripts| - 1;
      AttemptsTouch(c, calls, scripts[..n]);
      var before := Attempts(c, calls, scripts[..n]).cluster;
      var k := AttemptIsPrefix(before, calls, scripts[n]);
      SettleTouches(before, calls, k);
    }
  }

  /** Whatever earlier attempts left behind, a completed attempt ends where a single clean execution ends. */
  lemma RetriesConverge(c: State, calls: seq<Call>, scripts: seq<seq<Reply>>, clean: seq<Reply>)
    requires Attempts(c, calls, scripts).ok
    requires Attempt(c, calls, clean).ok
    ensures Attempts(c, calls, scripts).cluster == Attempt(c, calls, clean).cluster
  {
    var n := |scripts| - 1;
    var before := Attempts(c, calls, scripts[..n]).cluster;
    AttemptsTouch(c, calls, scripts[..n]);
    SettleForgets(before, c, calls);
    var i := AttemptIsPrefix(before, calls, scripts[n]);
    var j := AttemptIsPrefix(c, calls, clean);
    assert calls[..|calls|] == calls;
  }

  // --- Each scale target is written at most once ---

  function Count(names: seq<string>, n: string): nat {
    if names == [] then 0 else (if names[0] == n then 1 else 0) + Count(names[1..], n)
  }

  lemma {:induction false} CountAppend(a: seq<string>, b: seq<string>, n: string)
    ensures Count(a + b, n) == Count(a, n) + Count(b, n)
  {
    if a == [] {
      assert a + b == b;
    } else {
      assert (a + b)[0] == a[0] && (a + b)[1..] == a[1..] + b;
      CountAppend(a[1..], b, n);
    }
  }

  /** No two Scale calls aim at the same Deployment. */
  ghost predicate OneScaleEach(calls: seq<Call>) {
    forall i, j | 0 <= i < j < |calls| :: calls[i].Scale? && calls[j].Scale? ==> calls[i].name != calls[j].name
  }

  /** Every Scale call aimed at n asks for this count, and n already has it. */
  ghost predicate Reached(c: State, calls: seq<Call>, n: string) {
    forall i | 0 <= i < |calls| :: calls[i].Scale? && calls[i].name == n ==> Met(c, calls[i])
  }

  lemma {:induction false} AttemptWritesOnce(c: State, calls: seq<Call>, replies: seq<Reply>, n: string)
    requires OneScaleEach(calls)
    ensures var o := Attempt(c, calls, replies);
            Count(o.updates, n) <= (if Reached(c, calls, n) then 0 else 1) &&
            (Reached(c, calls, n) || Count(o.updates, n) == 1 ==> Reached(o.cluster, calls, n))
  {
    if calls != [] && replies != [] {
      var call, rest := calls[0], calls[1..];
      var c' := Do(c, call, replies[0]);
      assert forall i | 0 <= i < |rest| :: rest[i] == calls[i + 1];
      var writes := ScaleWrites(c, call, replies[0]);
      AttemptWritesOnce(c', rest, replies[1..], n);
      CountAppend(writes, Attempt(c', rest, replies[1..]).updates, n);
      assert Count([n], n) == 1;
      if call.Scale? && call.name == n {
        assert Reached(c', rest, n);
        AttemptKeepsOthers(c', rest, replies[1..], n);
      }
    }
  }

  /** Calls that do not scale n leave its replica count alone. */
  lemma {:induction false} AttemptKeepsOthers(c: State, calls: seq<Call>, replies: seq<Reply>, n: string)
    requires forall i | 0 <= i < |calls| :: !(calls[i].Scale? && calls[i].name == n)
    ensures var d := Attempt(c, calls, replies).cluster;
            (n in d <==> n in c) && (n in c ==> d[n].replicas == c[n].replicas)
  {
    if calls != [] && replies != [] {
      AttemptKeepsOthers(Do(c, calls[0], replies[0]), calls[1..], replies[1..], n);
    }
  }

  /** Over all attempts together, each Deployment is scaled at most once, and never when it is already at its target. */
  lemma {:induction false} RetriesWriteOnce(c: State, calls: seq<Call>, scripts: seq<seq<Reply>>, n: string)
    requires OneScaleEach(calls)
    ensures var o := Attempts(c, calls, scripts);
            Count(o.updates, n) <= (if Reached(c, calls, n) then 0 else 1) &&
            (Reached(c, calls, n) || Count(o.updates, n) == 1 ==> Reached(o.cluster, calls, n))
  {
    if scripts != [] {
      var k := |scripts| - 1;
      RetriesWriteOnce(c, calls, scripts[..k], n);
      var before := Attempts(c, calls, scripts[..k]);
      AttemptWritesOnce(before.cluster, calls, scripts[k], n);
      CountAppend(before.updates, Attempt(before.cluster, calls, scripts[k]).updates, n);
    }
  }

  // --- The client code ---

  /** The cluster as the worker sees it. An empty script means the worker is dead: no further call is made. */
  class Kubernetes {
    var deployments: State
    var script: seq<Reply>
    var updates: seq<string>

    constructor (deployments: State, script: seq<Reply>)
      ensures this.deployments == deployments && this.script == script && updates == []
    {
      this.deployments := deployments;
      this.script := script;
      this.updates := [];
    }

    method SetImage(name: string, image: string) returns (ok: bool)
      modifies this
      ensures Attempt(old(deployments), [Patch(name, image)], old(script)) == Outcome(deployments, [], ok)
      ensures var d, rs := old(deployments), old(script);
              && (ok <==> rs != [] && name in d && rs[0].Ok?)
              && deployments == (if rs != [] && name in d && (rs[0].Ok? || rs[0].WriteLost?)
                                 then d[name := Deployment(image, d[name].replicas)] else d)
      ensures updates == old(updates)
      ensures script == if old(script) == [] then [] else old(script)[1..]
    {
      if script == [] { return false; }
      var r := script[0];
      script := script[1..];
      if r.ReadError? || r.WriteError? || name !in deployments { return false; }
      deployments := deployments[name := deployments[name].(image := image)];
      return r.Ok?;
    }

    method ScaleDeployment(name: string, replicas: int) returns (ok: bool)
      modifies this
      ensures var o := Attempt(old(deployments), [Scale(name, replicas)], old(script));
              deployments == o.cluster && updates == old(updates) + o.updates && ok == o.ok
      ensures var d, rs := old(deployments), old(script);
              var met := name in d && d[name].replicas == replicas;
              var lands := rs != [] && name in d && !met && (rs[0].Ok? || rs[0].WriteLost?);
              && (ok <==> rs != [] && name in d && if met then !rs[0].ReadError? else rs[0].Ok?)
              && deployments == (if lands then d[name := Deployment(d[name].image, replicas)] else d)
              && updates == old(updates) + (if lands then [name] else [])
      ensures script == if old(script) == [] then [] else old(script)[1..]
    {
      if script == [] { return false; }
      var r := script[0];
      script := script[1..];
      if r.ReadError? || name !in deployments { return false; }
      if deployments[name].replicas == replicas { return true; }
      if r.WriteError? { return false; }
      deployments := deployments[name := deployments[name].(replicas := replicas)];
      updates := updates + [name];
      return r.Ok?;
    }

    /** Wait a second. An error reply is the end of the activity's context. */
    method Tick() returns (ok: bool)
      modifies this`script
      ensures ok == Attempt(old(deployments), [Call.Tick], old(script)).ok
      ensures ok <==> old(script) != [] && old(script)[0].Ok?
      ensures script == if old(script) == [] then [] else old(script)[1..]
    {
      if script == [] { return false; }
      var r := script[0];
      script := script[1..];
      return r.Ok?;
    }

    /** readyNow is what the Deployment's status reports at the time of the read. */
    method DeploymentStatus(name: string, readyNow: int) returns (ready: int, desired: int, ok: bool)
      modifies this`script
      ensures ok == Attempt(old(deployments), [Status(name)], old(script)).ok
      ensures ok <==> old(script) != [] && old(script)[0].Ok? && name in deployments
      ensures ok ==> ready == readyNow && desired == deployments[name].replicas
      ensures !ok ==> ready == 0 && desired == 0
      ensures script == if old(script) == [] then [] else old(script)[1..]
    {
      if script == [] { return 0, 0, false; }
      var r := script[0];
      script := script[1..];
      if !r.Ok? || name !in deployments { return 0, 0, false; }
      return readyNow, deployments[name].replicas, true;
    }
  }
}
