/** What the workflow, its activities and the audit log exchange. */
module Types {

  datatype Option<+T> = None | Some(value: T)

  /** The request for one canary deploy. Durations are in seconds. */
  datatype CanaryInput = CanaryInput(
    service: string,
    imageTag: string,
    targetReplicas: int,
    canaryReplicas: int,
    bakeSeconds: int,
    approvalTimeout: int,
    autoPromote: bool,
    simulatePolicyReject: bool,
    simulateHealthFail: bool,
    simulateTrafficFail: bool)

  datatype CanaryStatus = Unset | Promoted | RolledBack | TimedOut | PolicyRejected

  /** The category of a result's reason text. */
  datatype Reason =
    | NoReason
    | PolicyDenied
    | ScaleFailed
    | HealthError
    | Unhealthy
    | ShiftFailed
    | NoApproval
    | RejectedBy(actor: string)
    | PromoteFailed
    | ApprovedBy(actor: string)
    | ChildError

  datatype CanaryResult = CanaryResult(service: string, status: CanaryStatus, reason: Reason, actor: string)

  datatype ApprovalSignal = ApprovalSignal(approve: bool, actor: string)

  datatype Decision = Approved | Rejected | Timeout | Auto

  function AutoActor(): string { "auto-release" }

  /** An activity the workflow schedules, with the part of its input that the deploy request does not fix. */
  datatype Activity =
    | PolicyCheck
    | ScaleCanary
    | HealthCheck
    | ShiftTraffic
    | RecordApproval(actor: string, decision: Decision)
    | Promote
    | ScaleDownCanary
    | ShiftTrafficBack
    | Alert(status: CanaryStatus, reason: Reason)

  /** The final report of an activity. The verdict is what the policy gate and the bake return. */
  datatype Report = Completed(verdict: bool) | Failed
}
