/** Durable processing and attempt values (`application/persistence.py`): the two state
    enumerations, the transition table, what each constructor checks, and the public
    projections. The constructor makes scope, key, fingerprint version and digest present
    together and error category and detail present together, so each group is one option. */
module Lifecycle {
  import opened Domain

  datatype ProcessingState = Accepted | Planned | Submitting | Submitted | Completed | Failed | RecoveryRequired
  datatype AttemptState = APlanned | ASubmitting | ASubmitted | ACompleted | AFailed | ARecoveryRequired

  function SameName(a: AttemptState): ProcessingState {
    match a
    case APlanned => Planned
    case ASubmitting => Submitting
    case ASubmitted => Submitted
    case ACompleted => Completed
    case AFailed => Failed
    case ARecoveryRequired => RecoveryRequired
  }

  /** `ALLOWED_PROCESSING_TRANSITIONS`. */
  predicate TransitionAllowed(from: ProcessingState, to: ProcessingState) {
    match from
    case Accepted => to == Planned || to == Completed || to == Failed
    case Planned => to == Submitting || to == Failed
    case Submitting => to == Submitted || to == Failed || to == RecoveryRequired
    case Submitted => to == Submitted || to == Completed || to == Failed || to == RecoveryRequired
    case Completed => false
    case Failed => false
    case RecoveryRequired => to == Submitted || to == Failed
  }

  /** The states no processor step leaves: the terminal ones and recovery-required. */
  predicate Settled(s: ProcessingState) {
    s == Completed || s == Failed || s == RecoveryRequired
  }

  predicate ActiveAttempt(a: AttemptState) {
    a == APlanned || a == ASubmitting || a == ASubmitted || a == ARecoveryRequired
  }

  datatype Identity = Identity(scope: string, key: string, version: int, fingerprint: seq<int>)
  datatype ErrorInfo = ErrorInfo(category: string, detail: string)

  datatype Record = Record(
    processingId: nat,
    createdAt: int,
    updatedAt: int,
    alert: Alert,
    state: ProcessingState,
    identity: Option<Identity>,
    plannedDecision: Option<Decision>,
    plannedIncident: Option<Incident>,
    plannedRequest: Option<Request>,
    selectedBackend: Option<string>,
    completedResult: Option<OrchestrationResult>,
    completedAt: Option<int>,
    failedAt: Option<int>,
    error: Option<ErrorInfo>)
  {
    function Decision(): Option<Decision> {
      if completedResult.Some? then Some(completedResult.value.decision) else plannedDecision
    }

    function Incident(): Option<Incident> {
      if completedResult.Some? then completedResult.value.incident else plannedIncident
    }

    function Request(): Option<Request> {
      if completedResult.Some? then completedResult.value.request else plannedRequest
    }
  }

  datatype Attempt = Attempt(
    attemptId: nat,
    processingId: nat,
    attemptNumber: int,
    operationKey: nat,
    backend: string,
    state: AttemptState,
    createdAt: int,
    startedAt: Option<int>,
    submittedAt: Option<int>,
    lastPolledAt: Option<int>,
    completedAt: Option<int>,
    failedAt: Option<int>,
    externalOperationId: Option<string>,
    lastRemoteState: Option<string>,
    error: Option<ErrorInfo>)

  predicate Bounded(s: string) {
    0 < |s| <= 256
  }

  predicate ErrorBounded(e: Option<ErrorInfo>) {
    e.Some? ==> Bounded(e.value.category) && Bounded(e.value.detail)
  }

  predicate HasPlan(r: Record) {
    r.plannedDecision.Some? && r.plannedIncident.Some? && r.plannedRequest.Some? && r.selectedBackend.Some?
  }

  predicate StateFieldsOk(r: Record) {
    match r.state
    case Accepted =>
      && r.plannedDecision.None? && r.plannedIncident.None? && r.plannedRequest.None?
      && r.selectedBackend.None? && r.completedResult.None?
    case Planned => HasPlan(r) && r.completedResult.None?
    case Submitting => HasPlan(r) && r.completedResult.None?
    case Submitted => HasPlan(r) && r.completedResult.None?
    case RecoveryRequired => HasPlan(r) && r.completedResult.None?
    case Completed => r.completedResult.Some? && r.completedAt.Some? && r.failedAt.None?
    case Failed => r.failedAt.Some? && r.error.Some? && r.completedResult.None? && r.completedAt.None?
  }

  /** `ProcessingRecord.__post_init__`: the constructor raises exactly when this is false. */
  predicate RecordConstructs(r: Record) {
    && r.createdAt <= r.updatedAt
    && (r.identity.Some? ==> |r.identity.value.fingerprint| == 32 && r.identity.value.version == 1)
    && ErrorBounded(r.error)
    && StateFieldsOk(r)
    && (r.plannedDecision.Some? ==>
          && r.plannedDecision.value.source == r.alert.source
          && (r.plannedIncident.Some? ==> r.plannedIncident.value.alert == r.alert))
    && (r.completedResult.Some? ==>
          && r.completedResult.value.decision.source == r.alert.source
          && (r.completedResult.value.incident.Some? ==> r.completedResult.value.incident.value.alert == r.alert))
  }

  predicate AttemptStateFieldsOk(a: Attempt) {
    match a.state
    case APlanned =>
      a.startedAt.None? && a.submittedAt.None? && a.externalOperationId.None? && a.completedAt.None? && a.failedAt.None?
    case ASubmitting => a.startedAt.Some? && a.externalOperationId.None?
    case ASubmitted =>
      && a.startedAt.Some? && a.submittedAt.Some? && a.externalOperationId.Some?
      && a.completedAt.None? && a.failedAt.None?
    case ACompleted =>
      && a.startedAt.Some? && a.submittedAt.Some? && a.externalOperationId.Some?
      && a.completedAt.Some? && a.failedAt.None?
    case AFailed => a.failedAt.Some? && a.error.Some? && a.completedAt.None?
    case ARecoveryRequired => a.startedAt.Some? && a.error.Some? && a.completedAt.None? && a.failedAt.None?
  }

  predicate OperationIdOk(id: string) {
    NonBlank(id) && |id| <= 512
  }

  /** `ExecutionAttempt.__post_init__`. */
  predicate AttemptConstructs(a: Attempt) {
    && a.attemptNumber >= 1
    && NonBlank(a.backend)
    && (a.lastRemoteState.Some? ==> Bounded(a.lastRemoteState.value))
    && ErrorBounded(a.error)
    && (a.externalOperationId.Some? ==> OperationIdOk(a.externalOperationId.value))
    && AttemptStateFieldsOk(a)
  }
}
