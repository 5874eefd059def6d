/** What one repository call does to the durable state, stated as functions on a value
    (`persistence/memory.py`). Every function follows the dictionary code statement by
    statement, including the order of writes around a constructor that may raise, so a
    raising call can leave a half-written pair. `Lockstep` is the invariant tying the two
    tables together; `Advances` is what one call may change. */
module Repository {
  import opened Domain
  import opened Lifecycle

  datatype Reply<+T> = Returned(value: T) | Raised

  datatype Acceptance = Acceptance(record: Record, created: bool)
  datatype PlannedPair = PlannedPair(record: Record, attempt: Attempt)

  datatype Store = Store(
    records: map<nat, Record>,
    idempotency: map<(string, string), nat>,
    attempts: map<nat, Attempt>,
    attemptOf: map<nat, nat>,
    operationKeys: set<nat>)

  const EMPTY_STORE := Store(map[], map[], map[], map[], {})

  // ----- Operations

  predicate VisibleKey(key: string) {
    1 <= |key| <= 128 && forall i :: 0 <= i < |key| ==> 0x21 <= key[i] as int <= 0x7e
  }

  function NewRecord(pid: nat, alert: Alert, identity: Identity, now: int): Record {
    Record(pid, now, now, alert, Accepted, Some(identity), None, None, None, None, None, None, None, None)
  }

  function AcceptProcessing(s: Store, pid: nat, alert: Alert, identity: Identity, now: int): (Store, Reply<Acceptance>) {
    if identity.scope != alert.source.source || !VisibleKey(identity.key) then
      (s, Raised)
    else if (identity.scope, identity.key) in s.idempotency then
      var existing := s.idempotency[(identity.scope, identity.key)];
      (s, if existing in s.records then Returned(Acceptance(s.records[existing], false)) else Raised)
    else if pid in s.records then
      (s, Raised)
    else
      var record := NewRecord(pid, alert, identity, now);
      if !RecordConstructs(record) then (s, Raised)
      else
        (s.(records := s.records[pid := record],
            idempotency := s.idempotency[(identity.scope, identity.key) := pid]),
         Returned(Acceptance(record, true)))
  }

  function Get(s: Store, pid: nat): Option<Record> {
    if pid in s.records then Some(s.records[pid]) else None
  }

  function GetAttemptForProcessing(s: Store, pid: nat): Reply<Option<Attempt>> {
    if pid !in s.attemptOf then Returned(None)
    else if s.attemptOf[pid] !in s.attempts then Raised
    else Returned(Some(s.attempts[s.attemptOf[pid]]))
  }

  function CompletedNoAction(r: Record, result: OrchestrationResult, now: int): Record {
    r.(state := Completed, updatedAt := now, completedResult := Some(result), completedAt := Some(now))
  }

  function StoreNoActionResult(s: Store, pid: nat, result: OrchestrationResult, now: int): (Store, Reply<Option<Record>>) {
    if result.decision.outcome != NoAction then (s, Raised)
    else if pid !in s.records || s.records[pid].state != Accepted then (s, Returned(None))
    else
      var updated := CompletedNoAction(s.records[pid], result, now);
      if !RecordConstructs(updated) then (s, Raised)
      else (s.(records := s.records[pid := updated]), Returned(Some(updated)))
  }

  datatype Plan = Plan(decision: Decision, incident: Incident, request: Request, backend: string)

  function PlannedRecord(r: Record, plan: Plan, now: int): Record {
    r.(state := Planned, updatedAt := now,
       plannedDecision := Some(plan.decision), plannedIncident := Some(plan.incident),
       plannedRequest := Some(plan.request), selectedBackend := Some(plan.backend))
  }

  function NewAttempt(aid: nat, pid: nat, operationKey: nat, backend: string, now: int): Attempt {
    Attempt(aid, pid, 1, operationKey, backend, APlanned, now, None, None, None, None, None, None, None, None)
  }

  function StorePlan(s: Store, pid: nat, plan: Plan, aid: nat, operationKey: nat, now: int): (Store, Reply<Option<PlannedPair>>) {
    if plan.decision.outcome != Investigate then (s, Raised)
    else if pid !in s.records || s.records[pid].state != Accepted then (s, Returned(None))
    else if pid in s.attemptOf then (s, Returned(None))
    else if aid in s.attempts || operationKey in s.operationKeys then (s, Raised)
    else
      var record := PlannedRecord(s.records[pid], plan, now);
      var attempt := NewAttempt(aid, pid, operationKey, plan.backend, now);
      if !RecordConstructs(record) || !AttemptConstructs(attempt) then (s, Raised)
      else
        (s.(records := s.records[pid := record],
            attempts := s.attempts[aid := attempt],
            attemptOf := s.attemptOf[pid := aid],
            operationKeys := s.operationKeys + {operationKey}),
         Returned(Some(PlannedPair(record, attempt))))
  }

  /** The body shared by the calls that move an attempt and its record together and write
      the attempt first: if the record then fails to construct, the attempt stays written. */
  function WriteAttemptThenRecord(s: Store, a: Attempt, r: Record): (Store, bool) {
    if !AttemptConstructs(a) then (s, false)
    else if !RecordConstructs(r) then (s.(attempts := s.attempts[a.attemptId := a]), false)
    else (s.(attempts := s.attempts[a.attemptId := a], records := s.records[r.processingId := r]), true)
  }

  function ClaimedAttempt(a: Attempt, now: int): Attempt {
    a.(state := ASubmitting, startedAt := Some(now))
  }

  function ClaimAttempt(s: Store, aid: nat, now: int): (Store, Reply<Option<Attempt>>) {
    if aid !in s.attempts || s.attempts[aid].state != APlanned then (s, Returned(None))
    else if s.attempts[aid].processingId !in s.records then (s, Raised)
    else
      var attempt, record := s.attempts[aid], s.records[s.attempts[aid].processingId];
      if record.state != Planned then (s, Returned(None))
      else
        var claimed := ClaimedAttempt(attempt, now);
        var (s', ok) := WriteAttemptThenRecord(s, claimed, record.(state := Submitting, updatedAt := now));
        (s', if ok then Returned(Some(claimed)) else Raised)
  }

  function SubmittedAttempt(a: Attempt, externalId: string, now: int): Attempt {
    a.(state := ASubmitted, externalOperationId := Some(externalId), submittedAt := Some(now))
  }

  function MarkSubmitted(s: Store, aid: nat, externalId: string, now: int): (Store, Reply<Option<Attempt>>) {
    if aid !in s.attempts || s.attempts[aid].state != ASubmitting then (s, Returned(None))
    else if s.attempts[aid].processingId !in s.records then (s, Raised)
    else
      var attempt, record := s.attempts[aid], s.records[s.attempts[aid].processingId];
      if record.state != Submitting then (s, Returned(None))
      else
        var submitted := SubmittedAttempt(attempt, externalId, now);
        var (s', ok) := WriteAttemptThenRecord(s, submitted, record.(state := Submitted, updatedAt := now));
        (s', if ok then Returned(Some(submitted)) else Raised)
  }

  function PolledAttempt(a: Attempt, remote: string, error: Option<ErrorInfo>, now: int): Attempt {
    a.(lastPolledAt := Some(now), lastRemoteState := Some(remote), error := error)
  }

  function RecordPoll(s: Store, aid: nat, remote: string, error: Option<ErrorInfo>, now: int): (Store, Reply<Option<Attempt>>) {
    if aid !in s.attempts || s.attempts[aid].state != ASubmitted then (s, Returned(None))
    else if s.attempts[aid].processingId !in s.records then (s, Raised)
    else
      var attempt, record := s.attempts[aid], s.records[s.attempts[aid].processingId];
      if record.state != Submitted then (s, Returned(None))
      else
        var polled := PolledAttempt(attempt, remote, error, now);
        var (s', ok) := WriteAttemptThenRecord(s, polled, record.(updatedAt := now, error := error));
        (s', if ok then Returned(Some(polled)) else Raised)
  }

  function CompletedAttempt(a: Attempt, now: int): Attempt {
    a.(state := ACompleted, completedAt := Some(now), lastPolledAt := Some(now),
       lastRemoteState := Some("succeeded"), error := None)
  }

  function CompletedRecord(r: Record, result: OrchestrationResult, now: int): Record {
    r.(state := Completed, updatedAt := now, completedAt := Some(now), completedResult := Some(result), error := None)
  }

  function CompleteProcessing(s: Store, aid: nat, result: OrchestrationResult, now: int): (Store, Reply<Option<Record>>) {
    if result.decision.outcome != Investigate then (s, Raised)
    else if aid !in s.attempts || s.attempts[aid].state != ASubmitted then (s, Returned(None))
    else if s.attempts[aid].processingId !in s.records then (s, Raised)
    else
      var attempt, record := s.attempts[aid], s.records[s.attempts[aid].processingId];
      if record.state != Submitted then (s, Returned(None))
      else
        var completedAttempt := CompletedAttempt(attempt, now);
        var completedRecord := CompletedRecord(record, result, now);
        if !AttemptConstructs(completedAttempt) || !RecordConstructs(completedRecord) then (s, Raised)
        else
          (s.(attempts := s.attempts[aid := completedAttempt],
              records := s.records[record.processingId := completedRecord]),
           Returned(Some(completedRecord)))
  }

  function FailedRecord(r: Record, error: ErrorInfo, now: int): Record {
    r.(state := Failed, updatedAt := now, failedAt := Some(now), error := Some(error))
  }

  function FailedAttempt(a: Attempt, error: ErrorInfo, now: int): Attempt {
    a.(state := AFailed, failedAt := Some(now), error := Some(error))
  }

  /** The record is written before the attempt's constructor runs. */
  function FailProcessing(s: Store, pid: nat, expected: set<ProcessingState>, error: ErrorInfo, aid: Option<nat>, now: int)
    : (Store, Reply<Option<Record>>)
  {
    if pid !in s.records || s.records[pid].state !in expected then (s, Returned(None))
    else if aid.Some? && (aid.value !in s.attempts || s.attempts[aid.value].processingId != pid
                          || !ActiveAttempt(s.attempts[aid.value].state)) then (s, Returned(None))
    else
      var failed := FailedRecord(s.records[pid], error, now);
      if !RecordConstructs(failed) then (s, Raised)
      else
        var s1 := s.(records := s.records[pid := failed]);
        if aid.None? then (s1, Returned(Some(failed)))
        else
          var failedAttempt := FailedAttempt(s.attempts[aid.value], error, now);
          if !AttemptConstructs(failedAttempt) then (s1, Raised)
          else (s1.(attempts := s.attempts[aid.value := failedAttempt]), Returned(Some(failed)))
  }

  function RecoveryAttempt(a: Attempt, error: ErrorInfo): Attempt {
    a.(state := ARecoveryRequired, error := Some(error))
  }

  function RecoveryRecord(r: Record, error: ErrorInfo, now: int): Record {
    r.(state := RecoveryRequired, updatedAt := now, error := Some(error))
  }

  function MarkRecoveryRequired(s: Store, aid: nat, expected: set<AttemptState>, error: ErrorInfo, now: int)
    : (Store, Reply<Option<Record>>)
  {
    if aid !in s.attempts || s.attempts[aid].state !in expected then (s, Returned(None))
    else if s.attempts[aid].processingId !in s.records then (s, Raised)
    else
      var attempt, record := s.attempts[aid], s.records[s.attempts[aid].processingId];
      if (attempt.state != ASubmitting && attempt.state != ASubmitted) || record.state != SameName(attempt.state) then (s, Returned(None))
      else
        var recovery := RecoveryRecord(record, error, now);
        var (s', ok) := WriteAttemptThenRecord(s, RecoveryAttempt(attempt, error), recovery);
        (s', if ok then Returned(Some(recovery)) else Raised)
  }

  // ----- The work list

  predicate Eligible(s: Store, pid: nat, staleBefore: int)
    requires pid in s.records
  {
    match s.records[pid].state
    case Accepted => true
    case Planned => true
    case Submitted => true
    case Submitting =>
      var a := GetAttemptForProcessing(s, pid);
      a.Returned? && a.value.Some? && a.value.value.startedAt.Some? && a.value.value.startedAt.value <= staleBefore
    case _ => false
  }

  /** The sort key `(updated_at, str(processing_id))`; identifiers print at fixed width,
      so their textual order is their numeric order. */
  predicate Before(r: Record, q: Record) {
    r.updatedAt < q.updatedAt || (r.updatedAt == q.updatedAt && r.processingId < q.processingId)
  }

  predicate SortedRecords(rs: seq<Record>) {
    forall i, j :: 0 <= i < j < |rs| ==> Before(rs[i], rs[j])
  }

  /** `out` is the first `limit` eligible records in key order. */
  ghost predicate IsWorkList(s: Store, limit: nat, staleBefore: int, out: seq<Record>) {
    && SortedRecords(out)
    && |out| <= limit
    && (forall i :: 0 <= i < |out| ==>
          && out[i].processingId in s.records && s.records[out[i].processingId] == out[i]
          && Eligible(s, out[i].processingId, staleBefore))
    && (forall pid :: pid in s.records && Eligible(s, pid, staleBefore) && s.records[pid] !in out ==>
          |out| == limit && forall i :: 0 <= i < |out| ==> Before(out[i], s.records[pid]))
  }

  // ----- The lockstep invariant

  function AttemptOf(s: Store, pid: nat): Option<Attempt> {
    if pid in s.attemptOf && s.attemptOf[pid] in s.attempts then Some(s.attempts[s.attemptOf[pid]]) else None
  }

  predicate Matches(r: Record, a: Attempt) {
    && a.attemptNumber == 1
    && HasPlan(r) && a.backend == r.selectedBackend.value
    && PlanCoherent(r.alert, r.plannedDecision.value, r.plannedIncident.value, r.plannedRequest.value)
  }

  predicate NoPlan(r: Record) {
    r.plannedDecision.None? && r.plannedIncident.None? && r.plannedRequest.None? && r.selectedBackend.None?
  }

  /** What a record can fail with before it has an attempt. */
  predicate PlanningError(e: ErrorInfo) {
    e.category == "unsupported_capability" || e.category == "backend_selection_error"
  }

  predicate InvestigationFrom(r: Record, result: OrchestrationResult) {
    && HasPlan(r)
    && result.decision == r.plannedDecision.value
    && result.incident == r.plannedIncident && result.request == r.plannedRequest
    && result.investigation.Some? && InvestigationValid(result.investigation.value)
    && result.investigation.value.backend == r.selectedBackend.value
  }

  predicate NoActionFrom(r: Record, result: OrchestrationResult) {
    && DecisionValid(result.decision) && result.decision.outcome == NoAction
    && result.decision.source == r.alert.source && ResultValid(result)
  }

  /** The record and its attempt, if any, are in matching states with matching contents. */
  predicate Paired(r: Record, a: Option<Attempt>) {
    match r.state
    case Accepted => a.None?
    case Completed =>
      if a.None? then NoPlan(r) && r.completedResult.Some? && NoActionFrom(r, r.completedResult.value)
      else a.value.state == ACompleted && Matches(r, a.value)
           && r.completedResult.Some? && InvestigationFrom(r, r.completedResult.value)
    case Failed =>
      if a.None? then NoPlan(r) && r.error.Some? && PlanningError(r.error.value)
      else a.value.state == AFailed && Matches(r, a.value) && a.value.error == r.error
    case _ => a.Some? && SameName(a.value.state) == r.state && Matches(r, a.value) && a.value.error == r.error
  }

  predicate ErrorTextOk(e: Option<ErrorInfo>) {
    e.Some? ==>
      && Bounded(e.value.category) && Bounded(e.value.detail)
      && NonBlank(e.value.category) && NonBlank(e.value.detail)
  }

  predicate RemoteTextOk(remote: Option<string>) {
    remote.Some? ==> Bounded(remote.value) && NonBlank(remote.value)
  }

  /** Terminal times only in terminal states, and no blank error text: more than the
      constructor asks, but what the columns ask. */
  predicate Tidy(r: Record) {
    && (r.state != Completed ==> r.completedAt.None?) && (r.state != Failed ==> r.failedAt.None?)
    && ErrorTextOk(r.error)
  }

  predicate RecordOk(s: Store, pid: nat)
    requires pid in s.records
  {
    var r := s.records[pid];
    && r.processingId == pid
    && RecordConstructs(r) && AlertValid(r.alert)
    && (r.state == Accepted ==> r.error.None?)
    && Tidy(r)
    && r.identity.Some? && r.identity.value.scope == r.alert.source.source && VisibleKey(r.identity.value.key)
    && (r.identity.value.scope, r.identity.value.key) in s.idempotency
    && s.idempotency[(r.identity.value.scope, r.identity.value.key)] == pid
    && Paired(r, AttemptOf(s, pid))
  }

  predicate AttemptTidy(a: Attempt) {
    && (a.state == APlanned || a.state == ASubmitting ==> a.submittedAt.None?)
    && (a.state != ACompleted ==> a.completedAt.None?)
    && (a.state != AFailed ==> a.failedAt.None?)
    && ErrorTextOk(a.error) && RemoteTextOk(a.lastRemoteState)
  }

  predicate AttemptOk(s: Store, aid: nat)
    requires aid in s.attempts
  {
    var a := s.attempts[aid];
    && a.attemptId == aid && AttemptConstructs(a)
    && a.processingId in s.attemptOf && s.attemptOf[a.processingId] == aid
    && a.operationKey in s.operationKeys
    && AttemptTidy(a)
  }

  /** `_attempt_by_processing` names existing pairs. */
  ghost predicate AttemptIndexOk(s: Store) {
    forall pid :: pid in s.attemptOf ==>
      pid in s.records && s.attemptOf[pid] in s.attempts && s.attempts[s.attemptOf[pid]].processingId == pid
  }

  /** `_idempotency` names the record that carries the key. */
  ghost predicate KeyIndexOk(s: Store) {
    forall k :: k in s.idempotency ==>
      && s.idempotency[k] in s.records
      && var r := s.records[s.idempotency[k]]; r.identity.Some? && (r.identity.value.scope, r.identity.value.key) == k
  }

  /** `_operation_keys` holds exactly the attempts' operation keys, all different. */
  ghost predicate OperationKeysOk(s: Store) {
    && (forall a, b :: a in s.attempts && b in s.attempts && s.attempts[a].operationKey == s.attempts[b].operationKey ==> a == b)
    && (forall k :: k in s.operationKeys ==> exists a :: a in s.attempts && s.attempts[a].operationKey == k)
  }

  ghost predicate IndexesOk(s: Store) {
    AttemptIndexOk(s) && KeyIndexOk(s) && OperationKeysOk(s)
  }

  ghost predicate Lockstep(s: Store) {
    && IndexesOk(s)
    && (forall pid :: pid in s.records ==> RecordOk(s, pid))
    && (forall aid :: aid in s.attempts ==> AttemptOk(s, aid))
  }

  /** The clock never reads before the creation of a stored record. */
  ghost predicate ClockOk(s: Store, now: int) {
    forall pid :: pid in s.records ==> s.records[pid].createdAt <= now
  }

  // ----- What calls may change

  function Rank(s: ProcessingState): nat {
    match s
    case Accepted => 0
    case Planned => 1
    case Submitting => 2
    case Submitted => 3
    case _ => 4
  }

  predicate StateReach(a: ProcessingState, b: ProcessingState) {
    Rank(a) <= Rank(b) && (Settled(a) ==> a == b)
  }

  predicate Kept<T(==)>(a: Option<T>, b: Option<T>) {
    a.Some? ==> a == b
  }

  /** `q` may be a later version of the record `r`: identity, alert and creation time never
      change, a stored plan is never rewritten, and a settled record is never touched. */
  predicate RecordEvolves(r: Record, q: Record) {
    && q.processingId == r.processingId && q.createdAt == r.createdAt
    && q.alert == r.alert && q.identity == r.identity
    && StateReach(r.state, q.state)
    && Kept(r.plannedDecision, q.plannedDecision) && Kept(r.plannedIncident, q.plannedIncident)
    && Kept(r.plannedRequest, q.plannedRequest) && Kept(r.selectedBackend, q.selectedBackend)
    && (Settled(r.state) ==> q == r)
  }

  predicate AttemptEvolves(a: Attempt, b: Attempt) {
    && b.attemptId == a.attemptId && b.processingId == a.processingId && b.attemptNumber == a.attemptNumber
    && b.operationKey == a.operationKey && b.backend == a.backend && b.createdAt == a.createdAt
    && StateReach(SameName(a.state), SameName(b.state))
    && Kept(a.startedAt, b.startedAt) && Kept(a.submittedAt, b.submittedAt)
    && Kept(a.externalOperationId, b.externalOperationId)
    && (Settled(SameName(a.state)) ==> b == a)
  }

  /** Any number of calls leads from `s` to `t`: a transitive relation. */
  ghost predicate Evolves(s: Store, t: Store) {
    && (forall pid :: pid in s.records ==> pid in t.records && RecordEvolves(s.records[pid], t.records[pid]))
    && (forall aid :: aid in s.attempts ==> aid in t.attempts && AttemptEvolves(s.attempts[aid], t.attempts[aid]))
    && (forall pid :: pid in s.attemptOf ==> pid in t.attemptOf && t.attemptOf[pid] == s.attemptOf[pid])
    && (forall k :: k in s.idempotency ==> k in t.idempotency && t.idempotency[k] == s.idempotency[k])
  }

  lemma EvolvesTransitive(s: Store, t: Store, u: Store)
    requires Evolves(s, t) && Evolves(t, u)
    ensures Evolves(s, u)
  {
  }

  /** What one call at time `now` may do: every record either keeps its value or takes one
      step of the transition table and is stamped `now`; new records appear as accepted. */
  ghost predicate Advances(s: Store, t: Store, now: int) {
    && Evolves(s, t)
    && (forall pid :: pid in s.records ==> OneStep(s.records[pid], t.records[pid], now))
    && (forall pid :: pid in t.records && pid !in s.records ==>
          t.records[pid].createdAt == now && t.records[pid].updatedAt == now && t.records[pid].state == Accepted)
  }

  predicate OneStep(r: Record, q: Record, now: int) {
    q == r || (q.updatedAt == now && (q.state == r.state || TransitionAllowed(r.state, q.state)))
  }
}
