/** What each repository call writes, field by field, and when it writes at all: on tables in
    lockstep the guard of a call decides everything (`persistence/memory.py:35-360`). */
module RepositoryWrites {
  import opened Domain
  import opened Lifecycle
  import opened Repository
  import opened RepositoryInvariant

  /** Attempt and record are stored together, and nothing else is. */
  predicate BothStored(s: Store, t: Store, a: Attempt, r: Record) {
    t == s.(attempts := s.attempts[a.attemptId := a], records := s.records[r.processingId := r])
  }

  /** A new key stores a fresh accepted record with nothing decided; a known key stores nothing
      and returns what the key stands for. */
  lemma AcceptWrites(s: Store, pid: nat, alert: Alert, identity: Identity, now: int)
    requires Lockstep(s) && AlertValid(alert) && identity.scope == alert.source.source && VisibleKey(identity.key)
    requires |identity.fingerprint| == 32 && identity.version == 1
    ensures var (t, reply) := AcceptProcessing(s, pid, alert, identity, now);
            var name := (identity.scope, identity.key);
            if name in s.idempotency then
              t == s && s.idempotency[name] in s.records && reply == Returned(Acceptance(s.records[s.idempotency[name]], false))
            else if pid in s.records then t == s && reply == Raised
            else
              pid in t.records &&
              var r := t.records[pid];
              && reply == Returned(Acceptance(r, true))
              && t == s.(records := s.records[pid := r], idempotency := s.idempotency[name := pid])
              && r.processingId == pid && r.state == Accepted && r.createdAt == now && r.updatedAt == now
              && r.alert == alert && r.identity == Some(identity)
              && r.plannedDecision.None? && r.plannedIncident.None? && r.plannedRequest.None? && r.selectedBackend.None?
              && r.completedResult.None? && r.completedAt.None? && r.failedAt.None? && r.error.None?
  {
    hide RecordOk, AttemptOk, OperationKeysOk, AttemptIndexOk, VisibleKey, AlertValid;
  }

  /** A result without an investigation completes an accepted record and no other. */
  lemma NoActionWrites(s: Store, pid: nat, result: OrchestrationResult, now: int)
    requires Lockstep(s) && ClockOk(s, now) && result.decision.outcome == NoAction
    requires pid in s.records ==> NoActionFrom(s.records[pid], result)
    ensures var (t, reply) := StoreNoActionResult(s, pid, result, now);
            if pid in s.records && s.records[pid].state == Accepted then
              var r := s.records[pid].(state := Completed, updatedAt := now, completedResult := Some(result), completedAt := Some(now));
              t == s.(records := s.records[pid := r]) && reply == Returned(Some(r))
            else t == s && reply == Returned(None)
  {
    hide Lockstep, Advances, NoActionFrom, RecordConstructs;
    StoreNoActionKeeps(s, pid, result, now);
  }

  /** A plan goes to an accepted record, with its one attempt under new identifiers. */
  lemma PlanWrites(s: Store, pid: nat, plan: Plan, aid: nat, operationKey: nat, now: int)
    requires Lockstep(s) && ClockOk(s, now) && NonBlank(plan.backend) && plan.decision.outcome == Investigate
    requires pid in s.records ==> PlanCoherent(s.records[pid].alert, plan.decision, plan.incident, plan.request)
    requires aid !in s.attempts && operationKey !in s.operationKeys
    ensures var (t, reply) := StorePlan(s, pid, plan, aid, operationKey, now);
            if pid in s.records && s.records[pid].state == Accepted then
              aid in t.attempts &&
              var r, a := s.records[pid].(state := Planned, updatedAt := now, plannedDecision := Some(plan.decision),
                                          plannedIncident := Some(plan.incident), plannedRequest := Some(plan.request),
                                          selectedBackend := Some(plan.backend)),
                          t.attempts[aid];
              && reply == Returned(Some(PlannedPair(r, a)))
              && t.records == s.records[pid := r] && t.attempts == s.attempts[aid := a] && t.idempotency == s.idempotency
              && t.attemptOf == s.attemptOf[pid := aid] && t.operationKeys == s.operationKeys + {operationKey}
              && a.attemptId == aid && a.processingId == pid && a.attemptNumber == 1 && a.operationKey == operationKey
              && a.backend == plan.backend && a.state == APlanned && a.createdAt == now
              && a.startedAt.None? && a.submittedAt.None? && a.lastPolledAt.None? && a.completedAt.None? && a.failedAt.None?
              && a.externalOperationId.None? && a.lastRemoteState.None? && a.error.None?
            else t == s && reply == Returned(None)
  {
    hide Lockstep, Advances, PlanCoherent, NonBlank;
    StorePlanKeeps(s, pid, plan, aid, operationKey, now);
    if pid in s.records && s.records[pid].state == Accepted {
      AcceptedAlone(s, pid);
      AcceptedFields(s, pid);
      CoherentSource(s.records[pid].alert, plan);
    }
  }

  lemma AcceptedFields(s: Store, pid: nat)
    requires Lockstep(s) && pid in s.records
    ensures RecordConstructs(s.records[pid])
  {
    hide IndexesOk, AttemptOk;
    assert RecordOk(s, pid);
  }

  lemma CoherentSource(alert: Alert, plan: Plan)
    requires PlanCoherent(alert, plan.decision, plan.incident, plan.request)
    ensures plan.decision.source == alert.source && plan.incident.alert == alert
  {
  }

  /** A claim takes a planned attempt, and its record with it. */
  lemma ClaimWrites(s: Store, aid: nat, now: int)
    requires Lockstep(s) && ClockOk(s, now)
    ensures var (t, reply) := ClaimAttempt(s, aid, now);
            if aid in s.attempts && s.attempts[aid].state == APlanned then
              s.attempts[aid].processingId in s.records &&
              var a, r := s.attempts[aid].(state := ASubmitting, startedAt := Some(now)), s.records[s.attempts[aid].processingId];
              reply == Returned(Some(a)) && r.state == Planned && BothStored(s, t, a, r.(state := Submitting, updatedAt := now))
            else t == s && reply == Returned(None)
  {
    hide Lockstep, Advances, RecordConstructs, AttemptConstructs;
    ClaimKeeps(s, aid, now);
  }

  /** Marking stores the identifier on a submitting attempt. */
  lemma MarkWrites(s: Store, aid: nat, externalId: string, now: int)
    requires Lockstep(s) && ClockOk(s, now) && OperationIdOk(externalId)
    ensures var (t, reply) := MarkSubmitted(s, aid, externalId, now);
            if aid in s.attempts && s.attempts[aid].state == ASubmitting then
              s.attempts[aid].processingId in s.records &&
              var a, r := s.attempts[aid].(state := ASubmitted, externalOperationId := Some(externalId), submittedAt := Some(now)),
                          s.records[s.attempts[aid].processingId];
              reply == Returned(Some(a)) && r.state == Submitting && BothStored(s, t, a, r.(state := Submitted, updatedAt := now))
            else t == s && reply == Returned(None)
  {
    hide Lockstep, Advances, RecordConstructs, AttemptConstructs, OperationIdOk;
    MarkSubmittedKeeps(s, aid, externalId, now);
  }

  /** A poll is recorded on a submitted attempt: when, the remote state and the error, which
      the record takes too. */
  lemma PollWrites(s: Store, aid: nat, remote: string, error: Option<ErrorInfo>, now: int)
    requires Lockstep(s) && ClockOk(s, now) && RemoteTextOk(Some(remote)) && ErrorTextOk(error)
    ensures var (t, reply) := RecordPoll(s, aid, remote, error, now);
            if aid in s.attempts && s.attempts[aid].state == ASubmitted then
              s.attempts[aid].processingId in s.records &&
              var a, r := s.attempts[aid].(lastPolledAt := Some(now), lastRemoteState := Some(remote), error := error),
                          s.records[s.attempts[aid].processingId];
              reply == Returned(Some(a)) && r.state == Submitted && BothStored(s, t, a, r.(updatedAt := now, error := error))
            else t == s && reply == Returned(None)
  {
    hide Lockstep, Advances, RecordConstructs, AttemptConstructs, RemoteTextOk, ErrorTextOk;
    RecordPollKeeps(s, aid, remote, error, now);
  }

  lemma PairNames(s: Store, aid: nat)
    requires Lockstep(s) && aid in s.attempts
    ensures s.attempts[aid].attemptId == aid && s.attempts[aid].processingId in s.records
    ensures var r := s.records[s.attempts[aid].processingId];
            r.processingId == s.attempts[aid].processingId && r.state == SameName(s.attempts[aid].state)
  {
    hide RecordConstructs, AttemptConstructs, Matches, InvestigationFrom, NoActionFrom;
    PairOf(s, aid);
  }

  /** A completion ends a submitted attempt, its last poll included, and clears the error. */
  lemma CompleteWrites(s: Store, aid: nat, result: OrchestrationResult, now: int)
    requires Lockstep(s) && ClockOk(s, now) && result.decision.outcome == Investigate
    requires aid in s.attempts && s.attempts[aid].state == ASubmitted ==>
               && s.attempts[aid].processingId in s.records
               && InvestigationFrom(s.records[s.attempts[aid].processingId], result)
    ensures var (t, reply) := CompleteProcessing(s, aid, result, now);
            if aid in s.attempts && s.attempts[aid].state == ASubmitted then
              var a, r := s.attempts[aid].(state := ACompleted, completedAt := Some(now), lastPolledAt := Some(now),
                                           lastRemoteState := Some("succeeded"), error := None),
                          s.records[s.attempts[aid].processingId].(state := Completed, updatedAt := now, completedAt := Some(now),
                                                                   completedResult := Some(result), error := None);
              reply == Returned(Some(r)) && BothStored(s, t, a, r)
            else t == s && reply == Returned(None)
  {
    hide Lockstep, Advances, RecordConstructs, AttemptConstructs, InvestigationFrom;
    if aid in s.attempts {
      PairNames(s, aid);
    }
    CompleteKeeps(s, aid, result, now);
  }

  /** A failed plan ends an accepted record. */
  lemma FailAcceptedWrites(s: Store, pid: nat, error: ErrorInfo, now: int)
    requires Lockstep(s) && ClockOk(s, now) && ErrorTextOk(Some(error)) && PlanningError(error)
    ensures var (t, reply) := FailProcessing(s, pid, {Accepted}, error, None, now);
            if pid in s.records && s.records[pid].state == Accepted then
              var r := s.records[pid].(state := Failed, updatedAt := now, failedAt := Some(now), error := Some(error));
              t == s.(records := s.records[pid := r]) && reply == Returned(Some(r))
            else t == s && reply == Returned(None)
  {
    hide Lockstep, Advances, RecordConstructs, ErrorTextOk, PlanningError;
    FailAcceptedKeeps(s, pid, error, now);
  }

  /** A failed attempt ends its record with the same error. */
  lemma FailAttemptWrites(s: Store, pid: nat, from: ProcessingState, error: ErrorInfo, aid: nat, now: int)
    requires Lockstep(s) && ClockOk(s, now) && ErrorTextOk(Some(error)) && from in {Planned, Submitting, Submitted}
    requires aid in s.attempts && s.attempts[aid].processingId == pid
    ensures var (t, reply) := FailProcessing(s, pid, {from}, error, Some(aid), now);
            if pid in s.records && s.records[pid].state == from then
              var a, r := s.attempts[aid].(state := AFailed, failedAt := Some(now), error := Some(error)),
                          s.records[pid].(state := Failed, updatedAt := now, failedAt := Some(now), error := Some(error));
              reply == Returned(Some(r)) && BothStored(s, t, a, r)
            else t == s && reply == Returned(None)
  {
    hide Lockstep, Advances, RecordConstructs, AttemptConstructs, ErrorTextOk;
    PairNames(s, aid);
    FailAttemptKeeps(s, pid, from, error, aid, now);
  }

  /** Giving up keeps what the attempt has, adds the error to both, and stops at submitting or
      submitted. */
  lemma RecoveryWrites(s: Store, aid: nat, from: AttemptState, error: ErrorInfo, now: int)
    requires Lockstep(s) && ClockOk(s, now) && ErrorTextOk(Some(error)) && from in {ASubmitting, ASubmitted}
    ensures var (t, reply) := MarkRecoveryRequired(s, aid, {from}, error, now);
            if aid in s.attempts && s.attempts[aid].state == from then
              s.attempts[aid].processingId in s.records &&
              var a, r := s.attempts[aid].(state := ARecoveryRequired, error := Some(error)),
                          s.records[s.attempts[aid].processingId].(state := RecoveryRequired, updatedAt := now, error := Some(error));
              reply == Returned(Some(r)) && BothStored(s, t, a, r)
            else t == s && reply == Returned(None)
  {
    hide Lockstep, Advances, RecordConstructs, AttemptConstructs, ErrorTextOk;
    RecoveryKeeps(s, aid, from, error, now);
  }
}
