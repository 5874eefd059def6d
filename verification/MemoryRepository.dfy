/** `InMemoryProcessingRepository` (`persistence/memory.py`): the dictionaries, updated in
    place under one lock, so each call is one step. The clock reading a call would take is
    its parameter `now`. Every method does to the fields exactly what the function of the
    same name in `Repository` does to their contents. */
module MemoryRepository {
  import opened Domain
  import opened Lifecycle
  import R = Repository
  import opened WorkList

  class InMemoryProcessingRepository {
    var records: map<nat, Record>
    var idempotency: map<(string, string), nat>
    var attempts: map<nat, Attempt>
    var attemptByProcessing: map<nat, nat>
    var operationKeys: set<nat>

    function Contents(): R.Store
      reads this
    {
      R.Store(records, idempotency, attempts, attemptByProcessing, operationKeys)
    }

    constructor ()
      ensures Contents() == R.EMPTY_STORE
    {
      records, idempotency, attempts, attemptByProcessing, operationKeys := map[], map[], map[], map[], {};
    }

    method AcceptProcessing(pid: nat, alert: Alert, identity: Identity, now: int) returns (reply: R.Reply<R.Acceptance>)
      modifies this
      ensures (Contents(), reply) == R.AcceptProcessing(old(Contents()), pid, alert, identity, now)
    {
      if identity.scope != alert.source.source || !R.VisibleKey(identity.key) {
        return R.Raised;
      }
      if (identity.scope, identity.key) in idempotency {
        var existing := idempotency[(identity.scope, identity.key)];
        if existing !in records {
          return R.Raised;
        }
        return R.Returned(R.Acceptance(records[existing], false));
      }
      if pid in records {
        return R.Raised;
      }
      var record := R.NewRecord(pid, alert, identity, now);
      if !RecordConstructs(record) {
        return R.Raised;
      }
      records := records[pid := record];
      idempotency := idempotency[(identity.scope, identity.key) := pid];
      return R.Returned(R.Acceptance(record, true));
    }

    method Get(pid: nat) returns (r: Option<Record>)
      ensures r == R.Get(Contents(), pid)
    {
      r := if pid in records then Some(records[pid]) else None;
    }

    method GetAttemptForProcessing(pid: nat) returns (reply: R.Reply<Option<Attempt>>)
      ensures reply == R.GetAttemptForProcessing(Contents(), pid)
    {
      if pid !in attemptByProcessing {
        return R.Returned(None);
      }
      var aid := attemptByProcessing[pid];
      if aid !in attempts {
        return R.Raised;
      }
      return R.Returned(Some(attempts[aid]));
    }

    method StoreNoActionResult(pid: nat, result: OrchestrationResult, now: int) returns (reply: R.Reply<Option<Record>>)
      modifies this
      ensures (Contents(), reply) == R.StoreNoActionResult(old(Contents()), pid, result, now)
    {
      if result.decision.outcome != NoAction {
        return R.Raised;
      }
      if pid !in records || records[pid].state != Accepted {
        return R.Returned(None);
      }
      var updated := R.CompletedNoAction(records[pid], result, now);
      if !RecordConstructs(updated) {
        return R.Raised;
      }
      records := records[pid := updated];
      return R.Returned(Some(updated));
    }

    method StorePlan(pid: nat, plan: R.Plan, aid: nat, operationKey: nat, now: int) returns (reply: R.Reply<Option<R.PlannedPair>>)
      modifies this
      ensures (Contents(), reply) == R.StorePlan(old(Contents()), pid, plan, aid, operationKey, now)
    {
      if plan.decision.outcome != Investigate {
        return R.Raised;
      }
      if pid !in records || records[pid].state != Accepted {
        return R.Returned(None);
      }
      if pid in attemptByProcessing {
        return R.Returned(None);
      }
      if aid in attempts || operationKey in operationKeys {
        return R.Raised;
      }
      var record := R.PlannedRecord(records[pid], plan, now);
      var attempt := R.NewAttempt(aid, pid, operationKey, plan.backend, now);
      if !RecordConstructs(record) || !AttemptConstructs(attempt) {
        return R.Raised;
      }
      records := records[pid := record];
      attempts := attempts[aid := attempt];
      attemptByProcessing := attemptByProcessing[pid := aid];
      operationKeys := operationKeys + {operationKey};
      return R.Returned(Some(R.PlannedPair(record, attempt)));
    }

    /** The attempt is assigned before the record's constructor runs. */
    method ClaimAttempt(aid: nat, now: int) returns (reply: R.Reply<Option<Attempt>>)
      requires aid in attempts ==> attempts[aid].attemptId == aid
      requires forall pid :: pid in records ==> records[pid].processingId == pid
      modifies this
      ensures (Contents(), reply) == R.ClaimAttempt(old(Contents()), aid, now)
    {
      if aid !in attempts || attempts[aid].state != APlanned {
        return R.Returned(None);
      }
      var attempt := attempts[aid];
      if attempt.processingId !in records {
        return R.Raised;
      }
      var record := records[attempt.processingId];
      if record.state != Planned {
        return R.Returned(None);
      }
      var claimed := R.ClaimedAttempt(attempt, now);
      if !AttemptConstructs(claimed) {
        return R.Raised;
      }
      attempts := attempts[aid := claimed];
      var submitting := record.(state := Submitting, updatedAt := now);
      if !RecordConstructs(submitting) {
        return R.Raised;
      }
      records := records[record.processingId := submitting];
      return R.Returned(Some(claimed));
    }

    method MarkSubmitted(aid: nat, externalId: string, now: int) returns (reply: R.Reply<Option<Attempt>>)
      requires aid in attempts ==> attempts[aid].attemptId == aid
      requires forall pid :: pid in records ==> records[pid].processingId == pid
      modifies this
      ensures (Contents(), reply) == R.MarkSubmitted(old(Contents()), aid, externalId, now)
    {
      if aid !in attempts || attempts[aid].state != ASubmitting {
        return R.Returned(None);
      }
      var attempt := attempts[aid];
      if attempt.processingId !in records {
        return R.Raised;
      }
      var record := records[attempt.processingId];
      if record.state != Submitting {
        return R.Returned(None);
      }
      var submitted := R.SubmittedAttempt(attempt, externalId, now);
      if !AttemptConstructs(submitted) {
        return R.Raised;
      }
      attempts := attempts[aid := submitted];
      var updated := record.(state := Submitted, updatedAt := now);
      if !RecordConstructs(updated) {
        return R.Raised;
      }
      records := records[record.processingId := updated];
      return R.Returned(Some(submitted));
    }

    method RecordPoll(aid: nat, remote: string, error: Option<ErrorInfo>, now: int) returns (reply: R.Reply<Option<Attempt>>)
      requires aid in attempts ==> attempts[aid].attemptId == aid
      requires forall pid :: pid in records ==> records[pid].processingId == pid
      modifies this
      ensures (Contents(), reply) == R.RecordPoll(old(Contents()), aid, remote, error, now)
    {
      if aid !in attempts || attempts[aid].state != ASubmitted {
        return R.Returned(None);
      }
      var attempt := attempts[aid];
      if attempt.processingId !in records {
        return R.Raised;
      }
      var record := records[attempt.processingId];
      if record.state != Submitted {
        return R.Returned(None);
      }
      var polled := R.PolledAttempt(attempt, remote, error, now);
      if !AttemptConstructs(polled) {
        return R.Raised;
      }
      attempts := attempts[aid := polled];
      var updated := record.(updatedAt := now, error := error);
      if !RecordConstructs(updated) {
        return R.Raised;
      }
      records := records[record.processingId := updated];
      return R.Returned(Some(polled));
    }

    /** Both values are built before either is assigned. */
    method CompleteProcessing(aid: nat, result: OrchestrationResult, now: int) returns (reply: R.Reply<Option<Record>>)
      modifies this
      ensures (Contents(), reply) == R.CompleteProcessing(old(Contents()), aid, result, now)
    {
      if result.decision.outcome != Investigate {
        return R.Raised;
      }
      if aid !in attempts || attempts[aid].state != ASubmitted {
        return R.Returned(None);
      }
      var attempt := attempts[aid];
      if attempt.processingId !in records {
        return R.Raised;
      }
      var record := records[attempt.processingId];
      if record.state != Submitted {
        return R.Returned(None);
      }
      var completedAttempt := R.CompletedAttempt(attempt, now);
      var completedRecord := R.CompletedRecord(record, result, now);
      if !AttemptConstructs(completedAttempt) || !RecordConstructs(completedRecord) {
        return R.Raised;
      }
      attempts := attempts[aid := completedAttempt];
      records := records[record.processingId := completedRecord];
      return R.Returned(Some(completedRecord));
    }

    /** The record is assigned before the attempt's constructor runs. */
    method FailProcessing(pid: nat, expected: set<ProcessingState>, error: ErrorInfo, aid: Option<nat>, now: int)
      returns (reply: R.Reply<Option<Record>>)
      modifies this
      ensures (Contents(), reply) == R.FailProcessing(old(Contents()), pid, expected, error, aid, now)
    {
      if pid !in records || records[pid].state !in expected {
        return R.Returned(None);
      }
      if aid.Some? {
        if aid.value !in attempts || attempts[aid.value].processingId != pid {
          return R.Returned(None);
        }
        if !ActiveAttempt(attempts[aid.value].state) {
          return R.Returned(None);
        }
      }
      var failed := R.FailedRecord(records[pid], error, now);
      if !RecordConstructs(failed) {
        return R.Raised;
      }
      records := records[pid := failed];
      if aid.Some? {
        var failedAttempt := R.FailedAttempt(attempts[aid.value], error, now);
        if !AttemptConstructs(failedAttempt) {
          return R.Raised;
        }
        attempts := attempts[aid.value := failedAttempt];
      }
      return R.Returned(Some(failed));
    }

    method MarkRecoveryRequired(aid: nat, expected: set<AttemptState>, error: ErrorInfo, now: int) returns (reply: R.Reply<Option<Record>>)
      requires aid in attempts ==> attempts[aid].attemptId == aid
      requires forall pid :: pid in records ==> records[pid].processingId == pid
      modifies this
      ensures (Contents(), reply) == R.MarkRecoveryRequired(old(Contents()), aid, expected, error, now)
    {
      if aid !in attempts || attempts[aid].state !in expected {
        return R.Returned(None);
      }
      var attempt := attempts[aid];
      if attempt.processingId !in records {
        return R.Raised;
      }
      var record := records[attempt.processingId];
      if (attempt.state != ASubmitting && attempt.state != ASubmitted) || record.state != SameName(attempt.state) {
        return R.Returned(None);
      }
      var recoveryAttempt := R.RecoveryAttempt(attempt, error);
      if !AttemptConstructs(recoveryAttempt) {
        return R.Raised;
      }
      attempts := attempts[aid := recoveryAttempt];
      var recovery := R.RecoveryRecord(record, error, now);
      if !RecordConstructs(recovery) {
        return R.Raised;
      }
      records := records[record.processingId := recovery];
      return R.Returned(Some(recovery));
    }

    /** Fill a list in whatever order the dictionary gives, sort it, cut it. */
    method FindReconcilable(limit: int, staleBefore: int) returns (reply: R.Reply<seq<Record>>)
      requires forall pid :: pid in records ==> records[pid].processingId == pid
      ensures limit < 1 <==> reply.Raised?
      ensures reply.Returned? ==> R.IsWorkList(Contents(), limit, staleBefore, reply.value)
    {
      if limit < 1 {
        return R.Raised;
      }
      var values: seq<Record> := [];
      var rest := records.Keys;
      while rest != {}
        invariant rest <= records.Keys
        invariant DistinctIds(values)
        invariant forall r :: r in values ==>
                    && r.processingId in records && r.processingId !in rest && records[r.processingId] == r
                    && R.Eligible(Contents(), r.processingId, staleBefore)
        invariant forall pid :: pid in records && pid !in rest && R.Eligible(Contents(), pid, staleBefore) ==> records[pid] in values
        decreases |rest|
      {
        var pid :| pid in rest;
        var record := records[pid];
        if record.state == Accepted || record.state == Planned || record.state == Submitted {
          values := values + [record];
        } else if record.state == Submitting {
          var attempt := GetAttemptForProcessing(record.processingId);
          if attempt.Returned? && attempt.value.Some? && attempt.value.value.startedAt.Some?
             && attempt.value.value.startedAt.value <= staleBefore {
            values := values + [record];
          }
        }
        rest := rest - {pid};
      }
      assert IsEligibleSet(Contents(), staleBefore, values);
      SortedCut(Contents(), limit, staleBefore, values);
      var sorted := SortRecords(values);
      return R.Returned(if |sorted| <= limit then sorted else sorted[..limit]);
    }
  }
}
