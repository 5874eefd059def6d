/** `PostgresProcessingRepository` (`persistence/postgres.py`): each call is one transaction
    over the two tables. A method works statement by statement on the contents it read and
    assigns the fields only where the transaction commits; every earlier return rolls back.
    The refinement is the contract: if the tables stand for a store `s` in lockstep, then
    after the call they stand for what the in-memory repository makes of `s`, and the caller
    gets the same reply. `now` is the transaction's CURRENT_TIMESTAMP. */
module PostgresRepository {
  import opened Domain
  import opened Lifecycle
  import R = Repository
  import opened RepositoryInvariant
  import opened Rows
  import opened Constraints

  // ----- What an update does to the encoding

  lemma PairEncoded(s: R.Store, r: Record, a: Attempt)
    ensures Encode(WithPair(s, r, a))
         == Database(Encode(s).processing[r.processingId := RowOf(r)], Encode(s).attempts[a.attemptId := AttemptRowOf(a)])
  {
    hide RowOf, AttemptRowOf;
  }

  lemma AloneEncoded(s: R.Store, r: Record)
    ensures Encode(s.(records := s.records[r.processingId := r])) == Encode(s).(processing := Encode(s).processing[r.processingId := RowOf(r)])
  {
    hide RowOf, AttemptRowOf;
  }

  /** Rows of a store in lockstep pass their CHECKs. */
  lemma PairChecks(s: R.Store, r: Record, a: Attempt)
    requires R.Lockstep(WithPair(s, r, a))
    ensures RowChecks(RowOf(r)) && AttemptRowChecks(AttemptRowOf(a))
  {
    hide R.Lockstep, RowChecks, AttemptRowChecks, RowOf, AttemptRowOf;
    var t := WithPair(s, r, a);
    EncodedDatabaseOk(t);
    assert Encode(t).processing[r.processingId] == RowOf(r);
    assert Encode(t).attempts[a.attemptId] == AttemptRowOf(a);
  }

  lemma AloneChecks(s: R.Store, r: Record)
    requires R.Lockstep(s.(records := s.records[r.processingId := r]))
    ensures RowChecks(RowOf(r))
  {
    hide R.Lockstep, RowChecks, AttemptRowChecks, RowOf, AttemptRowOf;
    var t := s.(records := s.records[r.processingId := r]);
    EncodedDatabaseOk(t);
    assert Encode(t).processing[r.processingId] == RowOf(r);
  }

  /** Reading back a row of a store in lockstep. */
  lemma ReadBack(s: R.Store, pid: nat)
    requires R.Lockstep(s) && pid in s.records
    ensures DeserializeProcessing(Encode(s).processing[pid]) == R.Returned(Public(s.records[pid]))
  {
    hide R.Lockstep, RowOf, DeserializeProcessing;
    SnapshotRoundTrip(s, pid);
  }

  lemma ReadBackAttempt(s: R.Store, aid: nat)
    requires R.Lockstep(s) && aid in s.attempts
    ensures DeserializeAttempt(Encode(s).attempts[aid]) == R.Returned(s.attempts[aid])
  {
    hide R.Lockstep, AttemptRowOf, DeserializeAttempt, AttemptConstructs, RecordConstructs, R.Paired;
    PairOf(s, aid);
    AttemptRoundTrip(s.attempts[aid]);
  }

  /** The reply a caller of the other repository gets, with completed records in public form. */
  function PublicReply(reply: R.Reply<Option<Record>>): R.Reply<Option<Record>> {
    if reply.Returned? && reply.value.Some? then R.Returned(Some(Public(reply.value.value))) else reply
  }

  function OptionReply<T>(reply: R.Reply<T>): R.Reply<Option<T>> {
    if reply.Returned? then R.Returned(Some(reply.value)) else R.Raised
  }

  // ----- Row updates are record updates

  lemma ClaimRows(r: Record, a: Attempt, now: int)
    ensures AttemptRowOf(a).(state := "submitting", startedAt := Some(now)) == AttemptRowOf(R.ClaimedAttempt(a, now))
    ensures RowOf(r).(state := "submitting", updatedAt := now) == RowOf(r.(state := Submitting, updatedAt := now))
  {
    hide EncodeEntities, EncodeEvidence, EncodeStrings, SeverityText, OutcomeText;
  }

  lemma MarkRows(r: Record, a: Attempt, id: string, now: int)
    ensures AttemptRowOf(a).(state := "submitted", externalOperationId := Some(id), submittedAt := Some(now))
         == AttemptRowOf(R.SubmittedAttempt(a, id, now))
    ensures RowOf(r).(state := "submitted", updatedAt := now) == RowOf(r.(state := Submitted, updatedAt := now))
  {
    hide EncodeEntities, EncodeEvidence, EncodeStrings, SeverityText, OutcomeText;
  }

  function Category(e: Option<ErrorInfo>): Option<string> {
    MapOption(e, (e: ErrorInfo) => e.category)
  }

  function Detail(e: Option<ErrorInfo>): Option<string> {
    MapOption(e, (e: ErrorInfo) => e.detail)
  }

  lemma PollRows(r: Record, a: Attempt, remote: string, e: Option<ErrorInfo>, now: int)
    ensures AttemptRowOf(a).(lastPolledAt := Some(now), lastRemoteState := Some(remote), errorCategory := Category(e), errorDetail := Detail(e))
         == AttemptRowOf(R.PolledAttempt(a, remote, e, now))
    ensures RowOf(r).(updatedAt := now, errorCategory := Category(e), errorDetail := Detail(e)) == RowOf(r.(updatedAt := now, error := e))
  {
    hide EncodeEntities, EncodeEvidence, EncodeStrings, SeverityText, OutcomeText, StateText;
  }

  lemma RecoveryRows(r: Record, a: Attempt, e: ErrorInfo, now: int)
    ensures AttemptRowOf(a).(state := "recovery_required", errorCategory := Some(e.category), errorDetail := Some(e.detail))
         == AttemptRowOf(R.RecoveryAttempt(a, e))
    ensures RowOf(r).(state := "recovery_required", updatedAt := now, errorCategory := Some(e.category), errorDetail := Some(e.detail))
         == RowOf(R.RecoveryRecord(r, e, now))
  {
    hide EncodeEntities, EncodeEvidence, EncodeStrings, SeverityText, OutcomeText;
  }

  lemma FailRows(r: Record, a: Attempt, e: ErrorInfo, now: int)
    ensures AttemptRowOf(a).(state := "failed", failedAt := Some(now), errorCategory := Some(e.category), errorDetail := Some(e.detail))
         == AttemptRowOf(R.FailedAttempt(a, e, now))
    ensures RowOf(r).(state := "failed", updatedAt := now, failedAt := Some(now), errorCategory := Some(e.category), errorDetail := Some(e.detail))
         == RowOf(R.FailedRecord(r, e, now))
  {
    hide EncodeEntities, EncodeEvidence, EncodeStrings, SeverityText, OutcomeText;
  }

  function CompletedRow(row: Row, v: InvestigationResult, now: int): Row {
    row.(state := "completed", updatedAt := now, completedAt := Some(now),
         resultBackend := Some(v.backend), resultCompletedCapabilities := Some(EncodeStrings(v.completedCapabilities)),
         resultEvidence := Some(EncodeEvidence(v.evidence)), errorCategory := None, errorDetail := None)
  }

  lemma CompleteRows(r: Record, a: Attempt, result: OrchestrationResult, now: int)
    requires r.completedResult.None? && R.InvestigationFrom(r, result)
    ensures AttemptRowOf(a).(state := "completed", completedAt := Some(now), lastPolledAt := Some(now),
                             lastRemoteState := Some("succeeded"), errorCategory := None, errorDetail := None)
         == AttemptRowOf(R.CompletedAttempt(a, now))
    ensures CompletedRow(RowOf(r), result.investigation.value, now) == RowOf(R.CompletedRecord(r, result, now))
  {
    hide EncodeEntities, EncodeEvidence, EncodeStrings, SeverityText, OutcomeText, InvestigationValid;
  }

  function NoActionRow(row: Row, d: Decision, now: int): Row {
    row.(state := "completed", updatedAt := now, completedAt := Some(now),
         decisionOutcome := Some("no_action"), policyId := Some(d.policyId), decisionReasons := Some(EncodeStrings(d.reasons)))
  }

  lemma NoActionRows(r: Record, result: OrchestrationResult, now: int)
    requires R.NoPlan(r) && r.completedResult.None? && ResultValid(result) && result.decision.outcome == NoAction
    ensures NoActionRow(RowOf(r), result.decision, now) == RowOf(R.CompletedNoAction(r, result, now))
  {
    hide EncodeEntities, EncodeEvidence, EncodeStrings, SeverityText;
  }

  function PlannedRow(row: Row, plan: R.Plan, now: int): Row {
    row.(state := "planned", updatedAt := now, selectedBackend := Some(plan.backend),
         decisionOutcome := Some("investigate"), policyId := Some(plan.decision.policyId),
         decisionReasons := Some(EncodeStrings(plan.decision.reasons)),
         requestDesiredOutcome := Some(plan.request.desiredOutcome),
         requestCapabilities := Some(EncodeStrings(plan.request.requiredCapabilities)),
         requestTargets := Some(EncodeEntities(plan.request.targets)))
  }

  function InsertedAttempt(aid: nat, pid: nat, operationKey: nat, backend: string, now: int): AttemptRow {
    AttemptRow(aid, pid, 1, operationKey, backend, "planned", None, now, None, None, None, None, None, None, None, None)
  }

  lemma PlanRows(r: Record, plan: R.Plan, aid: nat, key: nat, now: int)
    requires r.completedResult.None? && plan.decision.outcome == Investigate
    ensures PlannedRow(RowOf(r), plan, now) == RowOf(R.PlannedRecord(r, plan, now))
    ensures InsertedAttempt(aid, r.processingId, key, plan.backend, now) == AttemptRowOf(R.NewAttempt(aid, r.processingId, key, plan.backend, now))
  {
    hide EncodeEntities, EncodeEvidence, EncodeStrings, SeverityText;
  }

  /** A `state = '...'` condition on an encoded row tests the state it encodes. */
  lemma StateTexts()
    ensures forall a, b :: StateText(a) == StateText(b) ==> a == b
    ensures StateText(Accepted) == "accepted" && StateText(Planned) == "planned" && StateText(Submitting) == "submitting"
    ensures StateText(Submitted) == "submitted" && StateText(RecoveryRequired) == "recovery_required"
  {
    forall a, b | StateText(a) == StateText(b) ensures a == b {
      ParseOne(a);
      ParseOne(b);
    }
  }

  lemma AttemptStateColumn(a: Attempt)
    ensures AttemptRowOf(a).state == StateText(SameName(a.state)) && AttemptRowOf(a).processingId == a.processingId
  {
  }

  lemma RecordStateColumn(r: Record)
    ensures RowOf(r).state == StateText(r.state) && RowOf(r).updatedAt == r.updatedAt && RowOf(r).id == r.processingId
  {
  }

  /** What a transaction that starts from an attempt finds: the two rows, encoding a pair
      whose states agree. */
  lemma FoundPair(s: R.Store, aid: nat)
    requires R.Lockstep(s) && aid in s.attempts
    ensures var a := s.attempts[aid]; var row := Encode(s).attempts[aid];
            && row == AttemptRowOf(a) && a.attemptId == aid
            && row.state == StateText(SameName(a.state)) && row.processingId == a.processingId
            && a.processingId in s.records && s.records[a.processingId].processingId == a.processingId
            && s.records[a.processingId].state == SameName(a.state)
            && Encode(s).processing[a.processingId] == RowOf(s.records[a.processingId])
            && RowOf(s.records[a.processingId]).state == StateText(SameName(a.state))
            && R.Paired(s.records[a.processingId], Some(a))
            && RecordConstructs(s.records[a.processingId])
  {
    hide R.Lockstep, RecordConstructs, AttemptConstructs, R.Matches, R.Tidy, R.AttemptTidy, RowOf, AttemptRowOf;
    PairOf(s, aid);
    AttemptStateColumn(s.attempts[aid]);
    RecordStateColumn(s.records[s.attempts[aid].processingId]);
  }

  /** Writing both rows of a pair: the CHECKs pass and the tables stand for the new store. */
  lemma PairCommitted(s: R.Store, r: Record, a: Attempt)
    requires R.Lockstep(WithPair(s, r, a))
    ensures RowChecks(RowOf(r)) && AttemptRowChecks(AttemptRowOf(a))
    ensures Encode(WithPair(s, r, a))
         == Database(Encode(s).processing[r.processingId := RowOf(r)], Encode(s).attempts[a.attemptId := AttemptRowOf(a)])
    ensures DeserializeProcessing(RowOf(r)) == R.Returned(Public(r)) && DeserializeAttempt(AttemptRowOf(a)) == R.Returned(a)
  {
    hide R.Lockstep, RowChecks, AttemptRowChecks, RowOf, AttemptRowOf, DeserializeProcessing, DeserializeAttempt;
    var t := WithPair(s, r, a);
    PairChecks(s, r, a);
    PairEncoded(s, r, a);
    ReadBack(t, r.processingId);
    ReadBackAttempt(t, a.attemptId);
  }

  lemma AloneCommitted(s: R.Store, r: Record)
    requires R.Lockstep(s.(records := s.records[r.processingId := r]))
    ensures RowChecks(RowOf(r)) && DeserializeProcessing(RowOf(r)) == R.Returned(Public(r))
    ensures Encode(s.(records := s.records[r.processingId := r])) == Encode(s).(processing := Encode(s).processing[r.processingId := RowOf(r)])
  {
    hide R.Lockstep, RowChecks, RowOf, DeserializeProcessing;
    AloneChecks(s, r);
    AloneEncoded(s, r);
    ReadBack(s.(records := s.records[r.processingId := r]), r.processingId);
  }

  /** `state = ANY(%(states)s)`. */
  predicate StateIn(text: string, expected: set<ProcessingState>) {
    exists st :: st in expected && StateText(st) == text
  }

  predicate AttemptStateIn(text: string, expected: set<AttemptState>) {
    exists st :: st in expected && AttemptStateText(st) == text
  }

  predicate ActiveText(text: string) {
    text in {"planned", "submitting", "submitted", "recovery_required"}
  }

  /** The one case where the two repositories answer differently: the attempt is active but
      the record is in none of the expected states. */
  predicate FailDiverges(s: R.Store, pid: nat, expected: set<ProcessingState>, aid: Option<nat>) {
    && aid.Some? && aid.value in s.attempts && s.attempts[aid.value].processingId == pid
    && ActiveAttempt(s.attempts[aid.value].state) && pid in s.records && s.records[pid].state !in expected
  }

  lemma RecordId(s: R.Store, pid: nat)
    requires R.Lockstep(s) && pid in s.records
    ensures s.records[pid].processingId == pid
  {
    hide R.Lockstep, RecordConstructs, R.Paired, R.Tidy;
    Pairing(s, pid);
  }

  lemma FailRow(r: Record, e: ErrorInfo, now: int)
    ensures RowOf(r).(state := "failed", updatedAt := now, failedAt := Some(now), errorCategory := Some(e.category), errorDetail := Some(e.detail))
         == RowOf(R.FailedRecord(r, e, now))
  {
    hide EncodeEntities, EncodeEvidence, EncodeStrings, SeverityText, OutcomeText;
  }

  lemma HasInvestigation(r: Record, result: OrchestrationResult)
    requires R.InvestigationFrom(r, result)
    ensures result.investigation.Some?
  {
  }

  /** The completed pair of a submitted attempt. */
  lemma Completing(s: R.Store, aid: nat, result: OrchestrationResult, now: int)
    requires R.Lockstep(s) && R.ClockOk(s, now) && aid in s.attempts && s.attempts[aid].state == ASubmitted
    requires result.decision.outcome == Investigate && s.attempts[aid].processingId in s.records
    requires R.InvestigationFrom(s.records[s.attempts[aid].processingId], result)
    ensures result.investigation.Some?
    ensures var a := s.attempts[aid]; var r := s.records[a.processingId];
            && AttemptRowOf(a).(state := "completed", completedAt := Some(now), lastPolledAt := Some(now),
                                lastRemoteState := Some("succeeded"), errorCategory := None, errorDetail := None)
               == AttemptRowOf(R.CompletedAttempt(a, now))
            && CompletedRow(RowOf(r), result.investigation.value, now) == RowOf(R.CompletedRecord(r, result, now))
            && RowChecks(RowOf(R.CompletedRecord(r, result, now))) && AttemptRowChecks(AttemptRowOf(R.CompletedAttempt(a, now)))
            && DeserializeProcessing(RowOf(R.CompletedRecord(r, result, now))) == R.Returned(Public(R.CompletedRecord(r, result, now)))
            && R.CompleteProcessing(s, aid, result, now).0 == WithPair(s, R.CompletedRecord(r, result, now), R.CompletedAttempt(a, now))
            && R.CompleteProcessing(s, aid, result, now).1 == R.Returned(Some(R.CompletedRecord(r, result, now)))
            && Encode(WithPair(s, R.CompletedRecord(r, result, now), R.CompletedAttempt(a, now)))
               == Database(Encode(s).processing[r.processingId := RowOf(R.CompletedRecord(r, result, now))],
                           Encode(s).attempts[aid := AttemptRowOf(R.CompletedAttempt(a, now))])
  {
    hide R.Lockstep, DeserializeAttempt, DeserializeProcessing, RowOf, AttemptRowOf, RowChecks, AttemptRowChecks, R.Advances;
    hide R.InvestigationFrom, R.Matches, R.NoActionFrom, CompletedRow, AttemptConstructs;
    FoundPair(s, aid);
    CompleteKeeps(s, aid, result, now);
    var a := s.attempts[aid];
    var r := s.records[a.processingId];
    HasInvestigation(r, result);
    CompleteRows(r, a, result, now);
    PairCommitted(s, R.CompletedRecord(r, result, now), R.CompletedAttempt(a, now));
  }

  predicate OperationOpen(s: R.Store, aid: nat)
    ensures OperationOpen(s, aid) ==> aid in s.attempts && s.attempts[aid].processingId in s.records
  {
    aid in s.attempts && s.attempts[aid].state == ASubmitted && s.attempts[aid].processingId in s.records
  }

  /** The result as the columns hold it: with the decision, incident and request stored as the
      plan. */
  function ResultAdopted(s: R.Store, aid: nat, result: OrchestrationResult): OrchestrationResult {
    if !OperationOpen(s, aid) || result.decision.outcome != Investigate then result
    else
      var r := s.records[s.attempts[aid].processingId];
      if r.plannedDecision.None? then result
      else OrchestrationResult(r.plannedDecision.value, r.plannedIncident, r.plannedRequest, result.investigation)
  }

  lemma ResultHas(result: OrchestrationResult)
    requires ResultValid(result) && result.decision.outcome == Investigate
    ensures result.investigation.Some?
  {
  }

  lemma AdoptedResult(s: R.Store, aid: nat, result: OrchestrationResult)
    requires R.Lockstep(s) && OperationOpen(s, aid) && result.decision.outcome == Investigate && ResultValid(result)
    requires InvestigationValid(result.investigation.value)
    requires s.records[s.attempts[aid].processingId].selectedBackend == Some(result.investigation.value.backend)
    ensures var adopted := ResultAdopted(s, aid, result);
            && R.InvestigationFrom(s.records[s.attempts[aid].processingId], adopted)
            && adopted.decision.outcome == Investigate && adopted.investigation == result.investigation
  {
    hide R.Lockstep, InvestigationValid, RecordConstructs, AttemptConstructs, R.Tidy, R.AttemptTidy, RequestValid, DecisionValid;
    PairOf(s, aid);
  }

  lemma AdoptedCases(s: R.Store, aid: nat, result: OrchestrationResult, now: int)
    requires R.Lockstep(s)
    ensures OperationOpen(s, aid) <==> aid in s.attempts && s.attempts[aid].state == ASubmitted
    ensures result.decision.outcome != Investigate ==>
              ResultAdopted(s, aid, result) == result && R.CompleteProcessing(s, aid, result, now) == (s, R.Raised)
    ensures result.decision.outcome == Investigate && !OperationOpen(s, aid) ==>
              ResultAdopted(s, aid, result) == result && R.CompleteProcessing(s, aid, result, now) == (s, R.Returned(None))
  {
    hide R.Lockstep, RecordConstructs, AttemptConstructs, R.Tidy, R.AttemptTidy, R.Paired;
    if aid in s.attempts {
      PairOf(s, aid);
    }
  }

  /** The two repositories store the same completion exactly where the result carries the
      stored plan. */
  lemma CompleteAgrees(s: R.Store, aid: nat, result: OrchestrationResult, now: int)
    requires R.Lockstep(s) && R.ClockOk(s, now) && ResultValid(result) && (result.investigation.Some? ==> InvestigationValid(result.investigation.value))
    requires OperationOpen(s, aid) && result.investigation.Some? ==>
               s.records[s.attempts[aid].processingId].selectedBackend == Some(result.investigation.value.backend)
    ensures var adopted := ResultAdopted(s, aid, result);
            R.CompleteProcessing(s, aid, adopted, now).0 == R.CompleteProcessing(s, aid, result, now).0 <==> adopted == result
  {
    hide R.Lockstep, R.InvestigationFrom, R.CompleteProcessing, OperationOpen, InvestigationValid, RecordConstructs, AttemptConstructs;
    AdoptedCases(s, aid, result, now);
    var adopted := ResultAdopted(s, aid, result);
    if adopted != result {
      ResultHas(result);
      AdoptedResult(s, aid, result);
      CompletedAs(s, aid, result, now);
      CompletedAs(s, aid, adopted, now);
      CompleteKeeps(s, aid, adopted, now);
      OpenPair(s, aid);
    }
  }

  lemma OpenPair(s: R.Store, aid: nat)
    requires R.Lockstep(s) && OperationOpen(s, aid)
    ensures var pid := s.attempts[aid].processingId; pid in s.records && s.records[pid].state == Submitted && s.records[pid].processingId == pid
  {
    hide R.Lockstep, RecordConstructs, AttemptConstructs, R.Tidy, R.AttemptTidy, R.Matches;
    PairOf(s, aid);
  }

  /** The record of a completion shows the result given, or nothing was stored. */
  lemma CompletedAs(s: R.Store, aid: nat, result: OrchestrationResult, now: int)
    requires R.Lockstep(s) && OperationOpen(s, aid) && result.decision.outcome == Investigate
    ensures var (t, reply) := R.CompleteProcessing(s, aid, result, now);
            var pid := s.attempts[aid].processingId;
            if reply.Returned? && reply.value.Some? then pid in t.records && t.records[pid].completedResult == Some(result) && t.records[pid].state == Completed
            else t == s
  {
    hide R.Lockstep, RecordConstructs, AttemptConstructs;
    OpenPair(s, aid);
  }

  /** What failing with an attempt identifier does, by cases of the guards. */
  lemma FailCases(s: R.Store, pid: nat, expected: set<ProcessingState>, error: ErrorInfo, aid: nat, now: int)
    requires R.Lockstep(s)
    ensures aid !in s.attempts || s.attempts[aid].processingId != pid || !ActiveAttempt(s.attempts[aid].state)
            || pid !in s.records || s.records[pid].state !in expected ==>
              R.FailProcessing(s, pid, expected, error, Some(aid), now) == (s, R.Returned(None))
  {
    hide R.Lockstep;
  }

  lemma Failing(s: R.Store, pid: nat, expected: set<ProcessingState>, error: ErrorInfo, aid: nat, now: int)
    requires R.Lockstep(s) && R.ClockOk(s, now) && R.ErrorTextOk(Some(error)) && expected <= {Planned, Submitting, Submitted}
    requires aid in s.attempts && s.attempts[aid].processingId == pid
    ensures pid in s.records
    ensures s.records[pid].state in expected ==>
      var a := s.attempts[aid]; var r := s.records[pid];
      var r' := R.FailedRecord(r, error, now); var a' := R.FailedAttempt(a, error, now);
      && AttemptRowOf(a).(state := "failed", failedAt := Some(now), errorCategory := Some(error.category), errorDetail := Some(error.detail))
         == AttemptRowOf(a')
      && RowOf(r).(state := "failed", updatedAt := now, failedAt := Some(now), errorCategory := Some(error.category), errorDetail := Some(error.detail))
         == RowOf(r')
      && RowChecks(RowOf(r')) && AttemptRowChecks(AttemptRowOf(a'))
      && DeserializeProcessing(RowOf(r')) == R.Returned(r')
      && R.FailProcessing(s, pid, expected, error, Some(aid), now) == (WithPair(s, r', a'), R.Returned(Some(r')))
      && R.Lockstep(WithPair(s, r', a'))
      && Encode(WithPair(s, r', a')) == Database(Encode(s).processing[pid := RowOf(r')], Encode(s).attempts[aid := AttemptRowOf(a')])
  {
    hide R.Lockstep, DeserializeAttempt, DeserializeProcessing, RowOf, AttemptRowOf, RowChecks, AttemptRowChecks, R.Advances, R.Matches;
    FoundPair(s, aid);
    var a, r := s.attempts[aid], s.records[pid];
    if r.state in expected {
      FailAttemptKeeps(s, pid, r.state, error, aid, now);
      FailRows(r, a, error, now);
      FailedPair(s, pid, expected, error, aid, now);
      PairCommitted(s, R.FailedRecord(r, error, now), R.FailedAttempt(a, error, now));
    }
  }

  lemma FailedPair(s: R.Store, pid: nat, expected: set<ProcessingState>, error: ErrorInfo, aid: nat, now: int)
    requires R.Lockstep(s) && R.ClockOk(s, now) && R.ErrorTextOk(Some(error)) && expected <= {Planned, Submitting, Submitted}
    requires aid in s.attempts && s.attempts[aid].processingId == pid && pid in s.records && s.records[pid].state in expected
    ensures var r' := R.FailedRecord(s.records[pid], error, now); var a' := R.FailedAttempt(s.attempts[aid], error, now);
            && R.FailProcessing(s, pid, expected, error, Some(aid), now) == (WithPair(s, r', a'), R.Returned(Some(r')))
            && R.Lockstep(WithPair(s, r', a')) && Public(r') == r'
  {
    hide R.Lockstep, R.Advances, R.Matches, NonBlank, OperationIdOk;
    PairOf(s, aid);
    FailAttemptKeeps(s, pid, s.records[pid].state, error, aid, now);
  }

  // ----- Inserts

  lemma CompletingNoAction(s: R.Store, pid: nat, result: OrchestrationResult, now: int)
    requires R.Lockstep(s) && R.ClockOk(s, now) && pid in s.records && s.records[pid].state == Accepted
    requires R.NoActionFrom(s.records[pid], result)
    ensures var r := s.records[pid]; var q := R.CompletedNoAction(r, result, now);
            && NoActionRow(RowOf(r), result.decision, now) == RowOf(q)
            && r.processingId == pid
            && R.Lockstep(s.(records := s.records[q.processingId := q]))
            && R.StoreNoActionResult(s, pid, result, now) == (s.(records := s.records[q.processingId := q]), R.Returned(Some(q)))
  {
    hide R.Lockstep, R.Advances, RowOf, NoActionRow, NonBlank, DecisionValid;
    AcceptedAlone(s, pid);
    StoreNoActionKeeps(s, pid, result, now);
    ReadStates(s.records[pid]);
    NoActionRows(s.records[pid], result, now);
  }

  /** The result as the columns hold it: with the source of the stored alert. */
  function NoActionAdopted(s: R.Store, pid: nat, result: OrchestrationResult): OrchestrationResult {
    if pid in s.records then result.(decision := result.decision.(source := s.records[pid].alert.source)) else result
  }

  lemma AdoptedNoAction(s: R.Store, pid: nat, result: OrchestrationResult)
    requires pid in s.records && DecisionValid(result.decision) && ResultValid(result) && result.decision.outcome == NoAction
    ensures R.NoActionFrom(s.records[pid], NoActionAdopted(s, pid, result))
    ensures forall row, now :: NoActionRow(row, NoActionAdopted(s, pid, result).decision, now) == NoActionRow(row, result.decision, now)
  {
    hide NonBlank;
  }

  lemma NoActionCases(s: R.Store, pid: nat, result: OrchestrationResult, now: int)
    ensures result.decision.outcome != NoAction ==> R.StoreNoActionResult(s, pid, result, now) == (s, R.Raised)
    ensures result.decision.outcome == NoAction && (pid !in s.records || s.records[pid].state != Accepted) ==>
              R.StoreNoActionResult(s, pid, result, now) == (s, R.Returned(None))
  {
    hide RecordConstructs;
  }

  /** The two repositories agree on a no-action result exactly where its decision has the
      source of the stored alert, or nothing is stored. */
  lemma NoActionAgrees(s: R.Store, pid: nat, result: OrchestrationResult, now: int)
    requires R.Lockstep(s) && R.ClockOk(s, now) && DecisionValid(result.decision) && ResultValid(result) && result.decision.outcome == NoAction
    ensures R.StoreNoActionResult(s, pid, NoActionAdopted(s, pid, result), now) == R.StoreNoActionResult(s, pid, result, now) <==>
            pid in s.records && s.records[pid].state == Accepted ==> result.decision.source == s.records[pid].alert.source
  {
    hide R.Lockstep, R.NoActionFrom, DecisionValid;
    NoActionCases(s, pid, result, now);
    NoActionCases(s, pid, NoActionAdopted(s, pid, result), now);
    if pid in s.records && s.records[pid].state == Accepted && result.decision.source != s.records[pid].alert.source {
      AdoptedNoAction(s, pid, result);
      CompletingNoAction(s, pid, NoActionAdopted(s, pid, result), now);
    }
  }

  lemma ReadStates(r: Record)
    requires RecordConstructs(r) && r.state == Accepted
    ensures R.NoPlan(r) && r.completedResult.None?
  {
  }

  lemma NotAPlan(s: R.Store, pid: nat, plan: R.Plan, aid: nat, operationKey: nat, now: int)
    requires plan.decision.outcome != Investigate
    ensures R.StorePlan(s, pid, plan, aid, operationKey, now) == (s, R.Raised)
  {
  }

  lemma PlanCases(s: R.Store, pid: nat, plan: R.Plan, aid: nat, operationKey: nat, now: int)
    requires plan.decision.outcome == Investigate
    ensures pid !in s.records || s.records[pid].state != Accepted ==>
              R.StorePlan(s, pid, plan, aid, operationKey, now) == (s, R.Returned(None))
  {
  }

  /** Committing a plan: both rows pass their CHECKs and the tables stand for the new store. */
  lemma PlanCommitted(s: R.Store, r: Record, a: Attempt)
    requires R.Lockstep(WithPlan(s, r, a))
    ensures RowChecks(RowOf(r)) && AttemptRowChecks(AttemptRowOf(a))
    ensures Encode(WithPlan(s, r, a))
         == Database(Encode(s).processing[r.processingId := RowOf(r)], Encode(s).attempts[a.attemptId := AttemptRowOf(a)])
    ensures DeserializeProcessing(RowOf(r)) == R.Returned(Public(r)) && DeserializeAttempt(AttemptRowOf(a)) == R.Returned(a)
  {
    hide R.Lockstep, RowChecks, AttemptRowChecks, RowOf, AttemptRowOf, DeserializeProcessing, DeserializeAttempt;
    var t := WithPlan(s, r, a);
    EncodedDatabaseOk(t);
    assert Encode(t).processing[r.processingId] == RowOf(r);
    assert Encode(t).attempts[a.attemptId] == AttemptRowOf(a);
    ReadBack(t, r.processingId);
    ReadBackAttempt(t, a.attemptId);
  }

  /** With no key taken the plan is stored in both; with a key taken both raise. */
  lemma Planning(s: R.Store, pid: nat, plan: R.Plan, aid: nat, operationKey: nat, now: int)
    requires R.Lockstep(s) && R.ClockOk(s, now) && pid in s.records && s.records[pid].state == Accepted
    requires PlanCoherent(s.records[pid].alert, plan.decision, plan.incident, plan.request) && NonBlank(plan.backend)
    requires plan.decision.outcome == Investigate
    ensures KeyTaken(s, aid, operationKey) ==> R.StorePlan(s, pid, plan, aid, operationKey, now) == (s, R.Raised)
    ensures forall a :: a in s.attempts ==> s.attempts[a].processingId != pid
    ensures KeyTaken(s, aid, operationKey) <==> aid in s.attempts || exists a :: a in s.attempts && s.attempts[a].operationKey == operationKey
    ensures !KeyTaken(s, aid, operationKey) ==>
      var r := R.PlannedRecord(s.records[pid], plan, now);
      var a := R.NewAttempt(aid, pid, operationKey, plan.backend, now);
      && R.StorePlan(s, pid, plan, aid, operationKey, now) == (WithPlan(s, r, a), R.Returned(Some(R.PlannedPair(r, a))))
      && PlannedRow(RowOf(s.records[pid]), plan, now) == RowOf(r)
      && InsertedAttempt(aid, pid, operationKey, plan.backend, now) == AttemptRowOf(a)
      && RowChecks(RowOf(r)) && AttemptRowChecks(AttemptRowOf(a))
      && Encode(WithPlan(s, r, a)) == Database(Encode(s).processing[pid := RowOf(r)], Encode(s).attempts[aid := AttemptRowOf(a)])
      && DeserializeProcessing(RowOf(r)) == R.Returned(r) && DeserializeAttempt(AttemptRowOf(a)) == R.Returned(a)
      && R.Lockstep(WithPlan(s, r, a))
  {
    hide R.Lockstep, RowChecks, AttemptRowChecks, RowOf, AttemptRowOf, DeserializeProcessing, DeserializeAttempt, R.StorePlan, PlanCoherent, PlannedRow, InsertedAttempt;
    PlanKeys(s, pid, aid, operationKey);
    PlanStored(s, pid, plan, aid, operationKey, now);
    if !KeyTaken(s, aid, operationKey) {
      var r := R.PlannedRecord(s.records[pid], plan, now);
      var a := R.NewAttempt(aid, pid, operationKey, plan.backend, now);
      PlanCommitted(s, r, a);
      PlanRowsOf(s, pid, plan, aid, operationKey, now);
    }
  }

  predicate KeyTaken(s: R.Store, aid: nat, operationKey: nat) {
    aid in s.attempts || operationKey in s.operationKeys
  }

  lemma PlanKeys(s: R.Store, pid: nat, aid: nat, operationKey: nat)
    requires R.Lockstep(s) && pid in s.records && s.records[pid].state == Accepted
    ensures forall a :: a in s.attempts ==> s.attempts[a].processingId != pid
    ensures KeyTaken(s, aid, operationKey) <==> aid in s.attempts || exists a :: a in s.attempts && s.attempts[a].operationKey == operationKey
  {
    hide RecordConstructs, AttemptConstructs, R.RecordOk, R.AttemptTidy, R.Tidy;
    AcceptedAlone(s, pid);
    forall a | a in s.attempts ensures s.attempts[a].processingId != pid && s.attempts[a].operationKey in s.operationKeys {
      assert R.AttemptOk(s, a);
    }
  }

  lemma PlanStored(s: R.Store, pid: nat, plan: R.Plan, aid: nat, operationKey: nat, now: int)
    requires R.Lockstep(s) && R.ClockOk(s, now) && pid in s.records && s.records[pid].state == Accepted
    requires PlanCoherent(s.records[pid].alert, plan.decision, plan.incident, plan.request) && NonBlank(plan.backend)
    ensures s.records[pid].processingId == pid && s.records[pid].completedResult.None?
    ensures KeyTaken(s, aid, operationKey) ==> R.StorePlan(s, pid, plan, aid, operationKey, now) == (s, R.Raised)
    ensures !KeyTaken(s, aid, operationKey) ==>
      var r := R.PlannedRecord(s.records[pid], plan, now);
      var a := R.NewAttempt(aid, pid, operationKey, plan.backend, now);
      && R.StorePlan(s, pid, plan, aid, operationKey, now) == (WithPlan(s, r, a), R.Returned(Some(R.PlannedPair(r, a))))
      && R.Lockstep(WithPlan(s, r, a))
  {
    hide R.Lockstep, R.Advances, NonBlank, DecisionValid, RequestValid;
    AcceptedAlone(s, pid);
    StorePlanKeeps(s, pid, plan, aid, operationKey, now);
  }

  lemma PlanRowsOf(s: R.Store, pid: nat, plan: R.Plan, aid: nat, operationKey: nat, now: int)
    requires pid in s.records && s.records[pid].processingId == pid && s.records[pid].completedResult.None?
    requires plan.decision.outcome == Investigate
    ensures PlannedRow(RowOf(s.records[pid]), plan, now) == RowOf(R.PlannedRecord(s.records[pid], plan, now))
    ensures InsertedAttempt(aid, pid, operationKey, plan.backend, now) == AttemptRowOf(R.NewAttempt(aid, pid, operationKey, plan.backend, now))
    ensures Public(R.PlannedRecord(s.records[pid], plan, now)) == R.PlannedRecord(s.records[pid], plan, now)
  {
    hide RowOf, AttemptRowOf, PlannedRow, InsertedAttempt;
    PlanRows(s.records[pid], plan, aid, operationKey, now);
  }

  /** A name the CHECKs accept and the constructor of an attempt refuses: spaces only, but not
      only those PostgreSQL counts as such. */
  predicate UnicodeBlank(backend: string) {
    !NonBlank(backend) && !PgBlank(backend)
  }

  /** Nothing but the backend's name stands in the way of this plan. */
  predicate Plannable(s: R.Store, pid: nat, plan: R.Plan, aid: nat, operationKey: nat) {
    plan.decision.outcome == Investigate && pid in s.records && s.records[pid].state == Accepted && !KeyTaken(s, aid, operationKey)
  }

  /** What a plan for a backend with a blank name meets: the in-memory repository raises; the
      rows pass their CHECKs unless PostgreSQL sees the blank, and do not read back. */
  lemma BlankBackend(s: R.Store, pid: nat, plan: R.Plan, aid: nat, operationKey: nat, now: int)
    requires R.Lockstep(s) && R.ClockOk(s, now) && pid in s.records && s.records[pid].state == Accepted
    requires PlanCoherent(s.records[pid].alert, plan.decision, plan.incident, plan.request) && !NonBlank(plan.backend)
    ensures R.StorePlan(s, pid, plan, aid, operationKey, now) == (s, R.Raised)
    ensures PgBlank(plan.backend) ==> !RowChecks(PlannedRow(RowOf(s.records[pid]), plan, now))
    ensures UnicodeBlank(plan.backend) && !KeyTaken(s, aid, operationKey) ==>
              RowChecks(PlannedRow(RowOf(s.records[pid]), plan, now)) && AttemptRowChecks(InsertedAttempt(aid, pid, operationKey, plan.backend, now))
    ensures DeserializeAttempt(InsertedAttempt(aid, pid, operationKey, plan.backend, now)).Raised?
  {
    BlankRaises(s, pid, plan, aid, operationKey, now);
    BlankRow(RowOf(s.records[pid]), plan, now);
    BlankAttempt(aid, pid, operationKey, plan.backend, now);
    if UnicodeBlank(plan.backend) && !KeyTaken(s, aid, operationKey) {
      var named := plan.(backend := "x");
      StartsNonBlank("x");
      hide RowChecks, AttemptRowChecks, RowOf, R.Lockstep, DeserializeAttempt, DeserializeProcessing, R.StorePlan, PlanCoherent;
      Planning(s, pid, named, aid, operationKey, now);
      BackendReplaced(PlannedRow(RowOf(s.records[pid]), named, now), plan.backend);
      AttemptBackendReplaced(InsertedAttempt(aid, pid, operationKey, "x", now), plan.backend);
    }
  }

  lemma BlankRaises(s: R.Store, pid: nat, plan: R.Plan, aid: nat, operationKey: nat, now: int)
    requires R.Lockstep(s) && pid in s.records && s.records[pid].state == Accepted
    requires plan.decision.outcome == Investigate && !NonBlank(plan.backend)
    ensures R.StorePlan(s, pid, plan, aid, operationKey, now) == (s, R.Raised)
  {
    hide R.Lockstep, RecordConstructs, NonBlank;
    AcceptedAlone(s, pid);
  }

  lemma BlankRow(row: Row, plan: R.Plan, now: int)
    ensures PgBlank(plan.backend) ==> !RowChecks(PlannedRow(row, plan, now))
  {
    hide SnapshotChecks, IdentityChecks, LifecycleChecks, PgBlank, EncodeStrings, EncodeEntities;
  }

  lemma BlankAttempt(aid: nat, pid: nat, operationKey: nat, backend: string, now: int)
    requires !NonBlank(backend)
    ensures DeserializeAttempt(InsertedAttempt(aid, pid, operationKey, backend, now)).Raised?
  {
    hide NonBlank;
  }

  lemma BackendReplaced(row: Row, backend: string)
    requires RowChecks(row) && row.state == "planned" && !PgBlank(backend)
    ensures RowChecks(row.(selectedBackend := Some(backend)))
  {
    hide PgBlank, R.VisibleKey;
  }

  lemma AttemptBackendReplaced(row: AttemptRow, backend: string)
    requires AttemptRowChecks(row) && !PgBlank(backend)
    ensures AttemptRowChecks(row.(backend := backend))
  {
    hide PgBlank;
  }

  lemma InsertedColumns(aid: nat, pid: nat, operationKey: nat, backend: string, now: int)
    ensures var row := InsertedAttempt(aid, pid, operationKey, backend, now);
            row.attemptId == aid && row.processingId == pid && row.operationKey == operationKey
  {
  }

  /** `_INSERT_ACCEPT_SQL`. */
  function InsertedRow(pid: nat, alert: Alert, identity: Identity, now: int): Row {
    Row(pid, now, now, 1, alert.detection.identifier, alert.detection.name, alert.detectedAt,
        alert.source.source, alert.source.sourceAlertId, SeverityText(alert.severity),
        EncodeEntities(alert.entities), EncodeEvidence(alert.evidence),
        Some(identity.scope), Some(identity.key), Some(identity.version), Some(identity.fingerprint),
        "accepted", None, None, None, None, None, None, None, None, None, None, None, None, None, None)
  }

  /** The CHECKs refuse a new row exactly where the in-memory repository validates. */
  lemma NewRowChecks(pid: nat, alert: Alert, identity: Identity, now: int)
    requires AlertValid(alert) && IdentityValid(identity)
    ensures InsertedRow(pid, alert, identity, now) == RowOf(R.NewRecord(pid, alert, identity, now))
    ensures RowChecks(InsertedRow(pid, alert, identity, now)) <==> identity.scope == alert.source.source && R.VisibleKey(identity.key)
    ensures RecordConstructs(R.NewRecord(pid, alert, identity, now))
  {
    hide NonBlank, PgBlank, EntitiesValid, EvidencesValid, EncodeEntities, EncodeEvidence, SeverityText, R.VisibleKey, SnapshotChecks;
    SnapshotColumns(R.NewRecord(pid, alert, identity, now));
  }

  function PublicAcceptance(reply: R.Reply<R.Acceptance>): R.Reply<R.Acceptance> {
    if reply.Returned? then R.Returned(reply.value.(record := Public(reply.value.record))) else reply
  }

  /** The rows carrying a scoped key are the one the index names. */
  lemma KeyRows(s: R.Store, identity: Identity)
    requires R.Lockstep(s)
    ensures forall p :: p in s.records ==>
      (RowOf(s.records[p]).idempotencyScope == Some(identity.scope) && RowOf(s.records[p]).idempotencyKey == Some(identity.key)
       <==> (identity.scope, identity.key) in s.idempotency && s.idempotency[(identity.scope, identity.key)] == p)
    ensures (identity.scope, identity.key) in s.idempotency ==> s.idempotency[(identity.scope, identity.key)] in s.records
  {
    hide R.Lockstep, EncodeEntities, EncodeEvidence, EncodeStrings;
    if (identity.scope, identity.key) in s.idempotency {
      Indexed(s, identity.scope, identity.key);
    }
    forall p | p in s.records
      ensures RowOf(s.records[p]).idempotencyScope == Some(identity.scope) && RowOf(s.records[p]).idempotencyKey == Some(identity.key)
         <==> (identity.scope, identity.key) in s.idempotency && s.idempotency[(identity.scope, identity.key)] == p
    {
      IndexedKey(s, p);
    }
  }

  lemma IndexedKey(s: R.Store, p: nat)
    requires R.Lockstep(s) && p in s.records
    ensures s.records[p].identity.Some?
    ensures var k := (s.records[p].identity.value.scope, s.records[p].identity.value.key);
            k in s.idempotency && s.idempotency[k] == p
  {
    hide R.IndexesOk, R.AttemptOk, R.Tidy, R.VisibleKey, AlertValid, R.AttemptOf, R.Paired, RecordConstructs;
    assert R.RecordOk(s, p);
  }

  /** A new record: the row goes in, and comes back. */
  lemma Accepting(s: R.Store, pid: nat, alert: Alert, identity: Identity, now: int)
    requires R.Lockstep(s) && AlertValid(alert) && IdentityValid(identity)
    requires identity.scope == alert.source.source && R.VisibleKey(identity.key)
    requires pid !in s.records && (identity.scope, identity.key) !in s.idempotency
    ensures var r := R.NewRecord(pid, alert, identity, now);
            && R.AcceptProcessing(s, pid, alert, identity, now) == (WithRecord(s, r), R.Returned(R.Acceptance(r, true)))
            && R.Lockstep(WithRecord(s, r))
            && Encode(WithRecord(s, r)) == Encode(s).(processing := Encode(s).processing[pid := RowOf(r)])
            && DeserializeProcessing(RowOf(r)) == R.Returned(r)
  {
    hide R.Lockstep, R.Advances, AlertValid, R.VisibleKey, RowOf, DeserializeProcessing;
    var r := R.NewRecord(pid, alert, identity, now);
    AcceptKeeps(s, pid, alert, identity, now);
    assert R.AcceptProcessing(s, pid, alert, identity, now) == (WithRecord(s, r), R.Returned(R.Acceptance(r, true)));
    ReadBack(WithRecord(s, r), pid);
    assert Encode(WithRecord(s, r)).processing[pid] == RowOf(r);
  }

  // ----- Selects

  /** The rows of a processing's attempts: none, or the one the index names. */
  lemma AttemptRows(s: R.Store, pid: nat)
    requires R.Lockstep(s)
    ensures forall a :: a in s.attempts ==>
      (AttemptRowOf(s.attempts[a]).processingId == pid <==> pid in s.attemptOf && s.attemptOf[pid] == a)
    ensures pid in s.attemptOf ==> s.attemptOf[pid] in s.attempts
  {
    hide R.RecordOk, AttemptConstructs, R.KeyIndexOk, R.OperationKeysOk, AttemptStateText;
    forall a | a in s.attempts
      ensures AttemptRowOf(s.attempts[a]).processingId == pid <==> pid in s.attemptOf && s.attemptOf[pid] == a
    {
      assert R.AttemptOk(s, a);
    }
  }

  lemma AttemptTimes(a: Attempt)
    ensures AttemptRowOf(a).startedAt == a.startedAt
  {
  }

  predicate RowBefore(r: Row, q: Row) {
    r.updatedAt < q.updatedAt || (r.updatedAt == q.updatedAt && r.id < q.id)
  }

  lemma RowOrder(s: R.Store, p: nat, q: nat)
    requires p in s.records && q in s.records
    ensures RowBefore(RowOf(s.records[p]), RowOf(s.records[q])) <==> R.Before(s.records[p], s.records[q])
  {
    hide RowOf;
    RecordStateColumn(s.records[p]);
    RecordStateColumn(s.records[q]);
  }

  lemma BeforeTotal(r: Record, q: Record)
    requires r.processingId != q.processingId
    ensures R.Before(r, q) || R.Before(q, r)
  {
  }

  lemma BeforeTransitive(r: Record, q: Record, p: Record)
    requires R.Before(r, q) && R.Before(q, p)
    ensures R.Before(r, p)
  {
  }

  predicate FirstIn(records: map<nat, Record>, rest: set<nat>, p: nat)
    requires rest <= records.Keys
  {
    p in rest && forall q :: q in rest && q != p ==> R.Before(records[p], records[q])
  }

  /** A nonempty set of records has a first one. */
  lemma {:induction false} LeastRecord(records: map<nat, Record>, rest: set<nat>) returns (p: nat)
    requires rest <= records.Keys && rest != {} && forall q :: q in rest ==> records[q].processingId == q
    ensures FirstIn(records, rest, p)
    decreases |rest|
  {
    hide R.Before;
    var x :| x in rest;
    var others := rest - {x};
    assert forall q :: q in rest ==> q == x || q in others;
    if others == {} {
      p := x;
    } else {
      var first := LeastRecord(records, others);
      BeforeTotal(records[x], records[first]);
      p := if R.Before(records[x], records[first]) then x else first;
      forall q | q in rest && q != p ensures R.Before(records[p], records[q]) {
        if p == x && q != first {
          BeforeTransitive(records[x], records[first], records[q]);
        }
      }
    }
  }

  lemma LeastRow(s: R.Store, rest: set<nat>)
    requires R.Lockstep(s) && rest <= s.records.Keys && rest != {}
    ensures exists p :: p in rest && forall q :: q in rest ==> q == p || RowBefore(Encode(s).processing[p], Encode(s).processing[q])
  {
    hide R.Lockstep, RowOf, RowBefore, R.Before;
    forall p | p in rest ensures s.records[p].processingId == p { RecordId(s, p); }
    var p := LeastRecord(s.records, rest);
    forall q | q in rest && q != p ensures RowBefore(Encode(s).processing[p], Encode(s).processing[q]) {
      RowOrder(s, p, q);
    }
  }

  /** Part of the work list is built: `out` is in order, and everything left comes later. */
  ghost predicate PartialList(s: R.Store, staleBefore: int, rest: set<nat>, out: seq<Record>) {
    && R.SortedRecords(out)
    && (forall q :: q in rest ==> q in s.records && R.Eligible(s, q, staleBefore))
    && (forall i :: 0 <= i < |out| ==>
          && out[i].processingId in s.records && s.records[out[i].processingId] == out[i]
          && R.Eligible(s, out[i].processingId, staleBefore))
    && (forall i, q :: 0 <= i < |out| && q in rest ==> R.Before(out[i], s.records[q]))
    && (forall q :: q in s.records && R.Eligible(s, q, staleBefore) && s.records[q] !in out ==> q in rest)
  }

  lemma TakeLeast(s: R.Store, staleBefore: int, rest: set<nat>, out: seq<Record>, pid: nat)
    requires R.Lockstep(s) && PartialList(s, staleBefore, rest, out) && pid in rest
    requires forall q :: q in rest ==> q == pid || RowBefore(Encode(s).processing[pid], Encode(s).processing[q])
    ensures PartialList(s, staleBefore, rest - {pid}, out + [s.records[pid]])
    ensures DeserializeProcessing(Encode(s).processing[pid]) == R.Returned(s.records[pid])
  {
    hide R.Lockstep, RowOf, RowBefore, R.Before, R.Eligible, DeserializeProcessing;
    EligibleOpen(s, pid, staleBefore);
    ReadBack(s, pid);
    RecordId(s, pid);
    forall q | q in rest && q != pid ensures R.Before(s.records[pid], s.records[q]) {
      RowOrder(s, pid, q);
    }
    var out' := out + [s.records[pid]];
    assert s.records[pid] in out';
    assert forall r :: r in out ==> r in out';
  }

  lemma EligibleOpen(s: R.Store, pid: nat, staleBefore: int)
    requires R.Lockstep(s) && pid in s.records && R.Eligible(s, pid, staleBefore)
    ensures Public(s.records[pid]) == s.records[pid]
  {
    hide R.Lockstep, R.Paired, R.Tidy;
    Pairing(s, pid);
  }

  // ----- A clock reading before the record's creation

  /** No CHECK compares the two times, so a row is accepted whatever `updated_at` it gets, but
      it reads back only if that is not before `created_at`. */
  lemma EarlyRow(r: Record, now: int)
    requires PublicCoherent(r) && RecordConstructs(r) && r.identity.Some? && RowChecks(RowOf(r))
    ensures var row := RowOf(r).(updatedAt := now);
            && row == RowOf(r.(updatedAt := now)) && RowChecks(row)
            && (DeserializeProcessing(row).Returned? <==> r.createdAt <= now)
  {
    RestampedRow(r, now);
    if r.createdAt <= now {
      RestampedRecord(r, now);
      hide DeserializeProcessing, RowOf, PublicCoherent, RecordConstructs;
      RowRoundTrip(r.(updatedAt := now));
    } else {
      hide RowOf, PublicCoherent;
      Unreadable(RowOf(r).(updatedAt := now));
    }
  }

  lemma RestampedRow(r: Record, now: int)
    ensures RowOf(r).(updatedAt := now) == RowOf(r.(updatedAt := now)) && RowOf(r).createdAt == r.createdAt
    ensures RowChecks(RowOf(r)) ==> RowChecks(RowOf(r).(updatedAt := now))
  {
    hide EncodeEntities, EncodeEvidence, EncodeStrings, SeverityText, OutcomeText, StateText, PgBlank, R.VisibleKey;
  }

  lemma RestampedRecord(r: Record, now: int)
    requires PublicCoherent(r) && RecordConstructs(r) && r.createdAt <= now
    ensures PublicCoherent(r.(updatedAt := now)) && RecordConstructs(r.(updatedAt := now))
  {
    hide AlertValid, DecisionValid, RequestValid, ResultValid, InvestigationValid, StateFieldsOk, ErrorBounded;
    RestampedFields(r, now);
  }

  lemma RestampedFields(r: Record, now: int)
    requires StateFieldsOk(r)
    ensures StateFieldsOk(r.(updatedAt := now))
  {
  }

  lemma Unreadable(row: Row)
    requires row.createdAt > row.updatedAt
    ensures DeserializeProcessing(row).Raised?
  {
    hide DecodeAlert, DecodeDecision, DecodeRequest, DecodeResult, ParseState, IdentityColumns, PairColumns, StateFieldsOk, ErrorBounded;
  }

  /** A claim at an early clock: the in-memory repository raises with the attempt half
      written; here both rows are committed and the claim is answered, and it is the record
      that can no longer be read. The condition is the same. */
  lemma EarlyClaim(s: R.Store, aid: nat, now: int)
    requires R.Lockstep(s) && aid in s.attempts && s.attempts[aid].state == APlanned
    ensures var a := s.attempts[aid];
            && a.processingId in s.records
            && var r := s.records[a.processingId];
            var row := Encode(s).processing[a.processingId].(state := "submitting", updatedAt := now);
            var attemptRow := Encode(s).attempts[aid].(state := "submitting", startedAt := Some(now));
            && RowChecks(row) && AttemptRowChecks(attemptRow)
            && DeserializeAttempt(attemptRow) == R.Returned(R.ClaimedAttempt(a, now))
            && (DeserializeProcessing(row).Returned? <==> r.createdAt <= now)
            && (R.ClaimAttempt(s, aid, now).1.Returned? <==> r.createdAt <= now)
  {
    hide R.Lockstep, DeserializeAttempt, DeserializeProcessing, RowOf, AttemptRowOf, RowChecks, AttemptRowChecks, R.Paired, StateText,
         PublicCoherent, RecordConstructs, AttemptConstructs, R.ClaimAttempt, R.VisibleKey, R.Tidy;
    FoundPair(s, aid);
    var a := s.attempts[aid];
    var r := s.records[a.processingId];
    StoredCoherent(s, a.processingId);
    ClaimRows(r, a, now);
    ClaimRows(r, a, r.updatedAt);
    var late := r.(state := Submitting);
    EncodedRows(s, aid);
    ClaimCoherent(r);
    ClaimChecks(r);
    EarlyRow(late, now);
    assert late.(updatedAt := now) == r.(state := Submitting, updatedAt := now);
    ClaimedRow(s, aid, now);
    EarlyMemory(s, aid, now);
  }

  lemma EncodedRows(s: R.Store, aid: nat)
    requires R.Lockstep(s) && aid in s.attempts
    ensures aid in Encode(s).attempts && Encode(s).attempts[aid] == AttemptRowOf(s.attempts[aid]) && AttemptRowChecks(AttemptRowOf(s.attempts[aid]))
    ensures var pid := s.attempts[aid].processingId;
            && pid in s.records && Encode(s).processing[pid] == RowOf(s.records[pid]) && RowChecks(RowOf(s.records[pid]))
  {
    hide R.Lockstep, RowOf, AttemptRowOf, RowChecks, AttemptRowChecks, AttemptConstructs, RecordConstructs, R.Paired, R.Tidy, R.AttemptTidy;
    PairOf(s, aid);
    EncodedDatabaseOk(s);
  }

  lemma ClaimCoherent(r: Record)
    requires PublicCoherent(r) && RecordConstructs(r) && r.state == Planned
    ensures PublicCoherent(r.(state := Submitting)) && RecordConstructs(r.(state := Submitting))
  {
    hide AlertValid, DecisionValid, RequestValid, ResultValid, InvestigationValid, ErrorBounded;
  }

  lemma ClaimChecks(r: Record)
    requires RowChecks(RowOf(r)) && r.state == Planned
    ensures RowChecks(RowOf(r.(state := Submitting)))
  {
    hide EncodeEntities, EncodeEvidence, EncodeStrings, SeverityText, OutcomeText, PgBlank, R.VisibleKey;
    StateTexts();
  }

  lemma ClaimedRow(s: R.Store, aid: nat, now: int)
    requires R.Lockstep(s) && aid in s.attempts && s.attempts[aid].state == APlanned
    ensures var claimed := R.ClaimedAttempt(s.attempts[aid], now);
            AttemptRowChecks(AttemptRowOf(claimed)) && DeserializeAttempt(AttemptRowOf(claimed)) == R.Returned(claimed)
  {
    var a := s.attempts[aid];
    PairOf(s, aid);
    hide R.Lockstep, DeserializeAttempt, AttemptRowOf, AttemptRowChecks, R.Paired, R.Tidy, RecordConstructs;
    EncodedRows(s, aid);
    ClaimedConstructs(a, now);
    AttemptRoundTrip(R.ClaimedAttempt(a, now));
    ClaimedChecks(a, now);
  }

  lemma ClaimedConstructs(a: Attempt, now: int)
    requires AttemptConstructs(a) && a.state == APlanned
    ensures AttemptConstructs(R.ClaimedAttempt(a, now))
  {
  }

  lemma ClaimedChecks(a: Attempt, now: int)
    requires AttemptRowChecks(AttemptRowOf(a)) && a.state == APlanned
    ensures AttemptRowChecks(AttemptRowOf(R.ClaimedAttempt(a, now)))
  {
    hide PgBlank;
    StateTexts();
  }

  lemma EarlyMemory(s: R.Store, aid: nat, now: int)
    requires R.Lockstep(s) && aid in s.attempts && s.attempts[aid].state == APlanned
    ensures s.attempts[aid].processingId in s.records
    ensures R.ClaimAttempt(s, aid, now).1.Returned? <==> s.records[s.attempts[aid].processingId].createdAt <= now
  {
    hide R.Lockstep, R.Tidy, R.AttemptTidy, PlanCoherent;
    PairOf(s, aid);
  }

  class PostgresProcessingRepository {
    var processing: map<nat, Row>
    var attempts: map<nat, AttemptRow>

    function Tables(): Database
      reads this
    {
      Database(processing, attempts)
    }

    /** The tables stand for `s`. */
    ghost predicate Holds(s: R.Store)
      reads this
    {
      Tables() == Encode(s) && R.Lockstep(s)
    }

    constructor ()
      ensures Holds(R.EMPTY_STORE)
    {
      processing, attempts := map[], map[];
      new;
      assert Tables() == Encode(R.EMPTY_STORE);
    }

    method Get(pid: nat, ghost s: R.Store) returns (reply: R.Reply<Option<Record>>)
      requires Holds(s)
      ensures reply == PublicReply(R.Returned(R.Get(s, pid)))
    {
      hide R.Lockstep, DeserializeProcessing, RowOf;
      if pid !in processing {
        return R.Returned(None);
      }
      ReadBack(s, pid);
      reply := OptionReply(DeserializeProcessing(processing[pid]));
    }

    method ClaimAttempt(aid: nat, now: int, ghost s: R.Store) returns (reply: R.Reply<Option<Attempt>>)
      requires Holds(s) && R.ClockOk(s, now)
      modifies this
      ensures Holds(R.ClaimAttempt(s, aid, now).0) && reply == R.ClaimAttempt(s, aid, now).1
    {
      hide R.Lockstep, DeserializeAttempt, DeserializeProcessing, RowOf, AttemptRowOf, RowChecks, AttemptRowChecks, R.Advances, R.Paired, StateText;
      ClaimKeeps(s, aid, now);
      StateTexts();
      if aid in s.attempts {
        FoundPair(s, aid);
      }
      if aid !in attempts || attempts[aid].state != "planned" {
        return R.Returned(None);
      }
      ghost var a := s.attempts[aid];
      ghost var r := s.records[a.processingId];
      ClaimRows(r, a, now);
      PairCommitted(s, r.(state := Submitting, updatedAt := now), R.ClaimedAttempt(a, now));
      var row := attempts[aid].(state := "submitting", startedAt := Some(now));
      if !AttemptRowChecks(row) {
        return R.Raised;
      }
      var pid := row.processingId;
      if pid !in processing || processing[pid].state != "planned" {
        return R.Raised;
      }
      var processingRow := processing[pid].(state := "submitting", updatedAt := now);
      if !RowChecks(processingRow) {
        return R.Raised;
      }
      processing, attempts := processing[pid := processingRow], attempts[aid := row];
      reply := OptionReply(DeserializeAttempt(row));
    }

    method MarkSubmitted(aid: nat, externalId: string, now: int, ghost s: R.Store) returns (reply: R.Reply<Option<Attempt>>)
      requires Holds(s) && R.ClockOk(s, now) && OperationIdOk(externalId)
      modifies this
      ensures Holds(R.MarkSubmitted(s, aid, externalId, now).0) && reply == R.MarkSubmitted(s, aid, externalId, now).1
    {
      hide R.Lockstep, DeserializeAttempt, DeserializeProcessing, RowOf, AttemptRowOf, RowChecks, AttemptRowChecks, R.Advances, R.Paired, StateText;
      MarkSubmittedKeeps(s, aid, externalId, now);
      StateTexts();
      if aid in s.attempts {
        FoundPair(s, aid);
      }
      if aid !in attempts || attempts[aid].state != "submitting" {
        return R.Returned(None);
      }
      ghost var a := s.attempts[aid];
      ghost var r := s.records[a.processingId];
      MarkRows(r, a, externalId, now);
      PairCommitted(s, r.(state := Submitted, updatedAt := now), R.SubmittedAttempt(a, externalId, now));
      var row := attempts[aid].(state := "submitted", externalOperationId := Some(externalId), submittedAt := Some(now));
      if !AttemptRowChecks(row) {
        return R.Raised;
      }
      var pid := row.processingId;
      if pid !in processing || processing[pid].state != "submitting" {
        return R.Raised;
      }
      var processingRow := processing[pid].(state := "submitted", updatedAt := now);
      if !RowChecks(processingRow) {
        return R.Raised;
      }
      processing, attempts := processing[pid := processingRow], attempts[aid := row];
      reply := OptionReply(DeserializeAttempt(row));
    }

    method RecordPoll(aid: nat, remote: string, error: Option<ErrorInfo>, now: int, ghost s: R.Store) returns (reply: R.Reply<Option<Attempt>>)
      requires Holds(s) && R.ClockOk(s, now) && R.RemoteTextOk(Some(remote)) && R.ErrorTextOk(error)
      modifies this
      ensures Holds(R.RecordPoll(s, aid, remote, error, now).0) && reply == R.RecordPoll(s, aid, remote, error, now).1
    {
      hide R.Lockstep, DeserializeAttempt, DeserializeProcessing, RowOf, AttemptRowOf, RowChecks, AttemptRowChecks, R.Advances, R.Paired, StateText;
      RecordPollKeeps(s, aid, remote, error, now);
      StateTexts();
      if aid in s.attempts {
        FoundPair(s, aid);
      }
      if !ErrorBounded(error) {
        return R.Raised;
      }
      if aid !in attempts || attempts[aid].state != "submitted" {
        return R.Returned(None);
      }
      ghost var a := s.attempts[aid];
      ghost var r := s.records[a.processingId];
      PollRows(r, a, remote, error, now);
      PairCommitted(s, r.(updatedAt := now, error := error), R.PolledAttempt(a, remote, error, now));
      var row := attempts[aid].(lastPolledAt := Some(now), lastRemoteState := Some(remote),
                                errorCategory := Category(error), errorDetail := Detail(error));
      if !AttemptRowChecks(row) {
        return R.Raised;
      }
      var pid := row.processingId;
      if pid !in processing || processing[pid].state != "submitted" {
        return R.Raised;
      }
      var processingRow := processing[pid].(updatedAt := now, errorCategory := Category(error), errorDetail := Detail(error));
      if !RowChecks(processingRow) {
        return R.Raised;
      }
      processing, attempts := processing[pid := processingRow], attempts[aid := row];
      reply := OptionReply(DeserializeAttempt(row));
    }

    /** The columns of the plan are not rewritten, so the tables take on the result with the
        stored plan; it is compared with the one given only after the commit. */
    method CompleteProcessing(aid: nat, result: OrchestrationResult, now: int, ghost s: R.Store) returns (reply: R.Reply<Option<Record>>)
      requires Holds(s) && R.ClockOk(s, now) && ResultValid(result)
      requires result.investigation.Some? ==> InvestigationValid(result.investigation.value)
      requires OperationOpen(s, aid) && result.investigation.Some? ==>
                 s.records[s.attempts[aid].processingId].selectedBackend == Some(result.investigation.value.backend)
      modifies this
      ensures var adopted := ResultAdopted(s, aid, result);
              && Holds(R.CompleteProcessing(s, aid, adopted, now).0)
              && reply == if adopted == result then PublicReply(R.CompleteProcessing(s, aid, result, now).1) else R.Raised
    {
      hide R.Lockstep, DeserializeAttempt, DeserializeProcessing, RowOf, AttemptRowOf, RowChecks, AttemptRowChecks, R.Advances, OperationOpen;
      hide R.InvestigationFrom, R.Matches, R.NoActionFrom, ResultValid, StateText, RecordConstructs, AttemptConstructs, CompletedRow, R.CompleteProcessing, InvestigationValid;
      ghost var adopted := ResultAdopted(s, aid, result);
      StateTexts();
      if aid in s.attempts {
        FoundPair(s, aid);
      }
      AdoptedCases(s, aid, result, now);
      if result.decision.outcome != Investigate {
        return R.Raised;
      }
      if aid !in attempts || attempts[aid].state != "submitted" {
        return R.Returned(None);
      }
      ghost var a := s.attempts[aid];
      ghost var r := s.records[a.processingId];
      ResultHas(result);
      AdoptedResult(s, aid, result);
      Completing(s, aid, adopted, now);
      CompleteKeeps(s, aid, adopted, now);
      var row := attempts[aid].(state := "completed", completedAt := Some(now), lastPolledAt := Some(now),
                                lastRemoteState := Some("succeeded"), errorCategory := None, errorDetail := None);
      if !AttemptRowChecks(row) {
        return R.Raised;
      }
      var pid := row.processingId;
      if pid !in processing || processing[pid].state != "submitted" {
        return R.Raised;
      }
      var processingRow := CompletedRow(processing[pid], result.investigation.value, now);
      if !RowChecks(processingRow) {
        return R.Raised;
      }
      processing, attempts := processing[pid := processingRow], attempts[aid := row];
      reply := OptionReply(DeserializeProcessing(processingRow));
      if reply.Returned? && reply.value.value.completedResult != Some(result) {
        reply := R.Raised;
      }
    }

    /** The attempt is updated first, so a record that is not in an expected state rolls back
        and raises where the in-memory repository returns nothing. */
    method FailProcessing(pid: nat, expected: set<ProcessingState>, error: ErrorInfo, aid: Option<nat>, now: int, ghost s: R.Store)
      returns (reply: R.Reply<Option<Record>>)
      requires Holds(s) && R.ClockOk(s, now) && R.ErrorTextOk(Some(error)) && expected != {}
      requires if aid.Some? then expected <= {Planned, Submitting, Submitted} else expected == {Accepted} && R.PlanningError(error)
      modifies this
      ensures Holds(R.FailProcessing(s, pid, expected, error, aid, now).0)
      ensures reply == if FailDiverges(s, pid, expected, aid) then R.Raised else R.FailProcessing(s, pid, expected, error, aid, now).1
    {
      hide R.Lockstep, DeserializeAttempt, DeserializeProcessing, RowOf, AttemptRowOf, RowChecks, AttemptRowChecks, R.Advances, R.Paired, StateText;
      hide R.FailProcessing, R.PlanningError;
      if !ErrorBounded(Some(error)) {
        return R.Raised;
      }
      if aid.Some? {
        reply := FailWithAttempt(pid, expected, error, aid.value, now, s);
      } else {
        reply := FailAlone(pid, error, now, s);
      }
    }

    method FailWithAttempt(pid: nat, expected: set<ProcessingState>, error: ErrorInfo, aid: nat, now: int, ghost s: R.Store)
      returns (reply: R.Reply<Option<Record>>)
      requires Holds(s) && R.ClockOk(s, now) && R.ErrorTextOk(Some(error)) && expected <= {Planned, Submitting, Submitted}
      modifies this
      ensures Holds(R.FailProcessing(s, pid, expected, error, Some(aid), now).0)
      ensures reply == if FailDiverges(s, pid, expected, Some(aid)) then R.Raised else R.FailProcessing(s, pid, expected, error, Some(aid), now).1
    {
      hide R.Lockstep, DeserializeAttempt, DeserializeProcessing, RowOf, AttemptRowOf, RowChecks, AttemptRowChecks, R.Advances;
      hide R.Paired, StateText, R.FailProcessing, AttemptConstructs, RecordConstructs, R.ErrorTextOk;
      StateTexts();
      FailCases(s, pid, expected, error, aid, now);
      if aid in s.attempts {
        FoundPair(s, aid);
      }
      if aid !in attempts || attempts[aid].processingId != pid || !ActiveText(attempts[aid].state) {
        return R.Returned(None);
      }
      Failing(s, pid, expected, error, aid, now);
      var row := attempts[aid].(state := "failed", failedAt := Some(now), errorCategory := Some(error.category), errorDetail := Some(error.detail));
      if s.records[pid].state in expected {
        assert AttemptRowChecks(row);
      }
      if !AttemptRowChecks(row) {
        return R.Raised;
      }
      if pid !in processing || !StateIn(processing[pid].state, expected) {
        return R.Raised;
      }
      var processingRow := processing[pid].(state := "failed", updatedAt := now, failedAt := Some(now),
                                            errorCategory := Some(error.category), errorDetail := Some(error.detail));
      if !RowChecks(processingRow) {
        return R.Raised;
      }
      processing, attempts := processing[pid := processingRow], attempts[aid := row];
      reply := OptionReply(DeserializeProcessing(processingRow));
    }

    method FailAlone(pid: nat, error: ErrorInfo, now: int, ghost s: R.Store) returns (reply: R.Reply<Option<Record>>)
      requires Holds(s) && R.ClockOk(s, now) && R.ErrorTextOk(Some(error)) && R.PlanningError(error)
      modifies this
      ensures Holds(R.FailProcessing(s, pid, {Accepted}, error, None, now).0)
      ensures reply == R.FailProcessing(s, pid, {Accepted}, error, None, now).1
    {
      hide R.Lockstep, DeserializeProcessing, RowOf, RowChecks, R.Advances, R.Paired, StateText, R.PlanningError, R.ErrorTextOk;
      FailAcceptedKeeps(s, pid, error, now);
      StateTexts();
      if pid in s.records {
        RecordStateColumn(s.records[pid]);
      }
      if pid !in processing || processing[pid].state != "accepted" {
        return R.Returned(None);
      }
      ghost var r := s.records[pid];
      RecordId(s, pid);
      FailRow(r, error, now);
      AloneCommitted(s, R.FailedRecord(r, error, now));
      var processingRow := processing[pid].(state := "failed", updatedAt := now, failedAt := Some(now),
                                            errorCategory := Some(error.category), errorDetail := Some(error.detail));
      if !RowChecks(processingRow) {
        return R.Raised;
      }
      processing := processing[pid := processingRow];
      reply := OptionReply(DeserializeProcessing(processingRow));
    }

    method MarkRecoveryRequired(aid: nat, expected: set<AttemptState>, error: ErrorInfo, now: int, ghost s: R.Store)
      returns (reply: R.Reply<Option<Record>>)
      requires Holds(s) && R.ClockOk(s, now) && R.ErrorTextOk(Some(error)) && expected <= {ASubmitting, ASubmitted} && expected != {}
      modifies this
      ensures Holds(R.MarkRecoveryRequired(s, aid, expected, error, now).0)
      ensures reply == R.MarkRecoveryRequired(s, aid, expected, error, now).1
    {
      hide R.Lockstep, DeserializeProcessing, RowOf, AttemptRowOf, RowChecks, AttemptRowChecks, R.Advances, R.Paired, StateText;
      StateTexts();
      if aid in s.attempts {
        FoundPair(s, aid);
        RecoveryKeeps(s, aid, if s.attempts[aid].state in expected then s.attempts[aid].state else ASubmitting, error, now);
      }
      if !ErrorBounded(Some(error)) {
        return R.Raised;
      }
      if aid !in attempts || !AttemptStateIn(attempts[aid].state, expected) {
        return R.Returned(None);
      }
      ghost var a := s.attempts[aid];
      ghost var r := s.records[a.processingId];
      RecoveryRows(r, a, error, now);
      PairCommitted(s, R.RecoveryRecord(r, error, now), R.RecoveryAttempt(a, error));
      var row := attempts[aid].(state := "recovery_required", errorCategory := Some(error.category), errorDetail := Some(error.detail));
      if !AttemptRowChecks(row) {
        return R.Raised;
      }
      var pid := row.processingId;
      if pid !in processing || !AttemptStateIn(processing[pid].state, expected) {
        return R.Raised;
      }
      var processingRow := processing[pid].(state := "recovery_required", updatedAt := now,
                                            errorCategory := Some(error.category), errorDetail := Some(error.detail));
      if !RowChecks(processingRow) {
        return R.Raised;
      }
      processing, attempts := processing[pid := processingRow], attempts[aid := row];
      reply := OptionReply(DeserializeProcessing(processingRow));
    }

    /** No column holds the decision's source, so the tables take on the result with the source
        of the stored alert; the in-memory repository raises where that is another one. */
    method StoreNoActionResult(pid: nat, result: OrchestrationResult, now: int, ghost s: R.Store) returns (reply: R.Reply<Option<Record>>)
      requires Holds(s) && R.ClockOk(s, now) && DecisionValid(result.decision) && ResultValid(result)
      modifies this
      ensures var adopted := NoActionAdopted(s, pid, result);
              Holds(R.StoreNoActionResult(s, pid, adopted, now).0) && reply == PublicReply(R.StoreNoActionResult(s, pid, adopted, now).1)
    {
      hide R.Lockstep, DeserializeProcessing, RowOf, RowChecks, R.Advances, R.NoActionFrom, R.Paired, StateText, NoActionRow, R.StoreNoActionResult;
      ghost var adopted := NoActionAdopted(s, pid, result);
      NoActionCases(s, pid, adopted, now);
      if result.decision.outcome != NoAction {
        return R.Raised;
      }
      StateTexts();
      if pid in s.records {
        AdoptedNoAction(s, pid, result);
        RecordStateColumn(s.records[pid]);
      }
      if pid !in processing || processing[pid].state != "accepted" {
        return R.Returned(None);
      }
      ghost var r := s.records[pid];
      CompletingNoAction(s, pid, adopted, now);
      AloneCommitted(s, R.CompletedNoAction(r, adopted, now));
      var row := NoActionRow(processing[pid], result.decision, now);
      if !RowChecks(row) {
        return R.Raised;
      }
      processing := processing[pid := row];
      reply := OptionReply(DeserializeProcessing(row));
    }

    /** The two repositories part only over a backend name of Unicode spaces: here the plan is
        committed, and then the attempt cannot be read. */
    method StorePlan(pid: nat, plan: R.Plan, aid: nat, operationKey: nat, now: int, ghost s: R.Store) returns (reply: R.Reply<Option<R.PlannedPair>>)
      requires Holds(s) && R.ClockOk(s, now)
      requires plan.decision.outcome == Investigate ==> PlanCoherent(plan.incident.alert, plan.decision, plan.incident, plan.request)
      requires pid in s.records ==> s.records[pid].alert == plan.incident.alert
      modifies this
      ensures !(UnicodeBlank(plan.backend) && Plannable(s, pid, plan, aid, operationKey)) ==>
                Holds(R.StorePlan(s, pid, plan, aid, operationKey, now).0) && reply == R.StorePlan(s, pid, plan, aid, operationKey, now).1
      ensures UnicodeBlank(plan.backend) && Plannable(s, pid, plan, aid, operationKey) ==>
                && R.StorePlan(s, pid, plan, aid, operationKey, now) == (s, R.Raised) && reply.Raised?
                && Tables() == Database(Encode(s).processing[pid := PlannedRow(RowOf(s.records[pid]), plan, now)],
                                        Encode(s).attempts[aid := InsertedAttempt(aid, pid, operationKey, plan.backend, now)])
                && DeserializeAttempt(InsertedAttempt(aid, pid, operationKey, plan.backend, now)).Raised?
    {
      hide R.Lockstep, DeserializeProcessing, DeserializeAttempt, RowOf, AttemptRowOf, RowChecks, AttemptRowChecks, R.Advances, R.Paired, StateText;
      hide NonBlank, PgBlank, DecisionValid, RequestValid, R.StorePlan, PlannedRow, InsertedAttempt;
      if plan.decision.outcome != Investigate {
        NotAPlan(s, pid, plan, aid, operationKey, now);
        return R.Raised;
      }
      if plan.incident.alert.source != plan.decision.source || plan.request.incident != plan.incident {
        return R.Raised;
      }
      StateTexts();
      PlanCases(s, pid, plan, aid, operationKey, now);
      if pid in s.records {
        RecordStateColumn(s.records[pid]);
      }
      if pid !in processing || processing[pid].state != "accepted" {
        return R.Returned(None);
      }
      var row := PlannedRow(processing[pid], plan, now);
      if NonBlank(plan.backend) {
        Planning(s, pid, plan, aid, operationKey, now);
      } else {
        BlankBackend(s, pid, plan, aid, operationKey, now);
      }
      if !RowChecks(row) {
        return R.Raised;
      }
      var attemptRow := InsertedAttempt(aid, pid, operationKey, plan.backend, now);
      InsertedColumns(aid, pid, operationKey, plan.backend, now);
      PlanKeys(s, pid, aid, operationKey);
      NoConflict(s, attemptRow);
      if !AttemptRowChecks(attemptRow) || Conflicts(attemptRow) {
        return R.Raised;
      }
      processing, attempts := processing[pid := row], attempts[aid := attemptRow];
      var record := DeserializeProcessing(row);
      var attempt := DeserializeAttempt(attemptRow);
      reply := if record.Raised? || attempt.Raised? then R.Raised else R.Returned(Some(R.PlannedPair(record.value, attempt.value)));
    }

    /** A row the primary key, the operation key, the attempt number or the one-active-attempt
        index refuses. */
    predicate Conflicts(row: AttemptRow)
      reads this
    {
      || row.attemptId in attempts
      || (exists a :: a in attempts && attempts[a].operationKey == row.operationKey)
      || (exists a :: a in attempts && attempts[a].processingId == row.processingId
            && (attempts[a].attemptNumber == row.attemptNumber || ActiveText(attempts[a].state)))
    }

    lemma NoConflict(s: R.Store, row: AttemptRow)
      requires Holds(s) && forall a :: a in s.attempts ==> s.attempts[a].processingId != row.processingId
      ensures Conflicts(row) <==> row.attemptId in s.attempts || exists a :: a in s.attempts && s.attempts[a].operationKey == row.operationKey
    {
      hide R.Lockstep, RowOf, AttemptStateText, ActiveText;
      forall a | a in attempts
        ensures attempts[a].operationKey == s.attempts[a].operationKey && attempts[a].processingId == s.attempts[a].processingId
      {
        assert attempts[a] == AttemptRowOf(s.attempts[a]);
      }
    }

    /** The CHECKs are evaluated before the conflict on the scoped key, and that before the
        primary key. */
    method AcceptProcessing(pid: nat, alert: Alert, identity: Identity, now: int, ghost s: R.Store) returns (reply: R.Reply<R.Acceptance>)
      requires Holds(s) && AlertValid(alert) && IdentityValid(identity)
      modifies this
      ensures Holds(R.AcceptProcessing(s, pid, alert, identity, now).0)
      ensures reply == PublicAcceptance(R.AcceptProcessing(s, pid, alert, identity, now).1)
    {
      hide R.Lockstep, DeserializeProcessing, RowOf, RowChecks, R.Advances, AlertValid, R.VisibleKey, RecordConstructs;
      AcceptKeeps(s, pid, alert, identity, now);
      NewRowChecks(pid, alert, identity, now);
      var row := InsertedRow(pid, alert, identity, now);
      if !RowChecks(row) {
        return R.Raised;
      }
      KeyRows(s, identity);
      var held := set p | p in processing && processing[p].idempotencyScope == Some(identity.scope) && processing[p].idempotencyKey == Some(identity.key);
      if (identity.scope, identity.key) in s.idempotency {
        assert s.idempotency[(identity.scope, identity.key)] in held;
      }
      if held != {} {
        var existing :| existing in held;
        ReadBack(s, existing);
        var found := DeserializeProcessing(processing[existing]);
        return if found.Raised? then R.Raised else R.Returned(R.Acceptance(found.value, false));
      }
      if pid in processing {
        return R.Raised;
      }
      Accepting(s, pid, alert, identity, now);
      processing := processing[pid := row];
      var created := DeserializeProcessing(row);
      reply := if created.Raised? then R.Raised else R.Returned(R.Acceptance(created.value, true));
    }

    method GetAttemptForProcessing(pid: nat, ghost s: R.Store) returns (reply: R.Reply<Option<Attempt>>)
      requires Holds(s)
      ensures reply == R.GetAttemptForProcessing(s, pid)
    {
      hide R.Lockstep, DeserializeAttempt, AttemptRowOf, RowOf;
      AttemptRows(s, pid);
      var found := set a | a in attempts && attempts[a].processingId == pid;
      if pid in s.attemptOf {
        assert s.attemptOf[pid] in found;
      }
      if found == {} {
        return R.Returned(None);
      }
      var aid :| aid in found && forall other :: other in found ==> attempts[other].attemptNumber <= attempts[aid].attemptNumber;
      ReadBackAttempt(s, aid);
      reply := OptionReply(DeserializeAttempt(attempts[aid]));
    }

    /** The WHERE clause over the left join; a processing has at most one attempt. */
    predicate Selected(pid: nat, staleBefore: int)
      reads this
    {
      && pid in processing
      && (|| processing[pid].state in {"accepted", "planned", "submitted"}
          || (&& processing[pid].state == "submitting"
              && exists a :: a in attempts && attempts[a].processingId == pid && attempts[a].state == "submitting"
                             && attempts[a].startedAt.Some? && attempts[a].startedAt.value <= staleBefore))
    }

    lemma SelectedIsEligible(s: R.Store, pid: nat, staleBefore: int)
      requires Holds(s)
      ensures Selected(pid, staleBefore) <==> pid in s.records && R.Eligible(s, pid, staleBefore)
    {
      hide R.Lockstep, RowOf, AttemptRowOf, StateText;
      StateTexts();
      AttemptRows(s, pid);
      if pid in s.records {
        RecordStateColumn(s.records[pid]);
        if pid in s.attemptOf {
          AttemptTimes(s.attempts[s.attemptOf[pid]]);
          FoundPair(s, s.attemptOf[pid]);
        }
      }
    }

    /** ORDER BY and LIMIT: rows leave the selection least first. The in-memory repository
        sorts and cuts; both return the one work list. */
    method FindReconcilable(limit: int, staleBefore: int, ghost s: R.Store) returns (reply: R.Reply<seq<Record>>)
      requires Holds(s)
      ensures limit < 1 <==> reply.Raised?
      ensures reply.Returned? ==> R.IsWorkList(s, limit, staleBefore, reply.value)
    {
      hide R.Lockstep, DeserializeProcessing, RowOf, AttemptRowOf, R.Eligible, Selected, R.Before, RowBefore;
      if limit < 1 {
        return R.Raised;
      }
      forall pid ensures Selected(pid, staleBefore) <==> pid in s.records && R.Eligible(s, pid, staleBefore) {
        SelectedIsEligible(s, pid, staleBefore);
      }
      var rest := set pid | pid in processing && Selected(pid, staleBefore);
      var out: seq<Record> := [];
      while |out| < limit && rest != {}
        invariant |out| <= limit && PartialList(s, staleBefore, rest, out)
        decreases |rest|
      {
        LeastRow(s, rest);
        var pid :| pid in rest && forall q :: q in rest ==> q == pid || RowBefore(processing[pid], processing[q]);
        TakeLeast(s, staleBefore, rest, out, pid);
        var record := DeserializeProcessing(processing[pid]);
        if record.Raised? {
          return R.Raised;
        }
        out := out + [record.value];
        rest := rest - {pid};
      }
      reply := R.Returned(out);
    }
  }
}
