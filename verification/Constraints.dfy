/** The CHECK constraints on the two tables (`migrations/versions/0001_processing_records.py`,
    `0002_durable_execution.py`) as predicates, and the proof that the rows of every store in
    lockstep satisfy them. `[[:space:]]` is read as the six ASCII space characters. */
module Constraints {
  import opened Domain
  import opened Lifecycle
  import opened Repository
  import opened Rows

  predicate PgSpace(c: char) {
    0x09 <= c as int <= 0x0d || c == ' '
  }

  predicate PgBlank(s: string) {
    forall i :: 0 <= i < |s| ==> PgSpace(s[i])
  }

  predicate NullOrText(s: Option<string>) {
    s.Some? ==> !PgBlank(s.value)
  }

  predicate NullOrBoundedText(s: Option<string>, limit: nat) {
    s.Some? ==> !PgBlank(s.value) && |s.value| <= limit
  }

  predicate IsArray(j: Option<Jsonb>) {
    j.Some? && j.value.JArray?
  }

  predicate IsNonEmptyArray(j: Option<Jsonb>) {
    IsArray(j) && |j.value.items| > 0
  }

  predicate SnapshotChecks(row: Row) {
    && row.snapshotVersion == 1
    && row.severity in {"low", "medium", "high", "critical"}
    && (row.decisionOutcome.Some? ==> row.decisionOutcome.value in {"investigate", "no_action"})
    && !PgBlank(row.detectionIdentifier) && !PgBlank(row.source) && NullOrText(row.policyId)
    && NullOrText(row.detectionName) && NullOrText(row.sourceAlertId)
    && NullOrText(row.requestDesiredOutcome) && NullOrText(row.resultBackend)
    && row.entities.JArray? && row.alertEvidence.JArray?
    && (row.decisionReasons.Some? ==> IsNonEmptyArray(row.decisionReasons))
  }

  predicate IdentityChecks(row: Row) {
    && (row.idempotencyScope.Some? <==> row.idempotencyKey.Some?)
    && (row.idempotencyScope.Some? <==> row.fingerprintVersion.Some?)
    && (row.idempotencyScope.Some? <==> row.requestFingerprint.Some?)
    && (row.idempotencyScope.Some? ==> row.idempotencyScope.value == row.source)
    && (row.idempotencyKey.Some? ==> VisibleKey(row.idempotencyKey.value))
    && (row.requestFingerprint.Some? ==> row.fingerprintVersion == Some(1) && |row.requestFingerprint.value| == 32)
  }

  predicate TextChecks(row: Row) {
    && NullOrText(row.selectedBackend)
    && NullOrBoundedText(row.errorCategory, 256) && NullOrBoundedText(row.errorDetail, 256)
    && (row.errorCategory.Some? <==> row.errorDetail.Some?)
  }

  predicate NoResultColumns(row: Row) {
    row.resultBackend.None? && row.resultCompletedCapabilities.None? && row.resultEvidence.None?
  }

  predicate NoRequestColumns(row: Row) {
    row.requestDesiredOutcome.None? && row.requestCapabilities.None? && row.requestTargets.None?
  }

  predicate RequestColumns(row: Row) {
    row.requestDesiredOutcome.Some? && IsNonEmptyArray(row.requestCapabilities) && IsArray(row.requestTargets)
  }

  predicate LifecycleChecks(row: Row) {
    || (&& row.state == "accepted"
        && row.decisionOutcome.None? && row.policyId.None? && row.decisionReasons.None?
        && NoRequestColumns(row) && row.selectedBackend.None? && NoResultColumns(row)
        && row.completedAt.None? && row.failedAt.None? && row.errorCategory.None? && row.errorDetail.None?)
    || (&& row.state in {"planned", "submitting", "submitted", "recovery_required"}
        && row.decisionOutcome == Some("investigate") && row.policyId.Some? && IsNonEmptyArray(row.decisionReasons)
        && RequestColumns(row) && row.selectedBackend.Some? && NoResultColumns(row)
        && row.completedAt.None? && row.failedAt.None?
        && (row.state == "recovery_required" ==> row.errorCategory.Some? && row.errorDetail.Some?))
    || (&& row.state == "completed"
        && row.policyId.Some? && IsNonEmptyArray(row.decisionReasons)
        && row.completedAt.Some? && row.failedAt.None?
        && (|| (row.decisionOutcome == Some("no_action") && NoRequestColumns(row) && row.selectedBackend.None? && NoResultColumns(row))
            || (&& row.decisionOutcome == Some("investigate") && RequestColumns(row)
                && (row.selectedBackend.Some? || row.idempotencyKey.None?)
                && row.resultBackend.Some? && IsArray(row.resultCompletedCapabilities) && IsArray(row.resultEvidence))))
    || (&& row.state == "failed"
        && row.completedAt.None? && row.failedAt.Some? && NoResultColumns(row)
        && row.errorCategory.Some? && row.errorDetail.Some?)
  }

  predicate RowChecks(row: Row) {
    SnapshotChecks(row) && IdentityChecks(row) && TextChecks(row) && LifecycleChecks(row)
  }

  predicate AttemptTextChecks(row: AttemptRow) {
    && row.attemptNumber > 0
    && !PgBlank(row.backend)
    && NullOrBoundedText(row.externalOperationId, 512) && NullOrBoundedText(row.lastRemoteState, 256)
    && NullOrBoundedText(row.errorCategory, 256) && NullOrBoundedText(row.errorDetail, 256)
    && (row.errorCategory.Some? <==> row.errorDetail.Some?)
  }

  predicate AttemptLifecycleChecks(row: AttemptRow) {
    || (&& row.state == "planned" && row.startedAt.None? && row.submittedAt.None? && row.externalOperationId.None?
        && row.completedAt.None? && row.failedAt.None?)
    || (&& row.state == "submitting" && row.startedAt.Some? && row.submittedAt.None? && row.externalOperationId.None?
        && row.completedAt.None? && row.failedAt.None?)
    || (&& row.state == "submitted" && row.startedAt.Some? && row.submittedAt.Some? && row.externalOperationId.Some?
        && row.completedAt.None? && row.failedAt.None?)
    || (&& row.state == "completed" && row.startedAt.Some? && row.submittedAt.Some? && row.externalOperationId.Some?
        && row.completedAt.Some? && row.failedAt.None?)
    || (&& row.state == "failed" && row.completedAt.None? && row.failedAt.Some?
        && row.errorCategory.Some? && row.errorDetail.Some?)
    || (&& row.state == "recovery_required" && row.startedAt.Some? && row.completedAt.None? && row.failedAt.None?
        && row.errorCategory.Some? && row.errorDetail.Some?)
  }

  predicate AttemptRowChecks(row: AttemptRow) {
    AttemptTextChecks(row) && AttemptLifecycleChecks(row)
  }

  // ----- Stored rows satisfy them

  lemma NonBlankText(s: string)
    requires NonBlank(s)
    ensures !PgBlank(s)
  {
    var i :| 0 <= i < |s| && !IsSpace(s[i]);
    assert !PgSpace(s[i]);
  }

  lemma NonBlankOptional(s: Option<string>)
    requires OptionalNonBlank(s)
    ensures NullOrText(s)
  {
    if s.Some? {
      NonBlankText(s.value);
    }
  }

  lemma ErrorColumns(e: Option<ErrorInfo>)
    requires ErrorTextOk(e)
    ensures NullOrBoundedText(MapOption(e, (e: ErrorInfo) => e.category), 256)
    ensures NullOrBoundedText(MapOption(e, (e: ErrorInfo) => e.detail), 256)
  {
    hide NonBlank, PgBlank;
    if e.Some? {
      NonBlankText(e.value.category);
      NonBlankText(e.value.detail);
    }
  }

  lemma SnapshotColumns(r: Record)
    requires PublicCoherent(r)
    ensures SnapshotChecks(RowOf(r))
  {
    hide NonBlank, PgBlank, EntityValid, EvidenceValid, EntitiesValid, EvidencesValid, AllNonBlank;
    NonBlankText(r.alert.detection.identifier);
    NonBlankText(r.alert.source.source);
    NonBlankOptional(r.alert.detection.name);
    NonBlankOptional(r.alert.source.sourceAlertId);
    if r.Decision().Some? {
      NonBlankText(r.Decision().value.policyId);
    }
    if r.Request().Some? {
      NonBlankText(r.Request().value.desiredOutcome);
    }
    if ResultOf(r).Some? {
      NonBlankText(ResultOf(r).value.backend);
    }
  }

  lemma LifecycleColumns(r: Record, a: Option<Attempt>)
    requires PublicCoherent(r) && RecordConstructs(r) && Tidy(r) && Paired(r, a) && (r.state == Accepted ==> r.error.None?)
    requires a.Some? ==> AttemptConstructs(a.value)
    ensures LifecycleChecks(RowOf(r))
  {
    hide NonBlank, EntitiesValid, EvidencesValid, AllNonBlank, AlertValid, InvestigationValid, ErrorTextOk;
    var row := RowOf(r);
    match r.state
    case Accepted =>
    case Planned => assert RequestColumns(row);
    case Submitting => assert RequestColumns(row);
    case Submitted => assert RequestColumns(row);
    case RecoveryRequired => assert RequestColumns(row);
    case Completed =>
    case Failed =>
  }

  lemma StoredRowChecks(s: Store, pid: nat)
    requires Lockstep(s) && pid in s.records && (AttemptOf(s, pid).Some? ==> AttemptConstructs(AttemptOf(s, pid).value))
    ensures RowChecks(RowOf(s.records[pid]))
  {
    hide Lockstep, PublicCoherent, NonBlank, PgBlank, LifecycleChecks, SnapshotChecks, VisibleKey, PlanCoherent, NoActionFrom;
    StoredCoherent(s, pid);
    var r := s.records[pid];
    SnapshotColumns(r);
    StoredError(s, pid);
    LifecycleColumns(r, AttemptOf(s, pid));
    ErrorColumns(r.error);
    if r.selectedBackend.Some? {
      NonBlankText(r.selectedBackend.value);
    }
  }

  lemma StoredError(s: Store, pid: nat)
    requires Lockstep(s) && pid in s.records
    ensures s.records[pid].state == Accepted ==> s.records[pid].error.None?
  {
    hide IndexesOk, AttemptOk, Tidy, VisibleKey, AlertValid, AttemptOf, Paired, RecordConstructs;
    assert RecordOk(s, pid);
  }

  lemma StoredAttemptChecks(s: Store, aid: nat)
    requires Lockstep(s) && aid in s.attempts
    ensures AttemptRowChecks(AttemptRowOf(s.attempts[aid])) && AttemptConstructs(s.attempts[aid])
  {
    hide IndexesOk, RecordOk, NonBlank, PgBlank;
    var a := s.attempts[aid];
    assert AttemptOk(s, aid);
    NonBlankText(a.backend);
    ErrorColumns(a.error);
    if a.externalOperationId.Some? {
      NonBlankText(a.externalOperationId.value);
    }
    if a.lastRemoteState.Some? {
      NonBlankText(a.lastRemoteState.value);
    }
  }

  // ----- The whole database

  datatype Database = Database(processing: map<nat, Row>, attempts: map<nat, AttemptRow>)

  /** The database contents that stand for a store. */
  function Encode(s: Store): Database {
    Database(map pid | pid in s.records :: RowOf(s.records[pid]), map aid | aid in s.attempts :: AttemptRowOf(s.attempts[aid]))
  }

  /** Primary keys, foreign key, unique constraints and CHECKs. */
  ghost predicate DatabaseOk(db: Database) {
    && (forall pid :: pid in db.processing ==> db.processing[pid].id == pid && RowChecks(db.processing[pid]))
    && (forall aid :: aid in db.attempts ==>
          && db.attempts[aid].attemptId == aid && db.attempts[aid].processingId in db.processing
          && AttemptRowChecks(db.attempts[aid]))
    && (forall p, q :: p in db.processing && q in db.processing && p != q && db.processing[p].idempotencyKey.Some? ==>
          db.processing[p].idempotencyScope != db.processing[q].idempotencyScope
          || db.processing[p].idempotencyKey != db.processing[q].idempotencyKey)
    && (forall a, b :: a in db.attempts && b in db.attempts && a != b ==>
          && db.attempts[a].operationKey != db.attempts[b].operationKey
          && db.attempts[a].processingId != db.attempts[b].processingId)
  }

  /** Every database that stands for a store in lockstep satisfies every constraint of the
      schema: in particular a processing has at most one attempt of any number or state. */
  lemma EncodedDatabaseOk(s: Store)
    requires Lockstep(s)
    ensures DatabaseOk(Encode(s))
  {
    hide RowChecks, AttemptRowChecks, Lockstep, Paired, NonBlank, AttemptConstructs;
    var db := Encode(s);
    forall aid | aid in db.attempts
      ensures db.attempts[aid].attemptId == aid && db.attempts[aid].processingId in db.processing && AttemptRowChecks(db.attempts[aid])
    {
      StoredAttemptChecks(s, aid);
      AttemptKeys(s, aid, aid);
    }
    forall pid | pid in db.processing ensures db.processing[pid].id == pid && RowChecks(db.processing[pid]) {
      if AttemptOf(s, pid).Some? {
        StoredAttemptChecks(s, s.attemptOf[pid]);
      }
      StoredRowChecks(s, pid);
      RecordKeys(s, pid, pid);
    }
    forall p, q | p in db.processing && q in db.processing && p != q
      ensures db.processing[p].idempotencyScope != db.processing[q].idempotencyScope
              || db.processing[p].idempotencyKey != db.processing[q].idempotencyKey
    {
      RecordKeys(s, p, q);
    }
    forall a, b | a in db.attempts && b in db.attempts && a != b
      ensures db.attempts[a].operationKey != db.attempts[b].operationKey && db.attempts[a].processingId != db.attempts[b].processingId
    {
      AttemptKeys(s, a, b);
    }
  }

  lemma RecordKeys(s: Store, p: nat, q: nat)
    requires Lockstep(s) && p in s.records && q in s.records
    ensures s.records[p].processingId == p && s.records[p].identity.Some? && s.records[q].identity.Some?
    ensures p != q ==> (s.records[p].identity.value.scope, s.records[p].identity.value.key)
                       != (s.records[q].identity.value.scope, s.records[q].identity.value.key)
  {
    hide IndexesOk, AttemptOk, Tidy, VisibleKey, AlertValid, AttemptOf, Paired, RecordConstructs;
    assert RecordOk(s, p) && RecordOk(s, q);
  }

  lemma AttemptKeys(s: Store, a: nat, b: nat)
    requires Lockstep(s) && a in s.attempts && b in s.attempts
    ensures s.attempts[a].attemptId == a && s.attempts[a].processingId in s.records
    ensures a != b ==> s.attempts[a].operationKey != s.attempts[b].operationKey && s.attempts[a].processingId != s.attempts[b].processingId
  {
    hide RecordOk, KeyIndexOk, AttemptConstructs, AttemptTidy;
    assert AttemptOk(s, a) && AttemptOk(s, b);
  }
}
