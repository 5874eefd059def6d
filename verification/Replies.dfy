/** What a caller may conclude from the reply of a repository call: the record it shows is the
    one stored at that moment, of the processing asked about, and in the state written. */
module Replies {
  import opened Domain
  import opened Lifecycle
  import R = Repository
  import opened RepositoryInvariant
  import P = Protocol
  import opened ProtocolInvariant
  import opened ProtocolSteps

  /** `r` is a version of the same processing as `record`. */
  predicate Follows(r: Record, record: Record) {
    r.processingId == record.processingId && r.identity == record.identity
  }

  predicate CategoryIs(error: Option<ErrorInfo>, category: Option<string>) {
    if category.None? then error.None? else error.Some? && error.value.category == category.value
  }

  /** The stored record is in this state, with an error of this category or none. */
  predicate EndsIn(s: R.Store, pid: nat, st: ProcessingState, category: Option<string>) {
    pid in s.records && s.records[pid].state == st && CategoryIs(s.records[pid].error, category)
  }

  /** A reply that carries a record carries the stored one. */
  predicate Shown(s: R.Store, reply: R.Reply<Option<Record>>, record: Record, st: ProcessingState, category: Option<string>) {
    reply.Returned? && reply.value.Some? ==>
      && R.Get(s, record.processingId) == reply.value && Follows(reply.value.value, record)
      && EndsIn(s, record.processingId, st, category)
  }

  /** The record of a snapshot is stored, under its own identifier and with its identity. */
  lemma SnapFollows(w: P.World, i: nat, o: P.Oracle)
    requires Moving(w, i, o) && !P.At(w, i).NextItem?
    ensures Known(w.store, P.At(w, i).rec)
  {
    MovingPc(w, i, o);
    SomeSnap(w.store, w.remote, P.At(w, i));
    hide PcOk, RemoteOk, WorkersOk, TokensDistinct, R.IndexesOk, R.AttemptOk, R.Paired, R.Tidy, RecordConstructs, AlertValid, R.VisibleKey;
    assert R.RecordOk(w.store, P.At(w, i).rec.processingId);
  }

  lemma SomeSnap(s: R.Store, m: P.Remote, pc: P.Pc)
    requires PcOk(s, m, pc) && !pc.Idle? && !pc.NextItem?
    ensures RecordSnap(s, pc.rec)
  {
    hide RecordSnap, AttemptSnap, Owns, NoFlow, TokenOk, PlanCoherent, R.NoActionFrom, ResultFromSnap, R.ErrorTextOk, R.RemoteTextOk, OperationIdOk, CanRead;
  }

  /** The record is stored, as a later version of the snapshot. */
  predicate Known(s: R.Store, record: Record) {
    && record.processingId in s.records && Follows(s.records[record.processingId], record)
    && (s.records[record.processingId].state == Accepted ==> s.records[record.processingId].error.None?)
  }

  lemma FailShows(s: R.Store, record: Record, expected: set<ProcessingState>, err: ErrorInfo, aid: Option<nat>, now: int)
    requires Known(s, record)
    ensures var (t, r) := R.FailProcessing(s, record.processingId, expected, err, aid, now); Shown(t, r, record, Failed, Some(err.category))
  {
    hide RecordConstructs, AttemptConstructs;
  }

  lemma NoActionShows(s: R.Store, record: Record, result: OrchestrationResult, now: int)
    requires Known(s, record)
    ensures var (t, r) := R.StoreNoActionResult(s, record.processingId, result, now);
            Shown(t, r, record, Completed, None) && (r.Returned? && r.value.Some? ==> r.value.value.completedResult == Some(result))
  {
    hide RecordConstructs;
  }

  /** The stored plan and its attempt. */
  predicate PlanShown(s: R.Store, pair: R.PlannedPair, record: Record, plan: R.Plan) {
    var r := pair.record;
    && R.Get(s, record.processingId) == Some(r) && Follows(r, record) && r.state == Planned
    && r.plannedDecision == Some(plan.decision) && r.plannedIncident == Some(plan.incident)
    && r.plannedRequest == Some(plan.request) && r.selectedBackend == Some(plan.backend)
    && pair.attempt.attemptId in s.attempts && s.attempts[pair.attempt.attemptId] == pair.attempt
    && pair.attempt.processingId == record.processingId && pair.attempt.backend == plan.backend
  }

  lemma PlanShows(s: R.Store, record: Record, plan: R.Plan, aid: nat, key: nat, now: int)
    requires Known(s, record)
    ensures var (t, r) := R.StorePlan(s, record.processingId, plan, aid, key, now);
            r.Returned? && r.value.Some? ==> PlanShown(t, r.value.value, record, plan)
  {
    hide RecordConstructs, AttemptConstructs;
  }

  lemma ClaimShows(s: R.Store, aid: nat, now: int)
    requires aid in s.attempts ==> s.attempts[aid].attemptId == aid
    ensures var r := R.ClaimAttempt(s, aid, now).1; r.Returned? && r.value.Some? ==> r.value.value.attemptId == aid
  {
    hide R.WriteAttemptThenRecord;
  }

  /** The stored attempt carries the identifier. */
  predicate Marked(s: R.Store, aid: nat, externalId: string) {
    aid in s.attempts && s.attempts[aid].externalOperationId == Some(externalId)
  }

  lemma MarkShows(s: R.Store, aid: nat, externalId: string, now: int)
    requires aid in s.attempts ==> s.attempts[aid].attemptId == aid
    ensures var (t, r) := R.MarkSubmitted(s, aid, externalId, now);
            r.Returned? && r.value.Some? ==>
              r.value.value.attemptId == aid && r.value.value.externalOperationId == Some(externalId) && Marked(t, aid, externalId)
  {
    hide AttemptConstructs, RecordConstructs;
  }

  lemma RecoveryShows(s: R.Store, record: Record, aid: nat, from: set<AttemptState>, err: ErrorInfo, now: int)
    requires Known(s, record) && Owns(s, record, aid)
    ensures var (t, r) := R.MarkRecoveryRequired(s, aid, from, err, now); Shown(t, r, record, RecoveryRequired, Some(err.category))
  {
    hide AttemptConstructs, RecordConstructs;
  }

  function CategoryOf(error: Option<ErrorInfo>): Option<string> {
    if error.Some? then Some(error.value.category) else None
  }

  /** A poll recorded on a submitted record leaves it submitted, with the error given. */
  lemma PollShows(s: R.Store, record: Record, aid: nat, remote: string, error: Option<ErrorInfo>, now: int)
    requires Known(s, record) && Owns(s, record, aid)
    ensures var (t, r) := R.RecordPoll(s, aid, remote, error, now);
            r.Returned? && r.value.Some? ==> EndsIn(t, record.processingId, Submitted, CategoryOf(error))
  {
    hide AttemptConstructs, RecordConstructs;
  }

  lemma CompleteShows(s: R.Store, record: Record, aid: nat, result: OrchestrationResult, now: int)
    requires Known(s, record) && Owns(s, record, aid)
    ensures var (t, r) := R.CompleteProcessing(s, aid, result, now);
            Shown(t, r, record, Completed, None) && (r.Returned? && r.value.Some? ==> r.value.value.completedResult == Some(result))
  {
    hide AttemptConstructs, RecordConstructs;
  }

  // ----- Where the processor stands

  lemma OwnAttempt(w: P.World, i: nat, o: P.Oracle, aid: nat)
    requires Moving(w, i, o)
    ensures aid in w.store.attempts ==> w.store.attempts[aid].attemptId == aid
  {
    hide R.Lockstep, RemoteOk, WorkersOk, TokensDistinct, RecordConstructs, AttemptConstructs, R.Paired, R.Tidy, R.AttemptTidy;
    if aid in w.store.attempts {
      PairOf(w.store, aid);
    }
  }

  lemma RecoverOwns(w: P.World, i: nat, o: P.Oracle)
    requires Moving(w, i, o) && P.At(w, i).Recover?
    ensures Owns(w.store, P.At(w, i).rec, P.At(w, i).aid)
  {
    MovingPc(w, i, o);
    hide Moving, Inv, RecordSnap, Owns, R.ErrorTextOk;
  }

  lemma PairOwned(w: P.World, i: nat, o: P.Oracle)
    requires Moving(w, i, o) && (P.At(w, i).RecordPolled? || P.At(w, i).Complete?)
    ensures Owns(w.store, P.At(w, i).rec, P.At(w, i).att.attemptId)
  {
    MovingPc(w, i, o);
    PcOwns(w.store, w.remote, P.At(w, i));
  }

  lemma KnownFollows(s: R.Store, record: Record)
    requires Known(s, record)
    ensures record.processingId in s.records && Follows(s.records[record.processingId], record)
  {
  }

  lemma RecoveryReply(w: P.World, i: nat, o: P.Oracle, record: Record, aid: nat, from: AttemptState, err: ErrorInfo, reread: bool)
    requires Moving(w, i, o) && P.At(w, i) == P.Recover(record, aid, from, err, reread)
    ensures var (t, r) := R.MarkRecoveryRequired(w.store, aid, {from}, err, o.now); Shown(t, r, record, RecoveryRequired, Some(err.category))
  {
    SnapFollows(w, i, o);
    RecoverOwns(w, i, o);
    hide Moving, Known, Owns, Shown, R.MarkRecoveryRequired;
    RecoveryShows(w.store, record, aid, {from}, err, o.now);
  }

  lemma PollReply(w: P.World, i: nat, o: P.Oracle, record: Record, attempt: Attempt, remote: string, error: Option<ErrorInfo>, after: P.AfterPoll)
    requires Moving(w, i, o) && P.At(w, i) == P.RecordPolled(record, attempt, remote, error, after)
    ensures var (t, r) := R.RecordPoll(w.store, attempt.attemptId, remote, error, o.now);
            r.Returned? && r.value.Some? ==> EndsIn(t, record.processingId, Submitted, CategoryOf(error))
  {
    SnapFollows(w, i, o);
    PairOwned(w, i, o);
    hide Moving, Known, Owns, EndsIn, R.RecordPoll;
    PollShows(w.store, record, attempt.attemptId, remote, error, o.now);
  }

  lemma FailReply(w: P.World, i: nat, o: P.Oracle, record: Record, expected: set<ProcessingState>, err: ErrorInfo, aid: Option<nat>)
    requires Moving(w, i, o) && !P.At(w, i).NextItem? && P.At(w, i).rec == record
    ensures var (t, r) := R.FailProcessing(w.store, record.processingId, expected, err, aid, o.now); Shown(t, r, record, Failed, Some(err.category))
  {
    SnapFollows(w, i, o);
    hide Moving, Known, Shown, R.FailProcessing;
    FailShows(w.store, record, expected, err, aid, o.now);
  }

  lemma SnapPlan(s: R.Store, record: Record)
    requires RecordSnap(s, record) && (record.state == Planned || record.state == Submitted)
    ensures record.Request().Some? && record.selectedBackend.Some?
  {
    hide R.RecordEvolves;
  }

  /** The attempt of a submitted record names its operation. */
  lemma FetchedOperation(w: P.World, pid: nat)
    requires Inv(w)
    ensures var reply := R.GetAttemptForProcessing(w.store, pid);
            reply.Returned? && reply.value.Some? && pid in w.store.records && w.store.records[pid].state == Submitted ==>
              reply.value.value.externalOperationId.Some?
  {
    hide RemoteOk, WorkersOk, TokensDistinct, RecordConstructs, R.Matches, R.Tidy, R.AttemptTidy, R.KeyIndexOk, R.OperationKeysOk;
    if pid in w.store.records && pid in w.store.attemptOf {
      Pairing(w.store, pid);
      PairOf(w.store, w.store.attemptOf[pid]);
    }
  }

  // ----- Replies with a record

  /** `reply` is about the same processing. */
  predicate Tells(reply: R.Reply<Record>, record: Record) {
    reply.Returned? ==> Follows(reply.value, record)
  }

  /** And shows what is stored. */
  predicate Current(s: R.Store, reply: R.Reply<Record>) {
    reply.Returned? ==> R.Get(s, reply.value.processingId) == Some(reply.value)
  }

  /** A write that answered with a record has nothing left to read. */
  predicate Carries(s: R.Store, written: R.Reply<Option<Record>>, record: Record) {
    written.Returned? && written.value.Some? ==> R.Get(s, record.processingId) == written.value && Follows(written.value.value, record)
  }

  /** The snapshots name the request, the backend and the operation. */
  predicate Ready(record: Record, attempt: Attempt)
    ensures Ready(record, attempt) ==> record.selectedBackend.Some?
  {
    record.Request().Some? && record.selectedBackend.Some? && attempt.externalOperationId.Some?
  }

  /** The first lookup since then was of this operation. */
  predicate Looked(before: seq<(nat, string)>, after: seq<(nat, string)>, attempt: Attempt)
    requires attempt.externalOperationId.Some?
  {
    before + [(attempt.attemptId, attempt.externalOperationId.value)] <= after
  }

  /** The result of an operation, put together with the plan of its record. */
  function ResultFor(record: Record, result: InvestigationResult): OrchestrationResult
    requires record.Decision().Some?
  {
    OrchestrationResult(record.Decision().value, record.Incident(), record.Request(), Some(result))
  }

  /** The backend answered with a result of its own that completes the plan. */
  predicate Usable(record: Record, collected: P.CollectOutcome)
    ensures Usable(record, collected) ==> collected.Collected? && record.Decision().Some?
  {
    && collected.Collected? && record.selectedBackend == Some(collected.result.backend)
    && record.Decision().Some? && record.Incident().Some? && ResultValid(ResultFor(record, collected.result))
  }
}
