/** What is stored is what the environment answered. The answers of planning, submit, poll and
    collect calls along a run are collected by processing and attempt; in every reachable world
    each stored plan, identifier, result and failure has the answer that calls for it. Nothing
    here mentions how the program branches on an answer. */
module Answers {
  import opened Domain
  import opened Lifecycle
  import opened Repository
  import opened RepositoryInvariant
  import opened Protocol
  import opened ProtocolInvariant
  import opened ProtocolSteps
  import opened ProtocolTheorems

  datatype Answer =
    | PlanAnswer(pid: nat, plan: PlanOutcome)
    | SubmitAnswer(aid: nat, outcome: SubmitOutcome)
    | PollAnswer(aid: nat, poll: PollOutcome)
    | CollectAnswer(aid: nat, collect: CollectOutcome)

  /** The answer an event brings, to the call the worker stands at. */
  function Heard(w: World, e: Event): set<Answer> {
    if !e.Move? then {}
    else
      match At(w, e.worker)
      case Advance(rec) => {PlanAnswer(rec.processingId, e.oracle.plan)}
      case Calling(_, att) => {SubmitAnswer(att.attemptId, e.oracle.submit)}
      case Polling(_, att) => {PollAnswer(att.attemptId, e.oracle.poll)}
      case Collecting(_, att) => {CollectAnswer(att.attemptId, e.oracle.collect)}
      case _ => {}
  }

  function History(w: World, events: seq<Event>): set<Answer>
    decreases |events|
  {
    if events == [] then {} else Heard(w, events[0]) + History(Apply(w, events[0]), events[1..])
  }

  /** A poll of the attempt answered with this state. */
  ghost predicate PolledAs(h: set<Answer>, aid: nat, state: OperationState) {
    exists remote :: PollAnswer(aid, Polled(state, remote)) in h
  }

  predicate Category(error: Option<ErrorInfo>, category: string) {
    error.Some? && error.value.category == category
  }

  // ----- What answers account for

  ghost predicate AttemptBacked(h: set<Answer>, a: Attempt) {
    && (a.externalOperationId.Some? ==> SubmitAnswer(a.attemptId, CreatedOperation(a.externalOperationId.value)) in h)
    && (a.state == ACompleted ==> PolledAs(h, a.attemptId, Succeeded))
    && (a.state == AFailed && Category(a.error, "backend_execution_failed") ==> PolledAs(h, a.attemptId, OperationFailed))
    && (a.state == AFailed && Category(a.error, "backend_submission_failed") ==> SubmitAnswer(a.attemptId, RejectedSubmission) in h)
  }

  predicate OfProcessing(s: Store, aid: nat, pid: nat) {
    aid in s.attempts && s.attempts[aid].processingId == pid
  }

  ghost predicate CollectedFor(s: Store, h: set<Answer>, pid: nat, result: InvestigationResult) {
    exists aid :: CollectAnswer(aid, Collected(result)) in h && OfProcessing(s, aid, pid)
  }

  /** A planning failure by its category. */
  predicate FailureHeard(h: set<Answer>, pid: nat, error: Option<ErrorInfo>) {
    && (Category(error, "unsupported_capability") ==> PlanAnswer(pid, Unsupported) in h)
    && (Category(error, "backend_selection_error") ==> PlanAnswer(pid, Ambiguous) in h || PlanAnswer(pid, PlanningRaised) in h)
  }

  function PlanOf(r: Record): Plan
    requires HasPlan(r)
  {
    Plan(r.plannedDecision.value, r.plannedIncident.value, r.plannedRequest.value, r.selectedBackend.value)
  }

  ghost predicate RecordBacked(s: Store, h: set<Answer>, r: Record) {
    && (HasPlan(r) ==> PlanAnswer(r.processingId, InvestigatePlan(PlanOf(r))) in h)
    && (r.state == Completed && r.completedResult.Some? ==>
          if r.completedResult.value.investigation.None? then PlanAnswer(r.processingId, NoActionPlan(r.completedResult.value.decision)) in h
          else CollectedFor(s, h, r.processingId, r.completedResult.value.investigation.value))
    && (r.state == Failed && !HasPlan(r) ==> FailureHeard(h, r.processingId, r.error))
  }

  ghost predicate StoreBacked(s: Store, h: set<Answer>) {
    && (forall aid :: aid in s.attempts ==> AttemptBacked(h, s.attempts[aid]))
    && (forall pid :: pid in s.records ==> RecordBacked(s, h, s.records[pid]))
  }

  /** What a worker is about to write was answered. */
  ghost predicate PcBacked(h: set<Answer>, pc: Pc) {
    match pc
    case FailAccepted(rec, err, _) => FailureHeard(h, rec.processingId, Some(err))
    case StoreNoAction(rec, result) => result.investigation.None? && PlanAnswer(rec.processingId, NoActionPlan(result.decision)) in h
    case StorePlanned(rec, plan) => PlanAnswer(rec.processingId, InvestigatePlan(plan)) in h
    case FailRejected(_, att) => SubmitAnswer(att.attemptId, RejectedSubmission) in h
    case Mark(_, att, id) => SubmitAnswer(att.attemptId, CreatedOperation(id)) in h
    case RecordPolled(_, att, _, _, after) =>
      (after == ThenFail ==> PolledAs(h, att.attemptId, OperationFailed)) && (after == ThenCollect ==> PolledAs(h, att.attemptId, Succeeded))
    case FailExecution(_, att) => PolledAs(h, att.attemptId, OperationFailed)
    case Collect(_, att) => PolledAs(h, att.attemptId, Succeeded)
    case Collecting(_, att) => PolledAs(h, att.attemptId, Succeeded)
    case Complete(_, att, result) =>
      && PolledAs(h, att.attemptId, Succeeded) && result.investigation.Some?
      && CollectAnswer(att.attemptId, Collected(result.investigation.value)) in h
    case _ => true
  }

  ghost predicate Backed(w: World, h: set<Answer>) {
    StoreBacked(w.store, h) && forall i :: i in w.workers ==> PcBacked(h, w.workers[i].pc)
  }

  // ----- More answers, later stores

  lemma MoreAnswers(h: set<Answer>, g: set<Answer>, pc: Pc)
    requires PcBacked(h, pc) && h <= g
    ensures PcBacked(g, pc)
  {
  }

  lemma MoreForAttempt(h: set<Answer>, g: set<Answer>, a: Attempt)
    requires AttemptBacked(h, a) && h <= g
    ensures AttemptBacked(g, a)
  {
  }

  lemma MoreForRecord(s: Store, t: Store, h: set<Answer>, g: set<Answer>, r: Record)
    requires RecordBacked(s, h, r) && h <= g
    requires forall aid, pid :: OfProcessing(s, aid, pid) ==> OfProcessing(t, aid, pid)
    ensures RecordBacked(t, g, r)
  {
  }

  lemma ProcessingsKept(s: Store, t: Store)
    requires Evolves(s, t)
    ensures forall aid, pid :: OfProcessing(s, aid, pid) ==> OfProcessing(t, aid, pid)
  {
    hide RecordEvolves;
  }

  /** At most one record and one attempt change, and both have their answers. */
  lemma StoreStep(s: Store, t: Store, h: set<Answer>, pid: nat, aid: nat)
    requires StoreBacked(s, h) && Evolves(s, t)
    requires forall q :: q in t.records && q != pid ==> q in s.records && t.records[q] == s.records[q]
    requires forall a :: a in t.attempts && a != aid ==> a in s.attempts && t.attempts[a] == s.attempts[a]
    requires pid in t.records ==> RecordBacked(t, h, t.records[pid])
    requires aid in t.attempts ==> AttemptBacked(h, t.attempts[aid])
    ensures StoreBacked(t, h)
  {
    hide Evolves, RecordBacked, AttemptBacked;
    ProcessingsKept(s, t);
    forall q | q in t.records ensures RecordBacked(t, h, t.records[q]) {
      if q != pid {
        MoreForRecord(s, t, h, h, s.records[q]);
      }
    }
  }

  predicate OwnIds(s: Store) {
    && (forall pid :: pid in s.records ==> s.records[pid].processingId == pid)
    && (forall aid :: aid in s.attempts ==> s.attempts[aid].attemptId == aid)
  }

  lemma InvIds(w: World)
    requires Inv(w)
    ensures OwnIds(w.store)
  {
    hide Lockstep, RemoteOk, WorkersOk, TokensDistinct, RecordConstructs, AttemptConstructs, Paired, Tidy, AttemptTidy;
    forall pid | pid in w.store.records ensures w.store.records[pid].processingId == pid { Pairing(w.store, pid); }
    forall aid | aid in w.store.attempts ensures w.store.attempts[aid].attemptId == aid { PairOf(w.store, aid); }
  }

  // ----- Each call

  lemma StoredRecord(s: Store, h: set<Answer>, pid: nat)
    requires StoreBacked(s, h) && pid in s.records
    ensures RecordBacked(s, h, s.records[pid])
  {
  }

  lemma StoredAttempt(s: Store, h: set<Answer>, aid: nat)
    requires StoreBacked(s, h) && aid in s.attempts
    ensures AttemptBacked(h, s.attempts[aid])
  {
  }

  lemma FailBacked(s: Store, h: set<Answer>, pid: nat, expected: set<ProcessingState>, err: ErrorInfo, aid: Option<nat>, now: int)
    requires StoreBacked(s, h) && OwnIds(s)
    requires pid in s.records && s.records[pid].state in expected && !HasPlan(s.records[pid]) ==> FailureHeard(h, pid, Some(err))
    requires aid.Some? && err.category == "backend_execution_failed" ==> PolledAs(h, aid.value, OperationFailed)
    requires aid.Some? && err.category == "backend_submission_failed" ==> SubmitAnswer(aid.value, RejectedSubmission) in h
    requires Evolves(s, FailProcessing(s, pid, expected, err, aid, now).0)
    ensures StoreBacked(FailProcessing(s, pid, expected, err, aid, now).0, h)
  {
    hide RecordConstructs, AttemptConstructs, StoreBacked, Evolves, PolledAs, FailureHeard, CollectedFor;
    var t := FailProcessing(s, pid, expected, err, aid, now).0;
    if t != s {
      StoredRecord(s, h, pid);
      if aid.Some? {
        StoredAttempt(s, h, aid.value);
      }
      StoreStep(s, t, h, pid, if aid.Some? then aid.value else 0) by {
        if aid.None? && 0 in s.attempts {
          StoredAttempt(s, h, 0);
        }
      }
    }
  }

  lemma NoActionBacked(s: Store, h: set<Answer>, pid: nat, result: OrchestrationResult, now: int)
    requires StoreBacked(s, h) && OwnIds(s) && result.investigation.None? && PlanAnswer(pid, NoActionPlan(result.decision)) in h
    requires Evolves(s, StoreNoActionResult(s, pid, result, now).0)
    ensures StoreBacked(StoreNoActionResult(s, pid, result, now).0, h)
  {
    hide RecordConstructs, StoreBacked, Evolves, AttemptBacked, FailureHeard, CollectedFor;
    var t := StoreNoActionResult(s, pid, result, now).0;
    if t != s {
      StoredRecord(s, h, pid);
      if 0 in s.attempts {
        StoredAttempt(s, h, 0);
      }
      StoreStep(s, t, h, pid, 0);
    }
  }

  lemma PlanBacked(s: Store, h: set<Answer>, pid: nat, plan: Plan, aid: nat, key: nat, now: int)
    requires StoreBacked(s, h) && OwnIds(s) && PlanAnswer(pid, InvestigatePlan(plan)) in h
    requires Evolves(s, StorePlan(s, pid, plan, aid, key, now).0)
    ensures StoreBacked(StorePlan(s, pid, plan, aid, key, now).0, h)
  {
    hide RecordConstructs, AttemptConstructs, StoreBacked, Evolves, PolledAs, FailureHeard, CollectedFor;
    var t := StorePlan(s, pid, plan, aid, key, now).0;
    if t != s {
      StoredRecord(s, h, pid);
      StoreStep(s, t, h, pid, aid);
    }
  }

  /** The calls that write an attempt and then its record. */
  lemma PairBacked(s: Store, h: set<Answer>, a: Attempt, r: Record)
    requires StoreBacked(s, h) && Evolves(s, WriteAttemptThenRecord(s, a, r).0)
    requires a.attemptId in s.attempts && AttemptBacked(h, a) && RecordBacked(s, h, r) && r.processingId in s.records
    ensures StoreBacked(WriteAttemptThenRecord(s, a, r).0, h)
  {
    hide RecordConstructs, AttemptConstructs, StoreBacked, Evolves, AttemptBacked, RecordBacked;
    var t := WriteAttemptThenRecord(s, a, r).0;
    StoredRecord(s, h, r.processingId);
    StoredAttempt(s, h, a.attemptId);
    ProcessingsKept(s, t);
    MoreForRecord(s, t, h, h, r);
    MoreForRecord(s, t, h, h, s.records[r.processingId]);
    StoreStep(s, t, h, r.processingId, a.attemptId);
  }

  lemma ClaimBacked(s: Store, h: set<Answer>, aid: nat, now: int)
    requires StoreBacked(s, h) && OwnIds(s) && Evolves(s, ClaimAttempt(s, aid, now).0)
    ensures StoreBacked(ClaimAttempt(s, aid, now).0, h)
  {
    hide StoreBacked, Evolves, WriteAttemptThenRecord, PolledAs, FailureHeard, CollectedFor;
    if aid in s.attempts && s.attempts[aid].processingId in s.records {
      StoredAttempt(s, h, aid);
      StoredRecord(s, h, s.attempts[aid].processingId);
      var a, r := ClaimedAttempt(s.attempts[aid], now), s.records[s.attempts[aid].processingId].(state := Submitting, updatedAt := now);
      if Evolves(s, WriteAttemptThenRecord(s, a, r).0) {
        PairBacked(s, h, a, r);
      }
    }
  }

  lemma MarkBacked(s: Store, h: set<Answer>, aid: nat, id: string, now: int)
    requires StoreBacked(s, h) && OwnIds(s) && SubmitAnswer(aid, CreatedOperation(id)) in h && Evolves(s, MarkSubmitted(s, aid, id, now).0)
    ensures StoreBacked(MarkSubmitted(s, aid, id, now).0, h)
  {
    hide StoreBacked, Evolves, WriteAttemptThenRecord, PolledAs, FailureHeard, CollectedFor;
    if aid in s.attempts && s.attempts[aid].processingId in s.records {
      StoredAttempt(s, h, aid);
      StoredRecord(s, h, s.attempts[aid].processingId);
      var a, r := SubmittedAttempt(s.attempts[aid], id, now), s.records[s.attempts[aid].processingId].(state := Submitted, updatedAt := now);
      if Evolves(s, WriteAttemptThenRecord(s, a, r).0) {
        PairBacked(s, h, a, r);
      }
    }
  }

  lemma PollBacked(s: Store, h: set<Answer>, aid: nat, remote: string, error: Option<ErrorInfo>, now: int)
    requires StoreBacked(s, h) && OwnIds(s) && Evolves(s, RecordPoll(s, aid, remote, error, now).0)
    ensures StoreBacked(RecordPoll(s, aid, remote, error, now).0, h)
  {
    hide StoreBacked, Evolves, WriteAttemptThenRecord, PolledAs, FailureHeard, CollectedFor;
    if aid in s.attempts && s.attempts[aid].state == ASubmitted && s.attempts[aid].processingId in s.records
       && s.records[s.attempts[aid].processingId].state == Submitted
    {
      StoredAttempt(s, h, aid);
      StoredRecord(s, h, s.attempts[aid].processingId);
      PairBacked(s, h, PolledAttempt(s.attempts[aid], remote, error, now),
                 s.records[s.attempts[aid].processingId].(updatedAt := now, error := error));
    }
  }

  lemma RecoveryBacked(s: Store, h: set<Answer>, aid: nat, from: set<AttemptState>, err: ErrorInfo, now: int)
    requires StoreBacked(s, h) && OwnIds(s) && Evolves(s, MarkRecoveryRequired(s, aid, from, err, now).0)
    ensures StoreBacked(MarkRecoveryRequired(s, aid, from, err, now).0, h)
  {
    hide StoreBacked, Evolves, WriteAttemptThenRecord, PolledAs, FailureHeard, CollectedFor;
    if aid in s.attempts && s.attempts[aid].processingId in s.records {
      StoredAttempt(s, h, aid);
      StoredRecord(s, h, s.attempts[aid].processingId);
      var a, r := RecoveryAttempt(s.attempts[aid], err), RecoveryRecord(s.records[s.attempts[aid].processingId], err, now);
      if Evolves(s, WriteAttemptThenRecord(s, a, r).0) {
        PairBacked(s, h, a, r);
      }
    }
  }

  lemma CompleteBacked(s: Store, h: set<Answer>, aid: nat, result: OrchestrationResult, now: int)
    requires StoreBacked(s, h) && OwnIds(s) && PolledAs(h, aid, Succeeded) && result.investigation.Some?
    requires CollectAnswer(aid, Collected(result.investigation.value)) in h && Evolves(s, CompleteProcessing(s, aid, result, now).0)
    ensures StoreBacked(CompleteProcessing(s, aid, result, now).0, h)
  {
    hide RecordConstructs, AttemptConstructs, StoreBacked, Evolves, PolledAs, FailureHeard;
    var t := CompleteProcessing(s, aid, result, now).0;
    if t != s {
      var pid := s.attempts[aid].processingId;
      StoredAttempt(s, h, aid);
      StoredRecord(s, h, pid);
      assert OfProcessing(t, aid, pid);
      assert CollectedFor(t, h, pid, result.investigation.value);
      StoreStep(s, t, h, pid, aid);
    }
  }

  // ----- Each step

  lemma PlannedHasPlan(s: Store, pid: nat)
    requires Lockstep(s) && pid in s.records && s.records[pid].state == Planned
    ensures HasPlan(s.records[pid])
  {
    hide IndexesOk, Paired, Tidy, VisibleKey, AlertValid;
    assert RecordOk(s, pid);
  }

  /** Failures with an attempt: the category says what must have been answered. */
  lemma AttemptFailureBacked(s: Store, h: set<Answer>, pid: nat, from: ProcessingState, err: ErrorInfo, aid: nat, now: int)
    requires StoreBacked(s, h) && OwnIds(s) && Lockstep(s)
    requires (from == Planned && err == ERR_UNCONFIGURED)
             || (err == ERR_REJECTED && SubmitAnswer(aid, RejectedSubmission) in h)
             || (err == ERR_EXECUTION && PolledAs(h, aid, OperationFailed))
    requires Evolves(s, FailProcessing(s, pid, {from}, err, Some(aid), now).0)
    ensures StoreBacked(FailProcessing(s, pid, {from}, err, Some(aid), now).0, h)
  {
    Categories();
    hide StoreBacked, OwnIds, Lockstep, Evolves, FailProcessing, PolledAs, HasPlan;
    if pid in s.records && s.records[pid].state == Planned {
      PlannedHasPlan(s, pid);
    }
    FailBacked(s, h, pid, {from}, err, Some(aid), now);
  }

  lemma Categories()
    ensures |ERR_UNCONFIGURED.category| == 23 && |ERR_REJECTED.category| == 25 && |ERR_EXECUTION.category| == 24
    ensures |"unsupported_capability"| == 22 && |"backend_selection_error"| == 23
    ensures |"backend_execution_failed"| == 24 && |"backend_submission_failed"| == 25
  {
  }

  /** A failure with no attempt fails no attempt. */
  lemma PlanningFailureBacked(s: Store, h: set<Answer>, pid: nat, err: ErrorInfo, now: int)
    requires StoreBacked(s, h) && OwnIds(s) && FailureHeard(h, pid, Some(err)) && Evolves(s, FailProcessing(s, pid, {Accepted}, err, None, now).0)
    ensures StoreBacked(FailProcessing(s, pid, {Accepted}, err, None, now).0, h)
  {
    hide StoreBacked, OwnIds, Evolves, FailProcessing, FailureHeard;
    FailBacked(s, h, pid, {Accepted}, err, None, now);
  }

  lemma BackedParts(w: World, h: set<Answer>, i: nat)
    requires Inv(w) && Backed(w, h) && i in w.workers
    ensures StoreBacked(w.store, h) && PcBacked(h, At(w, i)) && Lockstep(w.store)
  {
    hide StoreBacked, PcBacked, Lockstep, RemoteOk, WorkersOk, TokensDistinct;
  }

  predicate Fails(pc: Pc) {
    pc.FailAccepted? || pc.FailPlanned? || pc.FailRejected? || pc.FailExecution?
  }

  lemma FailWriteBacked(w: World, i: nat, o: Oracle, h: set<Answer>)
    requires Writes(At(w, i)) && StoreBacked(w.store, h) && PcBacked(h, At(w, i)) && OwnIds(w.store) && Lockstep(w.store)
    requires o.ack != NotCommitted && Evolves(w.store, WriteStep(w, i, o).store)
    requires Fails(At(w, i))
    ensures StoreBacked(WriteStep(w, i, o).store, h)
  {
    hide Inv, Backed, StoreBacked, OwnIds, Evolves, PolledAs, FailureHeard, OrReread, AfterMark, AfterRecordPoll, Lockstep;
    hide FailProcessing, StoreNoActionResult, StorePlan, ClaimAttempt, MarkSubmitted, RecordPoll, MarkRecoveryRequired, CompleteProcessing;
    var s := w.store;
    match At(w, i)
    case FailAccepted(rec, err, _) => PlanningFailureBacked(s, h, rec.processingId, err, o.now);
    case FailPlanned(rec, att) => AttemptFailureBacked(s, h, rec.processingId, Planned, ERR_UNCONFIGURED, att.attemptId, o.now);
    case FailRejected(rec, att) => AttemptFailureBacked(s, h, rec.processingId, Submitting, ERR_REJECTED, att.attemptId, o.now);
    case FailExecution(rec, att) => AttemptFailureBacked(s, h, rec.processingId, Submitted, ERR_EXECUTION, att.attemptId, o.now);
  }

  lemma OtherWriteBacked(w: World, i: nat, o: Oracle, h: set<Answer>)
    requires Writes(At(w, i)) && StoreBacked(w.store, h) && PcBacked(h, At(w, i)) && OwnIds(w.store) && Lockstep(w.store)
    requires o.ack != NotCommitted && Evolves(w.store, WriteStep(w, i, o).store)
    requires !Fails(At(w, i))
    ensures StoreBacked(WriteStep(w, i, o).store, h)
  {
    hide Inv, Backed, StoreBacked, OwnIds, Evolves, PolledAs, FailureHeard, OrReread, AfterMark, AfterRecordPoll, Lockstep;
    hide FailProcessing, StoreNoActionResult, StorePlan, ClaimAttempt, MarkSubmitted, RecordPoll, MarkRecoveryRequired, CompleteProcessing;
    var s := w.store;
    match At(w, i)
    case StoreNoAction(rec, result) => NoActionBacked(s, h, rec.processingId, result, o.now);
    case StorePlanned(rec, plan) => PlanBacked(s, h, rec.processingId, plan, o.attemptId, o.operationKey, o.now);
    case Claim(_, att) => ClaimBacked(s, h, att.attemptId, o.now);
    case Mark(_, att, id) => MarkBacked(s, h, att.attemptId, id, o.now);
    case Recover(_, aid, from, err, _) => RecoveryBacked(s, h, aid, {from}, err, o.now);
    case RecordPolled(_, att, remote, pollError, _) => PollBacked(s, h, att.attemptId, remote, pollError, o.now);
    case Complete(_, att, result) => CompleteBacked(s, h, att.attemptId, result, o.now);
  }

  lemma UncommittedWrite(w: World, i: nat, o: Oracle)
    requires Writes(At(w, i)) && o.ack == NotCommitted
    ensures WriteStep(w, i, o).store == w.store
  {
    hide FailProcessing, StoreNoActionResult, StorePlan, ClaimAttempt, MarkSubmitted, RecordPoll, MarkRecoveryRequired, CompleteProcessing;
  }

  lemma WriteBacked(w: World, i: nat, o: Oracle, h: set<Answer>)
    requires Inv(w) && Backed(w, h) && i in w.workers && Writes(At(w, i)) && Evolves(w.store, WriteStep(w, i, o).store)
    ensures StoreBacked(WriteStep(w, i, o).store, h)
  {
    BackedParts(w, h, i);
    InvIds(w);
    hide Inv, Backed, StoreBacked, PcBacked, OwnIds, Evolves, Lockstep, WriteStep;
    if o.ack == NotCommitted {
      UncommittedWrite(w, i, o);
    } else if Fails(At(w, i)) {
      FailWriteBacked(w, i, o, h);
    } else {
      OtherWriteBacked(w, i, o, h);
    }
  }

  /** Where a write leads needs no answer but those it had. */
  lemma AfterWriteBacked(w: World, i: nat, o: Oracle, h: set<Answer>)
    requires Writes(At(w, i)) && PcBacked(h, At(w, i))
    ensures PcBacked(h, At(WriteStep(w, i, o), i))
  {
    hide PolledAs, FailureHeard;
    hide FailProcessing, StoreNoActionResult, StorePlan, ClaimAttempt, MarkSubmitted, RecordPoll, MarkRecoveryRequired, CompleteProcessing;
  }

  lemma AfterReadBacked(w: World, i: nat, o: Oracle, h: set<Answer>)
    requires Reads(At(w, i))
    ensures PcBacked(h, At(ReadStep(w, i, o), i))
  {
    hide PolledAs, FailureHeard, GetAttemptForProcessing;
  }

  /** Where an answer leads is backed by that answer. */
  lemma AfterAnswerBacked(w: World, i: nat, o: Oracle, h: set<Answer>)
    requires !Writes(At(w, i)) && !Reads(At(w, i)) && PcBacked(h, At(w, i)) && Heard(w, Move(i, o)) <= h
    ensures PcBacked(h, At(LocalStep(w, i, o), i))
  {
    hide FailureHeard, CallRemote;
    Categories();
    PlanningCategories();
    var pc := At(w, i);
    if pc.Advance? {
      PlanBranchBacked(h, pc.rec, o.plan);
    } else if pc.Polling? {
      PollBranchBacked(h, pc.rec, pc.att, o.poll);
    }
  }

  lemma PlanningCategories()
    ensures ERR_UNSUPPORTED.category == "unsupported_capability" && ERR_AMBIGUOUS.category == "backend_selection_error"
    ensures ERR_PLANNING.category == "backend_selection_error" && |"unsupported_capability"| == 22 && |"backend_selection_error"| == 23
  {
  }

  lemma PlanBranchBacked(h: set<Answer>, rec: Record, p: PlanOutcome)
    requires PlanAnswer(rec.processingId, p) in h
    ensures PcBacked(h, AfterPlan(rec, p))
  {
    PlanningCategories();
  }

  lemma PollBranchBacked(h: set<Answer>, rec: Record, att: Attempt, p: PollOutcome)
    requires PollAnswer(att.attemptId, p) in h
    ensures PcBacked(h, AfterPolling(rec, att, p))
  {
    hide FailureHeard;
  }

  // ----- Events and runs

  /** What every step does to the other workers, and to the acting one. */
  lemma WorkersBacked(w: World, x: World, h: set<Answer>, g: set<Answer>, i: nat)
    requires Backed(w, h) && h <= g && StoreBacked(x.store, g) && i in x.workers && x.workers == w.workers[i := x.workers[i]]
    requires PcBacked(g, x.workers[i].pc)
    ensures Backed(x, g)
  {
    hide StoreBacked, PcBacked;
    forall k | k in x.workers ensures PcBacked(g, x.workers[k].pc) {
      if k != i {
        MoreAnswers(h, g, w.workers[k].pc);
      }
    }
  }

  lemma MoreForStore(s: Store, t: Store, h: set<Answer>, g: set<Answer>)
    requires StoreBacked(s, h) && h <= g && t == s
    ensures StoreBacked(t, g)
  {
    hide AttemptBacked, RecordBacked;
    forall aid | aid in t.attempts ensures AttemptBacked(g, t.attempts[aid]) { MoreForAttempt(h, g, s.attempts[aid]); }
    forall pid | pid in t.records ensures RecordBacked(t, g, t.records[pid]) { MoreForRecord(s, t, h, g, s.records[pid]); }
  }

  lemma AcceptBacked(s: Store, h: set<Answer>, pid: nat, alert: Alert, identity: Identity, now: int)
    requires StoreBacked(s, h)
    ensures StoreBacked(AcceptProcessing(s, pid, alert, identity, now).0, h)
  {
    hide RecordConstructs, VisibleKey, AttemptBacked, FailureHeard;
    var t := AcceptProcessing(s, pid, alert, identity, now).0;
    forall q | q in t.records ensures RecordBacked(t, h, t.records[q]) {
      if q in s.records && t.records[q] == s.records[q] {
        MoreForRecord(s, t, h, h, s.records[q]);
      }
    }
  }

  lemma MoveBacked(w: World, i: nat, o: Oracle, h: set<Answer>)
    requires Inv(w) && Enabled(w, Move(i, o)) && Backed(w, h)
    ensures Backed(Step(w, i, o), h + Heard(w, Move(i, o)))
  {
    var g, x := h + Heard(w, Move(i, o)), Step(w, i, o);
    MoveFrame(w, i, o);
    BackedParts(w, h, i);
    MoreAnswers(h, g, At(w, i));
    EventKeeps(w, Move(i, o));
    MoveStores(w, i, o);
    hide Inv, Backed, StoreBacked, PcBacked, Evolves, WriteStep, ReadStep, LocalStep, Heard, Enabled, OneStep;
    if Writes(At(w, i)) {
      WriteBacked(w, i, o, h);
      AfterWriteBacked(w, i, o, g);
    } else if Reads(At(w, i)) {
      AfterReadBacked(w, i, o, g);
    } else {
      AfterAnswerBacked(w, i, o, g);
    }
    MoreForStore(x.store, x.store, h, g);
    WorkersBacked(w, x, h, g, i);
  }

  lemma MoveFrame(w: World, i: nat, o: Oracle)
    requires Enabled(w, Move(i, o))
    ensures i in w.workers && i in Step(w, i, o).workers && Step(w, i, o).workers == w.workers[i := Step(w, i, o).workers[i]]
  {
    hide FailProcessing, StoreNoActionResult, StorePlan, ClaimAttempt, MarkSubmitted, RecordPoll, MarkRecoveryRequired, CompleteProcessing;
    hide OracleOk, GetAttemptForProcessing, AfterPlan, AfterSubmit, AfterCall, BeforePoll, AfterPolling, AfterCollecting, AfterFetch, AfterContext,
         AfterMark, AfterRecordPoll, OrReread, CallRemote;
  }

  lemma MoveStores(w: World, i: nat, o: Oracle)
    ensures Writes(At(w, i)) ==> Step(w, i, o) == WriteStep(w, i, o)
    ensures Reads(At(w, i)) ==> Step(w, i, o) == ReadStep(w, i, o) && ReadStep(w, i, o).store == w.store
    ensures !Writes(At(w, i)) && !Reads(At(w, i)) ==> Step(w, i, o) == LocalStep(w, i, o) && LocalStep(w, i, o).store == w.store
  {
    hide WriteStep, GetAttemptForProcessing, AfterPlan, AfterSubmit, AfterCall, BeforePoll, AfterPolling, AfterCollecting, AfterFetch, AfterContext, CallRemote;
  }

  /** One event: what it stores and where it leads is backed by the answers so far. */
  lemma EventBacked(w: World, e: Event, h: set<Answer>)
    requires Inv(w) && Enabled(w, e) && Backed(w, h)
    ensures Backed(Apply(w, e), h + Heard(w, e))
  {
    hide Inv, StoreBacked, Step, AcceptProcessing, OracleOk;
    var x, g := Apply(w, e), h + Heard(w, e);
    if e.Move? {
      MoveBacked(w, e.worker, e.oracle, h);
    } else {
      assert g == h;
      if e.BeginProcess? {
        AcceptBacked(w.store, h, e.pid, e.alert, Identity(e.alert.source.source, e.key, 1, e.fingerprint), e.oracle.now);
      }
      if !e.LateFlow? {
        WorkersBacked(w, x, h, g, e.worker);
      }
    }
  }

  lemma {:induction false} RunBacked(w: World, events: seq<Event>, h: set<Answer>)
    requires Inv(w) && CanRun(w, events) && Backed(w, h)
    ensures Backed(Run(w, events), h + History(w, events))
    decreases |events|
  {
    hide Inv, Enabled, Backed, Apply, Heard;
    if events == [] {
      assert h + {} == h;
    } else {
      EventBacked(w, events[0], h);
      EventKeeps(w, events[0]);
      RunBacked(Apply(w, events[0]), events[1..], h + Heard(w, events[0]));
      assert h + Heard(w, events[0]) + History(Apply(w, events[0]), events[1..]) == h + History(w, events);
    }
  }

  // ----- The theorems

  lemma ReachableBacked(clock: int, events: seq<Event>)
    requires CanRun(InitialWorld(clock), events)
    ensures Backed(Run(InitialWorld(clock), events), History(InitialWorld(clock), events))
    ensures Inv(Run(InitialWorld(clock), events))
  {
    var w := InitialWorld(clock);
    assert Backed(w, {});
    hide Backed, CanRun, Run, History, Inv;
    ReachableInv(clock, events);
    InitialInv(clock);
    RunBacked(w, events, {});
    assert {} + History(w, events) == History(w, events);
  }

  /** In every reachable world: a completed record that has an attempt was polled as succeeded
      and its result was collected; one failed by the execution was polled as failed; one failed
      by the submission was rejected; and a stored identifier is the one `submit` returned. */
  lemma RemoteFactsAnswered(clock: int, events: seq<Event>, pid: nat)
    requires CanRun(InitialWorld(clock), events) && pid in Run(InitialWorld(clock), events).store.records
    ensures var s, h := Run(InitialWorld(clock), events).store, History(InitialWorld(clock), events);
            var r, a := s.records[pid], AttemptOf(s, pid);
            && (a.Some? && r.state == Completed ==>
                  && PolledAs(h, a.value.attemptId, Succeeded) && r.completedResult.Some? && r.completedResult.value.investigation.Some?
                  && CollectAnswer(a.value.attemptId, Collected(r.completedResult.value.investigation.value)) in h)
            && (r.state == Failed && Category(r.error, "backend_execution_failed") ==> a.Some? && PolledAs(h, a.value.attemptId, OperationFailed))
            && (r.state == Failed && Category(r.error, "backend_submission_failed") ==>
                  a.Some? && SubmitAnswer(a.value.attemptId, RejectedSubmission) in h)
            && (a.Some? && a.value.externalOperationId.Some? ==>
                  SubmitAnswer(a.value.attemptId, CreatedOperation(a.value.externalOperationId.value)) in h)
  {
    hide CanRun, Run, History, Inv, Lockstep;
    ReachableBacked(clock, events);
    var w, h := Run(InitialWorld(clock), events), History(InitialWorld(clock), events);
    FactsOf(w, h, pid);
  }

  lemma FactsOf(w: World, h: set<Answer>, pid: nat)
    requires Inv(w) && Backed(w, h) && pid in w.store.records
    ensures var r, a := w.store.records[pid], AttemptOf(w.store, pid);
            && (a.Some? && r.state == Completed ==>
                  && PolledAs(h, a.value.attemptId, Succeeded) && r.completedResult.Some? && r.completedResult.value.investigation.Some?
                  && CollectAnswer(a.value.attemptId, Collected(r.completedResult.value.investigation.value)) in h)
            && (r.state == Failed && Category(r.error, "backend_execution_failed") ==> a.Some? && PolledAs(h, a.value.attemptId, OperationFailed))
            && (r.state == Failed && Category(r.error, "backend_submission_failed") ==>
                  a.Some? && SubmitAnswer(a.value.attemptId, RejectedSubmission) in h)
            && (a.Some? && a.value.externalOperationId.Some? ==>
                  SubmitAnswer(a.value.attemptId, CreatedOperation(a.value.externalOperationId.value)) in h)
  {
    hide RemoteOk, WorkersOk, TokensDistinct, Lockstep, PolledAs, FailureHeard, RecordConstructs, AttemptConstructs, PlanCoherent, InvestigationValid,
         NoActionFrom, Tidy, AttemptTidy, PcBacked;
    Categories();
    Pairing(w.store, pid);
    StoredRecord(w.store, h, pid);
    if AttemptOf(w.store, pid).Some? {
      StoredAttempt(w.store, h, w.store.attemptOf[pid]);
      OneAttempt(w.store, pid);
    }
  }

  /** A processing has one attempt only. */
  lemma OneAttempt(s: Store, pid: nat)
    requires Lockstep(s) && pid in s.attemptOf
    ensures s.attemptOf[pid] in s.attempts && s.attempts[s.attemptOf[pid]].attemptId == s.attemptOf[pid]
    ensures forall aid :: OfProcessing(s, aid, pid) ==> aid == s.attemptOf[pid]
  {
    hide RecordOk, AttemptConstructs, AttemptTidy, KeyIndexOk, OperationKeysOk;
    forall aid | OfProcessing(s, aid, pid) ensures aid == s.attemptOf[pid] {
      assert AttemptOk(s, aid);
    }
    assert AttemptOk(s, s.attemptOf[pid]);
  }

  /** And a stored plan is one that was made for the processing; a completion without
      investigation and each planning failure were planned. */
  lemma PlansAnswered(clock: int, events: seq<Event>, pid: nat)
    requires CanRun(InitialWorld(clock), events) && pid in Run(InitialWorld(clock), events).store.records
    ensures var s, h := Run(InitialWorld(clock), events).store, History(InitialWorld(clock), events);
            var r := s.records[pid];
            && (HasPlan(r) ==> PlanAnswer(pid, InvestigatePlan(PlanOf(r))) in h)
            && (r.state == Completed && AttemptOf(s, pid).None? ==>
                  r.completedResult.Some? && PlanAnswer(pid, NoActionPlan(r.completedResult.value.decision)) in h)
            && (r.state == Failed && Category(r.error, "unsupported_capability") ==> PlanAnswer(pid, Unsupported) in h)
            && (r.state == Failed && AttemptOf(s, pid).None? && Category(r.error, "backend_selection_error") ==>
                  PlanAnswer(pid, Ambiguous) in h || PlanAnswer(pid, PlanningRaised) in h)
  {
    hide CanRun, Run, History, Inv, Lockstep;
    ReachableBacked(clock, events);
    PlansOf(Run(InitialWorld(clock), events), History(InitialWorld(clock), events), pid);
  }

  lemma PlansOf(w: World, h: set<Answer>, pid: nat)
    requires Inv(w) && Backed(w, h) && pid in w.store.records
    ensures var r := w.store.records[pid];
            && (HasPlan(r) ==> PlanAnswer(pid, InvestigatePlan(PlanOf(r))) in h)
            && (r.state == Completed && AttemptOf(w.store, pid).None? ==>
                  r.completedResult.Some? && PlanAnswer(pid, NoActionPlan(r.completedResult.value.decision)) in h)
            && (r.state == Failed && Category(r.error, "unsupported_capability") ==> PlanAnswer(pid, Unsupported) in h)
            && (r.state == Failed && AttemptOf(w.store, pid).None? && Category(r.error, "backend_selection_error") ==>
                  PlanAnswer(pid, Ambiguous) in h || PlanAnswer(pid, PlanningRaised) in h)
  {
    hide RemoteOk, WorkersOk, TokensDistinct, Lockstep, PolledAs, RecordConstructs, AttemptConstructs, PlanCoherent, InvestigationValid,
         DecisionValid, Tidy, AttemptTidy, PcBacked;
    Categories();
    Pairing(w.store, pid);
    StoredRecord(w.store, h, pid);
    if AttemptOf(w.store, pid).Some? && w.store.records[pid].state == Failed {
      FailedCategories(w, pid);
    }
  }

  /** With an attempt, a failure is none of planning's first kind. */
  lemma FailedCategories(w: World, pid: nat)
    requires Inv(w) && pid in w.store.records && AttemptOf(w.store, pid).Some? && w.store.records[pid].state == Failed
    ensures !Category(w.store.records[pid].error, "unsupported_capability")
  {
    hide Lockstep, WorkersOk, TokensDistinct, LookupsOk, CallsOk, FlowsOk, RecordConstructs, AttemptConstructs, Matches, NoFlow;
    Categories();
    Pairing(w.store, pid);
    assert Accounted(w.remote, w.store.attempts[w.store.attemptOf[pid]]);
  }
}
