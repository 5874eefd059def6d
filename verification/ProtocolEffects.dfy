/** What one write does to the record it is about when the repository answers: it applies
    exactly where the record is in the expected state, and otherwise changes nothing. */
module ProtocolEffects {
  import opened Domain
  import opened Lifecycle
  import opened Repository
  import opened RepositoryInvariant
  import opened Protocol
  import opened ProtocolInvariant
  import opened ProtocolSteps

  /** The repository commits and answers, new identifiers are unused, the clock does not run
      backwards. */
  predicate Friendly(w: World, o: Oracle) {
    && o.ack == Acknowledged && w.clock <= o.now
    && o.attemptId !in w.store.attempts && o.operationKey !in w.store.operationKeys
    && (o.plan.InvestigatePlan? ==> NonBlank(o.plan.plan.backend))
  }

  /** The state a write finds the record in when it applies, and the state it leaves. */
  function Expects(pc: Pc): ProcessingState
    requires Writes(pc)
  {
    match pc
    case FailPlanned(_, _) => Planned
    case Claim(_, _) => Planned
    case FailRejected(_, _) => Submitting
    case Mark(_, _, _) => Submitting
    case Recover(_, _, from, _, _) => SameName(from)
    case RecordPolled(_, _, _, _, _) => Submitted
    case FailExecution(_, _) => Submitted
    case Complete(_, _, _) => Submitted
    case _ => Accepted
  }

  function Becomes(pc: Pc): ProcessingState
    requires Writes(pc)
  {
    match pc
    case StoreNoAction(_, _) => Completed
    case StorePlanned(_, _) => Planned
    case Claim(_, _) => Submitting
    case Mark(_, _, _) => Submitted
    case Recover(_, _, _, _, _) => RecoveryRequired
    case RecordPolled(_, _, _, _, _) => Submitted
    case Complete(_, _, _) => Completed
    case _ => Failed
  }

  /** Where the program stands after the write: `applied` says whether it took effect. */
  predicate Answered(pc: Pc, applied: bool, next: Pc)
    requires Writes(pc)
  {
    match pc
    case StorePlanned(rec, _) =>
      if applied then next.Submit? && next.rec.processingId == rec.processingId && next.rec.state == Planned else next == Reread(rec)
    case Claim(rec, _) => if applied then next.Claimed? && next.rec == rec else next == Reread(rec)
    case Mark(rec, _, _) => if applied then next.RereadForPoll? && next.rec == rec else next == Reread(rec)
    case RecordPolled(rec, att, _, _, after) => next == AfterRecordPoll(rec, att, after, false)
    case FailAccepted(rec, _, reread) => next == if applied || !reread then NextItem else Reread(rec)
    case Recover(rec, _, _, _, reread) => next == if applied || !reread then NextItem else Reread(rec)
    case _ => next == if applied then NextItem else Reread(pc.rec)
  }

  predicate GivesIf<T>(reply: Reply<Option<T>>, applied: bool) {
    reply.Returned? && (applied <==> reply.value.Some?)
  }

  /** The repository returns, and returns a value exactly when the write took effect. */
  predicate Replied(s: Store, pc: Pc, o: Oracle, applied: bool)
    requires Writes(pc)
  {
    match pc
    case FailAccepted(rec, err, _) => GivesIf(FailProcessing(s, rec.processingId, {Accepted}, err, None, o.now).1, applied)
    case StoreNoAction(rec, result) => GivesIf(StoreNoActionResult(s, rec.processingId, result, o.now).1, applied)
    case StorePlanned(rec, plan) => GivesIf(StorePlan(s, rec.processingId, plan, o.attemptId, o.operationKey, o.now).1, applied)
    case FailPlanned(rec, att) => GivesIf(FailProcessing(s, rec.processingId, {Planned}, ERR_UNCONFIGURED, Some(att.attemptId), o.now).1, applied)
    case Claim(_, att) => GivesIf(ClaimAttempt(s, att.attemptId, o.now).1, applied)
    case FailRejected(rec, att) => GivesIf(FailProcessing(s, rec.processingId, {Submitting}, ERR_REJECTED, Some(att.attemptId), o.now).1, applied)
    case Mark(_, att, id) => GivesIf(MarkSubmitted(s, att.attemptId, id, o.now).1, applied)
    case Recover(_, aid, from, err, _) => GivesIf(MarkRecoveryRequired(s, aid, {from}, err, o.now).1, applied)
    case RecordPolled(_, att, remote, pollError, _) => GivesIf(RecordPoll(s, att.attemptId, remote, pollError, o.now).1, applied)
    case FailExecution(rec, att) => GivesIf(FailProcessing(s, rec.processingId, {Submitted}, ERR_EXECUTION, Some(att.attemptId), o.now).1, applied)
    case Complete(_, att, result) => GivesIf(CompleteProcessing(s, att.attemptId, result, o.now).1, applied)
  }

  /** Every record but one. */
  function Elsewhere(s: Store, pid: nat): map<nat, Record> {
    s.records - {pid}
  }

  ghost predicate Effect(w: World, i: nat, o: Oracle) {
    Writes(At(w, i)) &&
    var pc := At(w, i);
    var pid := pc.rec.processingId;
    var w' := WriteStep(w, i, o);
    && pid in w.store.records && pid in w'.store.records
    && var applied := w.store.records[pid].state == Expects(pc);
    && (applied ==> w'.store.records[pid].state == Becomes(pc) && w'.store.records[pid].updatedAt == o.now)
    && (!applied ==> w'.store == w.store)
    && Elsewhere(w'.store, pid) == Elsewhere(w.store, pid)
    && Answered(pc, applied, At(w', i)) && Replied(w.store, pc, o, applied)
  }

  /** The states of an attempt and of the record a snapshot pair belongs to agree. */
  lemma OwnedStates(w: World, rec: Record, aid: nat)
    requires Inv(w) && RecordSnap(w.store, rec) && Owns(w.store, rec, aid)
    ensures rec.processingId in w.store.records
    ensures w.store.records[rec.processingId].processingId == rec.processingId
    ensures w.store.attempts[aid].attemptId == aid
    ensures w.store.records[rec.processingId].state == SameName(w.store.attempts[aid].state)
  {
    hide Lockstep, Matches, RecordConstructs, AttemptConstructs, RemoteOk, WorkersOk, TokensDistinct, RecordEvolves;
    PairOf(w.store, aid);
  }

  lemma SnapStates(w: World, rec: Record, att: Attempt)
    requires Inv(w) && PairSnap(w.store, rec, att)
    ensures rec.processingId in w.store.records && att.attemptId in w.store.attempts
    ensures w.store.attempts[att.attemptId].attemptId == att.attemptId
    ensures w.store.attempts[att.attemptId].processingId == rec.processingId
    ensures w.store.records[rec.processingId].processingId == rec.processingId
    ensures w.store.records[rec.processingId].state == SameName(w.store.attempts[att.attemptId].state)
  {
    PairOwns(w.store, rec, att);
    hide Inv, RecordSnap, AttemptSnap;
    OwnedStates(w, rec, att.attemptId);
  }

  lemma FailAcceptedEffect(w: World, i: nat, o: Oracle)
    requires Moving(w, i, o) && At(w, i).FailAccepted? && Friendly(w, o)
    ensures Effect(w, i, o)
  {
    hide Lockstep, Advances, RemoteOk, TokensDistinct, TodoOk, RecordConstructs, RecordEvolves;
    var pc := At(w, i);
    FailAcceptedKeeps(w.store, pc.rec.processingId, pc.err, o.now);
  }

  lemma StoreNoActionEffect(w: World, i: nat, o: Oracle)
    requires Moving(w, i, o) && At(w, i).StoreNoAction? && Friendly(w, o)
    ensures Effect(w, i, o)
  {
    hide Lockstep, Advances, RemoteOk, TokensDistinct, TodoOk, RecordConstructs, DecisionValid, ResultValid;
    var pc := At(w, i);
    StoreNoActionKeeps(w.store, pc.rec.processingId, pc.result, o.now);
  }

  lemma StorePlannedEffect(w: World, i: nat, o: Oracle)
    requires Moving(w, i, o) && At(w, i).StorePlanned? && Friendly(w, o) && NonBlank(At(w, i).plan.backend)
    ensures Effect(w, i, o)
  {
    hide Lockstep, Advances, RemoteOk, TokensDistinct, TodoOk, NonBlank, DecisionValid, RequestValid;
    var pc := At(w, i);
    StorePlanKeeps(w.store, pc.rec.processingId, pc.plan, o.attemptId, o.operationKey, o.now);
    if w.store.records[pc.rec.processingId].state == Accepted {
      AcceptedAlone(w.store, pc.rec.processingId);
    }
  }

  lemma FailPlannedEffect(w: World, i: nat, o: Oracle)
    requires Moving(w, i, o) && At(w, i).FailPlanned? && Friendly(w, o)
    ensures Effect(w, i, o)
  {
    hide Lockstep, Advances, RemoteOk, TokensDistinct, TodoOk, RecordSnap, NonBlank, AttemptConstructs;
    ErrorTexts();
    hide ErrorTextOk, RemoteTextOk;
    var pc := At(w, i);
    SnapStates(w, pc.rec, pc.att);
    FailAttemptKeeps(w.store, pc.rec.processingId, Planned, ERR_UNCONFIGURED, pc.att.attemptId, o.now);
  }

  lemma FailRejectedEffect(w: World, i: nat, o: Oracle)
    requires Moving(w, i, o) && At(w, i).FailRejected? && Friendly(w, o)
    ensures Effect(w, i, o)
  {
    hide Lockstep, Advances, RemoteOk, TokensDistinct, TodoOk, RecordSnap, NonBlank, NoFlow, AttemptConstructs;
    ErrorTexts();
    hide ErrorTextOk, RemoteTextOk;
    var pc := At(w, i);
    SnapStates(w, pc.rec, pc.att);
    FailAttemptKeeps(w.store, pc.rec.processingId, Submitting, ERR_REJECTED, pc.att.attemptId, o.now);
  }

  lemma FailExecutionEffect(w: World, i: nat, o: Oracle)
    requires Moving(w, i, o) && At(w, i).FailExecution? && Friendly(w, o)
    ensures Effect(w, i, o)
  {
    hide Lockstep, Advances, RemoteOk, TokensDistinct, TodoOk, RecordSnap, NonBlank, AttemptConstructs;
    ErrorTexts();
    hide ErrorTextOk, RemoteTextOk;
    var pc := At(w, i);
    SnapStates(w, pc.rec, pc.att);
    FailAttemptKeeps(w.store, pc.rec.processingId, Submitted, ERR_EXECUTION, pc.att.attemptId, o.now);
  }

  lemma RecoverEffect(w: World, i: nat, o: Oracle)
    requires Moving(w, i, o) && At(w, i).Recover? && Friendly(w, o)
    ensures Effect(w, i, o)
  {
    hide Lockstep, Advances, RemoteOk, TokensDistinct, TodoOk, RecordSnap, ErrorTextOk, AttemptConstructs;
    var pc := At(w, i);
    OwnedStates(w, pc.rec, pc.aid);
    RecoveryKeeps(w.store, pc.aid, pc.from, pc.err, o.now);
  }

  lemma ClaimEffect(w: World, i: nat, o: Oracle)
    requires Moving(w, i, o) && At(w, i).Claim? && Friendly(w, o)
    ensures Effect(w, i, o)
  {
    hide Lockstep, Advances, RemoteOk, TokensDistinct, TodoOk, RecordSnap, AttemptConstructs;
    var pc := At(w, i);
    SnapStates(w, pc.rec, pc.att);
    ClaimKeeps(w.store, pc.att.attemptId, o.now);
  }

  lemma MarkEffect(w: World, i: nat, o: Oracle)
    requires Moving(w, i, o) && At(w, i).Mark? && Friendly(w, o)
    ensures Effect(w, i, o)
  {
    hide Lockstep, Advances, RemoteOk, TokensDistinct, TodoOk, RecordSnap, AttemptConstructs, OperationIdOk;
    var pc := At(w, i);
    SnapStates(w, pc.rec, pc.att);
    MarkSubmittedKeeps(w.store, pc.att.attemptId, pc.externalId, o.now);
  }

  lemma RecordPolledEffect(w: World, i: nat, o: Oracle)
    requires Moving(w, i, o) && At(w, i).RecordPolled? && Friendly(w, o)
    ensures Effect(w, i, o)
  {
    hide Lockstep, Advances, RemoteOk, TokensDistinct, TodoOk, RecordSnap, AttemptConstructs, ErrorTextOk, RemoteTextOk;
    var pc := At(w, i);
    SnapStates(w, pc.rec, pc.att);
    RecordPollKeeps(w.store, pc.att.attemptId, pc.remote, pc.pollError, o.now);
  }

  lemma CompleteEffect(w: World, i: nat, o: Oracle)
    requires Moving(w, i, o) && At(w, i).Complete? && Friendly(w, o)
    ensures Effect(w, i, o)
  {
    hide Lockstep, Advances, RemoteOk, TokensDistinct, TodoOk, RecordSnap, AttemptConstructs, InvestigationFrom;
    var pc := At(w, i);
    SnapStates(w, pc.rec, pc.att);
    if w.store.attempts[pc.att.attemptId].state == ASubmitted {
      SnapResult(w.store, pc.rec, pc.att, pc.result);
    }
    CompleteKeeps(w.store, pc.att.attemptId, pc.result, o.now);
  }

  /** An answered write applies exactly where the stored record is in the expected state: then
      it moves it to the intended state and stamps it, and otherwise nothing changes and the
      program reads the record again. */
  lemma WriteEffect(w: World, i: nat, o: Oracle)
    requires Moving(w, i, o) && Writes(At(w, i)) && Friendly(w, o)
    requires At(w, i).StorePlanned? ==> NonBlank(At(w, i).plan.backend)
    ensures Effect(w, i, o)
  {
    hide Moving, Effect, Friendly, NonBlank;
    match At(w, i)
    case FailAccepted(_, _, _) => FailAcceptedEffect(w, i, o);
    case StoreNoAction(_, _) => StoreNoActionEffect(w, i, o);
    case StorePlanned(_, _) => StorePlannedEffect(w, i, o);
    case FailPlanned(_, _) => FailPlannedEffect(w, i, o);
    case Claim(_, _) => ClaimEffect(w, i, o);
    case FailRejected(_, _) => FailRejectedEffect(w, i, o);
    case Mark(_, _, _) => MarkEffect(w, i, o);
    case Recover(_, _, _, _, _) => RecoverEffect(w, i, o);
    case RecordPolled(_, _, _, _, _) => RecordPolledEffect(w, i, o);
    case FailExecution(_, _) => FailExecutionEffect(w, i, o);
    case Complete(_, _, _) => CompleteEffect(w, i, o);
  }
}
