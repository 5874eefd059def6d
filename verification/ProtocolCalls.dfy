/** Each repository call, seen from the worker that makes it: what the world is afterwards,
    where the program stands for the reply it saw, and how far the record has got. */
module ProtocolCalls {
  import opened Domain
  import opened Lifecycle
  import R = Repository
  import opened RepositoryInvariant
  import P = Protocol
  import opened ProtocolInvariant
  import opened ProtocolSteps
  import opened ProtocolEffects
  import opened Runs

  /** An answered write leaves its record further on than the state it expected. */
  lemma FurtherThanExpected(w: P.World, i: nat, o: P.Oracle)
    requires Moving(w, i, o) && P.Writes(P.At(w, i)) && Friendly(w, o)
    requires P.At(w, i).StorePlanned? ==> NonBlank(P.At(w, i).plan.backend)
    ensures Effect(w, i, o) && P.Step(w, i, o) == P.WriteStep(w, i, o)
    ensures var pc := P.At(w, i); var pid := pc.rec.processingId; var t := P.WriteStep(w, i, o).store;
            && (!pc.RecordPolled? && LevelIn(w.store, pid) >= R.Rank(Expects(pc)) ==> LevelIn(t, pid) > R.Rank(Expects(pc)))
            && (pc.RecordPolled? && LevelIn(w.store, pid) >= 3 ==>
                  pid in t.records && (LevelIn(t, pid) == 4 || t.records[pid].updatedAt == o.now))
  {
    hide Moving, Friendly, NonBlank, P.WriteStep;
    WriteEffect(w, i, o);
    RecoverFrom(w, i, o);
  }

  lemma RecoverFrom(w: P.World, i: nat, o: P.Oracle)
    requires Moving(w, i, o)
    ensures P.At(w, i).Recover? ==> P.At(w, i).from in {ASubmitting, ASubmitted}
  {
    hide Inv, PcOk;
    MovingPc(w, i, o);
    RecoverPc(w.store, w.remote, P.At(w, i));
  }

  lemma RecoverPc(s: R.Store, m: P.Remote, pc: P.Pc)
    requires PcOk(s, m, pc)
    ensures pc.Recover? ==> pc.from in {ASubmitting, ASubmitted}
  {
    hide RecordSnap, PairSnap, Owns, NoFlow, TokenOk, PlanCoherent, R.NoActionFrom, ResultFromSnap, R.ErrorTextOk;
  }

  /** The worker's list of work and its budget are what they were. */
  predicate SameTask(w: P.World, x: P.World, i: nat) {
    P.WorkerAt(x, i).todo == P.WorkerAt(w, i).todo && P.WorkerAt(x, i).budgeted == P.WorkerAt(w, i).budgeted
  }

  /** The world after a write whose effect on the store is `after`. */
  predicate WrittenAs(w: P.World, i: nat, o: P.Oracle, after: R.Store) {
    var x := P.Step(w, i, o);
    && x.store == (if o.ack == P.NotCommitted then w.store else after) && x.clock == o.now
    && SameTask(w, x, i) && x.remote == w.remote
  }

  lemma ClaimCall(w: P.World, i: nat, o: P.Oracle, record: Record, attempt: Attempt)
    requires Moving(w, i, o) && P.At(w, i) == P.Claim(record, attempt)
    ensures var (s, r) := R.ClaimAttempt(w.store, attempt.attemptId, o.now);
            var reply := P.Seen(r, o);
            var x := P.Step(w, i, o);
            var pid := record.processingId;
            && WrittenAs(w, i, o, s)
            && P.At(x, i) == (if reply.Returned? && reply.value.Some? then P.Claimed(record, reply.value.value) else P.OrReread(reply, record))
            && (Friendly(w, o) ==>
                  && reply.Returned? && Elsewhere(x.store, pid) == Elsewhere(w.store, pid)
                  && (LevelIn(w.store, pid) >= 1 ==> LevelIn(x.store, pid) >= 2)
                  && (StateIs(w.store, pid, Planned) ==> reply.value.Some? && StateIs(x.store, pid, Submitting)))
  {
    hide Moving, Inv, R.ClaimAttempt;
    if Friendly(w, o) {
      FurtherThanExpected(w, i, o);
    }
  }

  lemma FailAcceptedCall(w: P.World, i: nat, o: P.Oracle, record: Record, err: ErrorInfo, reread: bool)
    requires Moving(w, i, o) && P.At(w, i) == P.FailAccepted(record, err, reread)
    ensures var (s, r) := R.FailProcessing(w.store, record.processingId, {Accepted}, err, None, o.now);
            var reply := P.Seen(r, o);
            var x := P.Step(w, i, o);
            var pid := record.processingId;
            && WrittenAs(w, i, o, s)
            && P.At(x, i) == (if reread then P.OrReread(reply, record) else P.NextItem)
            && (Friendly(w, o) ==>
                  && reply.Returned? && Elsewhere(x.store, pid) == Elsewhere(w.store, pid)
                  && (LevelIn(w.store, pid) >= 0 ==> LevelIn(x.store, pid) >= 1)
                  && (StateIs(w.store, pid, Accepted) ==> reply.value.Some? && StateIs(x.store, pid, Failed)))
  {
    hide Moving, Inv, R.FailProcessing;
    if Friendly(w, o) {
      FurtherThanExpected(w, i, o);
    }
  }

  lemma StoreNoActionCall(w: P.World, i: nat, o: P.Oracle, record: Record, result: OrchestrationResult)
    requires Moving(w, i, o) && P.At(w, i) == P.StoreNoAction(record, result)
    ensures var (s, r) := R.StoreNoActionResult(w.store, record.processingId, result, o.now);
            var reply := P.Seen(r, o);
            var x := P.Step(w, i, o);
            var pid := record.processingId;
            && WrittenAs(w, i, o, s)
            && P.At(x, i) == (P.OrReread(reply, record))
            && (Friendly(w, o) ==>
                  && reply.Returned? && Elsewhere(x.store, pid) == Elsewhere(w.store, pid)
                  && (LevelIn(w.store, pid) >= 0 ==> LevelIn(x.store, pid) >= 1)
                  && (StateIs(w.store, pid, Accepted) ==> reply.value.Some? && StateIs(x.store, pid, Completed)))
  {
    hide Moving, Inv, R.StoreNoActionResult;
    if Friendly(w, o) {
      FurtherThanExpected(w, i, o);
    }
  }

  lemma FailPlannedCall(w: P.World, i: nat, o: P.Oracle, record: Record, attempt: Attempt)
    requires Moving(w, i, o) && P.At(w, i) == P.FailPlanned(record, attempt)
    ensures var (s, r) := R.FailProcessing(w.store, record.processingId, {Planned}, P.ERR_UNCONFIGURED, Some(attempt.attemptId), o.now);
            var reply := P.Seen(r, o);
            var x := P.Step(w, i, o);
            var pid := record.processingId;
            && WrittenAs(w, i, o, s)
            && P.At(x, i) == (P.OrReread(reply, record))
            && (Friendly(w, o) ==>
                  && reply.Returned? && Elsewhere(x.store, pid) == Elsewhere(w.store, pid)
                  && (LevelIn(w.store, pid) >= 1 ==> LevelIn(x.store, pid) >= 2)
                  && (StateIs(w.store, pid, Planned) ==> reply.value.Some? && StateIs(x.store, pid, Failed)))
  {
    hide Moving, Inv, R.FailProcessing;
    if Friendly(w, o) {
      FurtherThanExpected(w, i, o);
    }
  }

  lemma FailRejectedCall(w: P.World, i: nat, o: P.Oracle, record: Record, attempt: Attempt)
    requires Moving(w, i, o) && P.At(w, i) == P.FailRejected(record, attempt)
    ensures var (s, r) := R.FailProcessing(w.store, record.processingId, {Submitting}, P.ERR_REJECTED, Some(attempt.attemptId), o.now);
            var reply := P.Seen(r, o);
            var x := P.Step(w, i, o);
            var pid := record.processingId;
            && WrittenAs(w, i, o, s)
            && P.At(x, i) == (P.OrReread(reply, record))
            && (Friendly(w, o) ==>
                  && reply.Returned? && Elsewhere(x.store, pid) == Elsewhere(w.store, pid)
                  && (LevelIn(w.store, pid) >= 2 ==> LevelIn(x.store, pid) >= 3)
                  && (StateIs(w.store, pid, Submitting) ==> reply.value.Some? && StateIs(x.store, pid, Failed)))
  {
    hide Moving, Inv, R.FailProcessing;
    if Friendly(w, o) {
      FurtherThanExpected(w, i, o);
    }
  }

  lemma FailExecutionCall(w: P.World, i: nat, o: P.Oracle, record: Record, attempt: Attempt)
    requires Moving(w, i, o) && P.At(w, i) == P.FailExecution(record, attempt)
    ensures var (s, r) := R.FailProcessing(w.store, record.processingId, {Submitted}, P.ERR_EXECUTION, Some(attempt.attemptId), o.now);
            var reply := P.Seen(r, o);
            var x := P.Step(w, i, o);
            var pid := record.processingId;
            && WrittenAs(w, i, o, s)
            && P.At(x, i) == (P.OrReread(reply, record))
            && (Friendly(w, o) ==>
                  && reply.Returned? && Elsewhere(x.store, pid) == Elsewhere(w.store, pid)
                  && (LevelIn(w.store, pid) >= 3 ==> LevelIn(x.store, pid) >= 4)
                  && (StateIs(w.store, pid, Submitted) ==> reply.value.Some? && StateIs(x.store, pid, Failed)))
  {
    hide Moving, Inv, R.FailProcessing;
    if Friendly(w, o) {
      FurtherThanExpected(w, i, o);
    }
  }

  lemma CompleteCall(w: P.World, i: nat, o: P.Oracle, record: Record, attempt: Attempt, result: OrchestrationResult)
    requires Moving(w, i, o) && P.At(w, i) == P.Complete(record, attempt, result)
    ensures var (s, r) := R.CompleteProcessing(w.store, attempt.attemptId, result, o.now);
            var reply := P.Seen(r, o);
            var x := P.Step(w, i, o);
            var pid := record.processingId;
            && WrittenAs(w, i, o, s)
            && P.At(x, i) == (P.OrReread(reply, record))
            && (Friendly(w, o) ==>
                  && reply.Returned? && Elsewhere(x.store, pid) == Elsewhere(w.store, pid)
                  && (LevelIn(w.store, pid) >= 3 ==> LevelIn(x.store, pid) >= 4)
                  && (StateIs(w.store, pid, Submitted) ==> reply.value.Some? && StateIs(x.store, pid, Completed)))
  {
    hide Moving, Inv, R.CompleteProcessing;
    if Friendly(w, o) {
      FurtherThanExpected(w, i, o);
    }
  }

  lemma RecoverCall(w: P.World, i: nat, o: P.Oracle, record: Record, aid: nat, from: AttemptState, err: ErrorInfo, reread: bool)
    requires Moving(w, i, o) && P.At(w, i) == P.Recover(record, aid, from, err, reread)
    ensures var (s, r) := R.MarkRecoveryRequired(w.store, aid, {from}, err, o.now);
            var reply := P.Seen(r, o);
            var x := P.Step(w, i, o);
            var pid := record.processingId;
            && WrittenAs(w, i, o, s)
            && P.At(x, i) == (if reread then P.OrReread(reply, record) else P.NextItem)
            && (Friendly(w, o) ==>
                  && reply.Returned? && Elsewhere(x.store, pid) == Elsewhere(w.store, pid)
                  && (LevelIn(w.store, pid) >= R.Rank(SameName(from)) ==> LevelIn(x.store, pid) > R.Rank(SameName(from)))
                  && (StateIs(w.store, pid, SameName(from)) ==> reply.value.Some? && StateIs(x.store, pid, RecoveryRequired)))
  {
    hide Moving, Inv, R.MarkRecoveryRequired;
    if Friendly(w, o) {
      FurtherThanExpected(w, i, o);
    }
  }

  lemma MarkCall(w: P.World, i: nat, o: P.Oracle, record: Record, attempt: Attempt, externalId: string)
    requires Moving(w, i, o) && P.At(w, i) == P.Mark(record, attempt, externalId)
    ensures var (s, r) := R.MarkSubmitted(w.store, attempt.attemptId, externalId, o.now);
            var reply := P.Seen(r, o);
            var x := P.Step(w, i, o);
            var pid := record.processingId;
            && WrittenAs(w, i, o, s)
            && P.At(x, i) == (P.AfterMark(record, attempt, reply))
            && (Friendly(w, o) ==>
                  && reply.Returned? && Elsewhere(x.store, pid) == Elsewhere(w.store, pid)
                  && (LevelIn(w.store, pid) >= 2 ==> LevelIn(x.store, pid) >= 3)
                  && (StateIs(w.store, pid, Submitting) ==> reply.value.Some? && StateIs(x.store, pid, Submitted)))
  {
    hide Moving, Inv, R.MarkSubmitted;
    if Friendly(w, o) {
      FurtherThanExpected(w, i, o);
    }
  }

  lemma StorePlannedCall(w: P.World, i: nat, o: P.Oracle, record: Record, plan: R.Plan)
    requires Moving(w, i, o) && P.At(w, i) == P.StorePlanned(record, plan)
    ensures var (s, r) := R.StorePlan(w.store, record.processingId, plan, o.attemptId, o.operationKey, o.now);
            var reply := P.Seen(r, o);
            var x := P.Step(w, i, o);
            var pid := record.processingId;
            && WrittenAs(w, i, o, s)
            && P.At(x, i) == (if reply.Returned? && reply.value.Some? then P.Submit(reply.value.value.record, reply.value.value.attempt)
                              else P.OrReread(reply, record))
            && (reply.Returned? && reply.value.Some? ==>
                  reply.value.value.record.processingId == pid && reply.value.value.record.state == Planned)
            && (Friendly(w, o) && NonBlank(plan.backend) ==>
                  && reply.Returned? && Elsewhere(x.store, pid) == Elsewhere(w.store, pid)
                  && (LevelIn(w.store, pid) >= 0 ==> LevelIn(x.store, pid) >= 1)
                  && (StateIs(w.store, pid, Accepted) ==> reply.value.Some? && StateIs(x.store, pid, Planned)))
  {
    hide Moving, Inv, R.StorePlan, NonBlank;
    StoredPlan(w, i, o, record, plan);
    if Friendly(w, o) && NonBlank(plan.backend) {
      FurtherThanExpected(w, i, o);
    }
  }

  lemma StoredPlan(w: P.World, i: nat, o: P.Oracle, record: Record, plan: R.Plan)
    requires Moving(w, i, o)
    ensures var r := R.StorePlan(w.store, record.processingId, plan, o.attemptId, o.operationKey, o.now).1;
            r.Returned? && r.value.Some? ==>
              r.value.value.record.processingId == record.processingId && r.value.value.record.state == Planned
  {
    hide R.Lockstep, RemoteOk, WorkersOk, TokensDistinct, RecordConstructs, AttemptConstructs;
    if record.processingId in w.store.records {
      Pairing(w.store, record.processingId);
    }
  }

  lemma RecordPolledCall(w: P.World, i: nat, o: P.Oracle, record: Record, attempt: Attempt, remote: string,
                         pollError: Option<ErrorInfo>, after: P.AfterPoll)
    requires Moving(w, i, o) && P.At(w, i) == P.RecordPolled(record, attempt, remote, pollError, after)
    ensures var (s, r) := R.RecordPoll(w.store, attempt.attemptId, remote, pollError, o.now);
            var reply := P.Seen(r, o);
            var x := P.Step(w, i, o);
            var pid := record.processingId;
            && WrittenAs(w, i, o, s)
            && P.At(x, i) == P.AfterRecordPoll(record, attempt, after, reply.Raised?)
            && (Friendly(w, o) ==>
                  && reply.Returned? && Elsewhere(x.store, pid) == Elsewhere(w.store, pid)
                  && (StateIs(w.store, pid, Submitted) ==> reply.value.Some?)
                  && (LevelIn(w.store, pid) >= 3 ==>
                        pid in x.store.records && (LevelIn(x.store, pid) == 4 || x.store.records[pid].updatedAt == o.now)))
  {
    hide Moving, Inv, R.RecordPoll;
    if Friendly(w, o) {
      FurtherThanExpected(w, i, o);
    }
  }

  // ----- Steps that write nothing

  lemma MovingInv(w: P.World, i: nat, o: P.Oracle)
    requires Moving(w, i, o)
    ensures Inv(w)
  {
  }

  /** The store, the clock, the work list and the budget stay. */
  lemma QuietCall(w: P.World, i: nat, o: P.Oracle)
    requires Moving(w, i, o) && !P.Writes(P.At(w, i)) && !P.At(w, i).NextItem? && !P.At(w, i).Context?
    ensures var x := P.Step(w, i, o); x.store == w.store && x.clock == w.clock && SameTask(w, x, i)
  {
    hide Moving, Inv, P.AfterPlan, P.AfterSubmit, P.AfterCall, P.BeforePoll, P.AfterPolling, P.AfterCollecting, P.AfterFetch, P.CallRemote;
  }

  /** What a step that writes nothing leaves behind at the remote side: a submit call is made
      for the attempt at hand, a poll or collect call uses its identifier, and all else
      leaves it alone. */
  lemma RemoteCall(w: P.World, i: nat, o: P.Oracle)
    requires Moving(w, i, o) && !P.Writes(P.At(w, i))
    ensures var pc, x := P.At(w, i), P.Step(w, i, o);
            && (!pc.Calling? && !pc.Polling? && !pc.Collecting? ==> x.remote == w.remote)
            && (pc.Calling? ==> x.remote.calls == w.remote.calls + [pc.att.attemptId])
            && (!pc.Calling? ==> x.remote.calls == w.remote.calls) && w.remote.lookups <= x.remote.lookups
            && ((pc.Polling? || pc.Collecting?) && pc.att.externalOperationId.Some? ==>
                  x.remote.lookups == w.remote.lookups + [(pc.att.attemptId, pc.att.externalOperationId.value)])
  {
    hide Moving, Inv, P.AfterPlan, P.AfterSubmit, P.AfterCall, P.BeforePoll, P.AfterPolling, P.AfterCollecting, P.AfterFetch, P.AfterContext;
  }

  /** Where planning, deadline checks and backend calls lead. */
  lemma LocalCall(w: P.World, i: nat, o: P.Oracle)
    requires Moving(w, i, o) && !P.Writes(P.At(w, i)) && !P.Reads(P.At(w, i)) && !P.At(w, i).NextItem?
    ensures P.At(P.Step(w, i, o), i) == LocalNext(P.At(w, i), o, o.expired && P.WorkerAt(w, i).budgeted)
  {
    hide Moving, Inv, P.AfterPlan, P.AfterSubmit, P.AfterCall, P.BeforePoll, P.AfterPolling, P.AfterCollecting, P.CallRemote;
  }

  function LocalNext(pc: P.Pc, o: P.Oracle, expired: bool): P.Pc {
    match pc
    case Advance(rec) => P.AfterPlan(rec, o.plan)
    case Submit(rec, att) => P.AfterSubmit(rec, att, o.configured, expired)
    case Claimed(rec, att) => if expired then P.Recover(rec, att.attemptId, ASubmitting, P.ERR_DEADLINE, true) else P.Calling(rec, att)
    case Calling(rec, att) => P.AfterCall(rec, att, o.submit)
    case Poll(rec, att) => P.BeforePoll(rec, att, o.configured, expired)
    case Polling(rec, att) => P.AfterPolling(rec, att, o.poll)
    case Collect(rec, att) => if expired then P.Reread(rec) else P.Collecting(rec, att)
    case Collecting(rec, att) => P.AfterCollecting(rec, att, o.collect)
    case _ => pc
  }

  /** An answered read of a snapshot's attempt: there is one unless the record is settled. */
  lemma FetchCall(w: P.World, i: nat, o: P.Oracle, record: Record)
    requires Moving(w, i, o) && P.At(w, i) == P.Fetch(record)
    ensures var reply := P.Seen(R.GetAttemptForProcessing(w.store, record.processingId), o);
            && P.At(P.Step(w, i, o), i) == P.AfterFetch(record, reply)
            && (o.ack == P.Acknowledged ==>
                  && reply.Returned?
                  && (1 <= LevelIn(w.store, record.processingId) <= 3 ==> reply.value.Some?))
  {
    hide Moving, Inv, R.GetAttemptForProcessing, P.AfterFetch, P.AfterContext;
    SnapStored(w, i, o);
    AttemptPresent(w, record.processingId) by { MovingInv(w, i, o); }
  }

  lemma SnapStored(w: P.World, i: nat, o: P.Oracle)
    requires Moving(w, i, o) && P.Reads(P.At(w, i))
    ensures P.At(w, i).rec.processingId in w.store.records
  {
    MovingSnap(w, i, o);
    hide Moving, Inv, R.RecordEvolves, RecordConstructs;
  }

  /** An answered read of a snapshot's record finds it. */
  lemma RereadCall(w: P.World, i: nat, o: P.Oracle)
    requires Moving(w, i, o) && (P.At(w, i).Reread? || P.At(w, i).RereadForPoll?)
    ensures var pc := P.At(w, i);
            var r := R.Get(w.store, pc.rec.processingId);
            && r.Some? && r.value.processingId == pc.rec.processingId
            && P.At(P.Step(w, i, o), i) == if pc.Reread? || o.ack != P.Acknowledged then P.NextItem else P.Poll(r.value, pc.att)
  {
    hide Moving, Inv, RecordSnap, R.RecordEvolves;
    SnapStored(w, i, o);
    MovingInv(w, i, o);
    StoredSnap(w, P.At(w, i).rec.processingId);
  }

  /** Taking the next record of the work list, or leaving the loop. */
  lemma NextCall(w: P.World, i: nat, o: P.Oracle)
    requires Moving(w, i, o) && P.At(w, i).NextItem?
    ensures var x := P.Step(w, i, o);
            var todo := P.WorkerAt(w, i).todo;
            && x.store == w.store && x.clock == w.clock
            && (if todo == [] || (o.expired && P.WorkerAt(w, i).budgeted) then P.At(x, i) == P.Idle
                else P.WorkerAt(x, i) == P.Worker(P.Context(todo[0]), todo[1..], P.WorkerAt(w, i).budgeted))
  {
    hide Moving, Inv;
  }

  /** The read before an item is examined is outside the item's own error handling: if it
      raises, the pass is over. */
  lemma ContextCall(w: P.World, i: nat, o: P.Oracle, record: Record)
    requires Moving(w, i, o) && P.At(w, i) == P.Context(record)
    ensures var x := P.Step(w, i, o);
            var reply := P.Seen(R.GetAttemptForProcessing(w.store, record.processingId), o);
            && x.store == w.store && x.clock == w.clock
            && (if reply.Raised? then P.At(x, i) == P.Idle else P.At(x, i) == P.AfterContext(record) && SameTask(w, x, i))
            && (o.ack == P.Acknowledged ==> reply.Returned?)
  {
    hide Moving, Inv, R.GetAttemptForProcessing, P.AfterFetch, P.AfterContext;
    SnapStored(w, i, o);
    AttemptPresent(w, record.processingId) by { MovingInv(w, i, o); }
  }
}
