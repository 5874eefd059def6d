/** At most one submission for each scoped key, without any hypothesis on the environment: no
    clock, no contract of backend or planner, no condition on what events may follow each
    other. The claim is written first, and that is enough. */
module SubmitOnce {
  import opened Domain
  import opened Lifecycle
  import opened Repository
  import opened Protocol
  import opened ProtocolInvariant

  // ----- What every call keeps, whatever the clock reads

  predicate KeyedRecord(s: Store, pid: nat) {
    && pid in s.records && s.records[pid].processingId == pid && s.records[pid].identity.Some?
    && var key := (s.records[pid].identity.value.scope, s.records[pid].identity.value.key);
    key in s.idempotency && s.idempotency[key] == pid
  }

  predicate KeyedAttempt(s: Store, aid: nat) {
    && aid in s.attempts && s.attempts[aid].attemptId == aid
    && s.attempts[aid].processingId in s.records
    && s.attempts[aid].processingId in s.attemptOf && s.attemptOf[s.attempts[aid].processingId] == aid
  }

  ghost predicate Keyed(s: Store) {
    (forall pid :: pid in s.records ==> KeyedRecord(s, pid)) && (forall aid :: aid in s.attempts ==> KeyedAttempt(s, aid))
  }

  /** The attempt has been claimed, and no call will make it planned again. */
  predicate Used(s: Store, aid: nat) {
    aid in s.attempts && s.attempts[aid].state != APlanned
  }

  ghost predicate Onward(s: Store, t: Store) {
    forall aid :: Used(s, aid) ==> Used(t, aid)
  }

  lemma RecordReplaced(s: Store, r: Record)
    requires Keyed(s) && r.processingId in s.records && r.identity == s.records[r.processingId].identity
    ensures var t := s.(records := s.records[r.processingId := r]); Keyed(t) && Onward(s, t)
  {
    var t := s.(records := s.records[r.processingId := r]);
    forall pid | pid in t.records ensures KeyedRecord(t, pid) { assert KeyedRecord(s, pid); }
    forall aid | aid in t.attempts ensures KeyedAttempt(t, aid) { assert KeyedAttempt(s, aid); }
  }

  lemma AttemptReplaced(s: Store, a: Attempt)
    requires Keyed(s) && a.attemptId in s.attempts && a.processingId == s.attempts[a.attemptId].processingId && a.state != APlanned
    ensures var t := s.(attempts := s.attempts[a.attemptId := a]); Keyed(t) && Onward(s, t)
  {
    var t := s.(attempts := s.attempts[a.attemptId := a]);
    forall pid | pid in t.records ensures KeyedRecord(t, pid) { assert KeyedRecord(s, pid); }
    forall aid | aid in t.attempts ensures KeyedAttempt(t, aid) { assert KeyedAttempt(s, aid); }
  }

  lemma BothReplaced(s: Store, a: Attempt, r: Record)
    requires Keyed(s) && a.attemptId in s.attempts && a.processingId == s.attempts[a.attemptId].processingId && a.state != APlanned
    requires r.processingId in s.records && r.identity == s.records[r.processingId].identity
    ensures var t := s.(attempts := s.attempts[a.attemptId := a], records := s.records[r.processingId := r]); Keyed(t) && Onward(s, t)
  {
    hide Keyed, Used;
    AttemptReplaced(s, a);
    RecordReplaced(s.(attempts := s.attempts[a.attemptId := a]), r);
  }

  /** Half of the pair may be written, when the record fails to construct. */
  lemma PairWritten(s: Store, a: Attempt, r: Record)
    requires Keyed(s) && a.attemptId in s.attempts && a.processingId == s.attempts[a.attemptId].processingId && a.state != APlanned
    requires r.processingId in s.records && r.identity == s.records[r.processingId].identity
    ensures var t := WriteAttemptThenRecord(s, a, r).0; Keyed(t) && Onward(s, t)
  {
    hide Keyed, RecordConstructs, AttemptConstructs;
    AttemptReplaced(s, a);
    BothReplaced(s, a, r);
  }

  lemma OwnPair(s: Store, aid: nat)
    requires Keyed(s) && aid in s.attempts
    ensures s.attempts[aid].attemptId == aid
    ensures s.attempts[aid].processingId in s.records && s.records[s.attempts[aid].processingId].processingId == s.attempts[aid].processingId
  {
    assert KeyedAttempt(s, aid);
    assert KeyedRecord(s, s.attempts[aid].processingId);
  }

  lemma OwnId(s: Store, pid: nat)
    requires Keyed(s) && pid in s.records
    ensures s.records[pid].processingId == pid
  {
    assert KeyedRecord(s, pid);
  }

  lemma AcceptKeyed(s: Store, pid: nat, alert: Alert, identity: Identity, now: int)
    requires Keyed(s)
    ensures var t := AcceptProcessing(s, pid, alert, identity, now).0; Keyed(t) && Onward(s, t)
  {
    hide RecordConstructs, VisibleKey;
    var t := AcceptProcessing(s, pid, alert, identity, now).0;
    if t != s {
      forall q | q in t.records ensures KeyedRecord(t, q) {
        if q != pid {
          assert KeyedRecord(s, q);
        }
      }
      forall aid | aid in t.attempts ensures KeyedAttempt(t, aid) { assert KeyedAttempt(s, aid); }
    }
  }

  lemma StorePlanKeyed(s: Store, pid: nat, plan: Plan, aid: nat, key: nat, now: int)
    requires Keyed(s)
    ensures var t := StorePlan(s, pid, plan, aid, key, now).0; Keyed(t) && Onward(s, t)
  {
    hide RecordConstructs, AttemptConstructs;
    var t := StorePlan(s, pid, plan, aid, key, now).0;
    if t != s {
      forall q | q in t.records ensures KeyedRecord(t, q) { assert KeyedRecord(s, q); }
      forall a | a in t.attempts ensures KeyedAttempt(t, a) {
        if a != aid {
          assert KeyedAttempt(s, a);
        }
      }
    }
  }

  lemma NoActionKeyed(s: Store, pid: nat, result: OrchestrationResult, now: int)
    requires Keyed(s)
    ensures var t := StoreNoActionResult(s, pid, result, now).0; Keyed(t) && Onward(s, t)
  {
    hide Keyed, RecordConstructs;
    if pid in s.records {
      OwnId(s, pid);
      RecordReplaced(s, CompletedNoAction(s.records[pid], result, now));
    }
  }

  lemma FailKeyed(s: Store, pid: nat, expected: set<ProcessingState>, err: ErrorInfo, aid: Option<nat>, now: int)
    requires Keyed(s)
    ensures var t := FailProcessing(s, pid, expected, err, aid, now).0; Keyed(t) && Onward(s, t)
  {
    hide Keyed, RecordConstructs, AttemptConstructs;
    if pid in s.records {
      OwnId(s, pid);
      var failed := FailedRecord(s.records[pid], err, now);
      RecordReplaced(s, failed);
      if aid.Some? && aid.value in s.attempts {
        OwnPair(s, aid.value);
        BothReplaced(s, FailedAttempt(s.attempts[aid.value], err, now), failed);
      }
    }
  }

  /** The calls that start from an attempt. */
  lemma AttemptCallsKeyed(s: Store, aid: nat, id: string, remote: string, error: Option<ErrorInfo>, from: set<AttemptState>, err: ErrorInfo,
                          result: OrchestrationResult, now: int)
    requires Keyed(s)
    ensures var t := ClaimAttempt(s, aid, now).0; Keyed(t) && Onward(s, t)
    ensures var t := MarkSubmitted(s, aid, id, now).0; Keyed(t) && Onward(s, t)
    ensures var t := RecordPoll(s, aid, remote, error, now).0; Keyed(t) && Onward(s, t)
    ensures var t := MarkRecoveryRequired(s, aid, from, err, now).0; Keyed(t) && Onward(s, t)
    ensures var t := CompleteProcessing(s, aid, result, now).0; Keyed(t) && Onward(s, t)
  {
    hide Keyed, WriteAttemptThenRecord, AttemptConstructs, RecordConstructs, Used;
    if aid in s.attempts {
      OwnPair(s, aid);
      var a := s.attempts[aid];
      var r := s.records[a.processingId];
      PairWritten(s, ClaimedAttempt(a, now), r.(state := Submitting, updatedAt := now));
      PairWritten(s, SubmittedAttempt(a, id, now), r.(state := Submitted, updatedAt := now));
      if a.state != APlanned {
        PairWritten(s, PolledAttempt(a, remote, error, now), r.(updatedAt := now, error := error));
      }
      PairWritten(s, RecoveryAttempt(a, err), RecoveryRecord(r, err, now));
      BothReplaced(s, CompletedAttempt(a, now), CompletedRecord(r, result, now));
    }
  }

  /** A claim that returns the attempt found it planned and leaves it used. */
  lemma ClaimUses(s: Store, aid: nat, now: int)
    requires Keyed(s)
    ensures var (t, reply) := ClaimAttempt(s, aid, now);
            reply.Returned? && reply.value.Some? ==> !Used(s, aid) && Used(t, aid) && reply.value.value.attemptId == aid
  {
    hide AttemptConstructs, RecordConstructs;
    if aid in s.attempts {
      OwnPair(s, aid);
    }
  }

  // ----- Calls and tokens

  ghost predicate CallsOnce(s: Store, calls: seq<nat>) {
    && (forall i, j :: 0 <= i < j < |calls| ==> calls[i] != calls[j])
    && (forall a :: a in calls ==> Used(s, a))
  }

  predicate TokenUsed(s: Store, calls: seq<nat>, pc: Pc) {
    Token(pc).Some? ==> Used(s, Token(pc).value) && Token(pc).value !in calls
  }

  ghost predicate Once(w: World) {
    && Keyed(w.store) && CallsOnce(w.store, w.remote.calls) && TokensDistinct(w)
    && forall i :: i in w.workers ==> TokenUsed(w.store, w.remote.calls, w.workers[i].pc)
  }

  /** A step after which the worker holds no token it did not hold before. */
  lemma Unclaimed(w: World, x: World, i: nat, now: Worker)
    requires Once(w) && Keyed(x.store) && Onward(w.store, x.store) && x.remote.calls == w.remote.calls
    requires x.workers == w.workers[i := now] && (Token(now.pc).Some? ==> i in w.workers && Token(now.pc) == Token(w.workers[i].pc))
    ensures Once(x)
  {
    hide Keyed, Used, Token;
    forall a | a in x.remote.calls ensures Used(x.store, a) { assert Used(w.store, a); }
    forall k | k in x.workers ensures TokenUsed(x.store, x.remote.calls, x.workers[k].pc) {
      if k in w.workers {
        assert TokenUsed(w.store, w.remote.calls, w.workers[k].pc);
      }
    }
  }

  lemma ClaimOnce(w: World, i: nat, o: Oracle)
    requires Once(w) && At(w, i).Claim?
    ensures Once(WriteStep(w, i, o))
  {
    hide Keyed, Used, ClaimAttempt, CallsOnce;
    var pc, x := At(w, i), WriteStep(w, i, o);
    var aid := pc.att.attemptId;
    AttemptCallsKeyed(w.store, aid, "", "", None, {}, ERR_STALE, NO_RESULT, o.now);
    ClaimUses(w.store, aid, o.now);
    OnwardSelf(w.store);
    if At(x, i).Claimed? {
      assert Token(At(x, i)) == Some(aid) && !Used(w.store, aid) && Used(x.store, aid);
      TokenTaken(w, x, i, aid);
    } else {
      Unclaimed(w, x, i, x.workers[i]);
    }
  }

  const NO_RESULT := OrchestrationResult(Decision(NoAction, "", [], Source("", None)), None, None, None)

  lemma OnwardSelf(s: Store)
    ensures Onward(s, s)
  {
  }

  lemma TokenTaken(w: World, x: World, i: nat, aid: nat)
    requires Once(w) && Keyed(x.store) && Onward(w.store, x.store) && x.remote == w.remote
    requires i in x.workers && x.workers == w.workers[i := x.workers[i]] && Token(x.workers[i].pc) == Some(aid)
    requires !Used(w.store, aid) && Used(x.store, aid)
    ensures Once(x)
  {
    hide Keyed, Used, Token;
    forall a | a in x.remote.calls ensures Used(x.store, a) && a != aid { assert Used(w.store, a); }
    forall k | k in x.workers ensures TokenUsed(x.store, x.remote.calls, x.workers[k].pc) && (k != i ==> Token(x.workers[k].pc) != Some(aid)) {
      if k in w.workers {
        assert TokenUsed(w.store, w.remote.calls, w.workers[k].pc);
      }
    }
  }

  lemma WriteOnce(w: World, i: nat, o: Oracle)
    requires Once(w) && Writes(At(w, i))
    ensures Once(WriteStep(w, i, o))
  {
    if At(w, i).Claim? {
      ClaimOnce(w, i, o);
    } else {
      hide Once;
      WriteKeyed(w, i, o);
      WriteNoToken(w, i, o);
      Unclaimed(w, WriteStep(w, i, o), i, WorkerAt(WriteStep(w, i, o), i)) by {
        hide WriteStep;
        assert Once(w);
      }
    }
  }

  lemma WriteNoToken(w: World, i: nat, o: Oracle)
    requires Writes(At(w, i)) && !At(w, i).Claim?
    ensures var x := WriteStep(w, i, o);
            && i in x.workers && x.workers == w.workers[i := x.workers[i]] && x.remote == w.remote && Token(x.workers[i].pc).None?
  {
    hide FailProcessing, StoreNoActionResult, StorePlan, ClaimAttempt, MarkSubmitted, RecordPoll, MarkRecoveryRequired, CompleteProcessing;
  }

  lemma WriteKeyed(w: World, i: nat, o: Oracle)
    requires Keyed(w.store) && Writes(At(w, i))
    ensures Keyed(WriteStep(w, i, o).store) && Onward(w.store, WriteStep(w, i, o).store)
  {
    hide FailProcessing, StoreNoActionResult, StorePlan, ClaimAttempt, MarkSubmitted, RecordPoll, MarkRecoveryRequired, CompleteProcessing;
    hide Keyed, OrReread, AfterMark, AfterRecordPoll;
    var pc, s := At(w, i), w.store;
    OnwardSelf(s);
    hide Onward;
    match pc
    case FailAccepted(rec, err, _) => FailKeyed(s, rec.processingId, {Accepted}, err, None, o.now);
    case FailPlanned(rec, att) => FailKeyed(s, rec.processingId, {Planned}, ERR_UNCONFIGURED, Some(att.attemptId), o.now);
    case FailRejected(rec, att) => FailKeyed(s, rec.processingId, {Submitting}, ERR_REJECTED, Some(att.attemptId), o.now);
    case FailExecution(rec, att) => FailKeyed(s, rec.processingId, {Submitted}, ERR_EXECUTION, Some(att.attemptId), o.now);
    case StoreNoAction(rec, result) => NoActionKeyed(s, rec.processingId, result, o.now);
    case StorePlanned(rec, plan) => StorePlanKeyed(s, rec.processingId, plan, o.attemptId, o.operationKey, o.now);
    case Claim(_, att) => AttemptCallsKeyed(s, att.attemptId, "", "", None, {}, ERR_STALE, NO_RESULT, o.now);
    case Mark(_, att, id) => AttemptCallsKeyed(s, att.attemptId, id, "", None, {}, ERR_STALE, NO_RESULT, o.now);
    case Recover(_, aid, from, err, _) => AttemptCallsKeyed(s, aid, "", "", None, {from}, err, NO_RESULT, o.now);
    case RecordPolled(_, att, remote, pollError, _) => AttemptCallsKeyed(s, att.attemptId, "", remote, pollError, {}, ERR_STALE, NO_RESULT, o.now);
    case Complete(_, att, result) => AttemptCallsKeyed(s, att.attemptId, "", "", None, {}, ERR_STALE, result, o.now);
  }

  lemma ReadOnce(w: World, i: nat, o: Oracle)
    requires Once(w) && Reads(At(w, i))
    ensures Once(ReadStep(w, i, o))
  {
    OnwardSelf(w.store);
    hide Once, GetAttemptForProcessing, Onward;
    var x := ReadStep(w, i, o);
    assert x.store == w.store && x.remote == w.remote && x.workers == w.workers[i := x.workers[i]] && Token(x.workers[i].pc).None?;
    KeyedOf(w);
    Unclaimed(w, x, i, x.workers[i]);
  }

  lemma KeyedOf(w: World)
    requires Once(w)
    ensures Keyed(w.store)
  {
  }

  lemma LocalOnce(w: World, i: nat, o: Oracle)
    requires Once(w) && !Writes(At(w, i)) && !Reads(At(w, i)) && !At(w, i).Idle?
    ensures Once(LocalStep(w, i, o))
  {
    hide Once, Keyed, Onward, CallRemote, AfterPlan, AfterSubmit, AfterCall, BeforePoll, AfterPolling, AfterCollecting;
    var pc, x := At(w, i), LocalStep(w, i, o);
    OnwardSelf(w.store);
    KeyedOf(w);
    LocalTokens(w, i, o);
    if pc.Calling? {
      Called(w, x, i, pc.att.attemptId);
    } else {
      Unclaimed(w, x, i, x.workers[i]);
    }
  }

  lemma LocalTokens(w: World, i: nat, o: Oracle)
    requires !Writes(At(w, i)) && !Reads(At(w, i)) && !At(w, i).Idle?
    ensures var pc, x := At(w, i), LocalStep(w, i, o);
            && i in w.workers && i in x.workers && x.store == w.store && x.workers == w.workers[i := x.workers[i]]
            && (pc.Calling? ==> Token(x.workers[i].pc).None? && x.remote.calls == w.remote.calls + [pc.att.attemptId])
            && (!pc.Calling? ==> x.remote.calls == w.remote.calls && (Token(x.workers[i].pc).Some? ==> Token(x.workers[i].pc) == Token(pc)))
  {
  }

  /** The call uses its token up. */
  lemma Called(w: World, x: World, i: nat, aid: nat)
    requires Once(w) && x.store == w.store && x.remote.calls == w.remote.calls + [aid]
    requires i in w.workers && Token(w.workers[i].pc) == Some(aid)
    requires i in x.workers && x.workers == w.workers[i := x.workers[i]] && Token(x.workers[i].pc).None?
    ensures Once(x)
  {
    hide Keyed, Used, Token;
    assert TokenUsed(w.store, w.remote.calls, w.workers[i].pc);
    forall k | k in x.workers ensures TokenUsed(x.store, x.remote.calls, x.workers[k].pc) {
      if k != i {
        assert TokenUsed(w.store, w.remote.calls, w.workers[k].pc);
      }
    }
  }

  /** Any event at all keeps it. */
  lemma EventOnce(w: World, e: Event)
    requires Once(w)
    ensures Once(Apply(w, e))
  {
    hide Once, Keyed, Onward, WriteStep, ReadStep, LocalStep, AcceptProcessing;
    var x := Apply(w, e);
    KeyedOf(w);
    OnwardSelf(w.store);
    match e
    case Crash(i) => Unclaimed(w, x, i, x.workers[i]);
    case BeginPass(i, _, _, _) => Unclaimed(w, x, i, x.workers[i]);
    case BeginProcess(i, pid, alert, key, fingerprint, o) =>
      AcceptKeyed(w.store, pid, alert, Identity(alert.source.source, key, 1, fingerprint), o.now);
      Unclaimed(w, x, i, x.workers[i]);
    case LateFlow(_, _) => SameOnce(w, x);
    case Move(i, o) =>
      if Writes(At(w, i)) {
        WriteOnce(w, i, o);
      } else if Reads(At(w, i)) {
        ReadOnce(w, i, o);
      } else if At(w, i).Idle? {
        IdleMove(w, i, o);
      } else {
        LocalOnce(w, i, o);
      }
  }

  lemma SameOnce(w: World, x: World)
    requires Once(w) && x.store == w.store && x.workers == w.workers && x.remote.calls == w.remote.calls
    ensures Once(x)
  {
    hide Keyed, CallsOnce, TokenUsed;
  }

  lemma IdleMove(w: World, i: nat, o: Oracle)
    requires At(w, i).Idle?
    ensures LocalStep(w, i, o) == w
  {
  }

  lemma {:induction false} RunOnce(w: World, events: seq<Event>)
    requires Once(w)
    ensures Once(Run(w, events))
    decreases |events|
  {
    hide Once, Apply;
    if events != [] {
      EventOnce(w, events[0]);
      RunOnce(Apply(w, events[0]), events[1..]);
    }
  }

  // ----- The theorem

  /** The scoped key of the processing a submit call was made for. */
  function KeyOfCall(w: World, k: nat): Option<(string, string)>
    requires k < |w.remote.calls|
  {
    var aid := w.remote.calls[k];
    if aid in w.store.attempts && w.store.attempts[aid].processingId in w.store.records then
      var identity := w.store.records[w.store.attempts[aid].processingId].identity;
      if identity.Some? then Some((identity.value.scope, identity.value.key)) else None
    else None
  }

  /** However many deliveries, workers, passes and crashes, in whatever order, and whatever
      clocks, planners, backends and storage answer, `backend.submit` is called at most once for
      each scoped idempotency key. */
  lemma AtMostOneSubmit(clock: int, events: seq<Event>, j: nat, k: nat)
    requires j < k < |Run(InitialWorld(clock), events).remote.calls|
    ensures var w := Run(InitialWorld(clock), events);
            && KeyOfCall(w, j).Some? && KeyOfCall(w, k).Some? && KeyOfCall(w, j) != KeyOfCall(w, k)
  {
    hide Run, TokenUsed;
    RunOnce(InitialWorld(clock), events);
    var w := Run(InitialWorld(clock), events);
    var a, b := w.remote.calls[j], w.remote.calls[k];
    assert Used(w.store, a) && Used(w.store, b);
    assert KeyedAttempt(w.store, a) && KeyedAttempt(w.store, b);
    assert KeyedRecord(w.store, w.store.attempts[a].processingId) && KeyedRecord(w.store, w.store.attempts[b].processingId);
  }

  /** And the claim came first: a worker about to call holds an attempt that is durably claimed
      and for which no call was made. */
  lemma ClaimedFirst(clock: int, events: seq<Event>, i: nat)
    requires At(Run(InitialWorld(clock), events), i).Calling?
    ensures var w := Run(InitialWorld(clock), events);
            Used(w.store, At(w, i).att.attemptId) && At(w, i).att.attemptId !in w.remote.calls
  {
    hide Run, Keyed, Used, Once;
    InitialOnce(clock);
    RunOnce(InitialWorld(clock), events);
    TokenOf(Run(InitialWorld(clock), events), i);
  }

  lemma InitialOnce(clock: int)
    ensures Once(InitialWorld(clock))
  {
  }

  lemma TokenOf(w: World, i: nat)
    requires Once(w) && At(w, i).Calling?
    ensures Used(w.store, At(w, i).att.attemptId) && At(w, i).att.attemptId !in w.remote.calls
  {
    hide Keyed, Used;
    assert TokenUsed(w.store, w.remote.calls, w.workers[i].pc);
  }
}
