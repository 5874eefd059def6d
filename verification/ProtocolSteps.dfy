/** Each kind of step keeps the invariant of `ProtocolInvariant`. */
module ProtocolSteps {
  import opened Domain
  import opened Lifecycle
  import opened Repository
  import opened RepositoryInvariant
  import opened Protocol
  import opened ProtocolInvariant

  /** Worker `i` moves to `worker` while the store becomes `t` and the remote side `n`. */
  lemma FinishStep(w: World, t: Store, n: Remote, now: int, i: nat, worker: Worker)
    requires Inv(w)
    requires Lockstep(t) && Advances(w.store, t, now)
    requires RemoteGrows(w.remote, n) && RemoteOk(t, n)
    requires PcOk(t, n, worker.pc) && TodoOk(t, worker.todo)
    requires forall j :: j in w.workers && j != i && Token(w.workers[j].pc).Some? ==> TokenOk(t, n, Token(w.workers[j].pc).value)
    requires forall j :: j in w.workers && j != i && Token(worker.pc).Some? ==> Token(w.workers[j].pc) != Token(worker.pc)
    ensures Inv(World(t, now, w.workers[i := worker], n))
  {
    hide Lockstep, RemoteOk, PcOk, TodoOk, TokenOk, RemoteGrows, Token, RecordEvolves, AttemptEvolves, OneStep;
    var w' := World(t, now, w.workers[i := worker], n);
    forall j | j in w'.workers ensures PcOk(w'.store, w'.remote, w'.workers[j].pc) && TodoOk(w'.store, w'.workers[j].todo) {
      if j != i {
        PcKept(w.store, t, w.remote, n, w.workers[j].pc);
        TodoKept(w.store, t, w.workers[j].todo);
      }
    }
  }

  /** A change of at most one attempt keeps the accounts if that attempt is accounted for. */
  lemma RemoteKept(s: Store, t: Store, m: Remote, aid: nat)
    requires RemoteOk(s, m) && Evolves(s, t)
    requires t.attempts == s.attempts || (aid in t.attempts && t.attempts == s.attempts[aid := t.attempts[aid]] && Accounted(m, t.attempts[aid]))
    ensures RemoteOk(t, m)
  {
    hide RecordEvolves, Accounted;
    forall a | a in m.calls ensures a in t.attempts && t.attempts[a].startedAt.Some? {
      assert AttemptEvolves(s.attempts[a], t.attempts[a]);
    }
    forall k | 0 <= k < |m.lookups|
      ensures m.lookups[k].0 in t.attempts && t.attempts[m.lookups[k].0].externalOperationId == Some(m.lookups[k].1)
    {
      assert AttemptEvolves(s.attempts[m.lookups[k].0], t.attempts[m.lookups[k].0]);
    }
  }

  /** The part of a write that does not depend on whether the caller sees the reply. */
  ghost predicate WriteOk(w: World, t: Store, o: Oracle, aid: nat) {
    && Lockstep(t) && Advances(w.store, t, o.now)
    && (|| t.attempts == w.store.attempts
        || (&& aid in t.attempts && t.attempts == w.store.attempts[aid := t.attempts[aid]]
            && Accounted(w.remote, t.attempts[aid])
            && (TokenOk(w.store, w.remote, aid) ==> TokenOk(t, w.remote, aid))))
  }

  lemma WriteKeeps(w: World, i: nat, o: Oracle, t: Store, aid: nat, pc: Pc)
    requires Inv(w) && i in w.workers && WriteOk(w, t, o, aid)
    requires Token(pc).None? && PcOk(Commit(w, t, o).store, w.remote, pc)
    ensures Inv(Put(Commit(w, t, o), i, pc)) && Advances(w.store, Commit(w, t, o).store, o.now)
  {
    hide Lockstep, PcOk, TodoOk, Accounted, RemoteOk, Evolves, NoFlow, Advances;
    var t' := Commit(w, t, o).store;
    EvolvesReflexive(w.store, o.now);
    WriteRemote(w, t, o, aid);
    TodoKept(w.store, t', w.workers[i].todo) by { AdvancesEvolves(w.store, t', o.now); }
    FinishStep(w, t', w.remote, o.now, i, w.workers[i].(pc := pc));
  }

  lemma AdvancesEvolves(s: Store, t: Store, now: int)
    requires Advances(s, t, now)
    ensures Evolves(s, t)
  {
    hide Evolves, OneStep;
  }

  lemma WriteRemote(w: World, t: Store, o: Oracle, aid: nat)
    requires Inv(w) && WriteOk(w, t, o, aid)
    ensures RemoteOk(Commit(w, t, o).store, w.remote) && RemoteGrows(w.remote, w.remote)
    ensures forall j :: j in w.workers && Token(w.workers[j].pc).Some? ==>
              TokenOk(Commit(w, t, o).store, w.remote, Token(w.workers[j].pc).value)
  {
    hide Lockstep, TodoOk, Accounted, RemoteOk, Evolves, NoFlow, RecordSnap, AttemptSnap, TokensDistinct, OneStep;
    RemoteKept(w.store, t, w.remote, aid);
    var t' := Commit(w, t, o).store;
    forall j | j in w.workers && Token(w.workers[j].pc).Some? ensures TokenOk(t', w.remote, Token(w.workers[j].pc).value) {
      assert PcOk(w.store, w.remote, w.workers[j].pc);
    }
  }

  // ----- Reads and local steps

  /** A step that leaves store and remote side alone and hands out no token. */
  lemma QuietKeeps(w: World, i: nat, worker: Worker)
    requires Inv(w)
    requires PcOk(w.store, w.remote, worker.pc) && TodoOk(w.store, worker.todo)
    requires Token(worker.pc).None? || (i in w.workers && Token(worker.pc) == Token(w.workers[i].pc))
    ensures Inv(w.(workers := w.workers[i := worker]))
  {
    hide Lockstep, TodoOk, Accounted, RemoteOk, Evolves, RecordSnap, AttemptSnap, NoFlow;
    EvolvesReflexive(w.store, w.clock);
    forall j | j in w.workers && j != i && Token(w.workers[j].pc).Some?
      ensures TokenOk(w.store, w.remote, Token(w.workers[j].pc).value)
    {
      assert PcOk(w.store, w.remote, w.workers[j].pc);
    }
    FinishStep(w, w.store, w.remote, w.clock, i, worker);
  }

  // ----- Writes

  ghost predicate Moving(w: World, i: nat, o: Oracle) {
    Inv(w) && i in w.workers && !At(w, i).Idle? && OracleOk(w, At(w, i), o)
  }

  /** The invariant, and that the store took at most one legal step. */
  ghost predicate Kept1(w: World, w': World, o: Oracle) {
    Inv(w') && Advances(w.store, w'.store, o.now)
  }

  lemma SnapAfter(w: World, t: Store, o: Oracle, rec: Record)
    requires RecordSnap(w.store, rec) && Advances(w.store, t, o.now)
    ensures RecordSnap(Commit(w, t, o).store, rec)
  {
    hide RecordSnap, Evolves, OneStep;
    RecordSnapKept(w.store, t, rec);
  }

  /** A write after which the worker is done with the item or reads it again. */
  lemma WriteThenDone(w: World, i: nat, o: Oracle, t: Store, aid: nat, rec: Record, pc: Pc)
    requires Inv(w) && i in w.workers && WriteOk(w, t, o, aid)
    requires RecordSnap(w.store, rec) && (pc == NextItem || pc == Reread(rec))
    ensures Kept1(w, Put(Commit(w, t, o), i, pc), o)
  {
    hide Inv, RecordSnap, Lockstep, Advances, TokenOk, Accounted;
    SnapAfter(w, t, o, rec);
    WriteKeeps(w, i, o, t, aid, pc);
  }

  lemma FailAcceptedStep(w: World, i: nat, o: Oracle)
    requires Moving(w, i, o) && At(w, i).FailAccepted?
    ensures Kept1(w, WriteStep(w, i, o), o)
  {
    hide FailProcessing;
    hide Lockstep, Advances, TokenOk, Accounted, RecordSnap, RemoteOk, TokensDistinct, TodoOk;
    var pc := At(w, i);
    FailAcceptedKeeps(w.store, pc.rec.processingId, pc.err, o.now);
    var (s, reply) := FailProcessing(w.store, pc.rec.processingId, {Accepted}, pc.err, None, o.now);
    WriteThenDone(w, i, o, s, 0, pc.rec, if pc.reread then OrReread(Seen(reply, o), pc.rec) else NextItem);
  }

  lemma StoreNoActionStep(w: World, i: nat, o: Oracle)
    requires Moving(w, i, o) && At(w, i).StoreNoAction?
    ensures Kept1(w, WriteStep(w, i, o), o)
  {
    hide StoreNoActionResult;
    hide Lockstep, Advances, TokenOk, Accounted, RemoteOk, TokensDistinct, TodoOk, RecordConstructs, DecisionValid, ResultValid;
    var pc := At(w, i);
    StoreNoActionKeeps(w.store, pc.rec.processingId, pc.result, o.now);
    var (s, reply) := StoreNoActionResult(w.store, pc.rec.processingId, pc.result, o.now);
    WriteThenDone(w, i, o, s, 0, pc.rec, OrReread(Seen(reply, o), pc.rec));
  }

  /** What the stored attempt says, for the attempt a worker holds a snapshot of. */
  lemma StoredAttempt(w: World, rec: Record, att: Attempt)
    requires Inv(w) && PairSnap(w.store, rec, att)
    ensures var a := w.store.attempts[att.attemptId];
            && a.attemptId == att.attemptId && a.processingId == rec.processingId
            && AttemptConstructs(a) && Accounted(w.remote, a) && rec.processingId in w.store.records
            && Kept(att.externalOperationId, a.externalOperationId)
  {
    hide Lockstep, AttemptConstructs, FailureAccounted, RecordEvolves, RecordConstructs, CallsOk, FlowsOk, LookupsOk, WorkersOk, TokensDistinct;
    PairOf(w.store, att.attemptId);
  }

  lemma FailPlannedStep(w: World, i: nat, o: Oracle)
    requires Moving(w, i, o) && At(w, i).FailPlanned?
    ensures Kept1(w, WriteStep(w, i, o), o)
  {
    hide FailProcessing;
    hide Lockstep, Advances, RemoteOk, TokensDistinct, TodoOk, RecordSnap, NoFlow, OperationIdOk, NonBlank;
    ErrorTexts();
    hide ErrorTextOk, RemoteTextOk;
    var pc := At(w, i);
    StoredAttempt(w, pc.rec, pc.att);
    FailAttemptKeeps(w.store, pc.rec.processingId, Planned, ERR_UNCONFIGURED, pc.att.attemptId, o.now);
    var (s, reply) := FailProcessing(w.store, pc.rec.processingId, {Planned}, ERR_UNCONFIGURED, Some(pc.att.attemptId), o.now);
    WriteThenDone(w, i, o, s, pc.att.attemptId, pc.rec, OrReread(Seen(reply, o), pc.rec));
  }

  lemma FailRejectedStep(w: World, i: nat, o: Oracle)
    requires Moving(w, i, o) && At(w, i).FailRejected?
    ensures Kept1(w, WriteStep(w, i, o), o)
  {
    hide FailProcessing;
    hide Lockstep, Advances, RemoteOk, TokensDistinct, TodoOk, RecordSnap, NoFlow, OperationIdOk, NonBlank;
    ErrorTexts();
    hide ErrorTextOk, RemoteTextOk;
    var pc := At(w, i);
    StoredAttempt(w, pc.rec, pc.att);
    FailAttemptKeeps(w.store, pc.rec.processingId, Submitting, ERR_REJECTED, pc.att.attemptId, o.now);
    var (s, reply) := FailProcessing(w.store, pc.rec.processingId, {Submitting}, ERR_REJECTED, Some(pc.att.attemptId), o.now);
    WriteThenDone(w, i, o, s, pc.att.attemptId, pc.rec, OrReread(Seen(reply, o), pc.rec));
  }

  lemma FailExecutionStep(w: World, i: nat, o: Oracle)
    requires Moving(w, i, o) && At(w, i).FailExecution?
    ensures Kept1(w, WriteStep(w, i, o), o)
  {
    hide FailProcessing;
    hide Lockstep, Advances, RemoteOk, TokensDistinct, TodoOk, RecordSnap, NoFlow, OperationIdOk, NonBlank;
    ErrorTexts();
    hide ErrorTextOk, RemoteTextOk;
    var pc := At(w, i);
    StoredAttempt(w, pc.rec, pc.att);
    FailAttemptKeeps(w.store, pc.rec.processingId, Submitted, ERR_EXECUTION, pc.att.attemptId, o.now);
    var (s, reply) := FailProcessing(w.store, pc.rec.processingId, {Submitted}, ERR_EXECUTION, Some(pc.att.attemptId), o.now);
    WriteThenDone(w, i, o, s, pc.att.attemptId, pc.rec, OrReread(Seen(reply, o), pc.rec));
  }

  lemma RecoverStep(w: World, i: nat, o: Oracle)
    requires Moving(w, i, o) && At(w, i).Recover?
    ensures Kept1(w, WriteStep(w, i, o), o)
  {
    hide MarkRecoveryRequired;
    hide Lockstep, Advances, TokensDistinct, TodoOk, RecordSnap, NoFlow, CallsOk, FlowsOk, LookupsOk, FailureAccounted;
    var pc := At(w, i);
    RecoveryKeeps(w.store, pc.aid, pc.from, pc.err, o.now);
    var (s, reply) := MarkRecoveryRequired(w.store, pc.aid, {pc.from}, pc.err, o.now);
    WriteThenDone(w, i, o, s, pc.aid, pc.rec, if pc.reread then OrReread(Seen(reply, o), pc.rec) else NextItem);
  }

  lemma CompleteStep(w: World, i: nat, o: Oracle)
    requires Moving(w, i, o) && At(w, i).Complete?
    ensures Kept1(w, WriteStep(w, i, o), o)
  {
    hide CompleteProcessing;
    hide Lockstep, Advances, RemoteOk, TokensDistinct, TodoOk, NoFlow, OperationIdOk, NonBlank, RecordSnap;
    var pc := At(w, i);
    StoredAttempt(w, pc.rec, pc.att);
    if w.store.attempts[pc.att.attemptId].state == ASubmitted {
      SnapResult(w.store, pc.rec, pc.att, pc.result);
    }
    CompleteKeeps(w.store, pc.att.attemptId, pc.result, o.now);
    var (s, reply) := CompleteProcessing(w.store, pc.att.attemptId, pc.result, o.now);
    WriteThenDone(w, i, o, s, pc.att.attemptId, pc.rec, OrReread(Seen(reply, o), pc.rec));
  }

  /** A result built from a stale snapshot still carries the stored plan: while the record is
      submitted, every earlier version shows either no plan or this one. */
  lemma SnapResult(s: Store, rec: Record, att: Attempt, result: OrchestrationResult)
    requires Lockstep(s) && PairSnap(s, rec, att) && ResultFromSnap(rec, result)
    requires s.attempts[att.attemptId].state == ASubmitted
    ensures InvestigationFrom(s.records[rec.processingId], result)
  {
    hide Lockstep, InvestigationValid, PlanCoherent;
    PairOf(s, att.attemptId);
  }

  lemma MarkStep(w: World, i: nat, o: Oracle)
    requires Moving(w, i, o) && At(w, i).Mark?
    ensures Kept1(w, WriteStep(w, i, o), o)
  {
    hide MarkSubmitted;
    hide Lockstep, Advances, RemoteOk, TokensDistinct, TodoOk, RecordSnap, NoFlow, OperationIdOk, NonBlank;
    ErrorTexts();
    hide ErrorTextOk, RemoteTextOk;
    var pc := At(w, i);
    StoredAttempt(w, pc.rec, pc.att);
    MarkSubmittedKeeps(w.store, pc.att.attemptId, pc.externalId, o.now);
    var (s, reply) := MarkSubmitted(w.store, pc.att.attemptId, pc.externalId, o.now);
    SnapAfter(w, s, o, pc.rec);
    SameAttemptIf(reply);
    WriteKeeps(w, i, o, s, pc.att.attemptId, AfterMark(pc.rec, pc.att, Seen(reply, o)));
  }

  lemma SameAttemptIf(reply: Reply<Option<Attempt>>)
    ensures reply.Returned? && reply.value.Some? ==> AttemptEvolves(reply.value.value, reply.value.value)
  {
  }

  lemma RecordPolledStep(w: World, i: nat, o: Oracle)
    requires Moving(w, i, o) && At(w, i).RecordPolled?
    ensures Kept1(w, WriteStep(w, i, o), o)
  {
    hide RecordPoll;
    hide Lockstep, Advances, RemoteOk, TokensDistinct, TodoOk, NoFlow, OperationIdOk, NonBlank, RecordSnap;
    var pc := At(w, i);
    StoredAttempt(w, pc.rec, pc.att);
    RecordPollKeeps(w.store, pc.att.attemptId, pc.remote, pc.pollError, o.now);
    var (s, reply) := RecordPoll(w.store, pc.att.attemptId, pc.remote, pc.pollError, o.now);
    SnapAfter(w, s, o, pc.rec);
    PairAfter(w, s, o, pc.rec, pc.att);
    WriteKeeps(w, i, o, s, pc.att.attemptId, AfterRecordPoll(pc.rec, pc.att, pc.after, Seen(reply, o).Raised?));
  }

  lemma PairAfter(w: World, t: Store, o: Oracle, rec: Record, att: Attempt)
    requires PairSnap(w.store, rec, att) && Advances(w.store, t, o.now)
    ensures PairSnap(Commit(w, t, o).store, rec, att)
  {
    hide PairSnap, Evolves, OneStep;
    PairSnapKept(w.store, t, rec, att);
  }

  lemma StorePlannedStep(w: World, i: nat, o: Oracle)
    requires Moving(w, i, o) && At(w, i).StorePlanned?
    ensures Kept1(w, WriteStep(w, i, o), o)
  {
    hide StorePlan;
    hide Lockstep, Advances, RemoteOk, TokensDistinct, TodoOk, NoFlow, RecordConstructs, AttemptConstructs;
    var pc := At(w, i);
    StorePlanKeeps(w.store, pc.rec.processingId, pc.plan, o.attemptId, o.operationKey, o.now);
    var (s, reply) := StorePlan(w.store, pc.rec.processingId, pc.plan, o.attemptId, o.operationKey, o.now);
    SnapAfter(w, s, o, pc.rec);
    var seen := Seen(reply, o);
    if seen.Returned? && seen.value.Some? {
      FreshPair(s, o.attemptId, seen.value.value.record, seen.value.value.attempt);
      WriteKeeps(w, i, o, s, o.attemptId, Submit(seen.value.value.record, seen.value.value.attempt));
    } else {
      WriteKeeps(w, i, o, s, o.attemptId, OrReread(seen, pc.rec));
    }
  }

  lemma FreshPair(s: Store, aid: nat, rec: Record, att: Attempt)
    requires Lockstep(s) && aid in s.attempts && s.attempts[aid] == att
    requires att.processingId in s.records && s.records[att.processingId] == rec
    ensures PairSnap(s, rec, att)
  {
    hide Lockstep, RecordConstructs, AttemptConstructs, Paired;
    PairOf(s, aid);
    SameRecord(rec, 0);
    SameAttempt(att);
  }

  /** What the invariant says at the moving worker's program counter. */
  lemma MovingPc(w: World, i: nat, o: Oracle)
    requires Moving(w, i, o)
    ensures Inv(w) && i in w.workers && PcOk(w.store, w.remote, At(w, i))
  {
    hide Lockstep, RemoteOk, PcOk, TodoOk;
  }

  predicate SeesClaim(w: World, i: nat, o: Oracle)
    requires At(w, i).Claim?
  {
    var seen := Seen(ClaimAttempt(w.store, At(w, i).att.attemptId, o.now).1, o);
    seen.Returned? && seen.value.Some?
  }

  lemma ClaimUnseen(w: World, i: nat, o: Oracle)
    requires Moving(w, i, o) && At(w, i).Claim? && !SeesClaim(w, i, o)
    ensures Kept1(w, WriteStep(w, i, o), o)
  {
    hide ClaimAttempt;
    hide Lockstep, Advances, RemoteOk, TokensDistinct, TodoOk, RecordSnap, NoFlow, OperationIdOk, NonBlank;
    var pc := At(w, i);
    StoredAttempt(w, pc.rec, pc.att);
    ClaimKeeps(w.store, pc.att.attemptId, o.now);
    var (s, reply) := ClaimAttempt(w.store, pc.att.attemptId, o.now);
    WriteThenDone(w, i, o, s, pc.att.attemptId, pc.rec, OrReread(Seen(reply, o), pc.rec));
  }

  lemma ClaimSeen(w: World, i: nat, o: Oracle)
    requires Moving(w, i, o) && At(w, i).Claim? && SeesClaim(w, i, o)
    ensures Kept1(w, WriteStep(w, i, o), o)
  {
    hide ClaimAttempt;
    hide Lockstep, Advances, RemoteOk, TokensDistinct, TodoOk, RecordSnap, NoFlow, OperationIdOk, NonBlank;
    var pc := At(w, i);
    StoredAttempt(w, pc.rec, pc.att);
    ClaimKeeps(w.store, pc.att.attemptId, o.now);
    var (s, reply) := ClaimAttempt(w.store, pc.att.attemptId, o.now);
    ClaimToken(w, i, o, s, reply.value.value);
  }

  /** The claim hands out the token: nobody else can hold it, because a token's attempt has
      left the planned state. */
  lemma ClaimStep(w: World, i: nat, o: Oracle)
    requires Moving(w, i, o) && At(w, i).Claim?
    ensures Kept1(w, WriteStep(w, i, o), o)
  {
    hide Moving, Kept1, WriteStep, SeesClaim;
    if SeesClaim(w, i, o) {
      ClaimSeen(w, i, o);
    } else {
      ClaimUnseen(w, i, o);
    }
  }

  lemma ClaimToken(w: World, i: nat, o: Oracle, s: Store, claimed: Attempt)
    requires Moving(w, i, o) && At(w, i).Claim?
    requires Lockstep(s) && Advances(w.store, s, o.now)
    requires var aid := At(w, i).att.attemptId;
             && claimed.attemptId == aid && aid in w.store.attempts && w.store.attempts[aid].state == APlanned
             && s.attempts == w.store.attempts[aid := claimed] && claimed == ClaimedAttempt(w.store.attempts[aid], o.now)
             && claimed.processingId == At(w, i).rec.processingId
             && AttemptConstructs(w.store.attempts[aid]) && Accounted(w.remote, claimed)
    ensures var w' := Put(w.(store := s, clock := o.now), i, Claimed(At(w, i).rec, claimed));
            Inv(w') && Advances(w.store, w'.store, o.now)
  {
    hide Lockstep, Advances, TodoOk, NoFlow, OperationIdOk, NonBlank, RecordSnap, FlowsOk, LookupsOk, FailureAccounted, RecordEvolves;
    hide Accounted, AllAccounted;
    AdvancesEvolves(w.store, s, o.now);
    RemoteKept(w.store, s, w.remote, claimed.attemptId);
    RecordSnapKept(w.store, s, At(w, i).rec);
    SameAttempt(claimed);
    TodoKept(w.store, s, w.workers[i].todo);
    forall j | j in w.workers && Token(w.workers[j].pc).Some?
      ensures TokenOk(s, w.remote, Token(w.workers[j].pc).value) && Token(w.workers[j].pc).value != claimed.attemptId
    {
      assert PcOk(w.store, w.remote, w.workers[j].pc);
    }
    FinishStep(w, s, w.remote, o.now, i, w.workers[i].(pc := Claimed(At(w, i).rec, claimed)));
  }

  lemma WriteStepKeeps(w: World, i: nat, o: Oracle)
    requires Moving(w, i, o) && Writes(At(w, i))
    ensures Kept1(w, WriteStep(w, i, o), o)
  {
    hide Inv, Kept1, Lockstep, Advances, OracleOk, WriteStep;
    match At(w, i)
    case FailAccepted(_, _, _) => FailAcceptedStep(w, i, o);
    case StoreNoAction(_, _) => StoreNoActionStep(w, i, o);
    case StorePlanned(_, _) => StorePlannedStep(w, i, o);
    case FailPlanned(_, _) => FailPlannedStep(w, i, o);
    case Claim(_, _) => ClaimStep(w, i, o);
    case FailRejected(_, _) => FailRejectedStep(w, i, o);
    case Mark(_, _, _) => MarkStep(w, i, o);
    case Recover(_, _, _, _, _) => RecoverStep(w, i, o);
    case RecordPolled(_, _, _, _, _) => RecordPolledStep(w, i, o);
    case FailExecution(_, _) => FailExecutionStep(w, i, o);
    case Complete(_, _, _) => CompleteStep(w, i, o);
  }

  // ----- Reads

  lemma StoredSnap(w: World, pid: nat)
    requires Inv(w) && pid in w.store.records
    ensures w.store.records[pid].processingId == pid && RecordSnap(w.store, w.store.records[pid])
  {
    hide Lockstep, RemoteOk, WorkersOk, TokensDistinct, RecordConstructs, Paired;
    Pairing(w.store, pid);
    SameRecord(w.store.records[pid], 0);
  }

  /** Reading the attempt of a snapshot's record gives a current snapshot of the pair. */
  lemma FetchedPair(w: World, rec: Record)
    requires Inv(w) && RecordSnap(w.store, rec)
    ensures var reply := GetAttemptForProcessing(w.store, rec.processingId);
            reply.Returned? && (reply.value.Some? ==> PairSnap(w.store, rec, reply.value.value))
  {
    hide RemoteOk, WorkersOk, TokensDistinct, RecordSnap, RecordOk, AttemptOk, KeyIndexOk, OperationKeysOk, AttemptConstructs;
    if rec.processingId in w.store.attemptOf {
      var aid := w.store.attemptOf[rec.processingId];
      FetchedId(w.store, aid);
      SameAttempt(w.store.attempts[aid]);
    }
  }

  lemma FetchedId(s: Store, aid: nat)
    requires Lockstep(s) && aid in s.attempts
    ensures s.attempts[aid].attemptId == aid
  {
    hide Lockstep, AttemptConstructs, RecordConstructs, Paired;
    PairOf(s, aid);
  }

  predicate HasAttempt(pc: Pc) {
    pc.Submit? || pc.FailPlanned? || pc.Claim? || pc.Claimed? || pc.Calling? || pc.FailRejected? || pc.Mark?
    || pc.RereadForPoll? || pc.Poll? || pc.Polling? || pc.RecordPolled? || pc.FailExecution? || pc.Collect?
    || pc.Collecting? || pc.Complete?
  }

  lemma PcOwns(s: Store, m: Remote, pc: Pc)
    requires PcOk(s, m, pc) && HasAttempt(pc)
    ensures PairSnap(s, pc.rec, pc.att) && Owns(s, pc.rec, pc.att.attemptId)
  {
    hide PairSnap, Owns, NoFlow, TokenOk;
    PairOwns(s, pc.rec, pc.att);
  }

  lemma ReadStepKeeps(w: World, i: nat, o: Oracle)
    requires Moving(w, i, o) && Reads(At(w, i))
    ensures Inv(ReadStep(w, i, o)) && ReadStep(w, i, o).store == w.store
  {
    MovingPc(w, i, o);
    hide Moving, Inv, RecordSnap, PairSnap, NoFlow, TokenOk, PlanCoherent, NoActionFrom, ResultFromSnap;
    var rec := At(w, i).rec;
    assert TodoOk(w.store, w.workers[i].todo) by { MovingTodo(w, i, o); }
    FetchedPair(w, rec) by { MovingSnap(w, i, o); }
    var r := Get(w.store, rec.processingId);
    if r.Some? {
      StoredSnap(w, rec.processingId);
    }
    ReadPc(w, i, o);
    QuietKeeps(w, i, ReadStep(w, i, o).workers[i]);
  }

  lemma MovingTodo(w: World, i: nat, o: Oracle)
    requires Moving(w, i, o)
    ensures TodoOk(w.store, w.workers[i].todo)
  {
    hide Lockstep, RemoteOk, PcOk, TodoOk;
  }

  lemma MovingSnap(w: World, i: nat, o: Oracle)
    requires Moving(w, i, o) && Reads(At(w, i))
    ensures RecordSnap(w.store, At(w, i).rec)
  {
    MovingPc(w, i, o);
    hide Moving, Inv, RecordSnap, AttemptSnap;
  }

  /** The program counter after a read is justified by what was read. */
  lemma ReadPc(w: World, i: nat, o: Oracle)
    requires Reads(At(w, i)) && PcOk(w.store, w.remote, At(w, i)) && i in w.workers
    requires var reply := GetAttemptForProcessing(w.store, At(w, i).rec.processingId);
             reply.Returned? && (reply.value.Some? ==> PairSnap(w.store, At(w, i).rec, reply.value.value))
    requires var r := Get(w.store, At(w, i).rec.processingId);
             r.Some? ==> r.value.processingId == At(w, i).rec.processingId && RecordSnap(w.store, r.value)
    ensures var worker := ReadStep(w, i, o).workers[i];
            && PcOk(w.store, w.remote, worker.pc) && Token(worker.pc).None?
            && (worker.todo == w.workers[i].todo || worker.todo == [])
            && ReadStep(w, i, o) == w.(workers := w.workers[i := worker])
  {
    hide RecordSnap, AttemptSnap, NoFlow, TokenOk, PlanCoherent, NoActionFrom, ResultFromSnap, GetAttemptForProcessing;
    ErrorTexts();
    hide ErrorTextOk, RemoteTextOk;
    var reply := GetAttemptForProcessing(w.store, At(w, i).rec.processingId);
    if reply.value.Some? {
      PairOwns(w.store, At(w, i).rec, reply.value.value);
    }
    hide Owns;
  }

  // ----- Local steps

  lemma LocalPc(w: World, i: nat, o: Oracle)
    requires i in w.workers && PcOk(w.store, w.remote, At(w, i)) && OracleOk(w, At(w, i), o)
    requires !Writes(At(w, i)) && !Reads(At(w, i)) && !At(w, i).Idle? && !At(w, i).Calling? && !At(w, i).NextItem?
    ensures var worker := LocalStep(w, i, o).workers[i];
            && PcOk(w.store, w.remote, worker.pc) && (Token(worker.pc).None? || Token(worker.pc) == Token(At(w, i)))
            && worker.todo == w.workers[i].todo
            && LocalStep(w, i, o) == w.(workers := w.workers[i := worker], remote := LocalStep(w, i, o).remote)
  {
    hide RecordSnap, AttemptSnap, Owns, NoFlow, TokenOk, PlanCoherent, DecisionValid, InvestigationValid, NonBlank;
    ErrorTexts();
    hide ErrorTextOk;
    if At(w, i).Advance? {
      assert PcOk(w.store, w.remote, AfterPlan(At(w, i).rec, o.plan));
    } else {
      PcOwns(w.store, w.remote, At(w, i));
    }
  }

  /** Poll and collect calls use the identifier the store holds. */
  lemma ReadRemoteOk(w: World, rec: Record, att: Attempt)
    requires RemoteOk(w.store, w.remote) && PairSnap(w.store, rec, att)
    ensures RemoteOk(w.store, ReadRemote(w, att).remote) && RemoteGrows(w.remote, ReadRemote(w, att).remote)
    ensures forall a :: TokenOk(w.store, w.remote, a) ==> TokenOk(w.store, ReadRemote(w, att).remote, a)
  {
    hide CallsOk, FlowsOk, RecordSnap, Accounted, NoFlow;
    var n := ReadRemote(w, att).remote;
    assert CallsOk(w.store, n) by { SameCalls(w.store, w.remote, n); }
    assert FlowsOk(n) by { SameCalls(w.store, w.remote, n); }
    forall a ensures NoFlow(n, a) == NoFlow(w.remote, a) { SameFlows(w.remote, n, a); }
    forall a | a in w.store.attempts ensures Accounted(n, w.store.attempts[a]) {
      SameAccounts(w.remote, n, w.store.attempts[a]);
    }
  }

  lemma SameCalls(s: Store, m: Remote, n: Remote)
    requires CallsOk(s, m) && FlowsOk(m) && n.calls == m.calls && n.flows == m.flows && n.pending == m.pending
    ensures CallsOk(s, n) && FlowsOk(n)
  {
  }

  lemma SameFlows(m: Remote, n: Remote, a: nat)
    requires n.flows == m.flows && n.pending == m.pending
    ensures NoFlow(n, a) == NoFlow(m, a)
  {
  }

  lemma SameAccounts(m: Remote, n: Remote, att: Attempt)
    requires n.flows == m.flows && n.pending == m.pending && Accounted(m, att)
    ensures Accounted(n, att)
  {
    SameFlows(m, n, att.attemptId);
  }

  /** Moving on after a poll or collect call. */
  lemma LookupKeeps(w: World, i: nat, rec: Record, att: Attempt, pc: Pc)
    requires Inv(w) && i in w.workers && PairSnap(w.store, rec, att)
    requires PcOk(w.store, w.remote, pc) && Token(pc).None? && TodoOk(w.store, w.workers[i].todo)
    ensures Inv(Put(ReadRemote(w, att), i, pc))
  {
    hide Lockstep, TodoOk, RemoteOk, Evolves, RecordSnap, AttemptSnap, NoFlow, TokenOk, RemoteGrows;
    var n := ReadRemote(w, att).remote;
    EvolvesReflexive(w.store, w.clock);
    ReadRemoteOk(w, rec, att);
    forall j | j in w.workers && j != i && Token(w.workers[j].pc).Some?
      ensures TokenOk(w.store, n, Token(w.workers[j].pc).value)
    {
      assert PcOk(w.store, w.remote, w.workers[j].pc);
    }
    PcKept(w.store, w.store, w.remote, n, pc);
    FinishStep(w, w.store, n, w.clock, i, w.workers[i].(pc := pc));
  }

  // ----- The submit call

  /** Using the token: the first and only call for this attempt. */
  lemma CallAccounts(s: Store, m: Remote, aid: nat, e: RemoteEffect)
    requires RemoteOk(s, m) && TokenOk(s, m, aid)
    requires forall a :: a in s.attempts ==> s.attempts[a].attemptId == a
    ensures RemoteOk(s, CallRemote(m, aid, e)) && RemoteGrows(m, CallRemote(m, aid, e))
    ensures e == NoEffect ==> NoFlow(CallRemote(m, aid, e), aid)
  {
    var n := CallRemote(m, aid, e);
    hide AttemptConstructs;
    assert NoFlow(m, aid);
    forall a | a in s.attempts ensures Accounted(n, s.attempts[a]) {
      assert Accounted(m, s.attempts[a]);
    }
  }

  lemma CallingKeeps(w: World, i: nat, o: Oracle)
    requires Moving(w, i, o) && At(w, i).Calling?
    ensures Inv(LocalStep(w, i, o))
  {
    hide Lockstep, TodoOk, RemoteOk, Evolves, RecordSnap, AttemptSnap, NoFlow, RemoteGrows;
    ErrorTexts();
    hide ErrorTextOk, RemoteTextOk;
    var pc := At(w, i);
    var n := CallRemote(w.remote, pc.att.attemptId, o.effect);
    EvolvesReflexive(w.store, w.clock);
    forall a | a in w.store.attempts ensures w.store.attempts[a].attemptId == a {
      FetchedId(w.store, a);
    }
    CallAccounts(w.store, w.remote, pc.att.attemptId, o.effect);
    PairOwns(w.store, pc.rec, pc.att);
    forall j | j in w.workers && j != i && Token(w.workers[j].pc).Some?
      ensures TokenOk(w.store, n, Token(w.workers[j].pc).value)
    {
      assert PcOk(w.store, w.remote, w.workers[j].pc);
      assert Token(w.workers[j].pc) != Token(pc);
    }
    FinishStep(w, w.store, n, w.clock, i, w.workers[i].(pc := AfterCall(pc.rec, pc.att, o.submit)));
  }

  lemma LocalStepKeeps(w: World, i: nat, o: Oracle)
    requires Moving(w, i, o) && !Writes(At(w, i)) && !Reads(At(w, i))
    ensures Inv(LocalStep(w, i, o)) && LocalStep(w, i, o).store == w.store
  {
    if At(w, i).Calling? {
      CallingKeeps(w, i, o);
    } else {
      MovingPc(w, i, o);
      MovingTodo(w, i, o);
      hide Moving, Inv, RecordSnap, AttemptSnap, NoFlow, TokenOk;
      if At(w, i).NextItem? {
        QuietKeeps(w, i, LocalStep(w, i, o).workers[i]);
      } else {
        LocalPc(w, i, o) by { MovingOracle(w, i, o); }
        if At(w, i).Polling? || At(w, i).Collecting? {
          LookupKeeps(w, i, At(w, i).rec, At(w, i).att, LocalStep(w, i, o).workers[i].pc);
        } else {
          QuietKeeps(w, i, LocalStep(w, i, o).workers[i]);
        }
      }
    }
  }

  lemma MovingOracle(w: World, i: nat, o: Oracle)
    requires Moving(w, i, o)
    ensures OracleOk(w, At(w, i), o)
  {
    hide Inv;
  }

  // ----- Events

  lemma BeginKeeps(w: World, i: nat, pid: nat, alert: Alert, key: string, fingerprint: seq<int>, o: Oracle)
    requires Inv(w) && AlertValid(alert) && |fingerprint| == 32 && At(w, i).Idle?
    ensures Kept1(w, Begin(w, i, pid, alert, key, fingerprint, o), o)
  {
    hide Lockstep, Advances, RemoteOk, AlertValid, RecordConstructs, AcceptProcessing, TokenOk, RecordSnap, Evolves;
    var identity := Identity(alert.source.source, key, 1, fingerprint);
    AcceptKeeps(w.store, pid, alert, identity, o.now);
    EvolvesReflexive(w.store, o.now);
    var (s, reply) := AcceptProcessing(w.store, pid, alert, identity, o.now);
    var seen := Seen(reply, o);
    var pc := AfterAcceptance(seen, fingerprint);
    var t := Commit(w, s, o).store;
    AcceptedRemote(w, t, o.now);
    if pc.Advance? {
      AcceptedSnap(t, seen.value.record);
    }
    FinishStep(w, t, w.remote, o.now, i, Worker(pc, [], false));
  }

  lemma AcceptedSnap(s: Store, r: Record)
    requires Lockstep(s) && r.processingId in s.records && s.records[r.processingId] == r
    ensures RecordSnap(s, r)
  {
    hide Lockstep, RecordConstructs, Paired;
    Pairing(s, r.processingId);
    SameRecord(r, 0);
  }

  lemma AcceptedRemote(w: World, t: Store, now: int)
    requires Inv(w) && Advances(w.store, t, now) && t.attempts == w.store.attempts
    ensures RemoteOk(t, w.remote) && RemoteGrows(w.remote, w.remote)
    ensures forall j :: j in w.workers && Token(w.workers[j].pc).Some? ==> TokenOk(t, w.remote, Token(w.workers[j].pc).value)
  {
    hide Lockstep, TodoOk, Accounted, RemoteOk, Evolves, NoFlow, RecordSnap, AttemptSnap, TokensDistinct, OneStep;
    RemoteKept(w.store, t, w.remote, 0);
    forall j | j in w.workers && Token(w.workers[j].pc).Some? ensures TokenOk(t, w.remote, Token(w.workers[j].pc).value) {
      assert PcOk(w.store, w.remote, w.workers[j].pc);
    }
  }

  lemma FoundSnaps(w: World, limit: nat, staleBefore: int, found: seq<Record>)
    requires Inv(w) && IsWorkList(w.store, limit, staleBefore, found)
    ensures TodoOk(w.store, found)
  {
    hide Inv, Eligible, RecordSnap, Before;
    forall k | 0 <= k < |found| ensures RecordSnap(w.store, found[k]) {
      StoredSnap(w, found[k].processingId);
    }
  }

  /** A flow that shows up after its call was already answered or abandoned. */
  lemma LateFlowAccounts(s: Store, m: Remote, aid: nat, id: string)
    requires RemoteOk(s, m) && aid in m.pending
    ensures var n := m.(pending := m.pending - {aid}, flows := m.flows + [Flow(aid, id)]);
            RemoteOk(s, n) && RemoteGrows(m, n) && n.calls == m.calls
  {
    hide AttemptConstructs;
    var n := m.(pending := m.pending - {aid}, flows := m.flows + [Flow(aid, id)]);
    forall a | a in s.attempts ensures Accounted(n, s.attempts[a]) {
      assert Accounted(m, s.attempts[a]);
    }
  }

  lemma LateFlowKeeps(w: World, aid: nat, id: string)
    requires Inv(w) && aid in w.remote.pending
    ensures Inv(Apply(w, LateFlow(aid, id)))
  {
    hide Lockstep, TodoOk, RemoteOk, Evolves, RecordSnap, AttemptSnap, NoFlow, RemoteGrows, TokensDistinct;
    EvolvesReflexive(w.store, w.clock);
    var w' := Apply(w, LateFlow(aid, id));
    LateFlowAccounts(w.store, w.remote, aid, id);
    forall j | j in w'.workers ensures PcOk(w'.store, w'.remote, w'.workers[j].pc) && TodoOk(w'.store, w'.workers[j].todo) {
      assert PcOk(w.store, w.remote, w.workers[j].pc);
      PcKept(w.store, w.store, w.remote, w'.remote, w.workers[j].pc);
    }
    assert TokensDistinct(w') by { SameTokens(w, w'); }
  }

  lemma SameTokens(w: World, w': World)
    requires TokensDistinct(w) && w'.workers == w.workers
    ensures TokensDistinct(w')
  {
  }

  function StampOf(w: World, e: Event): int {
    match e
    case BeginProcess(_, _, _, _, _, o) => o.now
    case Move(_, o) => o.now
    case _ => w.clock
  }

  /** Every enabled event keeps the invariant and advances the store by at most one legal
      call. */
  lemma EventKeeps(w: World, e: Event)
    requires Inv(w) && Enabled(w, e)
    ensures Inv(Apply(w, e)) && Advances(w.store, Apply(w, e).store, StampOf(w, e))
  {
    hide Inv, Advances, WriteStep, ReadStep, LocalStep, AlertValid;
    EvolvesReflexive(w.store, StampOf(w, e));
    match e
    case Crash(i) => QuietKeeps(w, i, Worker(Idle, [], false));
    case BeginProcess(i, pid, alert, key, fingerprint, o) => BeginKeeps(w, i, pid, alert, key, fingerprint, o);
    case BeginPass(i, limit, staleBefore, found) =>
      FoundSnaps(w, limit, staleBefore, found);
      QuietKeeps(w, i, Worker(NextItem, found, true));
    case Move(i, o) =>
      if Writes(At(w, i)) {
        WriteStepKeeps(w, i, o);
      } else if Reads(At(w, i)) {
        ReadStepKeeps(w, i, o);
      } else {
        LocalStepKeeps(w, i, o);
      }
    case LateFlow(a, id) => LateFlowKeeps(w, a, id);
  }
}
