/** The invariant of every world the protocol can reach, and its proof step by step: the
    tables stay in lockstep, every worker's snapshots are earlier versions of what is stored,
    a claim is a token held by one worker, and the remote side is accounted for. */
module ProtocolInvariant {
  import opened Domain
  import opened Lifecycle
  import opened Repository
  import opened RepositoryInvariant
  import opened Protocol

  // ----- Snapshots

  predicate RecordSnap(s: Store, rec: Record) {
    rec.processingId in s.records && RecordEvolves(rec, s.records[rec.processingId]) && RecordConstructs(rec)
  }

  predicate AttemptSnap(s: Store, att: Attempt) {
    att.attemptId in s.attempts && AttemptEvolves(att, s.attempts[att.attemptId])
  }

  predicate PairSnap(s: Store, rec: Record, att: Attempt) {
    RecordSnap(s, rec) && AttemptSnap(s, att) && att.processingId == rec.processingId
  }

  predicate Owns(s: Store, rec: Record, aid: nat) {
    aid in s.attempts && s.attempts[aid].processingId == rec.processingId
  }

  lemma PairOwns(s: Store, rec: Record, att: Attempt)
    requires PairSnap(s, rec, att)
    ensures Owns(s, rec, att.attemptId)
  {
    hide RecordSnap;
  }

  lemma OwnsKept(s: Store, t: Store, rec: Record, aid: nat)
    requires Owns(s, rec, aid) && Evolves(s, t)
    ensures Owns(t, rec, aid)
  {
    hide RecordEvolves;
  }

  /** The result was put together from the plan the snapshot shows. */
  predicate ResultFromSnap(rec: Record, result: OrchestrationResult) {
    && result.decision.outcome == Investigate
    && rec.Decision() == Some(result.decision) && rec.Incident() == result.incident && rec.Request() == result.request
    && result.investigation.Some? && InvestigationValid(result.investigation.value)
    && rec.selectedBackend == Some(result.investigation.value.backend)
  }

  predicate CanRead(rec: Record, att: Attempt) {
    rec.Request().Some? && rec.selectedBackend.Some? && att.externalOperationId.Some?
  }

  // ----- The remote side

  predicate NoFlow(m: Remote, aid: nat) {
    aid !in m.pending && forall i :: 0 <= i < |m.flows| ==> m.flows[i].attempt != aid
  }

  /** A claim not yet used: the attempt is durably claimed and `submit` was not called for it. */
  predicate TokenOk(s: Store, m: Remote, aid: nat) {
    && aid in s.attempts && (s.attempts[aid].state == ASubmitting || s.attempts[aid].state == ARecoveryRequired)
    && s.attempts[aid].startedAt.Some?
    && aid !in m.calls
  }

  /** What an attempt's durable fields say about the flows created for it. */
  predicate Accounted(m: Remote, att: Attempt) {
    && (att.externalOperationId.Some? ==> Flow(att.attemptId, att.externalOperationId.value) in m.flows)
    && (att.state == AFailed ==> att.error.Some? && FailureAccounted(m, att, att.error.value))
  }

  predicate FailureAccounted(m: Remote, att: Attempt, e: ErrorInfo) {
    || (e == ERR_UNCONFIGURED && att.startedAt.None?)
    || (e == ERR_REJECTED && att.startedAt.Some? && att.externalOperationId.None? && NoFlow(m, att.attemptId))
    || (e == ERR_EXECUTION && att.externalOperationId.Some?)
  }

  ghost predicate CallsOk(s: Store, m: Remote) {
    && (forall i, j :: 0 <= i < j < |m.calls| ==> m.calls[i] != m.calls[j])
    && (forall a :: a in m.calls ==> a in s.attempts && s.attempts[a].startedAt.Some?)
  }

  ghost predicate FlowsOk(m: Remote) {
    && (forall i, j :: 0 <= i < j < |m.flows| ==> m.flows[i].attempt != m.flows[j].attempt)
    && (forall i :: 0 <= i < |m.flows| ==> m.flows[i].attempt in m.calls && m.flows[i].attempt !in m.pending)
    && (forall a :: a in m.pending ==> a in m.calls)
  }

  ghost predicate LookupsOk(s: Store, m: Remote) {
    forall i :: 0 <= i < |m.lookups| ==>
      m.lookups[i].0 in s.attempts && s.attempts[m.lookups[i].0].externalOperationId == Some(m.lookups[i].1)
  }

  ghost predicate AllAccounted(s: Store, m: Remote) {
    forall a :: a in s.attempts ==> Accounted(m, s.attempts[a])
  }

  ghost predicate RemoteOk(s: Store, m: Remote) {
    CallsOk(s, m) && FlowsOk(m) && LookupsOk(s, m) && AllAccounted(s, m)
  }

  // ----- Workers

  function Token(pc: Pc): Option<nat> {
    match pc
    case Claimed(rec, att) => Some(att.attemptId)
    case Calling(rec, att) => Some(att.attemptId)
    case _ => None
  }

  ghost predicate PcOk(s: Store, m: Remote, pc: Pc) {
    match pc
    case Idle => true
    case NextItem => true
    case Context(rec) => RecordSnap(s, rec)
    case Fetch(rec) => RecordSnap(s, rec)
    case Advance(rec) => RecordSnap(s, rec)
    case FailAccepted(rec, err, reread) => RecordSnap(s, rec) && ErrorTextOk(Some(err)) && PlanningError(err)
    case StoreNoAction(rec, result) => RecordSnap(s, rec) && NoActionFrom(rec, result)
    case StorePlanned(rec, plan) => RecordSnap(s, rec) && PlanCoherent(rec.alert, plan.decision, plan.incident, plan.request)
    case Submit(rec, att) => PairSnap(s, rec, att)
    case FailPlanned(rec, att) => PairSnap(s, rec, att)
    case Claim(rec, att) => PairSnap(s, rec, att)
    case Claimed(rec, att) => PairSnap(s, rec, att) && TokenOk(s, m, att.attemptId)
    case Calling(rec, att) => PairSnap(s, rec, att) && TokenOk(s, m, att.attemptId)
    case FailRejected(rec, att) => PairSnap(s, rec, att) && att.attemptId in m.calls && NoFlow(m, att.attemptId)
    case Mark(rec, att, id) =>
      PairSnap(s, rec, att) && att.attemptId in m.calls && OperationIdOk(id) && Flow(att.attemptId, id) in m.flows
    case Recover(rec, aid, from, err, reread) =>
      RecordSnap(s, rec) && Owns(s, rec, aid) && (from == ASubmitting || from == ASubmitted) && ErrorTextOk(Some(err))
    case RereadForPoll(rec, att) => PairSnap(s, rec, att)
    case Poll(rec, att) => PairSnap(s, rec, att)
    case Polling(rec, att) => PairSnap(s, rec, att) && CanRead(rec, att)
    case RecordPolled(rec, att, remote, pollError, after) =>
      PairSnap(s, rec, att) && CanRead(rec, att) && RemoteTextOk(Some(remote)) && ErrorTextOk(pollError)
    case FailExecution(rec, att) => PairSnap(s, rec, att) && CanRead(rec, att)
    case Collect(rec, att) => PairSnap(s, rec, att) && CanRead(rec, att)
    case Collecting(rec, att) => PairSnap(s, rec, att) && CanRead(rec, att)
    case Complete(rec, att, result) => PairSnap(s, rec, att) && ResultFromSnap(rec, result)
    case Reread(rec) => RecordSnap(s, rec)
  }

  ghost predicate TodoOk(s: Store, todo: seq<Record>) {
    forall k :: 0 <= k < |todo| ==> RecordSnap(s, todo[k])
  }

  ghost predicate WorkersOk(w: World) {
    forall i :: i in w.workers ==> PcOk(w.store, w.remote, w.workers[i].pc) && TodoOk(w.store, w.workers[i].todo)
  }

  ghost predicate TokensDistinct(w: World) {
    forall i, j :: i in w.workers && j in w.workers && i != j && Token(w.workers[i].pc).Some? ==>
      Token(w.workers[i].pc) != Token(w.workers[j].pc)
  }

  ghost predicate Inv(w: World) {
    Lockstep(w.store) && RemoteOk(w.store, w.remote) && WorkersOk(w) && TokensDistinct(w)
  }

  // ----- Snapshots stay snapshots

  lemma RecordEvolvesTransitive(a: Record, b: Record, c: Record)
    requires RecordEvolves(a, b) && RecordEvolves(b, c)
    ensures RecordEvolves(a, c)
  {
  }

  lemma AttemptEvolvesTransitive(a: Attempt, b: Attempt, c: Attempt)
    requires AttemptEvolves(a, b) && AttemptEvolves(b, c)
    ensures AttemptEvolves(a, c)
  {
  }

  lemma RecordSnapKept(s: Store, t: Store, rec: Record)
    requires RecordSnap(s, rec) && Evolves(s, t)
    ensures RecordSnap(t, rec)
  {
    hide RecordEvolves, RecordConstructs, AttemptEvolves;
    RecordEvolvesTransitive(rec, s.records[rec.processingId], t.records[rec.processingId]);
  }

  lemma PairSnapKept(s: Store, t: Store, rec: Record, att: Attempt)
    requires PairSnap(s, rec, att) && Evolves(s, t)
    ensures PairSnap(t, rec, att)
  {
    hide RecordEvolves, RecordConstructs, AttemptEvolves;
    RecordSnapKept(s, t, rec);
    AttemptEvolvesTransitive(att, s.attempts[att.attemptId], t.attempts[att.attemptId]);
  }

  /** The remote side only grows, and nothing appears for a call already known to be clean. */
  ghost predicate RemoteGrows(m: Remote, n: Remote) {
    && (forall a :: a in m.calls ==> a in n.calls)
    && (forall a :: a in m.calls && NoFlow(m, a) ==> NoFlow(n, a))
    && (forall f :: f in m.flows ==> f in n.flows)
  }

  /** Another worker's step leaves this worker's facts true; its token, if any, separately. */
  lemma PcKept(s: Store, t: Store, m: Remote, n: Remote, pc: Pc)
    requires PcOk(s, m, pc) && Evolves(s, t) && RemoteGrows(m, n)
    requires Token(pc).Some? ==> TokenOk(t, n, Token(pc).value)
    ensures PcOk(t, n, pc)
  {
    hide Evolves, RecordSnap, PairSnap, Owns, NoFlow, TokenOk, NoActionFrom, PlanCoherent, OperationIdOk, ResultFromSnap, CanRead, ErrorTextOk, RemoteTextOk;
    match pc
    case Idle =>
    case NextItem =>
    case Context(rec) => RecordSnapKept(s, t, rec);
    case Fetch(rec) => RecordSnapKept(s, t, rec);
    case Advance(rec) => RecordSnapKept(s, t, rec);
    case FailAccepted(rec, err, reread) => RecordSnapKept(s, t, rec);
    case StoreNoAction(rec, result) => RecordSnapKept(s, t, rec);
    case StorePlanned(rec, plan) => RecordSnapKept(s, t, rec);
    case Submit(rec, att) => PairSnapKept(s, t, rec, att);
    case FailPlanned(rec, att) => PairSnapKept(s, t, rec, att);
    case Claim(rec, att) => PairSnapKept(s, t, rec, att);
    case Claimed(rec, att) => PairSnapKept(s, t, rec, att);
    case Calling(rec, att) => PairSnapKept(s, t, rec, att);
    case FailRejected(rec, att) => PairSnapKept(s, t, rec, att);
    case Mark(rec, att, id) => PairSnapKept(s, t, rec, att);
    case Recover(rec, aid, from, err, reread) =>
      RecordSnapKept(s, t, rec);
      OwnsKept(s, t, rec, aid);
    case RereadForPoll(rec, att) => PairSnapKept(s, t, rec, att);
    case Poll(rec, att) => PairSnapKept(s, t, rec, att);
    case Polling(rec, att) => PairSnapKept(s, t, rec, att);
    case RecordPolled(rec, att, remote, pollError, after) => PairSnapKept(s, t, rec, att);
    case FailExecution(rec, att) => PairSnapKept(s, t, rec, att);
    case Collect(rec, att) => PairSnapKept(s, t, rec, att);
    case Collecting(rec, att) => PairSnapKept(s, t, rec, att);
    case Complete(rec, att, result) => PairSnapKept(s, t, rec, att);
    case Reread(rec) => RecordSnapKept(s, t, rec);
  }

  lemma TodoKept(s: Store, t: Store, todo: seq<Record>)
    requires TodoOk(s, todo) && Evolves(s, t)
    ensures TodoOk(t, todo)
  {
    hide RecordSnap, Evolves;
    forall k | 0 <= k < |todo| ensures RecordSnap(t, todo[k]) {
      RecordSnapKept(s, t, todo[k]);
    }
  }
}
