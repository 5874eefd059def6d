/** The processor's protocol over the PostgreSQL repository. Its calls are those of
    `Protocol.dfy`; what differs is what the caller sees, and the contracts of
    `PostgresRepository.dfy` say what that is: records in public form, and an error where
    `fail_processing` finds an active attempt whose record is in no expected state. Whatever
    happens in such a run happens, up to the public form of snapshots, in a run of the
    protocol, and every call it makes meets the precondition of the method it calls. */
module PostgresRuns {
  import opened Domain
  import opened Lifecycle
  import opened Repository
  import opened RepositoryInvariant
  import opened Protocol
  import opened ProtocolInvariant
  import opened ProtocolSteps
  import opened ProtocolTheorems
  import opened SubmitOnce
  import opened Rows
  import PG = PostgresRepository

  // ----- Steps over the tables

  /** The reply of `fail_processing`, by its contract. */
  function FailReply(s: Store, pid: nat, expected: set<ProcessingState>, err: ErrorInfo, aid: Option<nat>, now: int): Reply<Option<Record>> {
    if PG.FailDiverges(s, pid, expected, aid) then Raised else FailProcessing(s, pid, expected, err, aid, now).1
  }

  function FailStep(w: World, i: nat, o: Oracle, rec: Record, att: Attempt, from: ProcessingState, err: ErrorInfo): World {
    var after := FailProcessing(w.store, rec.processingId, {from}, err, Some(att.attemptId), o.now).0;
    var reply := FailReply(w.store, rec.processingId, {from}, err, Some(att.attemptId), o.now);
    Put(Commit(w, after, o), i, OrReread(Seen(reply, o), rec))
  }

  /** The steps whose replies differ; at all others the two repositories answer alike. */
  function PgStep(w: World, i: nat, o: Oracle): World {
    match At(w, i)
    case StoreNoAction(rec, result) =>
      var (s, reply) := StoreNoActionResult(w.store, rec.processingId, result, o.now);
      Put(Commit(w, s, o), i, OrReread(Seen(PG.PublicReply(reply), o), rec))
    case FailPlanned(rec, att) => FailStep(w, i, o, rec, att, Planned, ERR_UNCONFIGURED)
    case FailRejected(rec, att) => FailStep(w, i, o, rec, att, Submitting, ERR_REJECTED)
    case FailExecution(rec, att) => FailStep(w, i, o, rec, att, Submitted, ERR_EXECUTION)
    case Complete(rec, att, result) =>
      var (s, reply) := CompleteProcessing(w.store, att.attemptId, result, o.now);
      Put(Commit(w, s, o), i, OrReread(Seen(PG.PublicReply(reply), o), rec))
    case RereadForPoll(rec, att) =>
      var reply := PG.PublicReply(Returned(Get(w.store, rec.processingId)));
      Put(w, i, if o.ack != Acknowledged || reply.value.None? then NextItem else Poll(reply.value.value, att))
    case _ => Step(w, i, o)
  }

  function PgBegin(w: World, i: nat, pid: nat, alert: Alert, key: string, fingerprint: seq<int>, o: Oracle): World {
    var (s, reply) := AcceptProcessing(w.store, pid, alert, Identity(alert.source.source, key, 1, fingerprint), o.now);
    var w' := Commit(w, s, o);
    w'.(workers := w.workers[i := Worker(AfterAcceptance(Seen(PG.PublicAcceptance(reply), o), fingerprint), [], false)])
  }

  function PgApply(w: World, e: Event): World {
    match e
    case Move(i, o) => PgStep(w, i, o)
    case BeginProcess(i, pid, alert, key, fingerprint, o) => PgBegin(w, i, pid, alert, key, fingerprint, o)
    case _ => Apply(w, e)
  }

  /** As for the protocol, and no backend has a name of Unicode spaces only. */
  ghost predicate PgEnabled(w: World, e: Event) {
    Enabled(w, e) && (e.Move? && At(w, e.worker).StorePlanned? ==> !PG.UnicodeBlank(At(w, e.worker).plan.backend))
  }

  function PgRun(w: World, events: seq<Event>): World
    decreases |events|
  {
    if events == [] then w else PgRun(PgApply(w, events[0]), events[1..])
  }

  ghost predicate PgCanRun(w: World, events: seq<Event>)
    decreases |events|
  {
    events == [] || (PgEnabled(w, events[0]) && PgCanRun(PgApply(w, events[0]), events[1..]))
  }

  // ----- The correspondence

  function WithRecord(pc: Pc, rec: Record): Pc
    requires !pc.Idle? && !pc.NextItem?
  {
    pc.(rec := rec)
  }

  function PublicPc(pc: Pc): Pc {
    if pc.Idle? || pc.NextItem? then pc else WithRecord(pc, Public(pc.rec))
  }

  predicate LikeWorker(a: Worker, b: Worker) {
    PublicPc(a.pc) == PublicPc(b.pc) && a.todo == b.todo && a.budgeted == b.budgeted
  }

  /** The same world but for the form of the records the workers hold. */
  ghost predicate Like(v: World, w: World) {
    && v.store == w.store && v.clock == w.clock && v.remote == w.remote && v.workers.Keys == w.workers.Keys
    && forall i :: i in v.workers ==> LikeWorker(v.workers[i], w.workers[i])
  }

  lemma PublicParts(a: Record, b: Record)
    requires Public(a) == Public(b)
    ensures a.processingId == b.processingId && a.state == b.state && a.alert == b.alert && a.identity == b.identity
    ensures a.Request() == b.Request() && a.Decision() == b.Decision() && a.Incident() == b.Incident() && a.selectedBackend == b.selectedBackend
  {
  }

  // Every branch the program takes after a step depends on the public form only.

  lemma PlanAlike(a: Record, b: Record, p: PlanOutcome)
    requires Public(a) == Public(b)
    ensures PublicPc(AfterPlan(a, p)) == PublicPc(AfterPlan(b, p))
  {
    hide Public, ResultValid;
    PublicParts(a, b);
  }

  lemma SubmitAlike(a: Record, b: Record, att: Attempt, configured: bool, expired: bool)
    requires Public(a) == Public(b)
    ensures PublicPc(AfterSubmit(a, att, configured, expired)) == PublicPc(AfterSubmit(b, att, configured, expired))
  {
    hide Public, ResultValid;
    PublicParts(a, b);
  }

  lemma CallAlike(a: Record, b: Record, att: Attempt, outcome: SubmitOutcome)
    requires Public(a) == Public(b)
    ensures PublicPc(AfterCall(a, att, outcome)) == PublicPc(AfterCall(b, att, outcome))
  {
    hide Public, ResultValid;
    PublicParts(a, b);
  }

  lemma ContextAlike(a: Record, b: Record)
    requires Public(a) == Public(b)
    ensures PublicPc(AfterContext(a)) == PublicPc(AfterContext(b))
  {
    hide Public, ResultValid;
    PublicParts(a, b);
  }

  lemma RecordPollAlike(a: Record, b: Record, att: Attempt, after: AfterPoll, raised: bool)
    requires Public(a) == Public(b)
    ensures PublicPc(AfterRecordPoll(a, att, after, raised)) == PublicPc(AfterRecordPoll(b, att, after, raised))
  {
    hide Public, ResultValid;
    PublicParts(a, b);
  }

  lemma PollAlike(a: Record, b: Record, att: Attempt, configured: bool, expired: bool)
    requires Public(a) == Public(b)
    ensures PublicPc(BeforePoll(a, att, configured, expired)) == PublicPc(BeforePoll(b, att, configured, expired))
  {
    hide Public, ResultValid;
    PublicParts(a, b);
  }

  lemma PollingAlike(a: Record, b: Record, att: Attempt, p: PollOutcome)
    requires Public(a) == Public(b)
    ensures PublicPc(AfterPolling(a, att, p)) == PublicPc(AfterPolling(b, att, p))
  {
    hide Public, PublicPc;
    RecordOnly(AfterPolling(a, att, p), b);
  }

  /** Of two program counters that differ in the record only. */
  lemma RecordOnly(pc: Pc, b: Record)
    requires !pc.Idle? && !pc.NextItem? && Public(pc.rec) == Public(b)
    ensures PublicPc(pc) == PublicPc(WithRecord(pc, b))
  {
    hide Public;
  }

  lemma CollectingAlike(a: Record, b: Record, att: Attempt, c: CollectOutcome)
    requires Public(a) == Public(b)
    ensures PublicPc(AfterCollecting(a, att, c)) == PublicPc(AfterCollecting(b, att, c))
  {
    hide Public, ResultValid;
    PublicParts(a, b);
  }

  lemma FetchAlike(a: Record, b: Record, reply: Reply<Option<Attempt>>)
    requires Public(a) == Public(b)
    ensures PublicPc(AfterFetch(a, reply)) == PublicPc(AfterFetch(b, reply))
  {
    PublicParts(a, b);
    hide Public;
  }

  lemma MarkAlike(a: Record, b: Record, att: Attempt, reply: Reply<Option<Attempt>>)
    requires Public(a) == Public(b)
    ensures PublicPc(AfterMark(a, att, reply)) == PublicPc(AfterMark(b, att, reply))
  {
    PublicParts(a, b);
    hide Public;
  }

  lemma RereadAlike<T>(a: Record, b: Record, reply: Reply<Option<T>>)
    requires Public(a) == Public(b)
    ensures PublicPc(OrReread(reply, a)) == PublicPc(OrReread(reply, b))
  {
    hide Public;
  }

  lemma LikeAt(v: World, w: World, i: nat)
    requires Like(v, w)
    ensures LikeWorker(WorkerAt(v, i), WorkerAt(w, i)) && PublicPc(At(v, i)) == PublicPc(At(w, i))
  {
    hide PublicPc;
    if i in v.workers {
      assert LikeWorker(v.workers[i], w.workers[i]);
    }
  }

  /** What two like program points have in common. */
  lemma PcAlike(p: Pc, q: Pc)
    requires PublicPc(p) == PublicPc(q)
    ensures (p.Idle? <==> q.Idle?) && (p.NextItem? <==> q.NextItem?)
    ensures !p.Idle? && !p.NextItem? ==> Public(p.rec) == Public(q.rec) && WithRecord(p, q.rec) == q
  {
    if !p.Idle? && !p.NextItem? {
      Replaced(p, Public(p.rec), p.rec);
    }
    if !q.Idle? && !q.NextItem? {
      Replaced(q, Public(q.rec), q.rec);
      if !p.Idle? && !p.NextItem? {
        Replaced(p, Public(p.rec), q.rec);
      }
    }
    hide Public, WithRecord;
  }

  lemma Replaced(pc: Pc, x: Record, y: Record)
    requires !pc.Idle? && !pc.NextItem?
    ensures var t := WithRecord(pc, x); !t.Idle? && !t.NextItem? && t.rec == x && WithRecord(t, y) == WithRecord(pc, y)
    ensures WithRecord(pc, pc.rec) == pc
  {
  }

  lemma LikeAfter(v: World, w: World, v': World, w': World, i: nat)
    requires Like(v, w) && v'.store == w'.store && v'.clock == w'.clock && v'.remote == w'.remote
    requires i in v'.workers && i in w'.workers && v'.workers == v.workers[i := v'.workers[i]] && w'.workers == w.workers[i := w'.workers[i]]
    requires LikeWorker(v'.workers[i], w'.workers[i])
    ensures Like(v', w')
  {
    hide LikeWorker;
  }

  lemma LocalAlike(v: World, w: World, i: nat, o: Oracle)
    requires Like(v, w) && !At(v, i).Idle? && !Writes(At(v, i)) && !Reads(At(v, i))
    ensures Like(LocalStep(v, i, o), LocalStep(w, i, o))
  {
    LikeAt(v, w, i);
    PcAlike(At(v, i), At(w, i));
    LikeParts(v, w);
    LocalFrame(v, w, i, o);
    LocalPcAlike(v, w, i, o);
    hide Like, Public, PublicPc, LocalStep, WithRecord;
    LikeAfter(v, w, LocalStep(v, i, o), LocalStep(w, i, o), i);
  }

  lemma LocalFrame(v: World, w: World, i: nat, o: Oracle)
    requires v.store == w.store && v.clock == w.clock && v.remote == w.remote && LikeWorker(WorkerAt(v, i), WorkerAt(w, i))
    requires !At(v, i).Idle? && !Writes(At(v, i)) && !Reads(At(v, i))
    requires (At(v, i).NextItem? <==> At(w, i).NextItem?) && (At(w, i).NextItem? || (!At(w, i).Idle? && WithRecord(At(v, i), At(w, i).rec) == At(w, i)))
    ensures var v', w' := LocalStep(v, i, o), LocalStep(w, i, o);
            && v'.store == w'.store && v'.clock == w'.clock && v'.remote == w'.remote && i in v'.workers && i in w'.workers
            && v'.workers == v.workers[i := v'.workers[i]] && w'.workers == w.workers[i := w'.workers[i]]
            && v'.workers[i].todo == w'.workers[i].todo && v'.workers[i].budgeted == w'.workers[i].budgeted
  {
    hide Public, PublicPc, AfterPlan, AfterSubmit, AfterCall, BeforePoll, AfterPolling, AfterCollecting, CallRemote;
  }

  /** Where a step that touches no storage leads. */
  function NextPc(pc: Pc, todo: seq<Record>, budget: bool, o: Oracle): Pc {
    match pc
    case NextItem => if todo == [] || budget then Idle else Context(todo[0])
    case Advance(rec) => AfterPlan(rec, o.plan)
    case Submit(rec, att) => AfterSubmit(rec, att, o.configured, budget)
    case Claimed(rec, att) => if budget then Recover(rec, att.attemptId, ASubmitting, ERR_DEADLINE, true) else Calling(rec, att)
    case Calling(rec, att) => AfterCall(rec, att, o.submit)
    case Poll(rec, att) => BeforePoll(rec, att, o.configured, budget)
    case Polling(rec, att) => AfterPolling(rec, att, o.poll)
    case Collect(rec, att) => if budget then Reread(rec) else Collecting(rec, att)
    case Collecting(rec, att) => AfterCollecting(rec, att, o.collect)
    case _ => pc
  }

  lemma LocalPcIs(w: World, i: nat, o: Oracle)
    ensures At(LocalStep(w, i, o), i) == NextPc(At(w, i), WorkerAt(w, i).todo, o.expired && WorkerAt(w, i).budgeted, o)
  {
    hide AfterPlan, AfterSubmit, AfterCall, BeforePoll, AfterPolling, AfterCollecting, CallRemote;
  }

  lemma LocalPcAlike(v: World, w: World, i: nat, o: Oracle)
    requires LikeWorker(WorkerAt(v, i), WorkerAt(w, i)) && !At(v, i).Idle? && !Writes(At(v, i)) && !Reads(At(v, i))
    requires (At(v, i).NextItem? <==> At(w, i).NextItem?)
    requires !At(w, i).NextItem? ==> !At(w, i).Idle? && WithRecord(At(v, i), At(w, i).rec) == At(w, i) && Public(At(v, i).rec) == Public(At(w, i).rec)
    ensures PublicPc(At(LocalStep(v, i, o), i)) == PublicPc(At(LocalStep(w, i, o), i))
  {
    hide Public, PublicPc, LocalStep, NextPc, WithRecord;
    LocalPcIs(v, i, o);
    LocalPcIs(w, i, o);
    NextPcAlike(At(v, i), At(w, i), WorkerAt(w, i).todo, o.expired && WorkerAt(w, i).budgeted, o);
  }

  lemma NextPcAlike(p: Pc, q: Pc, todo: seq<Record>, budget: bool, o: Oracle)
    requires (p.NextItem? <==> q.NextItem?) && !p.Idle? && !Writes(p) && !Reads(p)
    requires !q.NextItem? ==> !q.Idle? && WithRecord(p, q.rec) == q && Public(p.rec) == Public(q.rec)
    ensures PublicPc(NextPc(p, todo, budget, o)) == PublicPc(NextPc(q, todo, budget, o))
  {
    hide Public, AfterPlan, AfterSubmit, AfterCall, BeforePoll, AfterPolling, AfterCollecting;
    match p
    case Advance(rec) => PlanAlike(rec, q.rec, o.plan);
    case Submit(rec, att) => SubmitAlike(rec, q.rec, att, o.configured, budget);
    case Calling(rec, att) => CallAlike(rec, q.rec, att, o.submit);
    case Poll(rec, att) => PollAlike(rec, q.rec, att, o.configured, budget);
    case Polling(rec, att) => PollingAlike(rec, q.rec, att, o.poll);
    case Collecting(rec, att) => CollectingAlike(rec, q.rec, att, o.collect);
    case _ =>
  }

  lemma LikeParts(v: World, w: World)
    requires Like(v, w)
    ensures v.store == w.store && v.clock == w.clock && v.remote == w.remote
  {
  }

  lemma ReadAlike(v: World, w: World, i: nat, o: Oracle)
    requires Like(v, w) && Reads(At(v, i)) && !At(v, i).RereadForPoll?
    ensures Like(ReadStep(v, i, o), ReadStep(w, i, o))
  {
    LikeAt(v, w, i);
    PcAlike(At(v, i), At(w, i));
    var p, q := At(v, i), At(w, i);
    PublicParts(p.rec, q.rec);
    hide Like, Public, AfterFetch, AfterContext, GetAttemptForProcessing;
    LikeParts(v, w);
    ContextAlike(p.rec, q.rec);
    FetchAlike(p.rec, q.rec, Seen(GetAttemptForProcessing(v.store, p.rec.processingId), o));
    LikeAfter(v, w, ReadStep(v, i, o), ReadStep(w, i, o), i);
  }

  lemma RereadForPollAlike(v: World, w: World, i: nat, o: Oracle)
    requires Like(v, w) && At(v, i).RereadForPoll?
    ensures Like(PgStep(v, i, o), ReadStep(w, i, o))
  {
    LikeAt(v, w, i);
    PcAlike(At(v, i), At(w, i));
    PublicParts(At(v, i).rec, At(w, i).rec);
    LikeParts(v, w);
    SamePoll(At(v, i), At(w, i));
    hide Like, Public, PublicPc, WithRecord, PG.PublicReply, Get;
    FoundAlike(v.store, At(v, i).rec.processingId, At(v, i).att, o);
    LikeAfter(v, w, PgStep(v, i, o), ReadStep(w, i, o), i);
  }

  lemma SamePoll(p: Pc, q: Pc)
    requires p.RereadForPoll? && !q.Idle? && !q.NextItem? && WithRecord(p, q.rec) == q
    ensures q.RereadForPoll? && q.att == p.att
  {
  }

  lemma FoundAlike(s: Store, pid: nat, att: Attempt, o: Oracle)
    ensures var seen, found := PG.PublicReply(Returned(Get(s, pid))), Get(s, pid);
            && seen.Returned? && (seen.value.None? <==> found.None?)
            && (found.Some? ==> PublicPc(Poll(seen.value.value, att)) == PublicPc(Poll(found.value, att)))
  {
    if pid in s.records {
      PublicTwice(s.records[pid]);
    }
    hide Public;
  }

  lemma PublicTwice(r: Record)
    ensures Public(Public(r)) == Public(r)
  {
  }

  // ----- Writing steps

  /** Where the tables raise and the in-memory repository returns nothing, the protocol's
      run has a call that was not committed: nothing is stored and the caller sees an error. */
  function Adjusted(w: World, i: nat, o: Oracle): Oracle {
    var pc := At(w, i);
    var diverges :=
      match pc
      case FailPlanned(rec, att) => PG.FailDiverges(w.store, rec.processingId, {Planned}, Some(att.attemptId))
      case FailRejected(rec, att) => PG.FailDiverges(w.store, rec.processingId, {Submitting}, Some(att.attemptId))
      case FailExecution(rec, att) => PG.FailDiverges(w.store, rec.processingId, {Submitted}, Some(att.attemptId))
      case _ => false;
    if diverges && o.ack == Acknowledged then o.(ack := NotCommitted) else o
  }

  lemma FailAlike(v: World, w: World, i: nat, o: Oracle, from: ProcessingState, err: ErrorInfo)
    requires Like(v, w)
    requires (At(v, i).FailPlanned? && from == Planned && err == ERR_UNCONFIGURED)
             || (At(v, i).FailRejected? && from == Submitting && err == ERR_REJECTED)
             || (At(v, i).FailExecution? && from == Submitted && err == ERR_EXECUTION)
    ensures Like(PgStep(v, i, o), WriteStep(w, i, Adjusted(v, i, o)))
  {
    LikeAt(v, w, i);
    PcAlike(At(v, i), At(w, i));
    var p, q := At(v, i), At(w, i);
    PublicParts(p.rec, q.rec);
    var pid, aid := p.rec.processingId, Some(p.att.attemptId);
    DivergingFail(v.store, pid, from, err, aid, o.now);
    hide Like, Public, FailProcessing, PG.FailDiverges, OrReread;
    LikeParts(v, w);
    var o' := Adjusted(v, i, o);
    var after := FailProcessing(v.store, pid, {from}, err, aid, o.now);
    RereadAlike(p.rec, q.rec, Seen(after.1, o'));
    SeenAlike(v.store, pid, from, err, aid, o, o', p.rec);
    LikeAfter(v, w, PgStep(v, i, o), WriteStep(w, i, o'), i);
  }

  lemma SeenAlike(s: Store, pid: nat, from: ProcessingState, err: ErrorInfo, aid: Option<nat>, o: Oracle, o': Oracle, rec: Record)
    requires o' == if PG.FailDiverges(s, pid, {from}, aid) && o.ack == Acknowledged then o.(ack := NotCommitted) else o
    ensures Seen(FailReply(s, pid, {from}, err, aid, o.now), o) == Seen(FailProcessing(s, pid, {from}, err, aid, o.now).1, o')
  {
    hide PG.FailDiverges, FailProcessing;
  }

  lemma DivergingFail(s: Store, pid: nat, from: ProcessingState, err: ErrorInfo, aid: Option<nat>, now: int)
    ensures PG.FailDiverges(s, pid, {from}, aid) ==> FailProcessing(s, pid, {from}, err, aid, now) == (s, Returned(None))
  {
  }

  lemma PublicReplyAlike(reply: Reply<Option<Record>>, o: Oracle, rec: Record)
    ensures OrReread(Seen(PG.PublicReply(reply), o), rec) == OrReread(Seen(reply, o), rec)
  {
    hide Public;
  }

  predicate Differs(pc: Pc) {
    pc.StoreNoAction? || pc.FailPlanned? || pc.FailRejected? || pc.FailExecution? || pc.Complete? || pc.RereadForPoll?
  }

  lemma ResultAlike(v: World, w: World, i: nat, o: Oracle)
    requires Like(v, w) && (At(v, i).StoreNoAction? || At(v, i).Complete?)
    ensures Like(PgStep(v, i, o), WriteStep(w, i, o))
  {
    LikeAt(v, w, i);
    PcAlike(At(v, i), At(w, i));
    var p, q := At(v, i), At(w, i);
    PublicParts(p.rec, q.rec);
    hide Like, Public, StoreNoActionResult, CompleteProcessing, OrReread, PG.PublicReply;
    LikeParts(v, w);
    if p.StoreNoAction? {
      var reply := StoreNoActionResult(v.store, p.rec.processingId, p.result, o.now).1;
      PublicReplyAlike(reply, o, p.rec);
      RereadAlike(p.rec, q.rec, Seen(reply, o));
    } else {
      var reply := CompleteProcessing(v.store, p.att.attemptId, p.result, o.now).1;
      PublicReplyAlike(reply, o, p.rec);
      RereadAlike(p.rec, q.rec, Seen(reply, o));
    }
    LikeAfter(v, w, PgStep(v, i, o), WriteStep(w, i, o), i);
  }

  /** The writing calls both repositories answer alike. */
  lemma WriteAlike(v: World, w: World, i: nat, o: Oracle)
    requires Like(v, w) && Writes(At(v, i)) && !Differs(At(v, i))
    ensures Like(WriteStep(v, i, o), WriteStep(w, i, o))
  {
    LikeAt(v, w, i);
    PcAlike(At(v, i), At(w, i));
    var p, q := At(v, i), At(w, i);
    PublicParts(p.rec, q.rec);
    hide Like, Public, FailProcessing, StorePlan, ClaimAttempt, MarkSubmitted, RecordPoll, MarkRecoveryRequired;
    hide OrReread, AfterMark, AfterRecordPoll;
    LikeParts(v, w);
    WrittenAlike(v, w, i, o);
    LikeAfter(v, w, WriteStep(v, i, o), WriteStep(w, i, o), i);
  }

  /** The same call at the same point, with snapshots of the same record. */
  predicate SameCall(v: World, w: World, i: nat) {
    && v.store == w.store && LikeWorker(WorkerAt(v, i), WorkerAt(w, i)) && Writes(At(v, i)) && Writes(At(w, i))
    && Public(At(v, i).rec) == Public(At(w, i).rec) && WithRecord(At(v, i), At(w, i).rec) == At(w, i)
    && At(v, i).rec.processingId == At(w, i).rec.processingId
  }

  predicate LeadsAlike(v: World, w: World, i: nat, o: Oracle) {
    LikeWorker(WorkerAt(WriteStep(v, i, o), i), WorkerAt(WriteStep(w, i, o), i))
  }

  lemma WrittenAlike(v: World, w: World, i: nat, o: Oracle)
    requires SameCall(v, w, i) && !Differs(At(v, i))
    ensures LeadsAlike(v, w, i, o)
  {
    hide SameCall, LeadsAlike;
    var p := At(v, i);
    if p.FailAccepted? || p.Recover? {
      EndedAlike(v, w, i, o);
    } else if p.StorePlanned? {
      PlannedAlike(v, w, i, o);
    } else if p.Claim? {
      ClaimedAlike(v, w, i, o);
    } else if p.Mark? {
      MarkedAlike(v, w, i, o);
    } else if p.RecordPolled? {
      PolledAlike(v, w, i, o);
    } else {
      assert !Writes(p);
      NoCall(v, w, i);
    }
  }

  lemma NoCall(v: World, w: World, i: nat)
    requires SameCall(v, w, i)
    ensures Writes(At(v, i))
  {
  }

  lemma EndedAlike(v: World, w: World, i: nat, o: Oracle)
    requires SameCall(v, w, i) && (At(v, i).FailAccepted? || At(v, i).Recover?)
    ensures LeadsAlike(v, w, i, o)
  {
    hide Public, FailProcessing, MarkRecoveryRequired, OrReread;
    match At(v, i)
    case FailAccepted(rec, err, reread) =>
      RereadAlike(rec, At(w, i).rec, Seen(FailProcessing(v.store, rec.processingId, {Accepted}, err, None, o.now).1, o));
    case Recover(rec, aid, from, err, _) =>
      RereadAlike(rec, At(w, i).rec, Seen(MarkRecoveryRequired(v.store, aid, {from}, err, o.now).1, o));
  }

  lemma MarkedAlike(v: World, w: World, i: nat, o: Oracle)
    requires SameCall(v, w, i) && At(v, i).Mark?
    ensures LeadsAlike(v, w, i, o)
  {
    hide Public, MarkSubmitted, AfterMark;
    var p := At(v, i);
    MarkAlike(p.rec, At(w, i).rec, p.att, Seen(MarkSubmitted(v.store, p.att.attemptId, p.externalId, o.now).1, o));
  }

  lemma PolledAlike(v: World, w: World, i: nat, o: Oracle)
    requires SameCall(v, w, i) && At(v, i).RecordPolled?
    ensures LeadsAlike(v, w, i, o)
  {
    hide Public, RecordPoll, AfterRecordPoll;
    var p := At(v, i);
    RecordPollAlike(p.rec, At(w, i).rec, p.att, p.after, Seen(RecordPoll(v.store, p.att.attemptId, p.remote, p.pollError, o.now).1, o).Raised?);
  }

  lemma PlannedAlike(v: World, w: World, i: nat, o: Oracle)
    requires SameCall(v, w, i) && At(v, i).StorePlanned?
    ensures LeadsAlike(v, w, i, o)
  {
    hide Public, PublicPc, StorePlan, OrReread;
    var rec := At(v, i).rec;
    RereadAlike(rec, At(w, i).rec, Seen(StorePlan(v.store, rec.processingId, At(v, i).plan, o.attemptId, o.operationKey, o.now).1, o));
  }

  lemma ClaimedAlike(v: World, w: World, i: nat, o: Oracle)
    requires SameCall(v, w, i) && At(v, i).Claim?
    ensures LeadsAlike(v, w, i, o)
  {
    hide Public, ClaimAttempt, OrReread;
    RereadAlike(At(v, i).rec, At(w, i).rec, Seen(ClaimAttempt(v.store, At(v, i).att.attemptId, o.now).1, o));
  }

  // ----- One event, all events

  function AdjustedEvent(v: World, e: Event): Event {
    if e.Move? then Move(e.worker, Adjusted(v, e.worker, e.oracle)) else e
  }

  lemma SamePoint(p: Pc, q: Pc)
    requires PublicPc(p) == PublicPc(q)
    ensures (Writes(p) <==> Writes(q)) && (Reads(p) <==> Reads(q)) && (p.RereadForPoll? ==> q.RereadForPoll?)
  {
    hide Public;
  }

  lemma PgStepIs(w: World, i: nat, o: Oracle)
    ensures !Differs(At(w, i)) ==> PgStep(w, i, o) == Step(w, i, o)
    ensures !At(w, i).FailPlanned? && !At(w, i).FailRejected? && !At(w, i).FailExecution? ==> Adjusted(w, i, o) == o
  {
    hide Step, FailStep, Put, Commit;
  }

  lemma StepIs(w: World, i: nat, o: Oracle)
    ensures Writes(At(w, i)) ==> Step(w, i, o) == WriteStep(w, i, o)
    ensures Reads(At(w, i)) ==> Step(w, i, o) == ReadStep(w, i, o)
    ensures !Writes(At(w, i)) && !Reads(At(w, i)) ==> Step(w, i, o) == LocalStep(w, i, o)
  {
    hide WriteStep, ReadStep, LocalStep;
  }

  lemma StepAlike(v: World, w: World, i: nat, o: Oracle)
    requires Like(v, w) && !At(v, i).Idle?
    ensures Like(PgStep(v, i, o), Step(w, i, Adjusted(v, i, o)))
  {
    LikeAt(v, w, i);
    PcAlike(At(v, i), At(w, i));
    SamePoint(At(v, i), At(w, i));
    PgStepIs(v, i, o);
    StepIs(v, i, o);
    StepIs(w, i, Adjusted(v, i, o));
    hide Like, Public, PublicPc, WithRecord, LikeWorker, PgStep, Step, Adjusted;
    var p := At(v, i);
    if p.RereadForPoll? {
      RereadForPollAlike(v, w, i, o);
    } else if p.StoreNoAction? || p.Complete? {
      ResultAlike(v, w, i, o);
    } else if p.FailPlanned? {
      FailAlike(v, w, i, o, Planned, ERR_UNCONFIGURED);
    } else if p.FailRejected? {
      FailAlike(v, w, i, o, Submitting, ERR_REJECTED);
    } else if p.FailExecution? {
      FailAlike(v, w, i, o, Submitted, ERR_EXECUTION);
    } else if Writes(p) {
      WriteAlike(v, w, i, o);
    } else if Reads(p) {
      ReadAlike(v, w, i, o);
    } else {
      LocalAlike(v, w, i, o);
    }
  }

  lemma BeginAlike(v: World, w: World, i: nat, pid: nat, alert: Alert, key: string, fingerprint: seq<int>, o: Oracle)
    requires Like(v, w)
    ensures Like(PgBegin(v, i, pid, alert, key, fingerprint, o), Begin(w, i, pid, alert, key, fingerprint, o))
  {
    hide Like, AcceptProcessing;
    LikeParts(v, w);
    var reply := AcceptProcessing(v.store, pid, alert, Identity(alert.source.source, key, 1, fingerprint), o.now).1;
    if reply.Returned? {
      PublicTwice(reply.value.record);
    }
    LikeAfter(v, w, PgBegin(v, i, pid, alert, key, fingerprint, o), Begin(w, i, pid, alert, key, fingerprint, o), i);
  }

  lemma EnabledAlike(v: World, w: World, e: Event)
    requires Like(v, w) && PgEnabled(v, e)
    ensures Enabled(w, AdjustedEvent(v, e))
  {
    if !e.LateFlow? {
      LikeAt(v, w, e.worker);
      PcAlike(At(v, e.worker), At(w, e.worker));
      if e.Move? && !At(v, e.worker).NextItem? {
        PublicParts(At(v, e.worker).rec, At(w, e.worker).rec);
      }
    }
    hide Public, PG.FailDiverges, PG.UnicodeBlank, AlertValid, IsWorkList, PlanOutcomeOk;
  }

  /** One event over the tables is one event of the protocol. */
  lemma EventAlike(v: World, w: World, e: Event)
    requires Like(v, w) && PgEnabled(v, e)
    ensures Enabled(w, AdjustedEvent(v, e)) && Like(PgApply(v, e), Apply(w, AdjustedEvent(v, e)))
  {
    EnabledAlike(v, w, e);
    MoveRuns(v, e);
    hide Like, Enabled, PgEnabled, Adjusted, PgStep, Step, PgBegin, Begin;
    match e
    case Move(i, o) => StepAlike(v, w, i, o);
    case BeginProcess(i, pid, alert, key, fingerprint, o) => BeginAlike(v, w, i, pid, alert, key, fingerprint, o);
    case Crash(i) => ReplacedAlike(v, w, i, Worker(Idle, [], false));
    case BeginPass(i, _, _, found) => ReplacedAlike(v, w, i, Worker(NextItem, found, true));
    case LateFlow(a, id) => LateAlike(v, w, a, id);
  }

  lemma MoveRuns(v: World, e: Event)
    requires PgEnabled(v, e)
    ensures e.Move? ==> !At(v, e.worker).Idle?
  {
    hide OracleOk, IsWorkList, AlertValid;
  }

  lemma ReplacedAlike(v: World, w: World, i: nat, now: Worker)
    requires Like(v, w)
    ensures Like(v.(workers := v.workers[i := now]), w.(workers := w.workers[i := now]))
  {
    hide PublicPc;
  }

  lemma LateAlike(v: World, w: World, a: nat, id: string)
    requires Like(v, w)
    ensures Like(Apply(v, LateFlow(a, id)), Apply(w, LateFlow(a, id)))
  {
    hide LikeWorker;
  }

  function AdjustedEvents(v: World, events: seq<Event>): seq<Event>
    decreases |events|
  {
    if events == [] then [] else [AdjustedEvent(v, events[0])] + AdjustedEvents(PgApply(v, events[0]), events[1..])
  }

  /** A run over the tables is a run of the protocol. */
  lemma {:induction false} PostgresRunIsRun(v: World, w: World, events: seq<Event>)
    requires Like(v, w) && PgCanRun(v, events)
    ensures CanRun(w, AdjustedEvents(v, events)) && Like(PgRun(v, events), Run(w, AdjustedEvents(v, events)))
    decreases |events|
  {
    hide Like, Enabled, PgEnabled, Apply, PgApply, AdjustedEvent;
    if events != [] {
      EventAlike(v, w, events[0]);
      var e := AdjustedEvent(v, events[0]);
      PostgresRunIsRun(PgApply(v, events[0]), Apply(w, e), events[1..]);
      assert AdjustedEvents(v, events)[1..] == AdjustedEvents(PgApply(v, events[0]), events[1..]);
    }
  }

  // ----- Every call is one the repository takes

  /** What the methods of `PostgresProcessingRepository` require, and, where the two
      repositories can part, what keeps them together. */
  ghost predicate CallAllowed(s: Store, pc: Pc, now: int) {
    && Lockstep(s) && ClockOk(s, now)
    && match pc
       case FailAccepted(_, err, _) => ErrorTextOk(Some(err)) && PlanningError(err)
       case StoreNoAction(rec, result) =>
         && DecisionValid(result.decision) && ResultValid(result)
         && PG.NoActionAdopted(s, rec.processingId, result) == result
       case StorePlanned(rec, plan) =>
         && !PG.UnicodeBlank(plan.backend) && PlanCoherent(plan.incident.alert, plan.decision, plan.incident, plan.request)
         && (rec.processingId in s.records ==> s.records[rec.processingId].alert == plan.incident.alert)
       case FailPlanned(_, _) => ErrorTextOk(Some(ERR_UNCONFIGURED))
       case FailRejected(_, _) => ErrorTextOk(Some(ERR_REJECTED))
       case FailExecution(_, _) => ErrorTextOk(Some(ERR_EXECUTION))
       case Mark(_, _, id) => OperationIdOk(id)
       case Recover(_, _, from, err, _) => ErrorTextOk(Some(err)) && (from == ASubmitting || from == ASubmitted)
       case RecordPolled(_, _, remote, pollError, _) => RemoteTextOk(Some(remote)) && ErrorTextOk(pollError)
       case Complete(_, att, result) =>
         && ResultValid(result) && result.investigation.Some? && InvestigationValid(result.investigation.value)
         && PG.ResultAdopted(s, att.attemptId, result) == result
         && (PG.OperationOpen(s, att.attemptId) ==>
               s.records[s.attempts[att.attemptId].processingId].selectedBackend == Some(result.investigation.value.backend))
       case _ => true
  }

  lemma CompleteAllowed(s: Store, rec: Record, att: Attempt, result: OrchestrationResult)
    requires Lockstep(s) && PairSnap(s, rec, att) && ResultFromSnap(rec, result)
    ensures ResultValid(result)
    ensures result.investigation.Some? && InvestigationValid(result.investigation.value)
    ensures PG.ResultAdopted(s, att.attemptId, result) == result
    ensures PG.OperationOpen(s, att.attemptId) ==>
              s.records[s.attempts[att.attemptId].processingId].selectedBackend == Some(result.investigation.value.backend)
  {
    hide Lockstep, Tidy, AttemptTidy, AttemptConstructs, AlertValid, DecisionValid, RequestValid, InvestigationValid, VisibleKey;
    PairOf(s, att.attemptId);
    if s.attempts[att.attemptId].state == ASubmitted {
      SnapResult(s, rec, att, result);
    }
  }

  lemma StoreNoActionAllowed(s: Store, rec: Record, result: OrchestrationResult)
    requires RecordSnap(s, rec) && NoActionFrom(rec, result)
    ensures DecisionValid(result.decision) && ResultValid(result) && PG.NoActionAdopted(s, rec.processingId, result) == result
  {
    hide DecisionValid, ResultValid, RecordConstructs;
  }

  lemma StorePlanAllowed(s: Store, rec: Record, plan: Plan)
    requires RecordSnap(s, rec) && PlanCoherent(rec.alert, plan.decision, plan.incident, plan.request)
    ensures plan.incident.alert == rec.alert && s.records[rec.processingId].alert == rec.alert
  {
    hide DecisionValid, RequestValid, RecordConstructs;
  }

  /** Every writing call of a run over the tables meets its method's precondition. */
  lemma CallsAllowed(v: World, w: World, i: nat, o: Oracle)
    requires Inv(w) && Like(v, w) && PgEnabled(v, Move(i, o)) && Writes(At(v, i))
    ensures CallAllowed(v.store, At(v, i), o.now)
  {
    AllowedOf(v, w, i, o);
    LikeAt(v, w, i);
    PcAlike(At(v, i), At(w, i));
    var p, q := At(v, i), At(w, i);
    PublicParts(p.rec, q.rec);
    LikeParts(v, w);
    hide Inv, Like, Public, PublicPc, PgEnabled;
    hide Lockstep, ClockOk, RecordSnap, PairSnap, Owns, NoFlow, NoActionFrom, PlanCoherent, OperationIdOk, ResultFromSnap, CanRead, ErrorTextOk,
         RemoteTextOk, InvestigationFrom, InvestigationValid, ResultValid, DecisionValid, PG.UnicodeBlank, PG.NoActionAdopted, PG.ResultAdopted,
         PG.OperationOpen, PlanningError;
    ErrorTexts();
    match q
    case StoreNoAction(rec, result) => StoreNoActionAllowed(v.store, rec, result);
    case StorePlanned(rec, plan) => StorePlanAllowed(v.store, rec, plan);
    case Complete(rec, att, result) => CompleteAllowed(v.store, rec, att, result);
    case _ =>
  }

  lemma AllowedOf(v: World, w: World, i: nat, o: Oracle)
    requires Inv(w) && Like(v, w) && PgEnabled(v, Move(i, o)) && Writes(At(v, i))
    ensures Lockstep(v.store) && ClockOk(v.store, o.now) && PcOk(w.store, w.remote, At(w, i))
    ensures At(v, i).StorePlanned? ==> !PG.UnicodeBlank(At(v, i).plan.backend)
  {
    LikeAt(v, w, i);
    PcAlike(At(v, i), At(w, i));
    hide Lockstep, RemoteOk, TokensDistinct, PcOk, TodoOk, PlanOutcomeOk, Public, PublicPc;
  }

  // ----- What follows

  lemma SelfLike(w: World)
    ensures Like(w, w)
  {
  }

  /** The guarantees of the protocol hold over the tables: lockstep, the accounting of flows
      and at most one submission for each key. */
  lemma PostgresGuarantees(clock: int, events: seq<Event>, pid: nat, j: nat, k: nat)
    requires PgCanRun(InitialWorld(clock), events)
    ensures var v := PgRun(InitialWorld(clock), events);
            && Lockstep(v.store)
            && (pid in v.store.records ==> FlowsAllowed(v.store.records[pid], FlowsOf(v, pid)))
            && (j < k < |v.remote.calls| ==> KeyOfCall(v, j).Some? && KeyOfCall(v, k).Some? && KeyOfCall(v, j) != KeyOfCall(v, k))
  {
    hide CanRun, Run, PgCanRun, PgRun, Inv, Lockstep, Like, FlowsAllowed, AdjustedEvents;
    var start := InitialWorld(clock);
    SelfLike(start);
    PostgresRunIsRun(start, start, events);
    var adjusted := AdjustedEvents(start, events);
    LikeParts(PgRun(start, events), Run(start, adjusted));
    ReachableInv(clock, adjusted);
    InvLockstep(Run(start, adjusted));
    if pid in Run(start, adjusted).store.records {
      FlowAccounting(clock, adjusted, pid);
    }
    if j < k < |Run(start, adjusted).remote.calls| {
      AtMostOneSubmit(clock, adjusted, j, k);
    }
  }

  lemma InvLockstep(w: World)
    requires Inv(w)
    ensures Lockstep(w.store)
  {
    hide Lockstep, RemoteOk, WorkersOk, TokensDistinct;
  }
}
