/** The durable execution protocol as a state machine (`application/processing.py`). Any
    number of workers - request threads, the startup reconcile task, the reconcile command -
    share one store. A worker's program counter stands between two calls and carries the
    record and attempt snapshots the code holds there, which may be stale. Each repository
    call commits and returns, commits and raises, or raises without committing; a worker may
    crash between any two calls; everything the environment decides is in an `Oracle`. */
module Protocol {
  import opened Domain
  import opened Lifecycle
  import opened Repository

  // ----- The environment

  datatype Ack = Acknowledged | LostAck | NotCommitted

  datatype PlanOutcome =
    | Unsupported
    | Ambiguous
    | PlanningRaised
    | NoActionPlan(decision: Decision)
    | InvestigatePlan(plan: Plan)

  predicate PlanOutcomeOk(alert: Alert, p: PlanOutcome) {
    match p
    case NoActionPlan(d) => DecisionValid(d) && d.outcome == NoAction && d.source == alert.source
    case InvestigatePlan(plan) => PlanCoherent(alert, plan.decision, plan.incident, plan.request)
    case _ => true
  }

  datatype SubmitOutcome = CreatedOperation(externalId: string) | RejectedSubmission | UnknownSubmission

  /** What the remote side has done by the time `submit` returns or raises. */
  datatype RemoteEffect = NoEffect | FlowCreated(id: string) | FlowPending

  /** The backend contract: a returned identifier names a flow that exists, and a definite
      rejection means no flow was or will be created. One call creates at most one flow. */
  predicate SubmitContract(o: SubmitOutcome, e: RemoteEffect) {
    match o
    case CreatedOperation(id) => OperationIdOk(id) && e == FlowCreated(id)
    case RejectedSubmission => e == NoEffect
    case UnknownSubmission => true
  }

  datatype OperationState = Nonterminal | Succeeded | OperationFailed | Unrecognized
  datatype PollOutcome = PollTimedOut | PollRaised | Polled(state: OperationState, remote: string)
  datatype CollectOutcome = CollectRaised | Collected(result: InvestigationResult)

  datatype Oracle = Oracle(
    ack: Ack,
    now: int,
    expired: bool,
    configured: bool,
    plan: PlanOutcome,
    attemptId: nat,
    operationKey: nat,
    submit: SubmitOutcome,
    effect: RemoteEffect,
    poll: PollOutcome,
    collect: CollectOutcome)

  // ----- Error texts

  const ERR_UNSUPPORTED := ErrorInfo("unsupported_capability", "no configured backend supports the required capability")
  const ERR_AMBIGUOUS := ErrorInfo("backend_selection_error", "backend selection was ambiguous")
  const ERR_PLANNING := ErrorInfo("backend_selection_error", "processing planning failed")
  const ERR_UNCONFIGURED := ErrorInfo("backend_selection_error", "persisted backend is not configured")
  const ERR_DEADLINE := ErrorInfo("recovery_required", "reconciliation deadline expired before backend submission")
  const ERR_REJECTED := ErrorInfo("backend_submission_failed", "backend definitively rejected submission")
  const ERR_UNKNOWN := ErrorInfo("backend_submission_unknown", "backend submission outcome is unknown")
  const ERR_IDENTITY := ErrorInfo("backend_submission_unknown", "external operation identity could not be persisted")
  const ERR_STALE := ErrorInfo("backend_submission_unknown", "stale submission has no discoverable operation")
  const ERR_INCOMPLETE := ErrorInfo("recovery_required", "submitted execution metadata is incomplete")
  const ERR_GONE := ErrorInfo("recovery_required", "persisted backend is not configured")
  const ERR_POLL_TIMEOUT := ErrorInfo("backend_timeout", "known backend operation poll timed out")
  const ERR_STATUS := ErrorInfo("backend_protocol_error", "known backend operation status was not safely interpretable")
  const ERR_UNKNOWN_STATUS := ErrorInfo("backend_protocol_error", "known backend operation returned an unknown status")
  const ERR_EXECUTION := ErrorInfo("backend_execution_failed", "known backend operation reached terminal failure")
  const ERR_COLLECT := ErrorInfo("backend_protocol_error", "backend result could not be collected safely")

  lemma ErrorTextIs(e: ErrorInfo)
    requires Bounded(e.category) && Bounded(e.detail) && !IsSpace(e.category[|e.category| - 1]) && !IsSpace(e.detail[|e.detail| - 1])
    ensures ErrorTextOk(Some(e))
  {
    EndsNonBlank(e.category);
    EndsNonBlank(e.detail);
  }

  lemma PlanningTexts()
    ensures ErrorTextOk(Some(ERR_UNSUPPORTED))
    ensures ErrorTextOk(Some(ERR_AMBIGUOUS))
    ensures ErrorTextOk(Some(ERR_PLANNING))
    ensures ErrorTextOk(Some(ERR_UNCONFIGURED))
  {
    hide ErrorTextOk;
    ErrorTextIs(ERR_UNSUPPORTED);
    ErrorTextIs(ERR_AMBIGUOUS);
    ErrorTextIs(ERR_PLANNING);
    ErrorTextIs(ERR_UNCONFIGURED);
  }

  lemma SubmissionTexts()
    ensures ErrorTextOk(Some(ERR_DEADLINE))
    ensures ErrorTextOk(Some(ERR_REJECTED))
    ensures ErrorTextOk(Some(ERR_UNKNOWN))
    ensures ErrorTextOk(Some(ERR_IDENTITY))
  {
    hide ErrorTextOk;
    ErrorTextIs(ERR_DEADLINE);
    ErrorTextIs(ERR_REJECTED);
    ErrorTextIs(ERR_UNKNOWN);
    ErrorTextIs(ERR_IDENTITY);
  }

  lemma RecoveryTexts()
    ensures ErrorTextOk(Some(ERR_STALE))
    ensures ErrorTextOk(Some(ERR_INCOMPLETE))
    ensures ErrorTextOk(Some(ERR_GONE))
    ensures ErrorTextOk(Some(ERR_POLL_TIMEOUT))
  {
    hide ErrorTextOk;
    ErrorTextIs(ERR_STALE);
    ErrorTextIs(ERR_INCOMPLETE);
    ErrorTextIs(ERR_GONE);
    ErrorTextIs(ERR_POLL_TIMEOUT);
  }

  lemma PollingTexts()
    ensures ErrorTextOk(Some(ERR_STATUS))
    ensures ErrorTextOk(Some(ERR_UNKNOWN_STATUS))
    ensures ErrorTextOk(Some(ERR_EXECUTION))
    ensures ErrorTextOk(Some(ERR_COLLECT))
  {
    hide ErrorTextOk;
    ErrorTextIs(ERR_STATUS);
    ErrorTextIs(ERR_UNKNOWN_STATUS);
    ErrorTextIs(ERR_EXECUTION);
    ErrorTextIs(ERR_COLLECT);
  }

  /** Every error the processor writes has text. */
  lemma ErrorTexts()
    ensures ErrorTextOk(Some(ERR_UNSUPPORTED))
    ensures ErrorTextOk(Some(ERR_AMBIGUOUS))
    ensures ErrorTextOk(Some(ERR_PLANNING))
    ensures ErrorTextOk(Some(ERR_UNCONFIGURED))
    ensures ErrorTextOk(Some(ERR_DEADLINE))
    ensures ErrorTextOk(Some(ERR_REJECTED))
    ensures ErrorTextOk(Some(ERR_UNKNOWN))
    ensures ErrorTextOk(Some(ERR_IDENTITY))
    ensures ErrorTextOk(Some(ERR_STALE))
    ensures ErrorTextOk(Some(ERR_INCOMPLETE))
    ensures ErrorTextOk(Some(ERR_GONE))
    ensures ErrorTextOk(Some(ERR_POLL_TIMEOUT))
    ensures ErrorTextOk(Some(ERR_STATUS))
    ensures ErrorTextOk(Some(ERR_UNKNOWN_STATUS))
    ensures ErrorTextOk(Some(ERR_EXECUTION))
    ensures ErrorTextOk(Some(ERR_COLLECT))
    ensures ErrorTextOk(None) && RemoteTextOk(Some("timeout"))
  {
    assert ErrorTextOk(None);
    hide ErrorTextOk;
    PlanningTexts();
    SubmissionTexts();
    RecoveryTexts();
    PollingTexts();
    StartsNonBlank("timeout");
  }

  // ----- Workers

  datatype AfterPoll = PollDone | ThenFail | ThenCollect

  datatype Pc =
    | Idle
    | NextItem
    | Context(rec: Record)
    | Fetch(rec: Record)
    | Advance(rec: Record)
    | FailAccepted(rec: Record, err: ErrorInfo, reread: bool)
    | StoreNoAction(rec: Record, result: OrchestrationResult)
    | StorePlanned(rec: Record, plan: Plan)
    | Submit(rec: Record, att: Attempt)
    | FailPlanned(rec: Record, att: Attempt)
    | Claim(rec: Record, att: Attempt)
    | Claimed(rec: Record, att: Attempt)
    | Calling(rec: Record, att: Attempt)
    | FailRejected(rec: Record, att: Attempt)
    | Mark(rec: Record, att: Attempt, externalId: string)
    | Recover(rec: Record, aid: nat, from: AttemptState, err: ErrorInfo, reread: bool)
    | RereadForPoll(rec: Record, att: Attempt)
    | Poll(rec: Record, att: Attempt)
    | Polling(rec: Record, att: Attempt)
    | RecordPolled(rec: Record, att: Attempt, remote: string, pollError: Option<ErrorInfo>, after: AfterPoll)
    | FailExecution(rec: Record, att: Attempt)
    | Collect(rec: Record, att: Attempt)
    | Collecting(rec: Record, att: Attempt)
    | Complete(rec: Record, att: Attempt, result: OrchestrationResult)
    | Reread(rec: Record)

  /** `todo` is what is left of a reconciliation pass; only a pass has a time budget. */
  datatype Worker = Worker(pc: Pc, todo: seq<Record>, budgeted: bool)

  datatype Flow = Flow(attempt: nat, id: string)

  /** What has happened outside the store: the `submit` calls made, in order, by attempt;
      the calls whose flow may still appear; the flows created; and the identifiers used by
      poll and collect calls. */
  datatype Remote = Remote(calls: seq<nat>, pending: set<nat>, flows: seq<Flow>, lookups: seq<(nat, string)>)

  datatype World = World(store: Store, clock: int, workers: map<nat, Worker>, remote: Remote)

  function InitialWorld(clock: int): World {
    World(EMPTY_STORE, clock, map[], Remote([], {}, [], []))
  }

  function WorkerAt(w: World, i: nat): Worker {
    if i in w.workers then w.workers[i] else Worker(Idle, [], false)
  }

  function At(w: World, i: nat): Pc {
    WorkerAt(w, i).pc
  }

  // ----- Steps

  function Put(w: World, i: nat, pc: Pc): World {
    w.(workers := w.workers[i := WorkerAt(w, i).(pc := pc)])
  }

  /** The store after a call whose effect is `after`, and the clock that stamped it. */
  function Commit(w: World, after: Store, o: Oracle): World {
    w.(store := if o.ack == NotCommitted then w.store else after, clock := o.now)
  }

  /** What the caller sees of a reply. */
  function Seen<T>(reply: Reply<T>, o: Oracle): Reply<T> {
    if o.ack == Acknowledged then reply else Raised
  }

  /** The end of every "`x or self._reread(...)`": nothing returned means read again. */
  function OrReread<T>(reply: Reply<Option<T>>, rec: Record): Pc {
    if reply == Returned(None) then Reread(rec) else NextItem
  }

  function AfterContext(rec: Record): Pc {
    match rec.state
    case Accepted => Advance(rec)
    case Planned => Fetch(rec)
    case Submitting => Fetch(rec)
    case Submitted => Fetch(rec)
    case _ => NextItem
  }

  function AfterFetch(rec: Record, reply: Reply<Option<Attempt>>): Pc {
    if reply.Raised? || reply.value.None? then NextItem
    else
      var att := reply.value.value;
      match rec.state
      case Planned => Submit(rec, att)
      case Submitting => Recover(rec, att.attemptId, ASubmitting, ERR_STALE, true)
      case Submitted => Poll(rec, att)
      case _ => NextItem
  }

  function AfterPlan(rec: Record, p: PlanOutcome): Pc {
    match p
    case Unsupported => FailAccepted(rec, ERR_UNSUPPORTED, false)
    case Ambiguous => FailAccepted(rec, ERR_AMBIGUOUS, false)
    case PlanningRaised => FailAccepted(rec, ERR_PLANNING, true)
    case NoActionPlan(d) => StoreNoAction(rec, OrchestrationResult(d, None, None, None))
    case InvestigatePlan(plan) => StorePlanned(rec, plan)
  }

  function AfterSubmit(rec: Record, att: Attempt, configured: bool, expired: bool): Pc {
    if rec.Request().None? || rec.selectedBackend.None? then NextItem
    else if !configured then FailPlanned(rec, att)
    else if expired then NextItem
    else Claim(rec, att)
  }

  function AfterCall(rec: Record, att: Attempt, outcome: SubmitOutcome): Pc {
    match outcome
    case CreatedOperation(id) => Mark(rec, att, id)
    case RejectedSubmission => FailRejected(rec, att)
    case UnknownSubmission => Recover(rec, att.attemptId, ASubmitting, ERR_UNKNOWN, true)
  }

  function CallRemote(m: Remote, aid: nat, e: RemoteEffect): Remote {
    var called := m.(calls := m.calls + [aid]);
    match e
    case NoEffect => called
    case FlowPending => called.(pending := m.pending + {aid})
    case FlowCreated(id) => called.(flows := m.flows + [Flow(aid, id)])
  }

  function AfterMark(rec: Record, att: Attempt, reply: Reply<Option<Attempt>>): Pc {
    if reply.Raised? then Recover(rec, att.attemptId, ASubmitting, ERR_IDENTITY, false)
    else if reply.value.None? then Reread(rec)
    else RereadForPoll(rec, reply.value.value)
  }

  function BeforePoll(rec: Record, att: Attempt, configured: bool, expired: bool): Pc {
    if rec.Request().None? || rec.selectedBackend.None? || att.externalOperationId.None? then
      Recover(rec, att.attemptId, ASubmitted, ERR_INCOMPLETE, true)
    else if !configured then Recover(rec, att.attemptId, ASubmitted, ERR_GONE, true)
    else if expired then NextItem
    else Polling(rec, att)
  }

  function AfterPolling(rec: Record, att: Attempt, p: PollOutcome): Pc {
    match p
    case PollTimedOut => RecordPolled(rec, att, "timeout", Some(ERR_POLL_TIMEOUT), PollDone)
    case PollRaised => Recover(rec, att.attemptId, ASubmitted, ERR_STATUS, true)
    case Polled(state, remote) =>
      match state
      case Nonterminal => RecordPolled(rec, att, remote, None, PollDone)
      case OperationFailed => RecordPolled(rec, att, remote, None, ThenFail)
      case Succeeded => RecordPolled(rec, att, remote, None, ThenCollect)
      case Unrecognized => Recover(rec, att.attemptId, ASubmitted, ERR_UNKNOWN_STATUS, true)
  }

  function AfterRecordPoll(rec: Record, att: Attempt, after: AfterPoll, raised: bool): Pc {
    if raised then NextItem
    else
      match after
      case PollDone => Reread(rec)
      case ThenFail => FailExecution(rec, att)
      case ThenCollect => Collect(rec, att)
  }

  function AfterCollecting(rec: Record, att: Attempt, c: CollectOutcome): Pc {
    if c.CollectRaised? || rec.selectedBackend != Some(c.result.backend)
       || rec.Decision().None? || rec.Incident().None?
       || !ResultValid(OrchestrationResult(rec.Decision().value, rec.Incident(), rec.Request(), Some(c.result)))
    then Recover(rec, att.attemptId, ASubmitted, ERR_COLLECT, true)
    else Complete(rec, att, OrchestrationResult(rec.Decision().value, rec.Incident(), rec.Request(), Some(c.result)))
  }

  function ReadRemote(w: World, att: Attempt): World {
    if att.externalOperationId.None? then w
    else w.(remote := w.remote.(lookups := w.remote.lookups + [(att.attemptId, att.externalOperationId.value)]))
  }

  /** Steps that touch no store: control, planning, deadline checks and backend calls. */
  function LocalStep(w: World, i: nat, o: Oracle): World {
    var budget := o.expired && WorkerAt(w, i).budgeted;
    match At(w, i)
    case NextItem =>
      var todo := WorkerAt(w, i).todo;
      if todo == [] || budget then w.(workers := w.workers[i := Worker(Idle, [], false)])
      else w.(workers := w.workers[i := Worker(Context(todo[0]), todo[1..], WorkerAt(w, i).budgeted)])
    case Advance(rec) => Put(w, i, AfterPlan(rec, o.plan))
    case Submit(rec, att) => Put(w, i, AfterSubmit(rec, att, o.configured, budget))
    case Claimed(rec, att) =>
      Put(w, i, if budget then Recover(rec, att.attemptId, ASubmitting, ERR_DEADLINE, true) else Calling(rec, att))
    case Calling(rec, att) =>
      Put(w.(remote := CallRemote(w.remote, att.attemptId, o.effect)), i, AfterCall(rec, att, o.submit))
    case Poll(rec, att) => Put(w, i, BeforePoll(rec, att, o.configured, budget))
    case Polling(rec, att) => Put(ReadRemote(w, att), i, AfterPolling(rec, att, o.poll))
    case Collect(rec, att) => Put(w, i, if budget then Reread(rec) else Collecting(rec, att))
    case Collecting(rec, att) => Put(ReadRemote(w, att), i, AfterCollecting(rec, att, o.collect))
    case _ => w
  }

  /** Steps that read the store; a failed read raises. */
  function ReadStep(w: World, i: nat, o: Oracle): World {
    match At(w, i)
    case Context(rec) =>
      if Seen(GetAttemptForProcessing(w.store, rec.processingId), o).Raised? then
        w.(workers := w.workers[i := Worker(Idle, [], false)])
      else Put(w, i, AfterContext(rec))
    case Fetch(rec) => Put(w, i, AfterFetch(rec, Seen(GetAttemptForProcessing(w.store, rec.processingId), o)))
    case RereadForPoll(rec, att) =>
      var r := Get(w.store, rec.processingId);
      Put(w, i, if o.ack != Acknowledged || r.None? then NextItem else Poll(r.value, att))
    case Reread(rec) => Put(w, i, NextItem)
    case _ => w
  }

  /** Steps that make one writing repository call. */
  function WriteStep(w: World, i: nat, o: Oracle): World {
    match At(w, i)
    case FailAccepted(rec, err, reread) =>
      var (s, reply) := FailProcessing(w.store, rec.processingId, {Accepted}, err, None, o.now);
      Put(Commit(w, s, o), i, if reread then OrReread(Seen(reply, o), rec) else NextItem)
    case StoreNoAction(rec, result) =>
      var (s, reply) := StoreNoActionResult(w.store, rec.processingId, result, o.now);
      Put(Commit(w, s, o), i, OrReread(Seen(reply, o), rec))
    case StorePlanned(rec, plan) =>
      var (s, reply) := StorePlan(w.store, rec.processingId, plan, o.attemptId, o.operationKey, o.now);
      var seen := Seen(reply, o);
      Put(Commit(w, s, o), i,
          if seen.Returned? && seen.value.Some? then Submit(seen.value.value.record, seen.value.value.attempt)
          else OrReread(seen, rec))
    case FailPlanned(rec, att) =>
      var (s, reply) := FailProcessing(w.store, rec.processingId, {Planned}, ERR_UNCONFIGURED, Some(att.attemptId), o.now);
      Put(Commit(w, s, o), i, OrReread(Seen(reply, o), rec))
    case Claim(rec, att) =>
      var (s, reply) := ClaimAttempt(w.store, att.attemptId, o.now);
      var seen := Seen(reply, o);
      Put(Commit(w, s, o), i,
          if seen.Returned? && seen.value.Some? then Claimed(rec, seen.value.value) else OrReread(seen, rec))
    case FailRejected(rec, att) =>
      var (s, reply) := FailProcessing(w.store, rec.processingId, {Submitting}, ERR_REJECTED, Some(att.attemptId), o.now);
      Put(Commit(w, s, o), i, OrReread(Seen(reply, o), rec))
    case Mark(rec, att, externalId) =>
      var (s, reply) := MarkSubmitted(w.store, att.attemptId, externalId, o.now);
      Put(Commit(w, s, o), i, AfterMark(rec, att, Seen(reply, o)))
    case Recover(rec, aid, from, err, reread) =>
      var (s, reply) := MarkRecoveryRequired(w.store, aid, {from}, err, o.now);
      Put(Commit(w, s, o), i, if reread then OrReread(Seen(reply, o), rec) else NextItem)
    case RecordPolled(rec, att, remote, pollError, after) =>
      var (s, reply) := RecordPoll(w.store, att.attemptId, remote, pollError, o.now);
      Put(Commit(w, s, o), i, AfterRecordPoll(rec, att, after, Seen(reply, o).Raised?))
    case FailExecution(rec, att) =>
      var (s, reply) := FailProcessing(w.store, rec.processingId, {Submitted}, ERR_EXECUTION, Some(att.attemptId), o.now);
      Put(Commit(w, s, o), i, OrReread(Seen(reply, o), rec))
    case Complete(rec, att, result) =>
      var (s, reply) := CompleteProcessing(w.store, att.attemptId, result, o.now);
      Put(Commit(w, s, o), i, OrReread(Seen(reply, o), rec))
    case _ => w
  }

  predicate Writes(pc: Pc) {
    pc.FailAccepted? || pc.StoreNoAction? || pc.StorePlanned? || pc.FailPlanned? || pc.Claim? || pc.FailRejected?
    || pc.Mark? || pc.Recover? || pc.RecordPolled? || pc.FailExecution? || pc.Complete?
  }

  predicate Reads(pc: Pc) {
    pc.Context? || pc.Fetch? || pc.RereadForPoll? || pc.Reread?
  }

  function Step(w: World, i: nat, o: Oracle): World {
    if Writes(At(w, i)) then WriteStep(w, i, o)
    else if Reads(At(w, i)) then ReadStep(w, i, o)
    else LocalStep(w, i, o)
  }

  /** What the environment can answer at this point of the program. A clock reading may be
      earlier than the one before, but not earlier than the creation of a stored record. */
  ghost predicate OracleOk(w: World, pc: Pc, o: Oracle) {
    && ClockOk(w.store, o.now)
    && (pc.Advance? ==> PlanOutcomeOk(pc.rec.alert, o.plan))
    && (pc.Calling? ==> SubmitContract(o.submit, o.effect))
    && (pc.Polling? && o.poll.Polled? ==> Bounded(o.poll.remote) && NonBlank(o.poll.remote))
    && (pc.Collecting? && o.collect.Collected? ==> InvestigationValid(o.collect.result))
  }

  /** `_process` up to the acceptance reply: only the creator goes on to plan. */
  function Begin(w: World, i: nat, pid: nat, alert: Alert, key: string, fingerprint: seq<int>, o: Oracle): World {
    var identity := Identity(alert.source.source, key, 1, fingerprint);
    var (s, reply) := AcceptProcessing(w.store, pid, alert, identity, o.now);
    var seen := Seen(reply, o);
    var w' := Commit(w, s, o);
    w'.(workers := w.workers[i := Worker(AfterAcceptance(seen, fingerprint), [], false)])
  }

  function AfterAcceptance(seen: Reply<Acceptance>, fingerprint: seq<int>): Pc {
    if seen.Raised? then NextItem
    else if seen.value.record.identity.None?
         || seen.value.record.identity.value.version != 1
         || seen.value.record.identity.value.fingerprint != fingerprint then NextItem
    else if !seen.value.created then NextItem
    else Advance(seen.value.record)
  }

  // ----- Events and runs

  datatype Event =
    | Crash(worker: nat)
    | BeginProcess(worker: nat, pid: nat, alert: Alert, key: string, fingerprint: seq<int>, oracle: Oracle)
    | BeginPass(worker: nat, limit: nat, staleBefore: int, found: seq<Record>)
    | Move(worker: nat, oracle: Oracle)
    | LateFlow(attempt: nat, id: string)

  ghost predicate Enabled(w: World, e: Event) {
    match e
    case Crash(i) => true
    case BeginProcess(i, pid, alert, key, fingerprint, o) =>
      At(w, i).Idle? && AlertValid(alert) && |fingerprint| == 32
    case BeginPass(i, limit, staleBefore, found) =>
      At(w, i).Idle? && limit >= 1 && IsWorkList(w.store, limit, staleBefore, found)
    case Move(i, o) => !At(w, i).Idle? && OracleOk(w, At(w, i), o)
    case LateFlow(a, id) => a in w.remote.pending
  }

  function Apply(w: World, e: Event): World {
    match e
    case Crash(i) => w.(workers := w.workers[i := Worker(Idle, [], false)])
    case BeginProcess(i, pid, alert, key, fingerprint, o) => Begin(w, i, pid, alert, key, fingerprint, o)
    case BeginPass(i, limit, staleBefore, found) => w.(workers := w.workers[i := Worker(NextItem, found, true)])
    case Move(i, o) => Step(w, i, o)
    case LateFlow(a, id) =>
      w.(remote := w.remote.(pending := w.remote.pending - {a}, flows := w.remote.flows + [Flow(a, id)]))
  }

  function Run(w: World, events: seq<Event>): World
    decreases |events|
  {
    if events == [] then w else Run(Apply(w, events[0]), events[1..])
  }

  ghost predicate CanRun(w: World, events: seq<Event>)
    decreases |events|
  {
    events == [] || (Enabled(w, events[0]) && CanRun(Apply(w, events[0]), events[1..]))
  }
}
