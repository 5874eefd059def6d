/** `PersistentAlertProcessor` (`application/processing.py`), statement by statement, over the
    in-memory repository. Each call of the repository or the backend is one step of the
    protocol, checked as such: a method may make a call only where the protocol stands at that
    call (`At(world, me)`), so whatever the code does is a run of the protocol and every
    theorem about runs is a theorem about the code. Between any two calls other workers may
    do anything they can do (`Answer`).

    Two ghost constants name the hypotheses of the progress properties. `reliable`: the
    repository commits and answers and the clock does not run backwards. `alone`: no other
    worker takes a step. */
module Processor {
  import opened Domain
  import opened Lifecycle
  import R = Repository
  import opened RepositoryInvariant
  import opened MemoryRepository
  import P = Protocol
  import opened ProtocolInvariant
  import opened ProtocolSteps
  import opened ProtocolEffects
  import opened Runs
  import opened ProtocolCalls
  import opened Fairness
  import opened Replies
  import B = Backends

  datatype ReconciliationReport = ReconciliationReport(examined: nat, advanced: nat, failed: nat, timeLimitReached: bool)

  ghost predicate RunOk(origin: P.World, events: seq<P.Event>, w: P.World) {
    Inv(origin) && P.CanRun(origin, events) && w == P.Run(origin, events) && Inv(w)
  }

  lemma RunOkStep(origin: P.World, events: seq<P.Event>, w: P.World, i: nat, o: P.Oracle)
    requires RunOk(origin, events, w) && Moving(w, i, o)
    ensures RunOk(origin, events + [P.Move(i, o)], P.Step(w, i, o))
  {
    hide Inv, P.CanRun, P.Run, P.Step;
    assert P.Enabled(w, P.Move(i, o)) by { MoveEnabled(w, i, o); }
    RunAppend(origin, events, P.Move(i, o));
    EventKeeps(w, P.Move(i, o));
  }

  // ----- What others do between two calls

  /** An event of another worker, or a flow that appears late. */
  predicate ByOthers(me: nat, e: P.Event) {
    match e
    case Crash(i) => i != me
    case BeginProcess(i, _, _, _, _, _) => i != me
    case BeginPass(i, _, _, _) => i != me
    case Move(i, _) => i != me
    case LateFlow(_, _) => true
  }

  /** No event is stamped with a clock reading before the latest one. */
  ghost predicate SteadyClock(w: P.World, es: seq<P.Event>)
    decreases |es|
  {
    es == [] || (w.clock <= StampOf(w, es[0]) && SteadyClock(P.Apply(w, es[0]), es[1..]))
  }

  lemma EventSince(w: P.World, e: P.Event, steady: bool)
    requires Inv(w) && P.Enabled(w, e) && (steady ==> w.clock <= StampOf(w, e))
    ensures Inv(P.Apply(w, e)) && Since(w, P.Apply(w, e), steady)
  {
    EventClock(w, e);
    hide Inv, R.Advances, P.Enabled, P.Apply, Since;
    EventKeeps(w, e);
    AdvancesSince(w, P.Apply(w, e), StampOf(w, e), steady);
  }

  lemma EventClock(w: P.World, e: P.Event)
    ensures P.Apply(w, e).clock == w.clock || P.Apply(w, e).clock == StampOf(w, e)
  {
    if e.Move? {
      StepClock(w, e.worker, e.oracle);
    }
  }

  lemma OthersLeaveMe(w: P.World, e: P.Event, me: nat)
    requires ByOthers(me, e)
    ensures P.WorkerAt(P.Apply(w, e), me) == P.WorkerAt(w, me)
  {
    hide P.AfterPlan, P.AfterSubmit, P.AfterCall, P.BeforePoll, P.AfterPolling, P.AfterCollecting, P.CallRemote, P.AfterFetch, P.AfterContext,
         P.AfterAcceptance, P.AfterMark, P.AfterRecordPoll, P.OrReread;
    hide R.FailProcessing, R.StoreNoActionResult, R.StorePlan, R.ClaimAttempt, R.MarkSubmitted, R.RecordPoll, R.MarkRecoveryRequired,
         R.CompleteProcessing, R.AcceptProcessing, R.GetAttemptForProcessing;
  }

  /** Whatever others do, for as long as they like, is within what `Answer` promises of the
      world it returns: a longer run, this worker where it stood, every record at least as far
      on, and with a steady clock every change stamped. */
  lemma {:induction false} OthersWithinAnswer(origin: P.World, events: seq<P.Event>, since: P.World, w: P.World, me: nat, steady: bool,
                                              touched: set<nat>, es: seq<P.Event>)
    requires RunOk(origin, events, w) && Since(since, w, steady) && (steady ==> Stamped(since, w.store, touched))
    requires P.CanRun(w, es) && (forall k :: 0 <= k < |es| ==> ByOthers(me, es[k])) && (steady ==> SteadyClock(w, es))
    ensures var x := P.Run(w, es);
            && RunOk(origin, events + es, x) && Since(since, x, steady) && (steady ==> Stamped(since, x.store, touched))
            && P.WorkerAt(x, me) == P.WorkerAt(w, me)
            && forall pid :: LevelIn(w.store, pid) <= LevelIn(x.store, pid)
    decreases |es|
  {
    hide Inv, Since, Stamped, P.Enabled, P.Apply, LevelIn, ByOthers;
    if es == [] {
      assert events + es == events;
    } else {
      var e, x := es[0], P.Apply(w, es[0]);
      EventSince(w, e, steady);
      OthersLeaveMe(w, e, me);
      RunAppend(origin, events, e);
      SinceLevels(w, x, steady);
      SinceTransitive(since, w, x, steady);
      if steady {
        StampedKept(since, w, x, touched);
      }
      assert events + es == events + [e] + es[1..];
      OthersWithinAnswer(origin, events + [e], since, x, me, steady, touched, es[1..]);
    }
  }

  lemma SinceLevels(w: P.World, x: P.World, steady: bool)
    requires Since(w, x, steady)
    ensures forall pid :: LevelIn(w.store, pid) <= LevelIn(x.store, pid)
  {
    hide R.Evolves;
    LevelsKept(w.store, x.store);
  }

  lemma StoreIds(w: P.World)
    requires Inv(w)
    ensures forall aid :: aid in w.store.attempts ==> w.store.attempts[aid].attemptId == aid
    ensures forall pid :: pid in w.store.records ==> w.store.records[pid].processingId == pid
  {
    hide R.Lockstep, RemoteOk, WorkersOk, TokensDistinct, RecordConstructs, AttemptConstructs, R.Paired, R.Tidy, R.AttemptTidy;
    forall aid | aid in w.store.attempts ensures w.store.attempts[aid].attemptId == aid { PairOf(w.store, aid); }
    forall pid | pid in w.store.records ensures w.store.records[pid].processingId == pid { Pairing(w.store, pid); }
  }

  predicate BudgetOk(w: P.World, me: nat, deadline: Option<real>) {
    !P.At(w, me).Idle? ==> P.WorkerAt(w, me).budgeted == deadline.Some?
  }

  /** The turns that raised. */
  function Failures(turns: seq<R.Reply<Record>>): nat {
    if turns == [] then 0 else Failures(turns[..|turns| - 1]) + if turns[|turns| - 1].Raised? then 1 else 0
  }

  /** The turns that returned their record in another state than it was found in. */
  function Moves(found: seq<Record>, turns: seq<R.Reply<Record>>): nat
    requires |turns| <= |found|
  {
    if turns == [] then 0
    else
      var last := turns[|turns| - 1];
      Moves(found, turns[..|turns| - 1]) + if last.Returned? && last.value.state != found[|turns| - 1].state then 1 else 0
  }

  /** What a report says of the turns of its pass. */
  ghost predicate CountsOk(found: seq<Record>, turns: seq<R.Reply<Record>>, report: ReconciliationReport, late: bool) {
    && |turns| <= |found|
    && report.examined == |turns| && report.failed == Failures(turns) && report.advanced == Moves(found, turns)
    && report.advanced + report.failed <= report.examined
    && (report.timeLimitReached ==> late) && (!report.timeLimitReached ==> report.examined == |found|)
  }

  lemma OneMoreTurn(found: seq<Record>, turns: seq<R.Reply<Record>>, after: R.Reply<Record>)
    requires |turns| < |found|
    ensures Failures(turns + [after]) == Failures(turns) + if after.Raised? then 1 else 0
    ensures Moves(found, turns + [after]) == Moves(found, turns) + if after.Returned? && after.value.state != found[|turns|].state then 1 else 0
  {
    assert (turns + [after])[..|turns|] == turns;
  }

  lemma {:induction false} CountsFit(found: seq<Record>, turns: seq<R.Reply<Record>>)
    requires |turns| <= |found|
    ensures Moves(found, turns) + Failures(turns) <= |turns|
  {
    if turns != [] {
      CountsFit(found, turns[..|turns| - 1]);
    }
  }

  lemma EndsIs(s: R.Store, pid: nat, st: ProcessingState, category: Option<string>)
    ensures EndsIn(s, pid, st, category) ==> StateIs(s, pid, st)
  {
  }

  lemma SettledLevel(s: R.Store, pid: nat)
    ensures StateIs(s, pid, Completed) || StateIs(s, pid, Failed) ==> LevelIn(s, pid) == 4
  {
  }

  predicate Expired(left: Option<real>) {
    left.Some? && left.value <= 0.0
  }

  /** Where the branch on the backend or the deadline leads. */
  function Decided(pc: P.Pc, configured: bool, expired: bool): P.Pc {
    match pc
    case Submit(rec, att) => P.AfterSubmit(rec, att, configured, expired)
    case Claimed(rec, att) => if expired then P.Recover(rec, att.attemptId, ASubmitting, P.ERR_DEADLINE, true) else P.Calling(rec, att)
    case Poll(rec, att) => P.BeforePoll(rec, att, configured, expired)
    case Collect(rec, att) => if expired then P.Reread(rec) else P.Collecting(rec, att)
    case _ => pc
  }

  /** The answers after which the operation may still be running. */
  predicate LeavesOpen(p: P.PollOutcome) {
    p.PollTimedOut? || (p.Polled? && p.state.Nonterminal?)
  }

  lemma TimeoutAdded(timeouts: seq<real>, deadline: Option<real>, monotonic: real, granted: real, timeout: real)
    requires TimeoutsOk(timeouts, deadline, monotonic, granted) && deadline.Some? && 0.0 < timeout == deadline.value - monotonic
    ensures TimeoutsOk(timeouts + [timeout], deadline, monotonic, granted)
  {
  }

  class PersistentAlertProcessor {
    const repository: InMemoryProcessingRepository
    const backends: seq<B.BackendInfo>
    var monotonic: real
    var clock: int                  // the latest reading of the repository's clock

    ghost const me: nat
    ghost const reliable: bool
    ghost const alone: bool
    ghost var world: P.World
    ghost var origin: P.World
    ghost var events: seq<P.Event>
    ghost var since: P.World        // the world when the current call of this class began
    ghost var deadline: Option<real>
    ghost var granted: real         // the seconds a pass was given
    ghost var timeouts: seq<real>   // those of the current call
    ghost var late: bool            // the budget was seen to have run out
    ghost var openPolls: nat        // polls answered with an operation still running, or timed out
    ghost var touched: set<nat>     // records known to be stamped since the current call began

    ghost predicate Valid()
      reads this, repository
    {
      && repository.Contents() == world.store && clock == world.clock
      && RunOk(origin, events, world)
      && Inv(since) && Since(since, world, reliable)
      && (if reliable then Stamped(since, world.store, touched) else touched == {})
      && TimeoutsOk(timeouts, deadline, monotonic, granted)
      && BudgetOk(world, me, deadline)
      && (deadline.None? ==> !late)
    }

    ghost function At(): P.Pc
      reads `world
    {
      P.At(world, me)
    }

    ghost function Todo(): seq<Record>
      reads `world
    {
      P.WorkerAt(world, me).todo
    }

    ghost function Level(pid: nat): int
      reads `world
    {
      LevelIn(world.store, pid)
    }

    ghost function Others(pid: nat): map<nat, Record>
      reads `world
    {
      Elsewhere(world.store, pid)
    }

    ghost predicate Is(pid: nat, st: ProcessingState)
      reads `world
    {
      StateIs(world.store, pid, st)
    }

    ghost predicate Ends(pid: nat, st: ProcessingState, category: Option<string>)
      reads `world
    {
      EndsIn(world.store, pid, st, category)
    }

    constructor (repository: InMemoryProcessingRepository, backends: seq<B.BackendInfo>, monotonic: real, ghost me: nat, ghost reliable: bool, ghost alone: bool, ghost w: P.World, clock: int)
      requires Inv(w) && repository.Contents() == w.store && clock == w.clock && P.At(w, me).Idle?
      ensures Valid() && world == w && this.repository == repository && this.backends == backends && this.me == me
      ensures this.reliable == reliable && this.alone == alone
    {
      hide Inv;
      this.repository, this.backends, this.monotonic, this.clock := repository, backends, monotonic, clock;
      this.me, this.reliable, this.alone := me, reliable, alone;
      world, origin, events, since := w, w, [], w;
      deadline, granted, timeouts, late, openPolls, touched := None, 0.0, [], false, 0, {};
      SinceSelf(w, reliable);
    }

    // ----- The environment

    /** A reading of the repository's clock and identifiers no one has used. */
    method Fresh() returns (now: int, id: nat, key: nat)
      ensures now >= clock
      ensures R.ClockOk(repository.Contents(), now)
      ensures id !in repository.attempts && key !in repository.operationKeys
    {
      now, id, key := clock, 0, 0;
      var pids := repository.records.Keys;
      while pids != {}
        invariant pids <= repository.records.Keys && now >= clock
        invariant forall p :: p in repository.records && p !in pids ==> repository.records[p].createdAt <= now
        decreases |pids|
      {
        var p :| p in pids;
        now := if repository.records[p].createdAt > now then repository.records[p].createdAt else now;
        pids := pids - {p};
      }
      var aids := repository.attempts.Keys;
      while aids != {}
        invariant aids <= repository.attempts.Keys
        invariant forall a :: a in repository.attempts && a !in aids ==> a < id
        decreases |aids|
      {
        var a :| a in aids;
        id := if a >= id then a + 1 else id;
        aids := aids - {a};
      }
      var keys := repository.operationKeys;
      while keys != {}
        invariant keys <= repository.operationKeys
        invariant forall k :: k in repository.operationKeys && k !in keys ==> k < key
        decreases |keys|
      {
        var k :| k in keys;
        key := if k >= key then k + 1 else key;
        keys := keys - {k};
      }
    }

    /** Others take any steps they can take; then the environment settles the outcome of this
        worker's next step. Callers know no more about either than the contract says. */
    method Answer() returns (o: P.Oracle)
      requires Valid()
      modifies `world, `events, `clock, repository
      ensures Valid() && P.WorkerAt(world, me) == old(P.WorkerAt(world, me))
      ensures (!At().Idle? ==> Moving(world, me, o)) && (reliable ==> Friendly(world, o))
      ensures alone ==> world == old(world)
      ensures forall pid :: old(Level(pid)) <= Level(pid)
    {
      hide Inv, P.CanRun, P.Run, Since, Stamped, TimeoutsOk;
      var now, id, key := Fresh();
      o := P.Oracle(P.Acknowledged, now, false, true, P.Unsupported, id, key, P.UnknownSubmission, P.FlowPending, P.PollTimedOut, P.CollectRaised);
    }

    /** The step itself, once the repository has done its part. */
    ghost method Took(o: P.Oracle)
      requires RunOk(origin, events, world) && Moving(world, me, o) && (reliable ==> Friendly(world, o))
      requires Inv(since) && Since(since, world, reliable) && (if reliable then Stamped(since, world.store, touched) else touched == {})
      requires TimeoutsOk(timeouts, deadline, monotonic, granted) && BudgetOk(world, me, deadline) && (deadline.None? ==> !late)
      requires BudgetOk(P.Step(world, me, o), me, deadline)
      requires repository.Contents() == P.Step(world, me, o).store && clock == P.Step(world, me, o).clock
      modifies `world, `events
      ensures Valid() && world == P.Step(old(world), me, o)
      ensures forall pid :: old(Level(pid)) <= Level(pid)
    {
      hide P.CanRun, P.Run, RunOk, Inv, Since, Stamped, TimeoutsOk, P.Step, Moving, BudgetOk;
      var w := P.Step(world, me, o);
      RunOkStep(origin, events, world, me, o);
      SinceStep(world, me, o, reliable);
      SinceEvolves(world, w, reliable);
      LevelsKept(world.store, w.store);
      SinceTransitive(since, world, w, reliable);
      if reliable {
        StampedKept(since, world, w, touched);
      }
      events := events + [P.Move(me, o)];
      world := w;
    }

    // ----- Repository calls that write

    /** `fail_processing` on a record without an attempt. */
    method FailAccepted(record: Record, err: ErrorInfo, ghost reread: bool) returns (reply: R.Reply<Option<Record>>)
      requires Valid() && At() == P.FailAccepted(record, err, reread)
      modifies `world, `events, `clock, repository
      ensures Valid() && Todo() == old(Todo())
      ensures At() == if reread then P.OrReread(reply, record) else P.NextItem
      ensures forall pid :: old(Level(pid)) <= Level(pid)
      ensures reliable ==> reply.Returned?
      ensures Shown(world.store, reply, record, Failed, Some(err.category))
      ensures alone ==> world.remote == old(world.remote)
      ensures reliable && alone ==> Others(record.processingId) == old(Others(record.processingId))
      ensures reliable && old(Level(record.processingId)) >= 0 ==> Level(record.processingId) >= 1
      ensures reliable && alone && old(Is(record.processingId, Accepted)) ==> reply.value.Some? && Is(record.processingId, Failed)
    {
      hide Follows, EndsIn, Known, Inv, RunOk, Since, Stamped, TimeoutsOk, Moving, Friendly, P.Step, LevelIn, P.OrReread, BudgetOk, StateIs, Elsewhere, R.FailProcessing;
      var o := Answer();
      ghost var w := world;
      StoreIds(w) by { MovingInv(w, me, o); }
      FailReply(w, me, o, record, {Accepted}, err, None);
      FailAcceptedCall(w, me, o, record, err, reread);
      reply := R.Raised;
      if o.ack != P.NotCommitted {
        var r := repository.FailProcessing(record.processingId, {Accepted}, err, None, o.now);
        if o.ack == P.Acknowledged {
          reply := r;
        }
      }
      clock := o.now;
      BudgetKept(w, P.Step(w, me, o), me, deadline);
      Took(o);
    }

    method StoreNoActionResult(record: Record, result: OrchestrationResult) returns (reply: R.Reply<Option<Record>>)
      requires Valid() && At() == P.StoreNoAction(record, result)
      modifies `world, `events, `clock, repository
      ensures Valid() && Todo() == old(Todo())
      ensures At() == P.OrReread(reply, record)
      ensures forall pid :: old(Level(pid)) <= Level(pid)
      ensures reliable ==> reply.Returned?
      ensures Shown(world.store, reply, record, Completed, None)
      ensures reply.Returned? && reply.value.Some? ==> reply.value.value.completedResult == Some(result)
      ensures alone ==> world.remote == old(world.remote)
      ensures reliable && alone ==> Others(record.processingId) == old(Others(record.processingId))
      ensures reliable && old(Level(record.processingId)) >= 0 ==> Level(record.processingId) >= 1
      ensures reliable && alone && old(Is(record.processingId, Accepted)) ==> reply.value.Some? && Is(record.processingId, Completed)
    {
      hide Follows, EndsIn, Known, Inv, RunOk, Since, Stamped, TimeoutsOk, Moving, Friendly, P.Step, LevelIn, P.OrReread, BudgetOk, StateIs, Elsewhere, R.StoreNoActionResult;
      var o := Answer();
      ghost var w := world;
      StoreIds(w) by { MovingInv(w, me, o); }
      SnapFollows(w, me, o);
      NoActionShows(w.store, record, result, o.now);
      StoreNoActionCall(w, me, o, record, result);
      reply := R.Raised;
      if o.ack != P.NotCommitted {
        var r := repository.StoreNoActionResult(record.processingId, result, o.now);
        if o.ack == P.Acknowledged {
          reply := r;
        }
      }
      clock := o.now;
      BudgetKept(w, P.Step(w, me, o), me, deadline);
      Took(o);
    }

    method StorePlan(record: Record, plan: R.Plan) returns (reply: R.Reply<Option<R.PlannedPair>>)
      requires Valid() && At() == P.StorePlanned(record, plan) && (reliable ==> NonBlank(plan.backend))
      modifies `world, `events, `clock, repository
      ensures Valid() && Todo() == old(Todo())
      ensures At() == if reply.Returned? && reply.value.Some? then P.Submit(reply.value.value.record, reply.value.value.attempt) else P.OrReread(reply, record)
      ensures forall pid :: old(Level(pid)) <= Level(pid)
      ensures reliable ==> reply.Returned?
      ensures reply.Returned? && reply.value.Some? ==> PlanShown(world.store, reply.value.value, record, plan)
      ensures alone ==> world.remote == old(world.remote)
      ensures reliable && alone ==> Others(record.processingId) == old(Others(record.processingId))
      ensures reply.Returned? && reply.value.Some? ==>
                reply.value.value.record.processingId == record.processingId && reply.value.value.record.state == Planned
      ensures reliable && old(Level(record.processingId)) >= 0 ==> Level(record.processingId) >= 1
      ensures reliable && alone && old(Is(record.processingId, Accepted)) ==> reply.value.Some? && Is(record.processingId, Planned)
    {
      hide Follows, PlanShown, Known, NonBlank, Inv, RunOk, Since, Stamped, TimeoutsOk, Moving, Friendly, P.Step, LevelIn, P.OrReread, BudgetOk, StateIs, Elsewhere, R.StorePlan;
      var o := Answer();
      ghost var w := world;
      StoreIds(w) by { MovingInv(w, me, o); }
      SnapFollows(w, me, o);
      PlanShows(w.store, record, plan, o.attemptId, o.operationKey, o.now);
      StorePlannedCall(w, me, o, record, plan);
      reply := R.Raised;
      if o.ack != P.NotCommitted {
        var r := repository.StorePlan(record.processingId, plan, o.attemptId, o.operationKey, o.now);
        if o.ack == P.Acknowledged {
          reply := r;
        }
      }
      clock := o.now;
      BudgetKept(w, P.Step(w, me, o), me, deadline);
      Took(o);
    }

    method FailPlanned(record: Record, attempt: Attempt) returns (reply: R.Reply<Option<Record>>)
      requires Valid() && At() == P.FailPlanned(record, attempt)
      modifies `world, `events, `clock, repository
      ensures Valid() && Todo() == old(Todo())
      ensures At() == P.OrReread(reply, record)
      ensures forall pid :: old(Level(pid)) <= Level(pid)
      ensures reliable ==> reply.Returned?
      ensures Shown(world.store, reply, record, Failed, Some("backend_selection_error"))
      ensures alone ==> world.remote == old(world.remote)
      ensures reliable && alone ==> Others(record.processingId) == old(Others(record.processingId))
      ensures reliable && old(Level(record.processingId)) >= 1 ==> Level(record.processingId) >= 2
      ensures reliable && alone && old(Is(record.processingId, Planned)) ==> reply.value.Some? && Is(record.processingId, Failed)
    {
      hide Follows, EndsIn, Known, Inv, RunOk, Since, Stamped, TimeoutsOk, Moving, Friendly, P.Step, LevelIn, P.OrReread, BudgetOk, StateIs, Elsewhere, R.FailProcessing;
      var o := Answer();
      ghost var w := world;
      StoreIds(w) by { MovingInv(w, me, o); }
      FailReply(w, me, o, record, {Planned}, P.ERR_UNCONFIGURED, Some(attempt.attemptId));
      FailPlannedCall(w, me, o, record, attempt);
      reply := R.Raised;
      if o.ack != P.NotCommitted {
        var r := repository.FailProcessing(record.processingId, {Planned}, P.ERR_UNCONFIGURED, Some(attempt.attemptId), o.now);
        if o.ack == P.Acknowledged {
          reply := r;
        }
      }
      clock := o.now;
      BudgetKept(w, P.Step(w, me, o), me, deadline);
      Took(o);
    }

    method ClaimAttempt(record: Record, attempt: Attempt) returns (reply: R.Reply<Option<Attempt>>)
      requires Valid() && At() == P.Claim(record, attempt)
      modifies `world, `events, `clock, repository
      ensures Valid() && Todo() == old(Todo())
      ensures At() == if reply.Returned? && reply.value.Some? then P.Claimed(record, reply.value.value) else P.OrReread(reply, record)
      ensures forall pid :: old(Level(pid)) <= Level(pid)
      ensures reliable ==> reply.Returned?
      ensures reply.Returned? && reply.value.Some? ==> reply.value.value.attemptId == attempt.attemptId
      ensures alone ==> world.remote == old(world.remote)
      ensures reliable && alone ==> Others(record.processingId) == old(Others(record.processingId))
      ensures reliable && old(Level(record.processingId)) >= 1 ==> Level(record.processingId) >= 2
      ensures reliable && alone && old(Is(record.processingId, Planned)) ==> reply.value.Some? && Is(record.processingId, Submitting)
    {
      hide Inv, RunOk, Since, Stamped, TimeoutsOk, Moving, Friendly, P.Step, LevelIn, P.OrReread, BudgetOk, StateIs, Elsewhere, R.ClaimAttempt;
      var o := Answer();
      ghost var w := world;
      StoreIds(w) by { MovingInv(w, me, o); }
      ClaimShows(w.store, attempt.attemptId, o.now);
      ClaimCall(w, me, o, record, attempt);
      reply := R.Raised;
      if o.ack != P.NotCommitted {
        var r := repository.ClaimAttempt(attempt.attemptId, o.now);
        if o.ack == P.Acknowledged {
          reply := r;
        }
      }
      clock := o.now;
      BudgetKept(w, P.Step(w, me, o), me, deadline);
      Took(o);
    }

    method FailRejected(record: Record, attempt: Attempt) returns (reply: R.Reply<Option<Record>>)
      requires Valid() && At() == P.FailRejected(record, attempt)
      modifies `world, `events, `clock, repository
      ensures Valid() && Todo() == old(Todo())
      ensures At() == P.OrReread(reply, record)
      ensures forall pid :: old(Level(pid)) <= Level(pid)
      ensures reliable ==> reply.Returned?
      ensures Shown(world.store, reply, record, Failed, Some("backend_submission_failed"))
      ensures alone ==> world.remote == old(world.remote)
      ensures reliable && alone ==> Others(record.processingId) == old(Others(record.processingId))
      ensures reliable && old(Level(record.processingId)) >= 2 ==> Level(record.processingId) >= 3
      ensures reliable && alone && old(Is(record.processingId, Submitting)) ==> reply.value.Some? && Is(record.processingId, Failed)
    {
      hide Follows, EndsIn, Known, Inv, RunOk, Since, Stamped, TimeoutsOk, Moving, Friendly, P.Step, LevelIn, P.OrReread, BudgetOk, StateIs, Elsewhere, R.FailProcessing;
      var o := Answer();
      ghost var w := world;
      StoreIds(w) by { MovingInv(w, me, o); }
      FailReply(w, me, o, record, {Submitting}, P.ERR_REJECTED, Some(attempt.attemptId));
      FailRejectedCall(w, me, o, record, attempt);
      reply := R.Raised;
      if o.ack != P.NotCommitted {
        var r := repository.FailProcessing(record.processingId, {Submitting}, P.ERR_REJECTED, Some(attempt.attemptId), o.now);
        if o.ack == P.Acknowledged {
          reply := r;
        }
      }
      clock := o.now;
      BudgetKept(w, P.Step(w, me, o), me, deadline);
      Took(o);
    }

    method MarkSubmitted(record: Record, attempt: Attempt, externalId: string) returns (reply: R.Reply<Option<Attempt>>)
      requires Valid() && At() == P.Mark(record, attempt, externalId)
      modifies `world, `events, `clock, repository
      ensures Valid() && Todo() == old(Todo())
      ensures At() == P.AfterMark(record, attempt, reply)
      ensures forall pid :: old(Level(pid)) <= Level(pid)
      ensures reliable ==> reply.Returned?
      ensures reply.Returned? && reply.value.Some? ==>
                && reply.value.value.attemptId == attempt.attemptId && reply.value.value.externalOperationId == Some(externalId)
                && Marked(world.store, attempt.attemptId, externalId)
      ensures alone ==> world.remote == old(world.remote)
      ensures reliable && alone ==> Others(record.processingId) == old(Others(record.processingId))
      ensures reliable && old(Level(record.processingId)) >= 2 ==> Level(record.processingId) >= 3
      ensures reliable && alone && old(Is(record.processingId, Submitting)) ==> reply.value.Some? && Is(record.processingId, Submitted)
    {
      hide Marked, Inv, RunOk, Since, Stamped, TimeoutsOk, Moving, Friendly, P.Step, LevelIn, P.AfterMark, BudgetOk, StateIs, Elsewhere, R.MarkSubmitted;
      var o := Answer();
      ghost var w := world;
      StoreIds(w) by { MovingInv(w, me, o); }
      MarkShows(w.store, attempt.attemptId, externalId, o.now);
      MarkCall(w, me, o, record, attempt, externalId);
      reply := R.Raised;
      if o.ack != P.NotCommitted {
        var r := repository.MarkSubmitted(attempt.attemptId, externalId, o.now);
        if o.ack == P.Acknowledged {
          reply := r;
        }
      }
      clock := o.now;
      BudgetKept(w, P.Step(w, me, o), me, deadline);
      Took(o);
    }

    /** The repository's part of the call: commit or not, answer or not. */
    method RecoverInStore(aid: nat, from: AttemptState, err: ErrorInfo, o: P.Oracle) returns (reply: R.Reply<Option<Record>>)
      requires aid in repository.attempts ==> repository.attempts[aid].attemptId == aid
      requires forall pid :: pid in repository.records ==> repository.records[pid].processingId == pid
      modifies repository
      ensures repository.Contents() == if o.ack == P.NotCommitted then old(repository.Contents())
                                       else R.MarkRecoveryRequired(old(repository.Contents()), aid, {from}, err, o.now).0
      ensures reply == P.Seen(R.MarkRecoveryRequired(old(repository.Contents()), aid, {from}, err, o.now).1, o)
    {
      hide R.MarkRecoveryRequired;
      reply := R.Raised;
      if o.ack != P.NotCommitted {
        var r := repository.MarkRecoveryRequired(aid, {from}, err, o.now);
        if o.ack == P.Acknowledged {
          reply := r;
        }
      }
    }

    method MarkRecoveryRequired(record: Record, aid: nat, from: AttemptState, err: ErrorInfo, ghost reread: bool) returns (reply: R.Reply<Option<Record>>)
      requires Valid() && At() == P.Recover(record, aid, from, err, reread)
      modifies `world, `events, `clock, repository
      ensures Valid() && Todo() == old(Todo())
      ensures At() == if reread then P.OrReread(reply, record) else P.NextItem
      ensures forall pid :: old(Level(pid)) <= Level(pid)
      ensures reliable ==> reply.Returned?
      ensures Shown(world.store, reply, record, RecoveryRequired, Some(err.category))
      ensures alone ==> world.remote == old(world.remote)
      ensures reliable && alone ==> Others(record.processingId) == old(Others(record.processingId))
      ensures reliable && old(Level(record.processingId)) >= R.Rank(SameName(from)) ==> Level(record.processingId) > R.Rank(SameName(from))
      ensures reliable && alone && old(Is(record.processingId, SameName(from))) ==> reply.value.Some? && Is(record.processingId, RecoveryRequired)
    {
      hide Follows, EndsIn, Known, Owns, R.Rank, SameName, R.FailProcessing, Inv, RunOk, Since, Stamped, TimeoutsOk, Moving, Friendly, P.Step, LevelIn, P.OrReread, BudgetOk, StateIs, Elsewhere, R.MarkRecoveryRequired;
      var o := Answer();
      ghost var w := world;
      StoreIds(w) by { MovingInv(w, me, o); }
      RecoveryReply(w, me, o, record, aid, from, err, reread);
      RecoverCall(w, me, o, record, aid, from, err, reread);
      reply := RecoverInStore(aid, from, err, o);
      clock := o.now;
      BudgetKept(w, P.Step(w, me, o), me, deadline);
      Took(o);
    }

    method RecordPoll(record: Record, attempt: Attempt, remote: string, pollError: Option<ErrorInfo>, ghost after: P.AfterPoll) returns (reply: R.Reply<Option<Attempt>>)
      requires Valid() && At() == P.RecordPolled(record, attempt, remote, pollError, after)
      modifies `world, `events, `clock, `touched, repository
      ensures Valid() && Todo() == old(Todo())
      ensures At() == P.AfterRecordPoll(record, attempt, after, reply.Raised?)
      ensures forall pid :: old(Level(pid)) <= Level(pid)
      ensures reliable ==> reply.Returned?
      ensures reply.Returned? && reply.value.Some? ==> EndsIn(world.store, record.processingId, Submitted, CategoryOf(pollError))
      ensures reliable && alone && old(Is(record.processingId, Submitted)) ==> reply.value.Some?
      ensures alone ==> world.remote == old(world.remote)
      ensures reliable && alone ==> Others(record.processingId) == old(Others(record.processingId))
      ensures old(touched) <= touched
      ensures reliable && old(Level(record.processingId)) >= 3 ==> record.processingId in touched || Level(record.processingId) >= 4
    {
      hide Follows, EndsIn, Known, Owns, CategoryOf, Inv, RunOk, Since, Stamped, TimeoutsOk, Moving, Friendly, P.Step, LevelIn, P.AfterRecordPoll, BudgetOk, StateIs, Elsewhere, R.RecordPoll;
      var o := Answer();
      ghost var w := world;
      StoreIds(w) by { MovingInv(w, me, o); }
      PollReply(w, me, o, record, attempt, remote, pollError, after);
      RecordPolledCall(w, me, o, record, attempt, remote, pollError, after);
      reply := R.Raised;
      if o.ack != P.NotCommitted {
        var r := repository.RecordPoll(attempt.attemptId, remote, pollError, o.now);
        if o.ack == P.Acknowledged {
          reply := r;
        }
      }
      clock := o.now;
      BudgetKept(w, P.Step(w, me, o), me, deadline);
      Took(o);
      if reliable && Level(record.processingId) < 4 && old(Level(record.processingId)) >= 3 {
        StampedNow(since, w, world, record.processingId, o.now, touched) by { FriendlyClock(w, o); }
        touched := touched + {record.processingId};
      }
    }

    method FailExecution(record: Record, attempt: Attempt) returns (reply: R.Reply<Option<Record>>)
      requires Valid() && At() == P.FailExecution(record, attempt)
      modifies `world, `events, `clock, repository
      ensures Valid() && Todo() == old(Todo())
      ensures At() == P.OrReread(reply, record)
      ensures forall pid :: old(Level(pid)) <= Level(pid)
      ensures reliable ==> reply.Returned?
      ensures Shown(world.store, reply, record, Failed, Some("backend_execution_failed"))
      ensures alone ==> world.remote == old(world.remote)
      ensures reliable && alone ==> Others(record.processingId) == old(Others(record.processingId))
      ensures reliable && old(Level(record.processingId)) >= 3 ==> Level(record.processingId) >= 4
      ensures reliable && alone && old(Is(record.processingId, Submitted)) ==> reply.value.Some? && Is(record.processingId, Failed)
    {
      hide Follows, EndsIn, Known, Inv, RunOk, Since, Stamped, TimeoutsOk, Moving, Friendly, P.Step, LevelIn, P.OrReread, BudgetOk, StateIs, Elsewhere, R.FailProcessing;
      var o := Answer();
      ghost var w := world;
      StoreIds(w) by { MovingInv(w, me, o); }
      FailReply(w, me, o, record, {Submitted}, P.ERR_EXECUTION, Some(attempt.attemptId));
      FailExecutionCall(w, me, o, record, attempt);
      reply := R.Raised;
      if o.ack != P.NotCommitted {
        var r := repository.FailProcessing(record.processingId, {Submitted}, P.ERR_EXECUTION, Some(attempt.attemptId), o.now);
        if o.ack == P.Acknowledged {
          reply := r;
        }
      }
      clock := o.now;
      BudgetKept(w, P.Step(w, me, o), me, deadline);
      Took(o);
    }

    method CompleteProcessing(record: Record, attempt: Attempt, result: OrchestrationResult) returns (reply: R.Reply<Option<Record>>)
      requires Valid() && At() == P.Complete(record, attempt, result)
      modifies `world, `events, `clock, repository
      ensures Valid() && Todo() == old(Todo())
      ensures At() == P.OrReread(reply, record)
      ensures forall pid :: old(Level(pid)) <= Level(pid)
      ensures reliable ==> reply.Returned?
      ensures Shown(world.store, reply, record, Completed, None)
      ensures reply.Returned? && reply.value.Some? ==> reply.value.value.completedResult == Some(result)
      ensures alone ==> world.remote == old(world.remote)
      ensures reliable && alone ==> Others(record.processingId) == old(Others(record.processingId))
      ensures reliable && old(Level(record.processingId)) >= 3 ==> Level(record.processingId) >= 4
      ensures reliable && alone && old(Is(record.processingId, Submitted)) ==> reply.value.Some? && Is(record.processingId, Completed)
    {
      hide Follows, EndsIn, Known, Owns, Inv, RunOk, Since, Stamped, TimeoutsOk, Moving, Friendly, P.Step, LevelIn, P.OrReread, BudgetOk, StateIs, Elsewhere, R.CompleteProcessing;
      var o := Answer();
      ghost var w := world;
      StoreIds(w) by { MovingInv(w, me, o); }
      SnapFollows(w, me, o);
      PairOwned(w, me, o);
      CompleteShows(w.store, record, attempt.attemptId, result, o.now);
      CompleteCall(w, me, o, record, attempt, result);
      reply := R.Raised;
      if o.ack != P.NotCommitted {
        var r := repository.CompleteProcessing(attempt.attemptId, result, o.now);
        if o.ack == P.Acknowledged {
          reply := r;
        }
      }
      clock := o.now;
      BudgetKept(w, P.Step(w, me, o), me, deadline);
      Took(o);
    }

    // ----- Repository calls that read

    /** `_reread`. */
    method Reread(record: Record) returns (reply: R.Reply<Record>)
      requires Valid() && At() == P.Reread(record)
      modifies `world, `events, `clock, repository
      ensures Valid() && At() == P.NextItem && Todo() == old(Todo())
      ensures forall pid :: old(Level(pid)) <= Level(pid)
      ensures reliable ==> reply.Returned?
      ensures Tells(reply, record) && Current(world.store, reply)
      ensures alone ==> world.store == old(world.store) && world.remote == old(world.remote)
    {
      hide Known, Inv, RunOk, Since, Stamped, TimeoutsOk, Moving, P.Step, LevelIn, BudgetOk;
      var o := Answer();
      ghost var w := world;
      RereadCall(w, me, o);
      QuietCall(w, me, o);
      RemoteCall(w, me, o);
      SnapFollows(w, me, o);
      KnownFollows(w.store, record);
      var found := repository.Get(record.processingId);
      reply := if o.ack != P.Acknowledged || found.None? then R.Raised else R.Returned(found.value);
      BudgetKept(w, P.Step(w, me, o), me, deadline);
      Took(o);
    }

    method RereadForPoll(record: Record, attempt: Attempt) returns (reply: R.Reply<Record>)
      requires Valid() && At() == P.RereadForPoll(record, attempt)
      modifies `world, `events, `clock, repository
      ensures Valid() && Todo() == old(Todo())
      ensures At() == if reply.Raised? then P.NextItem else P.Poll(reply.value, attempt)
      ensures Tells(reply, record) && Current(world.store, reply)
      ensures forall pid :: old(Level(pid)) <= Level(pid)
      ensures reliable ==> reply.Returned?
      ensures alone ==> world.store == old(world.store) && world.remote == old(world.remote)
    {
      hide Known, Inv, RunOk, Since, Stamped, TimeoutsOk, Moving, P.Step, LevelIn, BudgetOk;
      var o := Answer();
      ghost var w := world;
      RereadCall(w, me, o);
      QuietCall(w, me, o);
      RemoteCall(w, me, o);
      SnapFollows(w, me, o);
      KnownFollows(w.store, record);
      var found := repository.Get(record.processingId);
      reply := if o.ack != P.Acknowledged || found.None? then R.Raised else R.Returned(found.value);
      BudgetKept(w, P.Step(w, me, o), me, deadline);
      Took(o);
    }

    method GetAttempt(record: Record) returns (reply: R.Reply<Option<Attempt>>)
      requires Valid() && At() == P.Fetch(record)
      modifies `world, `events, `clock, repository
      ensures Valid() && Todo() == old(Todo())
      ensures At() == P.AfterFetch(record, reply)
      ensures forall pid :: old(Level(pid)) <= Level(pid)
      ensures reply.Returned? && reply.value.Some? && Is(record.processingId, Submitted) ==> reply.value.value.externalOperationId.Some?
      ensures reliable ==> reply.Returned? && (1 <= Level(record.processingId) <= 3 ==> reply.value.Some?)
      ensures alone ==> world.store == old(world.store) && world.remote == old(world.remote)
    {
      hide Inv, RunOk, Since, Stamped, TimeoutsOk, Moving, P.Step, LevelIn, BudgetOk, P.AfterFetch, R.GetAttemptForProcessing;
      var o := Answer();
      ghost var w := world;
      FetchCall(w, me, o, record);
      QuietCall(w, me, o);
      RemoteCall(w, me, o);
      FetchedOperation(w, record.processingId) by { MovingInv(w, me, o); }
      reply := repository.GetAttemptForProcessing(record.processingId);
      reply := if o.ack == P.Acknowledged then reply else R.Raised;
      BudgetKept(w, P.Step(w, me, o), me, deadline);
      Took(o);
    }

    /** The read that opens an item, outside the item's error handling. */
    method GetAttemptForContext(record: Record) returns (reply: R.Reply<Option<Attempt>>)
      requires Valid() && At() == P.Context(record)
      modifies `world, `events, `clock, repository
      ensures Valid()
      ensures if reply.Raised? then At() == P.Idle else At() == P.AfterContext(record) && Todo() == old(Todo())
      ensures forall pid :: old(Level(pid)) <= Level(pid)
      ensures reliable ==> reply.Returned?
      ensures alone ==> world.store == old(world.store) && world.remote == old(world.remote)
    {
      hide Inv, RunOk, Since, Stamped, TimeoutsOk, Moving, P.Step, LevelIn, P.AfterContext, R.GetAttemptForProcessing;
      var o := Answer();
      ghost var w := world;
      ContextCall(w, me, o, record);
      RemoteCall(w, me, o);
      reply := repository.GetAttemptForProcessing(record.processingId);
      reply := if o.ack == P.Acknowledged then reply else R.Raised;
      Took(o);
    }

    // ----- Planning, deadlines and the backend

    /** `orchestrator.plan`. */
    method MakePlan(record: Record) returns (plan: P.PlanOutcome)
      requires Valid() && At() == P.Advance(record)
      modifies `world, `events, `clock, repository
      ensures Valid() && At() == P.AfterPlan(record, plan) && Todo() == old(Todo())
      ensures forall pid :: old(Level(pid)) <= Level(pid)
      ensures reliable && plan.InvestigatePlan? ==> NonBlank(plan.plan.backend)
      ensures alone ==> world.store == old(world.store) && world.remote == old(world.remote)
    {
      hide Inv, RunOk, Since, Stamped, TimeoutsOk, Moving, P.Step, LevelIn, BudgetOk, NonBlank, P.AfterPlan;
      var o := Answer();
      ghost var w := world;
      LocalCall(w, me, o);
      QuietCall(w, me, o);
      RemoteCall(w, me, o);
      plan := o.plan;
      BudgetKept(w, P.Step(w, me, o), me, deadline);
      Took(o);
    }

    /** `backend_for_name`: whether exactly one backend of this process has the name. */
    method BackendForName(name: string) returns (configured: bool)
      ensures configured <==> |B.Named(backends, name)| == 1
    {
      configured := |B.Named(backends, name)| == 1;
    }

    /** `_remaining_reconciliation_seconds`, after whatever time has passed. */
    method Remaining(limit: Option<real>) returns (left: Option<real>)
      requires Valid() && limit == deadline
      modifies `monotonic, `late
      ensures Valid() && monotonic >= old(monotonic)
      ensures left == if limit.None? then None else Some(limit.value - monotonic)
      ensures late == (old(late) || Expired(left))
    {
      hide RunOk, Since, Stamped, BudgetOk, Inv;
      left := if limit.None? then None else Some(limit.value - monotonic);
      late := late || Expired(left);
    }

    /** A branch on the configured backend or on the remaining budget. */
    method Decide(configured: bool, expired: bool)
      requires Valid() && (At().Submit? || At().Claimed? || At().Poll? || At().Collect?)
      requires expired ==> deadline.Some?
      modifies `world, `events, `clock, repository
      ensures Valid() && At() == Decided(old(At()), configured, expired) && Todo() == old(Todo())
      ensures forall pid :: old(Level(pid)) <= Level(pid)
      ensures alone ==> world.store == old(world.store) && world.remote == old(world.remote)
    {
      hide Inv, RunOk, Since, Stamped, TimeoutsOk, P.Step, LevelIn, P.AfterSubmit, P.BeforePoll;
      var o := Answer();
      ghost var w := world;
      o := o.(configured := configured, expired := expired);
      StillMoving(w, me, o);
      LocalCall(w, me, o);
      QuietCall(w, me, o);
      RemoteCall(w, me, o);
      BudgetKept(w, P.Step(w, me, o), me, deadline);
      Took(o);
    }

    /** `backend.submit`; a reconciliation pass hands over exactly what is left of its budget. */
    method BackendSubmit(record: Record, attempt: Attempt, timeout: Option<real>) returns (outcome: P.SubmitOutcome)
      requires Valid() && At() == P.Calling(record, attempt)
      requires timeout.Some? == deadline.Some? && (timeout.Some? ==> 0.0 < timeout.value == deadline.value - monotonic)
      modifies `world, `events, `clock, `timeouts, repository
      ensures Valid() && At() == P.AfterCall(record, attempt, outcome) && Todo() == old(Todo())
      ensures timeouts == if timeout.Some? then old(timeouts) + [timeout.value] else old(timeouts)
      ensures forall pid :: old(Level(pid)) <= Level(pid)
      ensures alone ==> world.store == old(world.store) && world.remote.calls == old(world.remote.calls) + [attempt.attemptId]
    {
      hide Inv, RunOk, Since, Stamped, TimeoutsOk, Moving, P.Step, LevelIn, BudgetOk, P.AfterCall;
      var o := Answer();
      ghost var w := world;
      LocalCall(w, me, o);
      QuietCall(w, me, o);
      RemoteCall(w, me, o);
      outcome := o.submit;
      BudgetKept(w, P.Step(w, me, o), me, deadline);
      Took(o);
      if timeout.Some? {
        TimeoutAdded(timeouts, deadline, monotonic, granted, timeout.value);
        timeouts := timeouts + [timeout.value];
      }
    }

    /** `backend.poll`, counting the answers that leave the operation open. */
    method BackendPoll(record: Record, attempt: Attempt, timeout: Option<real>) returns (outcome: P.PollOutcome)
      requires Valid() && At() == P.Polling(record, attempt)
      requires timeout.Some? == deadline.Some? && (timeout.Some? ==> 0.0 < timeout.value == deadline.value - monotonic)
      modifies `world, `events, `clock, `timeouts, `openPolls, repository
      ensures Valid() && At() == P.AfterPolling(record, attempt, outcome) && Todo() == old(Todo())
      ensures timeouts == if timeout.Some? then old(timeouts) + [timeout.value] else old(timeouts)
      ensures openPolls == old(openPolls) + if LeavesOpen(outcome) then 1 else 0
      ensures forall pid :: old(Level(pid)) <= Level(pid)
      ensures alone ==> world.store == old(world.store) && world.remote.calls == old(world.remote.calls)
      ensures alone ==> old(world.remote.lookups) <= world.remote.lookups
      ensures alone && attempt.externalOperationId.Some? ==>
                world.remote.lookups == old(world.remote.lookups) + [(attempt.attemptId, attempt.externalOperationId.value)]
    {
      hide Inv, RunOk, Since, Stamped, TimeoutsOk, Moving, P.Step, LevelIn, BudgetOk, P.AfterPolling;
      var o := Answer();
      ghost var w := world;
      LocalCall(w, me, o);
      QuietCall(w, me, o);
      RemoteCall(w, me, o);
      outcome := o.poll;
      BudgetKept(w, P.Step(w, me, o), me, deadline);
      Took(o);
      if timeout.Some? {
        TimeoutAdded(timeouts, deadline, monotonic, granted, timeout.value);
        timeouts := timeouts + [timeout.value];
      }
      openPolls := openPolls + if LeavesOpen(outcome) then 1 else 0;
    }

    method BackendCollect(record: Record, attempt: Attempt) returns (outcome: P.CollectOutcome)
      requires Valid() && At() == P.Collecting(record, attempt)
      modifies `world, `events, `clock, repository
      ensures Valid() && At() == P.AfterCollecting(record, attempt, outcome) && Todo() == old(Todo())
      ensures forall pid :: old(Level(pid)) <= Level(pid)
      ensures alone ==> world.store == old(world.store) && world.remote.calls == old(world.remote.calls)
      ensures alone ==> old(world.remote.lookups) <= world.remote.lookups
      ensures alone && attempt.externalOperationId.Some? ==>
                world.remote.lookups == old(world.remote.lookups) + [(attempt.attemptId, attempt.externalOperationId.value)]
    {
      hide Inv, RunOk, Since, Stamped, TimeoutsOk, Moving, P.Step, LevelIn, BudgetOk, P.AfterCollecting;
      var o := Answer();
      ghost var w := world;
      LocalCall(w, me, o);
      QuietCall(w, me, o);
      RemoteCall(w, me, o);
      outcome := o.collect;
      BudgetKept(w, P.Step(w, me, o), me, deadline);
      Took(o);
    }

    // ----- `_poll_submitted`, `_submit`, `_advance_accepted`

    /** `written or self._reread(...)`. */
    method AfterWrite(record: Record, written: R.Reply<Option<Record>>) returns (reply: R.Reply<Record>)
      requires Valid() && At() == P.OrReread(written, record) && Carries(world.store, written, record)
      modifies `world, `events, `clock, repository
      ensures Valid() && At() == P.NextItem && Todo() == old(Todo())
      ensures forall pid :: old(Level(pid)) <= Level(pid)
      ensures Tells(reply, record) && Current(world.store, reply)
      ensures reliable && written.Returned? ==> reply.Returned?
      ensures alone ==> world.store == old(world.store) && world.remote == old(world.remote)
    {
      hide PersistentAlertProcessor.Valid, P.Step, PersistentAlertProcessor.Todo;
      if written.Raised? {
        return R.Raised;
      }
      if written.value.Some? {
        return R.Returned(written.value.value);
      }
      reply := Reread(record);
    }

    method RecoverSubmitted(record: Record, attempt: Attempt, err: ErrorInfo) returns (reply: R.Reply<Record>)
      requires Valid() && At() == P.Recover(record, attempt.attemptId, ASubmitted, err, true)
      modifies `world, `events, `clock, repository
      ensures Valid() && At() == P.NextItem && Todo() == old(Todo())
      ensures forall pid :: old(Level(pid)) <= Level(pid)
      ensures Tells(reply, record) && Current(world.store, reply)
      ensures alone ==> world.remote == old(world.remote)
      ensures reliable && alone && old(Is(record.processingId, Submitted)) ==> Ends(record.processingId, RecoveryRequired, Some(err.category))
      ensures reliable && alone ==> Others(record.processingId) == old(Others(record.processingId))
      ensures reliable && old(Level(record.processingId)) >= 3 ==> Level(record.processingId) >= 4
    {
      hide PersistentAlertProcessor.Valid, P.Step, PersistentAlertProcessor.Todo, Elsewhere;
      var recovery := MarkRecoveryRequired(record, attempt.attemptId, ASubmitted, err, true);
      reply := AfterWrite(record, recovery);
    }

    method PollSubmitted(record: Record, attempt: Attempt, limit: Option<real>) returns (reply: R.Reply<Record>)
      requires Valid() && At() == P.Poll(record, attempt) && limit == deadline
      modifies `world, `events, `clock, `monotonic, `late, `timeouts, `openPolls, `touched, repository
      ensures Valid() && At() == P.NextItem && Todo() == old(Todo())
      ensures old(late) ==> late
      ensures old(touched) <= touched && old(openPolls) <= openPolls
      ensures forall pid :: old(Level(pid)) <= Level(pid)
      ensures Tells(reply, record) && (!late ==> Current(world.store, reply))
      ensures alone ==> world.remote.calls == old(world.remote.calls)
      ensures alone && (!Ready(record, attempt) || |B.Named(backends, record.selectedBackend.value)| != 1) ==>
                && world.remote == old(world.remote)
                && (reliable && old(Is(record.processingId, Submitted)) ==> Ends(record.processingId, RecoveryRequired, Some("recovery_required")))
      ensures alone && !late && Ready(record, attempt) && |B.Named(backends, record.selectedBackend.value)| == 1 ==>
                Looked(old(world.remote.lookups), world.remote.lookups, attempt)
      ensures reliable && alone ==> Others(record.processingId) == old(Others(record.processingId))
      ensures reliable && !late && old(Level(record.processingId)) >= 3 ==>
                Level(record.processingId) >= 4 || (record.processingId in touched && openPolls > old(openPolls))
    {
      hide PersistentAlertProcessor.Valid, P.Step, PersistentAlertProcessor.Todo, Elsewhere, PersistentAlertProcessor.Level, P.AfterSubmit, EndsIn;
      if record.Request().None? || record.selectedBackend.None? || attempt.externalOperationId.None? {
        Decide(true, false);
        reply := RecoverSubmitted(record, attempt, P.ERR_INCOMPLETE);
        return;
      }
      var configured := BackendForName(record.selectedBackend.value);
      if !configured {
        Decide(false, false);
        reply := RecoverSubmitted(record, attempt, P.ERR_GONE);
        return;
      }
      reply := PollWithin(record, attempt, limit);
    }

    /** `_poll_submitted` once everything the poll needs is at hand. */
    method PollWithin(record: Record, attempt: Attempt, limit: Option<real>) returns (reply: R.Reply<Record>)
      requires Valid() && At() == P.Poll(record, attempt) && limit == deadline
      requires record.Request().Some? && record.selectedBackend.Some? && attempt.externalOperationId.Some?
      modifies `world, `events, `clock, `monotonic, `late, `timeouts, `openPolls, `touched, repository
      ensures Valid() && At() == P.NextItem && Todo() == old(Todo())
      ensures old(late) ==> late
      ensures old(touched) <= touched && old(openPolls) <= openPolls
      ensures forall pid :: old(Level(pid)) <= Level(pid)
      ensures Tells(reply, record) && (!late ==> Current(world.store, reply))
      ensures alone ==> world.remote.calls == old(world.remote.calls)
      ensures alone && !late ==> Looked(old(world.remote.lookups), world.remote.lookups, attempt)
      ensures reliable && alone ==> Others(record.processingId) == old(Others(record.processingId))
      ensures reliable && !late && old(Level(record.processingId)) >= 3 ==>
                Level(record.processingId) >= 4 || (record.processingId in touched && openPolls > old(openPolls))
    {
      hide PersistentAlertProcessor.Valid, P.Step, PersistentAlertProcessor.Todo, Elsewhere, P.AfterPolling, PersistentAlertProcessor.Level, LevelIn, StateIs, P.AfterSubmit, EndsIn;
      var pollTimeout := Remaining(limit);
      if Expired(pollTimeout) {
        Decide(true, true);
        return R.Returned(record);
      }
      Decide(true, false);
      var status := BackendPoll(record, attempt, pollTimeout);
      reply := ActOnStatus(record, attempt, status, limit);
    }

    /** `_poll_submitted` once the backend has answered. */
    method ActOnStatus(record: Record, attempt: Attempt, status: P.PollOutcome, limit: Option<real>) returns (reply: R.Reply<Record>)
      requires Valid() && At() == P.AfterPolling(record, attempt, status) && limit == deadline
      modifies `world, `events, `clock, `monotonic, `late, `touched, repository
      ensures Valid() && At() == P.NextItem && Todo() == old(Todo())
      ensures old(late) ==> late
      ensures old(touched) <= touched
      ensures forall pid :: old(Level(pid)) <= Level(pid)
      ensures Tells(reply, record) && (!late ==> Current(world.store, reply))
      ensures alone ==> world.remote.calls == old(world.remote.calls) && old(world.remote.lookups) <= world.remote.lookups
      ensures reliable && alone && !late && old(Is(record.processingId, Submitted)) ==>
                match status
                case PollTimedOut => Ends(record.processingId, Submitted, Some("backend_timeout"))
                case PollRaised => Ends(record.processingId, RecoveryRequired, Some("backend_protocol_error"))
                case Polled(state, _) =>
                  match state
                  case Nonterminal => Ends(record.processingId, Submitted, None)
                  case OperationFailed => Ends(record.processingId, Failed, Some("backend_execution_failed"))
                  case Succeeded =>
                    Ends(record.processingId, Completed, None) || Ends(record.processingId, RecoveryRequired, Some("backend_protocol_error"))
                  case Unrecognized => Ends(record.processingId, RecoveryRequired, Some("backend_protocol_error"))
      ensures reliable && alone ==> Others(record.processingId) == old(Others(record.processingId))
      ensures reliable && !late && old(Level(record.processingId)) >= 3 ==>
                Level(record.processingId) >= 4 || (record.processingId in touched && LeavesOpen(status))
    {
      hide PersistentAlertProcessor.Valid, P.Step, PersistentAlertProcessor.Todo, Elsewhere, PersistentAlertProcessor.Level, P.AfterSubmit, LevelIn;
      match status
      case PollTimedOut =>
        var polled := RecordPoll(record, attempt, "timeout", Some(P.ERR_POLL_TIMEOUT), P.PollDone);
        if polled.Raised? {
          return R.Raised;
        }
        reply := Reread(record);
      case PollRaised =>
        reply := RecoverSubmitted(record, attempt, P.ERR_STATUS);
      case Polled(state, remote) =>
        match state
        case Nonterminal =>
          var polled := RecordPoll(record, attempt, remote, None, P.PollDone);
          if polled.Raised? {
            return R.Raised;
          }
          reply := Reread(record);
        case OperationFailed =>
          var polled := RecordPoll(record, attempt, remote, None, P.ThenFail);
          if polled.Raised? {
            return R.Raised;
          }
          var failed := FailExecution(record, attempt);
          reply := AfterWrite(record, failed);
        case Unrecognized =>
          reply := RecoverSubmitted(record, attempt, P.ERR_UNKNOWN_STATUS);
        case Succeeded =>
          reply := CollectAndComplete(record, attempt, remote, limit);
    }

    /** The succeeded branch of `_poll_submitted`. */
    method CollectAndComplete(record: Record, attempt: Attempt, remote: string, limit: Option<real>) returns (reply: R.Reply<Record>)
      requires Valid() && At() == P.RecordPolled(record, attempt, remote, None, P.ThenCollect) && limit == deadline
      modifies `world, `events, `clock, `monotonic, `late, `touched, repository
      ensures Valid() && At() == P.NextItem && Todo() == old(Todo())
      ensures old(late) ==> late
      ensures old(touched) <= touched
      ensures forall pid :: old(Level(pid)) <= Level(pid)
      ensures Tells(reply, record) && (!late ==> Current(world.store, reply))
      ensures alone ==> world.remote.calls == old(world.remote.calls) && old(world.remote.lookups) <= world.remote.lookups
      ensures reliable && alone && !late && old(Is(record.processingId, Submitted)) ==>
                Ends(record.processingId, Completed, None) || Ends(record.processingId, RecoveryRequired, Some("backend_protocol_error"))
      ensures reliable && alone ==> Others(record.processingId) == old(Others(record.processingId))
      ensures reliable && !late && old(Level(record.processingId)) >= 3 ==> Level(record.processingId) >= 4
    {
      hide EndsIn, PersistentAlertProcessor.Valid, P.Step, PersistentAlertProcessor.Todo, Elsewhere, PersistentAlertProcessor.Level, LevelIn, StateIs, P.BeforePoll, P.AfterSubmit;
      hide ResultValid;
      var polled := RecordPoll(record, attempt, remote, None, P.ThenCollect);
      if polled.Raised? {
        return R.Raised;
      }
      EndsIs(world.store, record.processingId, Submitted, None);
      var budget := Remaining(limit);
      Decide(true, Expired(budget));
      if Expired(budget) {
        reply := Reread(record);
        return;
      }
      reply := CollectResult(record, attempt);
    }

    method CollectResult(record: Record, attempt: Attempt) returns (reply: R.Reply<Record>)
      requires Valid() && At() == P.Collecting(record, attempt)
      modifies `world, `events, `clock, repository
      ensures Valid() && At() == P.NextItem && Todo() == old(Todo())
      ensures forall pid :: old(Level(pid)) <= Level(pid)
      ensures Tells(reply, record) && Current(world.store, reply)
      ensures alone ==> world.remote.calls == old(world.remote.calls) && old(world.remote.lookups) <= world.remote.lookups
      ensures reliable && alone ==> Others(record.processingId) == old(Others(record.processingId))
      ensures reliable && old(Level(record.processingId)) >= 3 ==> Level(record.processingId) >= 4
      ensures reliable && alone && old(Is(record.processingId, Submitted)) ==>
                Ends(record.processingId, Completed, None) || Ends(record.processingId, RecoveryRequired, Some("backend_protocol_error"))
    {
      hide PersistentAlertProcessor.Valid, P.Step, PersistentAlertProcessor.Todo, Elsewhere, PersistentAlertProcessor.Level, EndsIn, P.AfterCollecting, Usable;
      var collected := BackendCollect(record, attempt);
      reply := ActOnResult(record, attempt, collected);
    }

    /** The collected result is stored if it is the selected backend's and completes the plan;
        anything else gives the record up. */
    method ActOnResult(record: Record, attempt: Attempt, collected: P.CollectOutcome) returns (reply: R.Reply<Record>)
      requires Valid() && At() == P.AfterCollecting(record, attempt, collected)
      modifies `world, `events, `clock, repository
      ensures Valid() && At() == P.NextItem && Todo() == old(Todo())
      ensures forall pid :: old(Level(pid)) <= Level(pid)
      ensures Tells(reply, record) && Current(world.store, reply)
      ensures alone ==> world.remote == old(world.remote)
      ensures reliable && alone ==> Others(record.processingId) == old(Others(record.processingId))
      ensures reliable && old(Level(record.processingId)) >= 3 ==> Level(record.processingId) >= 4
      ensures reliable && alone && old(Is(record.processingId, Submitted)) ==>
                if Usable(record, collected) then
                  && Ends(record.processingId, Completed, None)
                  && world.store.records[record.processingId].completedResult == Some(ResultFor(record, collected.result))
                else Ends(record.processingId, RecoveryRequired, Some("backend_protocol_error"))
    {
      hide PersistentAlertProcessor.Valid, P.Step, PersistentAlertProcessor.Todo, Elsewhere, PersistentAlertProcessor.Level, LevelIn;
      hide ResultValid;
      if collected.CollectRaised? || record.selectedBackend != Some(collected.result.backend)
         || record.Decision().None? || record.Incident().None?
         || !ResultValid(OrchestrationResult(record.Decision().value, record.Incident(), record.Request(), Some(collected.result)))
      {
        reply := RecoverSubmitted(record, attempt, P.ERR_COLLECT);
        return;
      }
      var result := OrchestrationResult(record.Decision().value, record.Incident(), record.Request(), Some(collected.result));
      var completed := CompleteProcessing(record, attempt, result);
      reply := AfterWrite(record, completed);
    }

    /** The work is done or, for the operations still open, was looked at. */
    ghost predicate Handled(pid: nat, polls: int)
      reads `world, `openPolls
    {
      Level(pid) >= 3 && (Level(pid) >= 4 || openPolls > polls)
    }

    method Submit(record: Record, attempt: Attempt, limit: Option<real>) returns (reply: R.Reply<Record>)
      requires Valid() && At() == P.Submit(record, attempt) && limit == deadline
      modifies `world, `events, `clock, `monotonic, `late, `timeouts, `openPolls, `touched, repository
      ensures Valid() && At() == P.NextItem && Todo() == old(Todo())
      ensures old(late) ==> late
      ensures old(touched) <= touched && old(openPolls) <= openPolls
      ensures forall pid :: old(Level(pid)) <= Level(pid)
      ensures Tells(reply, record) && (!late ==> Current(world.store, reply))
      ensures alone && record.state == Planned && record.selectedBackend.Some? && |B.Named(backends, record.selectedBackend.value)| != 1 ==>
                && world.remote == old(world.remote)
                && (reliable && old(Is(record.processingId, Planned)) ==> Ends(record.processingId, Failed, Some("backend_selection_error")))
      ensures reliable && alone && !late && record.state == Planned && record.selectedBackend.Some? && old(Is(record.processingId, Planned))
              && |B.Named(backends, record.selectedBackend.value)| == 1 ==>
                world.remote.calls == old(world.remote.calls) + [attempt.attemptId]
      ensures reliable && alone ==> Others(record.processingId) == old(Others(record.processingId))
      ensures reliable && !late && record.state == Planned && old(Level(record.processingId)) >= 1 ==> Level(record.processingId) >= 2
      ensures reliable && alone && !late && record.state == Planned && old(Is(record.processingId, Planned)) ==> Handled(record.processingId, old(openPolls))
    {
      hide PersistentAlertProcessor.Valid, P.Step, PersistentAlertProcessor.Todo, Elsewhere, LevelIn, StateIs;
      PlanAt(record, attempt);
      if record.Request().None? || record.selectedBackend.None? {
        Decide(true, false);
        return R.Raised;
      }
      var configured := BackendForName(record.selectedBackend.value);
      if !configured {
        Decide(false, false);
        var failed := FailPlanned(record, attempt);
        SettledLevel(world.store, record.processingId);
        reply := AfterWrite(record, failed);
        return;
      }
      reply := ClaimAndSubmit(record, attempt, limit);
    }

    /** `_submit` from the first look at the budget. */
    method ClaimAndSubmit(record: Record, attempt: Attempt, limit: Option<real>) returns (reply: R.Reply<Record>)
      requires Valid() && At() == P.Submit(record, attempt) && limit == deadline
      requires record.Request().Some? && record.selectedBackend.Some?
      modifies `world, `events, `clock, `monotonic, `late, `timeouts, `openPolls, `touched, repository
      ensures Valid() && At() == P.NextItem && Todo() == old(Todo())
      ensures old(late) ==> late
      ensures old(touched) <= touched && old(openPolls) <= openPolls
      ensures forall pid :: old(Level(pid)) <= Level(pid)
      ensures Tells(reply, record) && (!late ==> Current(world.store, reply))
      ensures reliable && alone && !late && old(Is(record.processingId, Planned)) ==>
                world.remote.calls == old(world.remote.calls) + [attempt.attemptId]
      ensures reliable && alone ==> Others(record.processingId) == old(Others(record.processingId))
      ensures reliable && !late && old(Level(record.processingId)) >= 1 ==> Level(record.processingId) >= 2
      ensures reliable && alone && !late && old(Is(record.processingId, Planned)) ==> Handled(record.processingId, old(openPolls))
    {
      hide PersistentAlertProcessor.Valid, P.Step, PersistentAlertProcessor.Todo, Elsewhere, P.BeforePoll, LevelIn, StateIs, EndsIn;
      var timeout := Remaining(limit);
      Decide(true, Expired(timeout));
      if Expired(timeout) {
        return R.Returned(record);
      }
      var claim := ClaimAttempt(record, attempt);
      if claim.Raised? {
        return R.Raised;
      }
      if claim.value.None? {
        reply := Reread(record);
        return;
      }
      reply := SubmitClaimed(record, claim.value.value, limit);
    }

    /** `_submit` once the claim is durable. */
    method SubmitClaimed(record: Record, claimed: Attempt, limit: Option<real>) returns (reply: R.Reply<Record>)
      requires Valid() && At() == P.Claimed(record, claimed) && limit == deadline
      modifies `world, `events, `clock, `monotonic, `late, `timeouts, `openPolls, `touched, repository
      ensures Valid() && At() == P.NextItem && Todo() == old(Todo())
      ensures old(late) ==> late
      ensures old(touched) <= touched && old(openPolls) <= openPolls
      ensures forall pid :: old(Level(pid)) <= Level(pid)
      ensures Tells(reply, record) && (!late ==> Current(world.store, reply))
      ensures alone && !late ==> world.remote.calls == old(world.remote.calls) + [claimed.attemptId]
      ensures reliable && alone && old(Is(record.processingId, Submitting)) ==>
                || world.remote.calls == old(world.remote.calls) + [claimed.attemptId]
                || (world.remote == old(world.remote) && Ends(record.processingId, RecoveryRequired, Some("recovery_required")))
      ensures reliable && alone ==> Others(record.processingId) == old(Others(record.processingId))
      ensures reliable && alone && !late && old(Is(record.processingId, Submitting)) ==> Handled(record.processingId, old(openPolls))
    {
      hide PersistentAlertProcessor.Valid, P.Step, PersistentAlertProcessor.Todo, Elsewhere, P.AfterSubmit, P.BeforePoll, LevelIn, StateIs, P.AfterCall;
      var timeout := Remaining(limit);
      Decide(true, Expired(timeout));
      if Expired(timeout) {
        var recovery := MarkRecoveryRequired(record, claimed.attemptId, ASubmitting, P.ERR_DEADLINE, true);
        reply := AfterWrite(record, recovery);
        return;
      }
      var submitted := BackendSubmit(record, claimed, timeout);
      reply := ActOnSubmission(record, claimed, submitted, limit);
    }

    /** `_submit` once the backend has answered or raised. */
    method ActOnSubmission(record: Record, claimed: Attempt, submitted: P.SubmitOutcome, limit: Option<real>) returns (reply: R.Reply<Record>)
      requires Valid() && At() == P.AfterCall(record, claimed, submitted) && limit == deadline
      modifies `world, `events, `clock, `monotonic, `late, `timeouts, `openPolls, `touched, repository
      ensures Valid() && At() == P.NextItem && Todo() == old(Todo())
      ensures old(late) ==> late
      ensures old(touched) <= touched && old(openPolls) <= openPolls
      ensures forall pid :: old(Level(pid)) <= Level(pid)
      ensures Tells(reply, record) && (!late ==> Current(world.store, reply))
      ensures alone ==> world.remote.calls == old(world.remote.calls)
      ensures reliable && alone && old(Is(record.processingId, Submitting)) ==>
                match submitted
                case CreatedOperation(_) => Level(record.processingId) >= 3
                case RejectedSubmission => Ends(record.processingId, Failed, Some("backend_submission_failed"))
                case UnknownSubmission => Ends(record.processingId, RecoveryRequired, Some("backend_submission_unknown"))
      ensures reliable && alone ==> Others(record.processingId) == old(Others(record.processingId))
      ensures reliable && alone && !late && old(Is(record.processingId, Submitting)) ==> Handled(record.processingId, old(openPolls))
    {
      hide PersistentAlertProcessor.Valid, P.Step, PersistentAlertProcessor.Todo, Elsewhere;
      match submitted
      case RejectedSubmission =>
        var failed := FailRejected(record, claimed);
        reply := AfterWrite(record, failed);
      case UnknownSubmission =>
        var recovery := MarkRecoveryRequired(record, claimed.attemptId, ASubmitting, P.ERR_UNKNOWN, true);
        reply := AfterWrite(record, recovery);
      case CreatedOperation(externalId) =>
        reply := RecordIdentity(record, claimed, externalId, limit);
    }

    /** The operation exists: store its identifier, or give the record up for recovery. */
    method RecordIdentity(record: Record, claimed: Attempt, externalId: string, limit: Option<real>) returns (reply: R.Reply<Record>)
      requires Valid() && At() == P.Mark(record, claimed, externalId) && limit == deadline
      modifies `world, `events, `clock, `monotonic, `late, `timeouts, `openPolls, `touched, repository
      ensures Valid() && At() == P.NextItem && Todo() == old(Todo())
      ensures old(late) ==> late
      ensures old(touched) <= touched && old(openPolls) <= openPolls
      ensures forall pid :: old(Level(pid)) <= Level(pid)
      ensures Tells(reply, record) && (!late ==> Current(world.store, reply))
      ensures alone ==> world.remote.calls == old(world.remote.calls)
      ensures reliable && alone && old(Is(record.processingId, Submitting)) ==> Level(record.processingId) >= 3
      ensures reliable && alone ==> Others(record.processingId) == old(Others(record.processingId))
      ensures reliable && alone && !late && old(Is(record.processingId, Submitting)) ==> Handled(record.processingId, old(openPolls))
    {
      hide PersistentAlertProcessor.Valid, P.Step, PersistentAlertProcessor.Todo, Elsewhere, EndsIn, Marked;
      var marked := MarkSubmitted(record, claimed, externalId);
      if marked.Raised? {
        var recovery := MarkRecoveryRequired(record, claimed.attemptId, ASubmitting, P.ERR_IDENTITY, false);
        return R.Raised;
      }
      if marked.value.None? {
        reply := Reread(record);
        return;
      }
      var current := RereadForPoll(record, marked.value.value);
      if current.Raised? {
        return R.Raised;
      }
      reply := PollSubmitted(current.value, marked.value.value, limit);
    }

    method AdvanceAccepted(record: Record, limit: Option<real>) returns (reply: R.Reply<Record>)
      requires Valid() && At() == P.Advance(record) && limit == deadline
      modifies `world, `events, `clock, `monotonic, `late, `timeouts, `openPolls, `touched, repository
      ensures Valid() && At() == P.NextItem && Todo() == old(Todo())
      ensures old(late) ==> late
      ensures old(touched) <= touched && old(openPolls) <= openPolls
      ensures forall pid :: old(Level(pid)) <= Level(pid)
      ensures Tells(reply, record) && (!late ==> Current(world.store, reply))
      ensures reliable && alone ==> Others(record.processingId) == old(Others(record.processingId))
      ensures reliable && old(Level(record.processingId)) >= 0 ==> Level(record.processingId) >= 1
      ensures reliable && alone && !late && old(Is(record.processingId, Accepted)) ==> Handled(record.processingId, old(openPolls))
    {
      hide PersistentAlertProcessor.Valid, P.Step, PersistentAlertProcessor.Todo, Elsewhere, EndsIn, P.AfterPlan;
      hide NonBlank, LevelIn, StateIs;
      var plan := MakePlan(record);
      reply := ActOnPlan(record, plan, limit);
    }

    /** What planning leads to: a failure of the record, its completion, or a stored plan that
        is submitted. */
    method ActOnPlan(record: Record, plan: P.PlanOutcome, limit: Option<real>) returns (reply: R.Reply<Record>)
      requires Valid() && At() == P.AfterPlan(record, plan) && limit == deadline
      requires reliable && plan.InvestigatePlan? ==> NonBlank(plan.plan.backend)
      modifies `world, `events, `clock, `monotonic, `late, `timeouts, `openPolls, `touched, repository
      ensures Valid() && At() == P.NextItem && Todo() == old(Todo())
      ensures old(late) ==> late
      ensures old(touched) <= touched && old(openPolls) <= openPolls
      ensures forall pid :: old(Level(pid)) <= Level(pid)
      ensures Tells(reply, record) && (!late ==> Current(world.store, reply))
      ensures reliable && alone ==> Others(record.processingId) == old(Others(record.processingId))
      ensures reliable && old(Level(record.processingId)) >= 0 ==> Level(record.processingId) >= 1
      ensures reliable && alone && !late && old(Is(record.processingId, Accepted)) ==> Handled(record.processingId, old(openPolls))
      ensures alone && !plan.InvestigatePlan? ==> world.remote == old(world.remote)
      ensures reliable && alone && old(Is(record.processingId, Accepted)) ==>
                match plan
                case Unsupported => reply.Raised? && Ends(record.processingId, Failed, Some("unsupported_capability"))
                case Ambiguous => reply.Raised? && Ends(record.processingId, Failed, Some("backend_selection_error"))
                case PlanningRaised => reply.Raised? && Ends(record.processingId, Failed, Some("backend_selection_error"))
                case NoActionPlan(decision) =>
                  && reply.Returned? && Ends(record.processingId, Completed, None)
                  && world.store.records[record.processingId].completedResult == Some(OrchestrationResult(decision, None, None, None))
                case InvestigatePlan(made) =>
                  if |B.Named(backends, made.backend)| != 1 then
                    world.remote == old(world.remote) && Ends(record.processingId, Failed, Some("backend_selection_error"))
                  else late || |world.remote.calls| == |old(world.remote.calls)| + 1
    {
      hide PersistentAlertProcessor.Valid, P.Step, PersistentAlertProcessor.Todo, Elsewhere;
      hide NonBlank, LevelIn, StateIs;
      match plan
      case Unsupported =>
        var failed := FailAccepted(record, P.ERR_UNSUPPORTED, false);
        SettledLevel(world.store, record.processingId);
        return R.Raised;
      case Ambiguous =>
        var failed := FailAccepted(record, P.ERR_AMBIGUOUS, false);
        SettledLevel(world.store, record.processingId);
        return R.Raised;
      case PlanningRaised =>
        var failed := FailAccepted(record, P.ERR_PLANNING, true);
        SettledLevel(world.store, record.processingId);
        if failed == R.Returned(None) {
          reply := Reread(record);
        } else {
          reply := R.Raised;
        }
      case NoActionPlan(decision) =>
        var completed := StoreNoActionResult(record, OrchestrationResult(decision, None, None, None));
        SettledLevel(world.store, record.processingId);
        reply := AfterWrite(record, completed);
      case InvestigatePlan(investigation) =>
        reply := PlanAndSubmit(record, investigation, limit);
    }

    /** The investigate branch of `_advance_accepted`. */
    method PlanAndSubmit(record: Record, plan: R.Plan, limit: Option<real>) returns (reply: R.Reply<Record>)
      requires Valid() && At() == P.StorePlanned(record, plan) && limit == deadline && (reliable ==> NonBlank(plan.backend))
      modifies `world, `events, `clock, `monotonic, `late, `timeouts, `openPolls, `touched, repository
      ensures Valid() && At() == P.NextItem && Todo() == old(Todo())
      ensures old(late) ==> late
      ensures old(touched) <= touched && old(openPolls) <= openPolls
      ensures forall pid :: old(Level(pid)) <= Level(pid)
      ensures Tells(reply, record) && (!late ==> Current(world.store, reply))
      ensures reliable && alone && old(Is(record.processingId, Accepted)) ==>
                if |B.Named(backends, plan.backend)| != 1 then
                  world.remote == old(world.remote) && Ends(record.processingId, Failed, Some("backend_selection_error"))
                else late || |world.remote.calls| == |old(world.remote.calls)| + 1
      ensures reliable && alone ==> Others(record.processingId) == old(Others(record.processingId))
      ensures reliable && old(Level(record.processingId)) >= 0 ==> Level(record.processingId) >= 1
      ensures reliable && alone && !late && old(Is(record.processingId, Accepted)) ==> Handled(record.processingId, old(openPolls))
    {
      hide PersistentAlertProcessor.Valid, P.Step, PersistentAlertProcessor.Todo, Elsewhere, EndsIn;
      hide NonBlank;
      var planned := StorePlan(record, plan);
      if planned.Raised? {
        return R.Raised;
      }
      if planned.value.None? {
        reply := Reread(record);
        return;
      }
      reply := Submit(planned.value.value.record, planned.value.value.attempt, limit);
    }

    lemma PlanAt(record: Record, attempt: Attempt)
      requires Valid() && At() == P.Submit(record, attempt)
      ensures record.state == Planned ==> record.Request().Some? && record.selectedBackend.Some?
    {
      hide P.CanRun, P.Run, R.Lockstep, RemoteOk, TokensDistinct, Since, Stamped, TimeoutsOk, R.RecordEvolves, AttemptSnap;
      assert PcOk(world.store, world.remote, world.workers[me].pc);
      if record.state == Planned {
        PlanPresent(world, record);
      }
    }

    lemma StateLevel(pid: nat, st: ProcessingState)
      ensures Is(pid, st) ==> Level(pid) == R.Rank(st)
    {
    }

    lemma PlanFetched(record: Record)
      requires Valid() && At() == P.AfterContext(record)
      ensures record.state == Planned || record.state == Submitted ==> record.Request().Some? && record.selectedBackend.Some?
    {
      hide P.CanRun, P.Run, R.Lockstep, RemoteOk, TokensDistinct, Since, Stamped, TimeoutsOk, R.RecordEvolves, AttemptSnap;
      if record.state == Planned || record.state == Submitted {
        assert PcOk(world.store, world.remote, world.workers[me].pc);
        SnapPlan(world.store, record);
      }
    }

    // ----- `reconcile_once`

    /** The body of the loop: one record of the work list. */
    method Examine(record: Record, limit: Option<real>) returns (after: R.Reply<Record>)
      requires Valid() && At() == P.AfterContext(record) && limit == deadline
      modifies `world, `events, `clock, `monotonic, `late, `timeouts, `openPolls, `touched, repository
      ensures Valid() && At() == P.NextItem && Todo() == old(Todo())
      ensures old(late) ==> late
      ensures old(touched) <= touched && old(openPolls) <= openPolls
      ensures forall pid :: old(Level(pid)) <= Level(pid)
      ensures reliable && alone && !late && record.state in {Planned, Submitted} && old(Is(record.processingId, record.state)) ==>
                record.selectedBackend.Some? &&
                if |B.Named(backends, record.selectedBackend.value)| != 1 then
                  && world.remote == old(world.remote)
                  && (record.state == Planned ==> Ends(record.processingId, Failed, Some("backend_selection_error")))
                  && (record.state == Submitted ==> Ends(record.processingId, RecoveryRequired, Some("recovery_required")))
                else
                  && (record.state == Planned ==> |world.remote.calls| == |old(world.remote.calls)| + 1)
                  && (record.state == Submitted ==> world.remote.calls == old(world.remote.calls) && |world.remote.lookups| > |old(world.remote.lookups)|)
      ensures reliable && alone && record.state == Submitting && old(Is(record.processingId, Submitting)) ==>
                world.remote == old(world.remote) && Ends(record.processingId, RecoveryRequired, Some("backend_submission_unknown"))
      ensures reliable && alone ==> Others(record.processingId) == old(Others(record.processingId))
      ensures reliable && !late && !Settled(record.state) && old(Level(record.processingId)) >= R.Rank(record.state) ==>
                Level(record.processingId) > R.Rank(record.state) || record.processingId in touched
      ensures reliable && alone && !late && !Settled(record.state) && old(Is(record.processingId, record.state)) ==>
                Handled(record.processingId, old(openPolls))
    {
      hide PersistentAlertProcessor.Valid, P.Step, PersistentAlertProcessor.Todo, Elsewhere, EndsIn;
      PlanFetched(record);
      match record.state
      case Accepted =>
        after := AdvanceAccepted(record, limit);
      case Planned =>
        after := ExaminePlanned(record, limit);
      case Submitting =>
        after := ExamineStale(record);
      case Submitted =>
        after := ExamineSubmitted(record, limit);
      case _ =>
        after := R.Returned(record);
    }

    method ExaminePlanned(record: Record, limit: Option<real>) returns (after: R.Reply<Record>)
      requires Valid() && At() == P.Fetch(record) && record.state == Planned && limit == deadline && record.selectedBackend.Some?
      modifies `world, `events, `clock, `monotonic, `late, `timeouts, `openPolls, `touched, repository
      ensures Valid() && At() == P.NextItem && Todo() == old(Todo())
      ensures old(late) ==> late
      ensures old(touched) <= touched && old(openPolls) <= openPolls
      ensures forall pid :: old(Level(pid)) <= Level(pid)
      ensures reliable && alone && old(Is(record.processingId, Planned)) && |B.Named(backends, record.selectedBackend.value)| != 1 ==>
                world.remote == old(world.remote) && Ends(record.processingId, Failed, Some("backend_selection_error"))
      ensures reliable && alone && !late && old(Is(record.processingId, Planned)) && |B.Named(backends, record.selectedBackend.value)| == 1 ==>
                |world.remote.calls| == |old(world.remote.calls)| + 1
      ensures reliable && alone ==> Others(record.processingId) == old(Others(record.processingId))
      ensures reliable && !late && old(Level(record.processingId)) >= 1 ==> Level(record.processingId) >= 2
      ensures reliable && alone && !late && old(Is(record.processingId, Planned)) ==> Handled(record.processingId, old(openPolls))
    {
      hide PersistentAlertProcessor.Valid, P.Step, PersistentAlertProcessor.Todo, Elsewhere, EndsIn, LevelIn, StateIs;
      StateLevel(record.processingId, Planned);
      var attempt := GetAttempt(record);
      if attempt.Raised? {
        return R.Raised;
      }
      if attempt.value.None? {
        return R.Returned(record);
      }
      after := Submit(record, attempt.value.value, limit);
    }

    /** A submission left open for too long is given up; nothing is submitted again. */
    method ExamineStale(record: Record) returns (after: R.Reply<Record>)
      requires Valid() && At() == P.Fetch(record) && record.state == Submitting
      modifies `world, `events, `clock, repository
      ensures Valid() && At() == P.NextItem && Todo() == old(Todo())
      ensures forall pid :: old(Level(pid)) <= Level(pid)
      ensures alone ==> world.remote == old(world.remote)
      ensures reliable && alone && old(Is(record.processingId, Submitting)) ==>
                Ends(record.processingId, RecoveryRequired, Some("backend_submission_unknown"))
      ensures reliable && alone ==> Others(record.processingId) == old(Others(record.processingId))
      ensures reliable && old(Level(record.processingId)) >= 2 ==> Level(record.processingId) >= 3
      ensures reliable && alone && old(Is(record.processingId, Submitting)) ==> Level(record.processingId) == 4
    {
      hide PersistentAlertProcessor.Valid, P.Step, PersistentAlertProcessor.Todo, Elsewhere;
      var attempt := GetAttempt(record);
      if attempt.Raised? {
        return R.Raised;
      }
      if attempt.value.None? {
        return R.Returned(record);
      }
      var recovery := MarkRecoveryRequired(record, attempt.value.value.attemptId, ASubmitting, P.ERR_STALE, true);
      after := AfterWrite(record, recovery);
    }

    method ExamineSubmitted(record: Record, limit: Option<real>) returns (after: R.Reply<Record>)
      requires Valid() && At() == P.Fetch(record) && record.state == Submitted && limit == deadline && record.Request().Some? && record.selectedBackend.Some?
      modifies `world, `events, `clock, `monotonic, `late, `timeouts, `openPolls, `touched, repository
      ensures Valid() && At() == P.NextItem && Todo() == old(Todo())
      ensures old(late) ==> late
      ensures old(touched) <= touched && old(openPolls) <= openPolls
      ensures forall pid :: old(Level(pid)) <= Level(pid)
      ensures reliable && alone && old(Is(record.processingId, Submitted)) && |B.Named(backends, record.selectedBackend.value)| != 1 ==>
                world.remote == old(world.remote) && Ends(record.processingId, RecoveryRequired, Some("recovery_required"))
      ensures reliable && alone && !late && old(Is(record.processingId, Submitted)) && |B.Named(backends, record.selectedBackend.value)| == 1 ==>
                world.remote.calls == old(world.remote.calls) && |world.remote.lookups| > |old(world.remote.lookups)|
      ensures reliable && alone ==> Others(record.processingId) == old(Others(record.processingId))
      ensures reliable && !late && old(Level(record.processingId)) >= 3 ==>
                Level(record.processingId) >= 4 || (record.processingId in touched && openPolls > old(openPolls))
    {
      hide PersistentAlertProcessor.Valid, P.Step, PersistentAlertProcessor.Todo, Elsewhere, EndsIn, StateIs, LevelIn;
      StateLevel(record.processingId, Submitted);
      var attempt := GetAttempt(record);
      if attempt.Raised? {
        return R.Raised;
      }
      if attempt.value.None? {
        return R.Returned(record);
      }
      after := PollSubmitted(record, attempt.value.value, limit);
    }

    /** `find_reconcilable`, which opens a pass due at `due`. */
    method FindReconcilable(limit: int, staleBefore: int, ghost due: real, ghost seconds: real) returns (reply: R.Reply<seq<Record>>)
      requires Valid() && At().Idle? && due - monotonic <= seconds
      modifies `world, `events, `clock, `since, `deadline, `granted, `timeouts, `late, `touched, repository
      ensures Valid() && deadline == Some(due) && granted == seconds && timeouts == [] && !late
      ensures if reply.Raised? then At().Idle? else At() == P.NextItem && Todo() == reply.value
      ensures reply.Returned? ==> limit >= 1 && R.IsWorkList(world.store, limit, staleBefore, reply.value) && since == world
      ensures reliable && limit >= 1 ==> reply.Returned?
      ensures alone ==> world.store == old(world.store)
    {
      hide Inv, RunOk, Since, Stamped, Friendly, R.IsWorkList, BudgetOk, TimeoutsOk;
      var o := Answer();
      ghost var w := world;
      RunInv(origin, events, w);
      StoreIds(w);
      reply := repository.FindReconcilable(limit, staleBefore);
      if o.ack != P.Acknowledged && reply.Returned? {
        reply := R.Raised;
      }
      FriendlyAck(w, o);
      OpenCall(Some(due), seconds);
      if reply.Returned? {
        OpenPass(limit, staleBefore, reply.value);
      }
    }

    /** The ghost bookkeeping of one call starts afresh. */
    ghost method OpenCall(due: Option<real>, seconds: real)
      requires Valid() && At().Idle? && (due.Some? ==> due.value - monotonic <= seconds)
      modifies `since, `deadline, `granted, `timeouts, `late, `touched
      ensures Valid() && deadline == due && granted == seconds && timeouts == [] && !late && since == world && touched == {}
    {
      hide RunOk, Since, Stamped, Inv;
      RunInv(origin, events, world);
      assert Stamped(world, world.store, {}) by { NothingStamped(world); }
      SinceSelf(world, reliable);
      deadline, granted, timeouts, late, touched, since := due, seconds, [], false, {}, world;
    }

    ghost method OpenPass(limit: int, staleBefore: int, found: seq<Record>)
      requires Valid() && At().Idle? && deadline.Some? && since == world && touched == {}
      requires limit >= 1 && R.IsWorkList(world.store, limit, staleBefore, found)
      modifies `events, `world, `since
      ensures Valid() && At() == P.NextItem && Todo() == found && since == world && world.store == old(world.store)
    {
      hide RunOk, Since, Stamped, Inv, R.IsWorkList;
      ghost var e := P.BeginPass(me, limit, staleBefore, found);
      RunOkEvent(origin, events, world, e) by { PassEnabled(world, me, limit, staleBefore, found); }
      events := events + [e];
      world := P.Apply(world, e);
      RunInv(origin, events, world);
      since := world;
      SinceSelf(world, reliable);
      NothingStamped(world);
    }

    /** The loop's turn: the next record, or the end of the pass. */
    method Next(expired: bool)
      requires Valid() && At() == P.NextItem && (expired ==> deadline.Some?)
      modifies `world, `events, `clock, repository
      ensures Valid()
      ensures if old(Todo()) == [] || expired then At() == P.Idle else At() == P.Context(old(Todo())[0]) && Todo() == old(Todo())[1..]
      ensures forall pid :: old(Level(pid)) <= Level(pid)
      ensures alone ==> world.store == old(world.store)
    {
      hide Inv, RunOk, Since, Stamped, TimeoutsOk, P.Step, LevelIn;
      var o := Answer();
      ghost var w := world;
      o := o.(expired := expired);
      StillMoving(w, me, o);
      NextCall(w, me, o);
      Took(o);
    }

    /** One turn of the loop. */
    method Turn(record: Record, due: real) returns (over: bool, after: R.Reply<Record>)
      requires Valid() && At() == P.NextItem && deadline == Some(due)
      requires Todo() != [] && Todo()[0] == record && !Settled(record.state)
      requires record.processingId in since.store.records && since.store.records[record.processingId] == record
      modifies `world, `events, `clock, `monotonic, `late, `timeouts, `openPolls, `touched, repository
      ensures Valid()
      ensures if over then At().Idle? else At() == P.NextItem && Todo() == old(Todo())[1..]
      ensures reliable ==> !over
      ensures old(late) ==> late
      ensures old(touched) <= touched && old(openPolls) <= openPolls
      ensures forall pid :: old(Level(pid)) <= Level(pid)
      ensures reliable && alone ==> Others(record.processingId) == old(Others(record.processingId))
      ensures reliable && !late ==> record.processingId in touched
      ensures reliable && alone && !late && old(Is(record.processingId, record.state)) ==> Handled(record.processingId, old(openPolls))
    {
      hide PersistentAlertProcessor.Valid, P.Step, Elsewhere, P.AfterContext;
      after := R.Raised;
      Next(false);
      var context := GetAttemptForContext(record);
      over := context.Raised?;
      if over {
        return;
      }
      SinceLevel(record.processingId);
      after := Examine(record, Some(due));
      if reliable && !late && record.processingId !in touched {
        Touch(record);
      }
    }

    lemma SinceLevel(pid: nat)
      requires Valid()
      ensures LevelIn(since.store, pid) <= Level(pid)
    {
      hide RunOk, Stamped, TimeoutsOk, BudgetOk, R.Evolves, Inv;
      LevelsKept(since.store, world.store);
    }

    ghost method Touch(record: Record)
      requires Valid() && reliable && record.processingId in since.store.records && since.store.records[record.processingId] == record
      requires Level(record.processingId) > R.Rank(record.state)
      modifies `touched
      ensures Valid() && touched == old(touched) + {record.processingId}
    {
      hide RunOk, Since, TimeoutsOk, BudgetOk, Inv;
      FurtherStamped(since, world, record.processingId);
      touched := touched + {record.processingId};
    }

    /** A pass in the terms of `Fairness`. */
    lemma Summary(limit: nat, staleBefore: int, found: seq<Record>, polls: nat)
      requires Valid() && R.IsWorkList(since.store, limit, staleBefore, found) && limit >= 1 && polls <= openPolls
      ensures reliable && (forall k :: 0 <= k < |found| ==> found[k].processingId in touched) ==>
                FullPass(Pass(since, world, limit, staleBefore, found))
      ensures |EligibleSet(since.store, staleBefore)| <= limit && (forall k :: 0 <= k < |found| ==> Handled(found[k].processingId, polls)) ==>
                SolitaryPass(Solitary(since.store, world.store, polls, openPolls, limit, staleBefore, found))
    {
      hide RunOk, R.IsWorkList, EligibleSet, TimeoutsOk, BudgetOk, R.Evolves, R.Lockstep, Inv;
      SinceEvolves(since, world, reliable);
      InvLockstep(since);
      assert Inv(world) by { RunInv(origin, events, world); }
      InvLockstep(world);
    }

    /** The first `n` records of the list are dealt with. */
    ghost predicate Examined(items: seq<Record>, n: nat, polls: int)
      requires n <= |items|
      reads this
    {
      && (reliable && !late ==> forall k :: 0 <= k < n ==> items[k].processingId in touched)
      && (reliable && alone && !late ==> forall k :: 0 <= k < n ==> Handled(items[k].processingId, polls))
    }

    /** The loop. */
    method ExamineAll(items: seq<Record>, due: real) returns (over: bool, report: ReconciliationReport, ghost turns: seq<R.Reply<Record>>)
      requires Valid() && At() == P.NextItem && deadline == Some(due) && Todo() == items && Untouched(world.store, items, 0)
      requires Open(since.store, items)
      modifies `world, `events, `clock, `monotonic, `late, `timeouts, `openPolls, `touched, repository
      ensures Valid() && old(openPolls) <= openPolls
      ensures if over then At().Idle? else At() == P.NextItem && (Todo() == [] || report.timeLimitReached)
      ensures reliable ==> !over
      ensures !over ==> CountsOk(items, turns, report, late) && Examined(items, |turns|, old(openPolls))
    {
      hide PersistentAlertProcessor.Valid, P.Step, Elsewhere, PersistentAlertProcessor.Level;
      turns, over := [], false;
      var examined, advanced, failed, timeLimitReached := 0, 0, 0, false;
      while examined < |items| && !timeLimitReached
        invariant Valid() && At() == P.NextItem && old(openPolls) <= openPolls
        invariant 0 <= examined <= |items| && Todo() == items[examined..]
        invariant |turns| == examined && failed == Failures(turns) && advanced == Moves(items, turns)
        invariant timeLimitReached ==> late
        invariant Examined(items, examined, old(openPolls))
        invariant reliable && alone ==> Untouched(world.store, items, examined)
        decreases |items| - examined, !timeLimitReached
      {
        var left := Remaining(Some(due));
        if Expired(left) {
          timeLimitReached := true;
        } else {
          var record := items[examined];
          ghost var before := world.store;
          var after;
          over, after := Turn(record, due);
          report := ReconciliationReport(examined, advanced, failed, timeLimitReached);
          if over {
            return;
          }
          OneMoreTurn(items, turns, after);
          turns := turns + [after];
          if reliable && alone {
            UntouchedNext(before, world.store, items, examined);
          }
          examined := examined + 1;
          if after.Raised? {
            failed := failed + 1;
          } else if after.value.state != record.state {
            advanced := advanced + 1;
          }
          left := Remaining(Some(due));
          timeLimitReached := Expired(left);
        }
      }
      CountsFit(items, turns);
      report := ReconciliationReport(examined, advanced, failed, timeLimitReached);
    }

    method ReconcileOnce(limit: int, maxSeconds: real, staleAfter: int, wallClock: int)
      returns (reply: R.Reply<ReconciliationReport>, ghost found: seq<Record>, ghost turns: seq<R.Reply<Record>>)
      requires Valid() && At().Idle?
      modifies `world, `events, `clock, `monotonic, `late, `timeouts, `openPolls, `touched, `since, `deadline, `granted, repository
      ensures Valid() && At().Idle?
      ensures limit < 1 || maxSeconds <= 0.0 ==> reply.Raised?
      ensures reliable && limit >= 1 && maxSeconds > 0.0 ==> reply.Returned?
      ensures reply.Returned? ==>
                && limit >= 1 && R.IsWorkList(since.store, limit, wallClock - staleAfter, found) && |found| <= limit
                && CountsOk(found, turns, reply.value, late) && granted == maxSeconds
                && (reliable && !late ==> FullPass(Pass(since, world, limit, wallClock - staleAfter, found)))
                && (reliable && alone && !late && |EligibleSet(since.store, wallClock - staleAfter)| <= limit ==>
                      SolitaryPass(Solitary(since.store, world.store, old(openPolls), openPolls, limit, wallClock - staleAfter, found)))
    {
      hide PersistentAlertProcessor.Valid, P.Step, Elsewhere, R.IsWorkList, PersistentAlertProcessor.Level, FullPass, SolitaryPass, EligibleSet;
      found, turns := [], [];
      if limit < 1 || maxSeconds <= 0.0 {
        return R.Raised, found, turns;
      }
      var due := monotonic + maxSeconds;
      ghost var polls := openPolls;
      var records := FindReconcilable(limit, wallClock - staleAfter, due, maxSeconds);
      if records.Raised? {
        return R.Raised, found, turns;
      }
      var items := records.value;
      found := items;
      FoundItems(since.store, limit, wallClock - staleAfter, items);
      var over, report;
      over, report, turns := ExamineAll(items, due);
      if over {
        return R.Raised, found, turns;
      }
      Next(report.timeLimitReached);
      Summary(limit, wallClock - staleAfter, items, polls);
      reply := R.Returned(report);
    }

    // ----- `process`

    method AcceptProcessing(pid: nat, alert: Alert, key: string, digest: seq<int>) returns (reply: R.Reply<R.Acceptance>)
      requires Valid() && At().Idle? && deadline.None? && AlertValid(alert) && |digest| == 32
      modifies `world, `events, `clock, repository
      ensures Valid() && At() == P.AfterAcceptance(reply, digest) && Todo() == []
      ensures reply.Returned? ==>
                var r := reply.value.record;
                && r.processingId in world.store.records && world.store.records[r.processingId] == r
                && r.identity.Some? && r.identity.value.scope == alert.source.source && r.identity.value.key == key
                && (reply.value.created ==> r == R.NewRecord(pid, alert, Identity(alert.source.source, key, 1, digest), r.createdAt))
      ensures reliable && alone && R.VisibleKey(key) && old((alert.source.source, key) !in world.store.idempotency && pid !in world.store.records) ==>
                reply.Returned? && reply.value.created
      ensures !R.VisibleKey(key) ==> reply.Raised?
      ensures reliable && alone && StoredUnder(old(world.store), (alert.source.source, key)).Some? ==>
                && reply == R.Returned(R.Acceptance(StoredUnder(old(world.store), (alert.source.source, key)).value, false))
                && world.store == old(world.store)
    {
      hide Inv, RunOk, Since, Stamped, TimeoutsOk, Friendly, AlertValid, R.VisibleKey, P.Begin, R.AcceptProcessing, P.AfterAcceptance;
      var o := Answer();
      ghost var w := world;
      RunInv(origin, events, w);
      BeginCall(w, me, pid, alert, key, digest, o);
      BeginReplay(w, me, pid, alert, key, digest, o);
      FriendlyAck(w, o);
      reply := R.Raised;
      if o.ack != P.NotCommitted {
        var r := repository.AcceptProcessing(pid, alert, Identity(alert.source.source, key, 1, digest), o.now);
        if o.ack == P.Acknowledged {
          reply := r;
        }
      }
      clock := o.now;
      ghost var e := P.BeginProcess(me, pid, alert, key, digest, o);
      RunOkEvent(origin, events, w, e) by { ProcessEnabled(w, me, pid, alert, key, digest, o); }
      events := events + [e];
      world := P.Begin(w, me, pid, alert, key, digest, o);
      BegunSince(w, me, pid, alert, key, digest, o, since, reliable, touched);
    }

    method Process(pid: nat, alert: Alert, key: string, digest: seq<int>) returns (outcome: Outcome)
      requires Valid() && At().Idle? && AlertValid(alert) && |digest| == 32
      modifies `world, `events, `clock, `monotonic, `late, `timeouts, `openPolls, `touched, `since, `deadline, `granted, repository
      ensures Valid() && At().Idle?
      ensures outcome.Conflict? ==>
                var i := outcome.existing.identity;
                i.Some? && i.value.scope == alert.source.source && i.value.key == key && i.value != Identity(i.value.scope, key, 1, digest)
      ensures outcome.Processed? ==> outcome.record.identity == Some(Identity(alert.source.source, key, 1, digest))
      ensures outcome.Processed? && !outcome.replayed ==> outcome.record.processingId == pid
      ensures alone && outcome.Processed? ==> R.Get(world.store, outcome.record.processingId) == Some(outcome.record)
      ensures !R.VisibleKey(key) ==> outcome == Unavailable
      ensures reliable && alone && StoredUnder(old(world.store), (alert.source.source, key)).Some? ==>
                var stored := StoredUnder(old(world.store), (alert.source.source, key)).value;
                && world.store == old(world.store)
                && outcome == if stored.identity == Some(Identity(alert.source.source, key, 1, digest)) then Processed(stored, true)
                              else Conflict(stored)
      ensures reliable && alone && R.VisibleKey(key) && old((alert.source.source, key) !in world.store.idempotency && pid !in world.store.records) ==>
                Handled(pid, old(openPolls)) && !(outcome.Processed? && outcome.replayed) && !outcome.Conflict?
    {
      hide PersistentAlertProcessor.Valid, P.Step, Elsewhere, PersistentAlertProcessor.Level, AlertValid, R.VisibleKey, StoredUnder;
      OpenCall(None, 0.0);
      ghost var polls := openPolls;
      var acceptance := AcceptProcessing(pid, alert, key, digest);
      outcome := Unavailable;
      if acceptance.Returned? {
        var record := acceptance.value.record;
        if record.identity.value.version != 1 || record.identity.value.fingerprint != digest {
          outcome := Conflict(record);
        } else if !acceptance.value.created {
          outcome := Processed(record, true);
        } else {
          var advanced := AdvanceAccepted(record, None);
          NeverLate();
          if advanced.Returned? {
            outcome := Processed(advanced.value, false);
          }
        }
      }
      Next(false);
    }

    lemma NeverLate()
      requires Valid() && deadline.None?
      ensures !late
    {
    }
  }

  datatype Outcome = Processed(record: Record, replayed: bool) | Conflict(existing: Record) | Unavailable

  /** The acceptance call, seen from the worker that makes it. */
  lemma BeginCall(w: P.World, i: nat, pid: nat, alert: Alert, key: string, digest: seq<int>, o: P.Oracle)
    requires Inv(w) && AlertValid(alert) && |digest| == 32
    ensures var identity := Identity(alert.source.source, key, 1, digest);
            var (s, r) := R.AcceptProcessing(w.store, pid, alert, identity, o.now);
            var reply := P.Seen(r, o);
            var x := P.Begin(w, i, pid, alert, key, digest, o);
            && x.store == (if o.ack == P.NotCommitted then w.store else s) && x.clock == o.now
            && P.WorkerAt(x, i) == P.Worker(P.AfterAcceptance(reply, digest), [], false)
            && (reply.Returned? ==>
                  var r := reply.value.record;
                  && r.processingId in x.store.records && x.store.records[r.processingId] == r
                  && r.identity.Some? && r.identity.value.scope == alert.source.source && r.identity.value.key == key
                  && (reply.value.created ==> r == R.NewRecord(pid, alert, identity, r.createdAt)))
            && (o.ack == P.Acknowledged && R.VisibleKey(key) && (alert.source.source, key) !in w.store.idempotency && pid !in w.store.records ==>
                  reply.Returned? && reply.value.created)
  {
    hide R.Lockstep, RemoteOk, WorkersOk, TokensDistinct, AlertValid, R.VisibleKey, R.Advances;
    AcceptKeeps(w.store, pid, alert, Identity(alert.source.source, key, 1, digest), o.now);
  }

  /** The record a scoped key is bound to. */
  function StoredUnder(s: R.Store, key: (string, string)): Option<Record> {
    if key in s.idempotency then R.Get(s, s.idempotency[key]) else None
  }

  /** An invalid key is refused; a key bound before gets its record back. */
  lemma BeginReplay(w: P.World, i: nat, pid: nat, alert: Alert, key: string, digest: seq<int>, o: P.Oracle)
    requires Inv(w)
    ensures var k := (alert.source.source, key);
            var reply := P.Seen(R.AcceptProcessing(w.store, pid, alert, Identity(alert.source.source, key, 1, digest), o.now).1, o);
            && (!R.VisibleKey(key) ==> reply.Raised?)
            && (o.ack == P.Acknowledged && StoredUnder(w.store, k).Some? ==>
                  && reply == R.Returned(R.Acceptance(StoredUnder(w.store, k).value, false))
                  && P.Begin(w, i, pid, alert, key, digest, o).store == w.store)
  {
    hide R.VisibleKey, RecordConstructs;
    BoundKey(w, (alert.source.source, key));
  }

  lemma BoundKey(w: P.World, key: (string, string))
    requires Inv(w)
    ensures key in w.store.idempotency ==> w.store.idempotency[key] in w.store.records && R.VisibleKey(key.1)
  {
    hide RemoteOk, WorkersOk, TokensDistinct, R.AttemptOk, R.AttemptIndexOk, R.OperationKeysOk, R.VisibleKey, R.Paired, R.Tidy, AlertValid, RecordConstructs;
    if key in w.store.idempotency {
      assert R.RecordOk(w.store, w.store.idempotency[key]);
    }
  }

  lemma ProcessEnabled(w: P.World, i: nat, pid: nat, alert: Alert, key: string, digest: seq<int>, o: P.Oracle)
    requires P.At(w, i).Idle? && AlertValid(alert) && |digest| == 32
    ensures P.Enabled(w, P.BeginProcess(i, pid, alert, key, digest, o))
    ensures P.Apply(w, P.BeginProcess(i, pid, alert, key, digest, o)) == P.Begin(w, i, pid, alert, key, digest, o)
  {
    hide AlertValid, P.Begin;
  }

  lemma BegunSince(w: P.World, i: nat, pid: nat, alert: Alert, key: string, digest: seq<int>, o: P.Oracle,
                   since: P.World, steady: bool, touched: set<nat>)
    requires Inv(w) && P.At(w, i).Idle? && AlertValid(alert) && |digest| == 32 && (steady ==> Friendly(w, o))
    requires Since(since, w, steady) && (steady ==> Stamped(since, w.store, touched))
    ensures var x := P.Begin(w, i, pid, alert, key, digest, o);
            Since(since, x, steady) && (steady ==> Stamped(since, x.store, touched))
  {
    hide Inv, Since, Stamped, AlertValid, P.Begin, R.Advances, P.Enabled;
    var x := P.Begin(w, i, pid, alert, key, digest, o);
    ProcessEnabled(w, i, pid, alert, key, digest, o);
    EventKeeps(w, P.BeginProcess(i, pid, alert, key, digest, o));
    BeginCall(w, i, pid, alert, key, digest, o);
    AdvancesSince(w, x, o.now, steady);
    SinceTransitive(since, w, x, steady);
    if steady {
      StampedKept(since, w, x, touched);
    }
  }

  /** What a work list is made of. */
  lemma FoundItems(s: R.Store, limit: nat, staleBefore: int, items: seq<Record>)
    requires R.IsWorkList(s, limit, staleBefore, items)
    ensures |items| <= limit
    ensures Open(s, items) && Untouched(s, items, 0)
  {
    forall j, k | 0 <= j < k < |items| ensures items[j].processingId != items[k].processingId {
      assert R.Before(items[j], items[k]);
    }
  }

  /** The records of the list are stored as they stand in it, and none is settled. */
  ghost predicate Open(s: R.Store, items: seq<Record>) {
    forall k :: 0 <= k < |items| ==>
      items[k].processingId in s.records && s.records[items[k].processingId] == items[k] && !Settled(items[k].state)
  }

  /** The records still to be examined are as they were found, and all different. */
  ghost predicate Untouched(s: R.Store, items: seq<Record>, from: nat) {
    && (forall j, k :: 0 <= j < k < |items| ==> items[j].processingId != items[k].processingId)
    && (forall k :: from <= k < |items| ==> items[k].processingId in s.records && s.records[items[k].processingId] == items[k])
  }

  lemma UntouchedNext(s: R.Store, t: R.Store, items: seq<Record>, k: nat)
    requires k < |items| && Untouched(s, items, k) && Elsewhere(s, items[k].processingId) == Elsewhere(t, items[k].processingId)
    ensures Untouched(t, items, k + 1)
  {
    forall j | k + 1 <= j < |items| ensures items[j].processingId in t.records && t.records[items[j].processingId] == items[j] {
      assert items[j].processingId in Elsewhere(s, items[k].processingId);
      assert items[j].processingId in Elsewhere(t, items[k].processingId);
    }
  }

  lemma InvLockstep(w: P.World)
    requires Inv(w)
    ensures R.Lockstep(w.store)
  {
    hide R.Lockstep, RemoteOk, WorkersOk, TokensDistinct;
  }

  lemma RunInv(origin: P.World, events: seq<P.Event>, w: P.World)
    requires RunOk(origin, events, w)
    ensures Inv(w)
  {
  }

  lemma RunOkEvent(origin: P.World, events: seq<P.Event>, w: P.World, e: P.Event)
    requires RunOk(origin, events, w) && P.Enabled(w, e)
    ensures RunOk(origin, events + [e], P.Apply(w, e))
  {
    hide Inv, P.CanRun, P.Run, P.Apply, P.Enabled;
    RunAppend(origin, events, e);
    EventKeeps(w, e);
  }

  lemma PassEnabled(w: P.World, me: nat, limit: int, staleBefore: int, found: seq<Record>)
    requires P.At(w, me).Idle? && limit >= 1 && R.IsWorkList(w.store, limit, staleBefore, found)
    ensures P.Enabled(w, P.BeginPass(me, limit, staleBefore, found))
  {
    hide R.IsWorkList;
  }

  lemma NothingStamped(w: P.World)
    ensures Stamped(w, w.store, {})
  {
  }

  lemma FriendlyAck(w: P.World, o: P.Oracle)
    ensures Friendly(w, o) ==> o.ack == P.Acknowledged
  {
  }

  lemma StillMoving(w: P.World, i: nat, o: P.Oracle)
    requires exists o0: P.Oracle :: Moving(w, i, o0) && o == o0.(configured := o.configured, expired := o.expired)
    ensures Moving(w, i, o)
  {
    hide Inv, R.ClockOk;
  }

  lemma BudgetKept(w: P.World, x: P.World, me: nat, deadline: Option<real>)
    requires BudgetOk(w, me, deadline) && !P.At(w, me).Idle? && SameTask(w, x, me)
    ensures BudgetOk(x, me, deadline)
  {
  }

  lemma SinceEvolves(w: P.World, x: P.World, steady: bool)
    requires Since(w, x, steady)
    ensures R.Evolves(w.store, x.store)
  {
  }

  lemma FriendlyClock(w: P.World, o: P.Oracle)
    requires Friendly(w, o)
    ensures w.clock <= o.now
  {
  }

  lemma StampedNow(since: P.World, w: P.World, x: P.World, pid: nat, now: int, touched: set<nat>)
    requires Since(since, w, true) && w.clock <= now && Stamped(since, x.store, touched)
    requires pid in x.store.records && x.store.records[pid].updatedAt == now
    ensures Stamped(since, x.store, touched + {pid})
  {
    hide R.Evolves;
  }
}
