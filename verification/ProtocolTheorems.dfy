/** What holds in every run of the protocol, for any number of workers, interleavings,
    crashes and lost acknowledgements. */
module ProtocolTheorems {
  import opened Domain
  import opened Lifecycle
  import opened Repository
  import opened RepositoryInvariant
  import opened Protocol
  import opened ProtocolInvariant
  import opened ProtocolSteps

  lemma InitialInv(clock: int)
    ensures Inv(InitialWorld(clock))
  {
  }

  /** The invariant holds after any run, and the store only evolves along it. */
  lemma {:induction false} RunKeeps(w: World, events: seq<Event>)
    requires Inv(w) && CanRun(w, events)
    ensures Inv(Run(w, events)) && Evolves(w.store, Run(w, events).store)
    decreases |events|
  {
    hide Inv, Evolves, Enabled, Apply;
    if events == [] {
      EvolvesReflexive(w.store, w.clock);
    } else {
      var w' := Apply(w, events[0]);
      EventKeeps(w, events[0]);
      AdvancesEvolves(w.store, w'.store, StampOf(w, events[0]));
      RunKeeps(w', events[1..]);
      EvolvesTransitive(w.store, w'.store, Run(w', events[1..]).store);
    }
  }

  lemma ReachableInv(clock: int, events: seq<Event>)
    requires CanRun(InitialWorld(clock), events)
    ensures Inv(Run(InitialWorld(clock), events))
  {
    hide Inv, Evolves, CanRun, Run;
    InitialInv(clock);
    RunKeeps(InitialWorld(clock), events);
  }

  // ----- The claim comes before the call

  /** The call is made by the one worker holding the claim: the claim is already durable, no
      call was made for the attempt before, and no other worker is about to make one. The
      record may meanwhile have been given up as recovery-required, never anything else. */
  lemma SubmitIsWriteAhead(clock: int, events: seq<Event>, i: nat, j: nat)
    requires CanRun(InitialWorld(clock), events)
    requires At(Run(InitialWorld(clock), events), i).Calling?
    ensures var w := Run(InitialWorld(clock), events);
            var aid := At(w, i).att.attemptId;
            && aid in w.store.attempts && w.store.attempts[aid].startedAt.Some?
            && w.store.attempts[aid].state in {ASubmitting, ARecoveryRequired}
            && aid !in w.remote.calls
            && (j != i && At(w, j).Calling? ==> At(w, j).att.attemptId != aid)
  {
    hide Lockstep, RemoteOk, RecordSnap, AttemptSnap, CanRun, Run;
    ReachableInv(clock, events);
    var w := Run(InitialWorld(clock), events);
    assert i in w.workers && PcOk(w.store, w.remote, w.workers[i].pc);
    assert Token(w.workers[i].pc).Some?;
  }

  // ----- Remote flows

  function FlowCount(flows: seq<Flow>, aid: nat): nat {
    if flows == [] then 0 else (if flows[|flows| - 1].attempt == aid then 1 else 0) + FlowCount(flows[..|flows| - 1], aid)
  }

  lemma {:induction false} FlowCountBounds(flows: seq<Flow>, aid: nat)
    requires forall i, j :: 0 <= i < j < |flows| ==> flows[i].attempt != flows[j].attempt
    ensures FlowCount(flows, aid) <= 1
    ensures FlowCount(flows, aid) == 1 <==> exists i :: 0 <= i < |flows| && flows[i].attempt == aid
    decreases |flows|
  {
    if flows != [] {
      FlowCountBounds(flows[..|flows| - 1], aid);
    }
  }

  /** Flows created on behalf of one processing. */
  function FlowsOf(w: World, pid: nat): nat {
    if pid in w.store.attemptOf then FlowCount(w.remote.flows, w.store.attemptOf[pid]) else 0
  }

  /** How many flows each state allows. */
  predicate FlowsAllowed(r: Record, n: nat) {
    match r.state
    case Accepted => n == 0
    case Planned => n == 0
    case Submitting => n <= 1
    case Submitted => n == 1
    case RecoveryRequired => n <= 1
    case Completed => r.completedResult.Some? && n == if r.completedResult.value.decision.outcome == NoAction then 0 else 1
    case Failed =>
      && r.error.Some?
      && r.error.value.category in {"unsupported_capability", "backend_selection_error",
                                    "backend_submission_failed", "backend_execution_failed"}
      && n == if r.error.value.category == "backend_execution_failed" then 1 else 0
  }

  lemma FlowsAccounted(w: World, pid: nat)
    requires Inv(w) && pid in w.store.records
    ensures FlowsAllowed(w.store.records[pid], FlowsOf(w, pid))
  {
    hide Lockstep, WorkersOk, TokensDistinct, LookupsOk;
    Pairing(w.store, pid);
    if pid in w.store.attemptOf {
      var aid := w.store.attemptOf[pid];
      AttemptIndexed(w.store, pid);
      FlowCountBounds(w.remote.flows, aid);
      AttemptFlows(w, aid);
    }
  }

  lemma AttemptIndexed(s: Store, pid: nat)
    requires Lockstep(s) && pid in s.attemptOf
    ensures s.attemptOf[pid] in s.attempts && s.attempts[s.attemptOf[pid]].attemptId == s.attemptOf[pid]
    ensures AttemptConstructs(s.attempts[s.attemptOf[pid]])
  {
    hide AttemptConstructs, RecordOk, AttemptTidy, KeyIndexOk, OperationKeysOk;
    assert AttemptOk(s, s.attemptOf[pid]);
  }

  /** What one attempt's state says about its flows. */
  lemma AttemptFlows(w: World, aid: nat)
    requires CallsOk(w.store, w.remote) && FlowsOk(w.remote) && AllAccounted(w.store, w.remote)
    requires aid in w.store.attempts && w.store.attempts[aid].attemptId == aid && AttemptConstructs(w.store.attempts[aid])
    ensures var a := w.store.attempts[aid];
            && (a.externalOperationId.Some? ==> exists i :: 0 <= i < |w.remote.flows| && w.remote.flows[i].attempt == aid)
            && (a.startedAt.None? || (a.state == AFailed && a.error == Some(ERR_REJECTED)) ==>
                  forall i :: 0 <= i < |w.remote.flows| ==> w.remote.flows[i].attempt != aid)
            && (a.state == AFailed ==>
                  && a.error.Some? && a.error.value in {ERR_UNCONFIGURED, ERR_REJECTED, ERR_EXECUTION}
                  && (a.error.value == ERR_UNCONFIGURED ==> a.startedAt.None?)
                  && (a.error.value == ERR_EXECUTION ==> a.externalOperationId.Some?))
  {
    hide AttemptConstructs;
    var a := w.store.attempts[aid];
    assert Accounted(w.remote, a);
    if a.externalOperationId.Some? {
      var f := Flow(aid, a.externalOperationId.value);
      assert f in w.remote.flows;
    }
  }

  /** Accounting over all runs: accepted, planned, no-action and rejected work has no flow,
      submitted, investigated and executed work has exactly one, and work whose submission is
      open or was given up has at most one. */
  lemma FlowAccounting(clock: int, events: seq<Event>, pid: nat)
    requires CanRun(InitialWorld(clock), events)
    requires pid in Run(InitialWorld(clock), events).store.records
    ensures var w := Run(InitialWorld(clock), events); FlowsAllowed(w.store.records[pid], FlowsOf(w, pid))
  {
    hide Inv, CanRun, Run;
    ReachableInv(clock, events);
    FlowsAccounted(Run(InitialWorld(clock), events), pid);
  }

  // ----- Writes that happen once

  /** Along any run from a good world: identities, plans, claims and external identifiers are
      written once, an existing key keeps its processing, and settled records are frozen -
      although the transition table would let a recovery-required record move on. */
  lemma WrittenOnce(w: World, events: seq<Event>, pid: nat, aid: nat, key: (string, string))
    requires Inv(w) && CanRun(w, events)
    ensures var t := Run(w, events).store;
            && (pid in w.store.records ==> pid in t.records && RecordEvolves(w.store.records[pid], t.records[pid]))
            && (pid in w.store.records && Settled(w.store.records[pid].state) ==> t.records[pid] == w.store.records[pid])
            && (aid in w.store.attempts ==>
                  && aid in t.attempts && AttemptEvolves(w.store.attempts[aid], t.attempts[aid])
                  && (w.store.attempts[aid].externalOperationId.Some? ==>
                        t.attempts[aid].externalOperationId == w.store.attempts[aid].externalOperationId))
            && (key in w.store.idempotency ==> key in t.idempotency && t.idempotency[key] == w.store.idempotency[key])
  {
    hide Inv, CanRun, Run;
    RunKeeps(w, events);
  }

  /** One event moves a record only along the transition table, and never out of a settled
      state. */
  lemma OneEventMoves(clock: int, events: seq<Event>, e: Event, pid: nat)
    requires CanRun(InitialWorld(clock), events) && Enabled(Run(InitialWorld(clock), events), e)
    requires pid in Run(InitialWorld(clock), events).store.records
    ensures var w := Run(InitialWorld(clock), events);
            var r := w.store.records[pid];
            && pid in Apply(w, e).store.records
            && var q := Apply(w, e).store.records[pid];
            && (q.state == r.state || TransitionAllowed(r.state, q.state))
            && (Settled(r.state) ==> q == r)
  {
    hide Inv, CanRun, Run, Enabled, Apply;
    ReachableInv(clock, events);
    var w := Run(InitialWorld(clock), events);
    EventKeeps(w, e);
    assert OneStep(w.store.records[pid], Apply(w, e).store.records[pid], StampOf(w, e));
    assert RecordEvolves(w.store.records[pid], Apply(w, e).store.records[pid]);
  }

  /** Every poll and collect call ever made used the identifier stored for its attempt. */
  lemma LookupsUseStoredId(clock: int, events: seq<Event>, k: nat)
    requires CanRun(InitialWorld(clock), events)
    requires k < |Run(InitialWorld(clock), events).remote.lookups|
    ensures var w := Run(InitialWorld(clock), events);
            var (aid, id) := w.remote.lookups[k];
            && aid in w.store.attempts && w.store.attempts[aid].externalOperationId == Some(id)
            && Flow(aid, id) in w.remote.flows
  {
    hide Lockstep, FlowsOk, WorkersOk, TokensDistinct, CanRun, Run;
    ReachableInv(clock, events);
    var w := Run(InitialWorld(clock), events);
    FetchedId(w.store, w.remote.lookups[k].0);
    assert Accounted(w.remote, w.store.attempts[w.remote.lookups[k].0]);
  }

  /** A completed investigation carries exactly the decision, incident and request that were
      stored as its plan at any earlier point of the run, and its result names the backend
      that was selected then - whatever stale snapshot the completing worker held. */
  lemma ResultFidelity(clock: int, before: seq<Event>, after: seq<Event>, pid: nat)
    requires CanRun(InitialWorld(clock), before)
    requires CanRun(Run(InitialWorld(clock), before), after)
    requires var w := Run(InitialWorld(clock), before);
             pid in w.store.records && w.store.records[pid].plannedDecision.Some?
    requires var t := Run(Run(InitialWorld(clock), before), after).store;
             pid in t.records && t.records[pid].state == Completed
    ensures var r := Run(InitialWorld(clock), before).store.records[pid];
            var q := Run(Run(InitialWorld(clock), before), after).store.records[pid];
            && HasPlan(r) && q.completedResult.Some?
            && q.completedResult.value.decision == r.plannedDecision.value
            && q.completedResult.value.incident == r.plannedIncident
            && q.completedResult.value.request == r.plannedRequest
            && q.completedResult.value.investigation.Some?
            && q.completedResult.value.investigation.value.backend == r.selectedBackend.value
  {
    hide Inv, Lockstep, CanRun, Run, RecordConstructs, PlanCoherent, InvestigationValid, NoActionFrom;
    ReachableInv(clock, before);
    var w := Run(InitialWorld(clock), before);
    var w' := Run(w, after);
    RunKeeps(w, after);
    InvPairing(w, pid);
    InvPairing(w', pid);
    assert RecordEvolves(w.store.records[pid], w'.store.records[pid]);
  }

  lemma InvPairing(w: World, pid: nat)
    requires Inv(w) && pid in w.store.records
    ensures Paired(w.store.records[pid], AttemptOf(w.store, pid)) && StateFieldsOk(w.store.records[pid])
  {
    hide Lockstep, RemoteOk, WorkersOk, TokensDistinct, Paired, StateFieldsOk;
    Pairing(w.store, pid);
  }

  /** The two tables are in lockstep in every reachable world. */
  lemma ReachableLockstep(clock: int, events: seq<Event>, pid: nat)
    requires CanRun(InitialWorld(clock), events)
    requires pid in Run(InitialWorld(clock), events).store.records
    ensures var s := Run(InitialWorld(clock), events).store;
            var r := s.records[pid];
            && Lockstep(s)
            && (r.state == Accepted ==> pid !in s.attemptOf)
            && (r.state in {Planned, Submitting, Submitted, RecoveryRequired} ==>
                  AttemptOf(s, pid).Some? && SameName(AttemptOf(s, pid).value.state) == r.state)
            && (r.state in {Completed, Failed} && AttemptOf(s, pid).Some? ==> SameName(AttemptOf(s, pid).value.state) == r.state)
            && (forall aid :: aid in s.attempts && s.attempts[aid].processingId == pid ==> pid in s.attemptOf && s.attemptOf[pid] == aid)
  {
    hide RemoteOk, WorkersOk, TokensDistinct, CanRun, Run, RecordConstructs, AttemptConstructs, AlertValid, VisibleKey, KeyIndexOk, OperationKeysOk, PlanCoherent;
    ReachableInv(clock, events);
    var s := Run(InitialWorld(clock), events).store;
    assert RecordOk(s, pid);
    forall aid | aid in s.attempts && s.attempts[aid].processingId == pid ensures pid in s.attemptOf && s.attemptOf[pid] == aid {
      assert AttemptOk(s, aid);
    }
  }
}
