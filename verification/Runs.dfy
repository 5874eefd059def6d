/** Extending runs, and what a run does to the records it started with. */
module Runs {
  import opened Domain
  import opened Lifecycle
  import opened Repository
  import opened RepositoryInvariant
  import opened Protocol
  import opened ProtocolInvariant
  import opened ProtocolSteps
  import opened ProtocolEffects

  lemma {:induction false} RunAppend(w: World, events: seq<Event>, e: Event)
    requires CanRun(w, events) && Enabled(Run(w, events), e)
    ensures CanRun(w, events + [e]) && Run(w, events + [e]) == Apply(Run(w, events), e)
    decreases |events|
  {
    hide Enabled, Apply;
    if events == [] {
      assert [e] == [] + [e] && [e][1..] == [];
      assert CanRun(Apply(w, e), []);
    } else {
      RunAppend(Apply(w, events[0]), events[1..], e);
      assert (events + [e])[1..] == events[1..] + [e];
    }
  }

  /** How far a record has got; -1 when there is no such record. */
  function LevelIn(s: Store, pid: nat): int {
    if pid in s.records then Rank(s.records[pid].state) else -1
  }

  predicate StateIs(s: Store, pid: nat, st: ProcessingState) {
    pid in s.records && s.records[pid].state == st
  }

  lemma LevelsKept(s: Store, t: Store)
    requires Evolves(s, t)
    ensures forall pid :: LevelIn(s, pid) <= LevelIn(t, pid)
  {
    hide AttemptEvolves;
    forall pid ensures LevelIn(s, pid) <= LevelIn(t, pid) {
      if pid in s.records {
        assert RecordEvolves(s.records[pid], t.records[pid]);
      }
    }
  }

  /** `x` comes after `w`; with a steady clock, whatever changed in between was stamped no
      earlier than the clock read in `w`. */
  ghost predicate Since(w: World, x: World, steady: bool) {
    && Evolves(w.store, x.store)
    && (steady ==>
          && w.clock <= x.clock
          && forall pid :: pid in x.store.records ==>
               (pid in w.store.records && x.store.records[pid] == w.store.records[pid]) || x.store.records[pid].updatedAt >= w.clock)
  }

  lemma SinceTransitive(w: World, x: World, y: World, steady: bool)
    requires Since(w, x, steady) && Since(x, y, steady)
    ensures Since(w, y, steady)
  {
    hide Evolves;
    EvolvesTransitive(w.store, x.store, y.store);
  }

  lemma SinceSelf(w: World, steady: bool)
    ensures Since(w, w, steady)
  {
    EvolvesReflexive(w.store, w.clock);
  }

  lemma SinceStep(w: World, i: nat, o: Oracle, steady: bool)
    requires Moving(w, i, o) && (steady ==> w.clock <= o.now)
    ensures Since(w, Step(w, i, o), steady)
  {
    hide Inv, Evolves, OracleOk, WriteStep, ReadStep, LocalStep, TransitionAllowed;
    assert Apply(w, Move(i, o)) == Step(w, i, o);
    EventKeeps(w, Move(i, o)) by { MoveEnabled(w, i, o); }
    StepClock(w, i, o);
    AdvancesSince(w, Step(w, i, o), o.now, steady);
  }

  lemma MoveEnabled(w: World, i: nat, o: Oracle)
    requires Moving(w, i, o)
    ensures Inv(w) && Enabled(w, Move(i, o))
  {
  }

  lemma AdvancesSince(w: World, x: World, now: int, steady: bool)
    requires Advances(w.store, x.store, now)
    requires steady ==> w.clock <= now && w.clock <= x.clock
    ensures Since(w, x, steady)
  {
    hide Evolves, TransitionAllowed;
    if steady {
      forall pid | pid in x.store.records
        ensures (pid in w.store.records && x.store.records[pid] == w.store.records[pid]) || x.store.records[pid].updatedAt >= w.clock
      {
        if pid in w.store.records {
          assert OneStep(w.store.records[pid], x.store.records[pid], now);
        }
      }
    }
  }

  lemma StepClock(w: World, i: nat, o: Oracle)
    ensures Step(w, i, o).clock == w.clock || Step(w, i, o).clock == o.now
  {
  }

  /** The records named were stamped no earlier than the clock read in `since`. */
  ghost predicate Stamped(since: World, s: Store, touched: set<nat>) {
    forall pid :: pid in touched ==> pid in s.records && s.records[pid].updatedAt >= since.clock
  }

  lemma StampedKept(since: World, w: World, x: World, touched: set<nat>)
    requires Stamped(since, w.store, touched) && Since(since, w, true) && Since(w, x, true)
    ensures Stamped(since, x.store, touched)
  {
    hide Evolves, RecordEvolves;
    forall pid | pid in touched ensures pid in x.store.records && x.store.records[pid].updatedAt >= since.clock {
      Persists(w.store, x.store, pid);
    }
  }

  lemma Persists(s: Store, t: Store, pid: nat)
    requires Evolves(s, t) && pid in s.records
    ensures pid in t.records
  {
  }

  /** A record that got further than it was has been stamped. */
  lemma FurtherStamped(since: World, w: World, pid: nat)
    requires Since(since, w, true) && pid in since.store.records && LevelIn(w.store, pid) > LevelIn(since.store, pid)
    ensures pid in w.store.records && w.store.records[pid].updatedAt >= since.clock
  {
    hide Evolves;
  }

  // ----- Time budgets

  /** The timeouts handed to the backend: positive, never growing, none above the budget
      granted to the pass and none below what is left of it now. */
  ghost predicate TimeoutsOk(timeouts: seq<real>, deadline: Option<real>, monotonic: real, granted: real) {
    && (deadline.None? ==> timeouts == [])
    && (forall i :: 0 <= i < |timeouts| ==> timeouts[i] > 0.0)
    && (forall i, j :: 0 <= i < j < |timeouts| ==> timeouts[j] <= timeouts[i])
    && (forall i :: 0 <= i < |timeouts| ==> timeouts[i] <= granted)
    && (deadline.Some? ==>
          && deadline.value - monotonic <= granted
          && forall i :: 0 <= i < |timeouts| ==> timeouts[i] >= deadline.value - monotonic)
  }

  // ----- What is known of a worker's snapshots

  lemma PlanPresent(w: World, rec: Record)
    requires RecordSnap(w.store, rec) && rec.state == Planned
    ensures rec.Request().Some? && rec.selectedBackend.Some?
  {
  }

  /** A record that is past acceptance has an attempt unless it is settled. */
  lemma AttemptPresent(w: World, pid: nat)
    requires Inv(w) && pid in w.store.records
    ensures var reply := GetAttemptForProcessing(w.store, pid);
            && reply.Returned?
            && (1 <= Rank(w.store.records[pid].state) <= 3 ==>
                  reply.value.Some? && SameName(reply.value.value.state) == w.store.records[pid].state)
            && (reply.value.Some? ==> reply.value.value.processingId == pid)
  {
    hide RemoteOk, WorkersOk, TokensDistinct, Matches, RecordConstructs, AttemptConstructs;
    hide AttemptOk, KeyIndexOk, OperationKeysOk, RecordOk;
    Pairing(w.store, pid);
  }

  // ----- A submission after giving up

  /** Nothing keeps a worker that holds a claim from submitting after another worker gave the
      record up as stale: from any good world in which one stands before the call and the other
      before the recovery, three steps leave a recovery-required record with a new flow. */
  lemma SubmitAfterRecovery(w: World, i: nat, j: nat, o1: Oracle, o2: Oracle, o3: Oracle)
    requires Inv(w) && i != j && At(w, i).Claimed? && At(w, j).Recover?
    requires At(w, j).rec.processingId == At(w, i).rec.processingId && At(w, j).from == ASubmitting
    requires StateIs(w.store, At(w, i).rec.processingId, Submitting)
    requires Friendly(w, o1) && OracleOk(w, At(w, j), o1) && !o2.expired && o3.submit.CreatedOperation? && o3.effect == FlowCreated(o3.submit.externalId)
    ensures var pid := At(w, i).rec.processingId;
            var x := Step(Step(Step(w, j, o1), i, o2), i, o3);
            && StateIs(x.store, pid, RecoveryRequired)
            && x.remote.flows == w.remote.flows + [Flow(At(w, i).att.attemptId, o3.submit.externalId)]
  {
    hide Inv, Friendly, MarkRecoveryRequired, ClockOk;
    var w1 := Step(w, j, o1);
    WriteEffect(w, j, o1);
    assert StateIs(w1.store, At(w, i).rec.processingId, RecoveryRequired);
    assert w1.remote == w.remote && At(w1, i) == At(w, i);
    CallAfterClaim(w1, i, o2, o3);
  }

  lemma CallAfterClaim(w: World, i: nat, o2: Oracle, o3: Oracle)
    requires At(w, i).Claimed? && !o2.expired && o3.effect.FlowCreated?
    ensures var x := Step(Step(w, i, o2), i, o3);
            x.store == w.store && x.remote.flows == w.remote.flows + [Flow(At(w, i).att.attemptId, o3.effect.id)]
  {
    hide AfterCall;
  }
}
