/** Every repository call keeps the two tables in lockstep and only advances them, provided
    the clock does not read before the creation of the record it stamps. For the calls that
    write the attempt first, that proviso is exact. */
module RepositoryInvariant {
  import opened Domain
  import opened Lifecycle
  import opened Repository

  predicate IdentityValid(i: Identity) {
    i.version == 1 && |i.fingerprint| == 32
  }

  lemma EvolvesReflexive(s: Store, now: int)
    ensures Evolves(s, s) && Advances(s, s, now)
  {
  }

  /** `t` is `s` with one record and its attempt replaced. */
  function WithPair(s: Store, r: Record, a: Attempt): Store {
    s.(records := s.records[r.processingId := r], attempts := s.attempts[a.attemptId := a])
  }

  lemma PairIndexes(s: Store, r: Record, a: Attempt)
    requires IndexesOk(s)
    requires r.processingId in s.attemptOf && s.attemptOf[r.processingId] == a.attemptId
    requires r.identity == s.records[r.processingId].identity
    requires a.processingId == s.attempts[a.attemptId].processingId
    requires a.operationKey == s.attempts[a.attemptId].operationKey
    ensures IndexesOk(WithPair(s, r, a))
  {
    var t := WithPair(s, r, a);
    forall k | k in t.operationKeys ensures exists b :: b in t.attempts && t.attempts[b].operationKey == k {
      var b :| b in s.attempts && s.attempts[b].operationKey == k;
      assert t.attempts[b].operationKey == k;
    }
  }

  lemma PairRecords(s: Store, r: Record, a: Attempt)
    requires IndexesOk(s) && forall pid :: pid in s.records ==> RecordOk(s, pid)
    requires r.processingId in s.attemptOf && s.attemptOf[r.processingId] == a.attemptId
    requires r.identity == s.records[r.processingId].identity && r.alert == s.records[r.processingId].alert
    requires RecordConstructs(r) && Paired(r, Some(a)) && r.state != Accepted && Tidy(r)
    ensures var t := WithPair(s, r, a); forall pid :: pid in t.records ==> RecordOk(t, pid)
  {
    hide AlertValid, RecordConstructs, Paired, VisibleKey, Tidy;
    var t := WithPair(s, r, a);
    forall pid | pid in t.records ensures RecordOk(t, pid) {
      assert RecordOk(s, pid);
      if pid != r.processingId {
        if pid in s.attemptOf {
          assert s.attemptOf[pid] != a.attemptId;
        }
        assert AttemptOf(t, pid) == AttemptOf(s, pid);
      }
    }
  }

  lemma PairAdvances(s: Store, r: Record, a: Attempt, now: int)
    requires r.processingId in s.records && a.attemptId in s.attempts
    requires RecordEvolves(s.records[r.processingId], r) && OneStep(s.records[r.processingId], r, now)
    requires AttemptEvolves(s.attempts[a.attemptId], a)
    ensures Advances(s, WithPair(s, r, a), now)
  {
    hide RecordEvolves, OneStep, AttemptEvolves;
    forall q: Record ensures RecordEvolves(q, q) && OneStep(q, q, now) { SameRecord(q, now); }
    forall b: Attempt ensures AttemptEvolves(b, b) { SameAttempt(b); }
  }

  lemma SameRecord(r: Record, now: int)
    ensures RecordEvolves(r, r) && OneStep(r, r, now)
  {
  }

  lemma SameAttempt(a: Attempt)
    ensures AttemptEvolves(a, a)
  {
  }

  /** Replacing one record and its attempt by compatible later versions. */
  lemma UpdatePair(s: Store, r: Record, a: Attempt, now: int)
    requires Lockstep(s)
    requires r.processingId in s.attemptOf && s.attemptOf[r.processingId] == a.attemptId
    requires r.processingId in s.records && a.attemptId in s.attempts
    requires RecordEvolves(s.records[r.processingId], r) && OneStep(s.records[r.processingId], r, now)
    requires AttemptEvolves(s.attempts[a.attemptId], a)
    requires RecordConstructs(r) && AttemptConstructs(a) && Paired(r, Some(a)) && r.state != Accepted && Tidy(r)
    requires AttemptTidy(a)
    ensures Lockstep(WithPair(s, r, a)) && Advances(s, WithPair(s, r, a), now)
  {
    hide RecordConstructs, AttemptConstructs, AttemptTidy, Paired, Tidy, RecordOk, OneStep;
    PairIndexes(s, r, a);
    PairRecords(s, r, a);
    PairAdvances(s, r, a, now);
  }

  /** Replacing a record that has no attempt. */
  lemma UpdateAlone(s: Store, r: Record, now: int)
    requires Lockstep(s)
    requires r.processingId in s.records && r.processingId !in s.attemptOf
    requires RecordEvolves(s.records[r.processingId], r) && OneStep(s.records[r.processingId], r, now)
    requires RecordConstructs(r) && Paired(r, None) && r.state != Accepted && Tidy(r)
    ensures var t := s.(records := s.records[r.processingId := r]);
            Lockstep(t) && Advances(s, t, now)
  {
    AloneRecords(s, r);
    AloneAdvances(s, r, now);
  }

  /** Every attempt is still in order when only records change. */
  lemma SameAttempts(s: Store, t: Store)
    requires forall aid :: aid in s.attempts ==> AttemptOk(s, aid)
    requires t.attempts == s.attempts && t.attemptOf == s.attemptOf && t.operationKeys == s.operationKeys
    ensures forall aid :: aid in t.attempts ==> AttemptOk(t, aid)
  {
    hide AttemptConstructs, AttemptTidy;
    forall aid | aid in t.attempts ensures AttemptOk(t, aid) {
      assert AttemptOk(s, aid);
    }
  }

  lemma AloneRecords(s: Store, r: Record)
    requires Lockstep(s)
    requires r.processingId in s.records && r.processingId !in s.attemptOf
    requires r.identity == s.records[r.processingId].identity && r.alert == s.records[r.processingId].alert
    requires RecordConstructs(r) && Paired(r, None) && r.state != Accepted && Tidy(r)
    ensures Lockstep(s.(records := s.records[r.processingId := r]))
  {
    hide RecordConstructs, Paired, Tidy, AttemptOk, RecordOk, IndexesOk;
    var t := s.(records := s.records[r.processingId := r]);
    AloneIndexes(s, r);
    AloneRecordsOk(s, r);
    SameAttempts(s, t);
  }

  lemma AloneIndexes(s: Store, r: Record)
    requires IndexesOk(s) && r.processingId in s.records && r.identity == s.records[r.processingId].identity
    ensures IndexesOk(s.(records := s.records[r.processingId := r]))
  {
  }

  lemma AloneRecordsOk(s: Store, r: Record)
    requires forall pid :: pid in s.records ==> RecordOk(s, pid)
    requires r.processingId in s.records && r.processingId !in s.attemptOf
    requires r.identity == s.records[r.processingId].identity && r.alert == s.records[r.processingId].alert
    requires RecordConstructs(r) && Paired(r, None) && r.state != Accepted && Tidy(r)
    ensures var t := s.(records := s.records[r.processingId := r]);
            forall pid :: pid in t.records ==> RecordOk(t, pid)
  {
    hide AlertValid, RecordConstructs, Paired, VisibleKey, Tidy;
    var t := s.(records := s.records[r.processingId := r]);
    forall pid | pid in t.records ensures RecordOk(t, pid) {
      assert RecordOk(s, pid);
      assert AttemptOf(t, pid) == AttemptOf(s, pid);
    }
  }

  lemma AloneAdvances(s: Store, r: Record, now: int)
    requires r.processingId in s.records
    requires RecordEvolves(s.records[r.processingId], r) && OneStep(s.records[r.processingId], r, now)
    ensures Advances(s, s.(records := s.records[r.processingId := r]), now)
  {
    hide RecordEvolves, OneStep, AttemptEvolves;
    forall q: Record ensures RecordEvolves(q, q) && OneStep(q, q, now) { SameRecord(q, now); }
    forall b: Attempt ensures AttemptEvolves(b, b) { SameAttempt(b); }
  }

  /** The pair an attempt identifier names. */
  lemma PairOf(s: Store, aid: nat)
    requires Lockstep(s) && aid in s.attempts
    ensures var a := s.attempts[aid];
            && a.attemptId == aid && AttemptConstructs(a) && AttemptTidy(a)
            && a.processingId in s.records && a.processingId in s.attemptOf && s.attemptOf[a.processingId] == aid
            && var r := s.records[a.processingId];
            && r.processingId == a.processingId && RecordConstructs(r) && Paired(r, Some(a)) && Tidy(r)
  {
    hide AlertValid, RecordConstructs, Paired, VisibleKey, Tidy, AttemptConstructs, AttemptTidy;
    assert AttemptOk(s, aid);
    assert RecordOk(s, s.attempts[aid].processingId);
  }

  lemma Pairing(s: Store, pid: nat)
    requires Lockstep(s) && pid in s.records
    ensures s.records[pid].processingId == pid && RecordConstructs(s.records[pid]) && Tidy(s.records[pid])
    ensures Paired(s.records[pid], AttemptOf(s, pid))
  {
    hide AlertValid, RecordConstructs, VisibleKey, Tidy, AttemptConstructs, Paired;
    assert RecordOk(s, pid);
  }

  /** An accepted record stands alone. */
  lemma AcceptedAlone(s: Store, pid: nat)
    requires Lockstep(s) && pid in s.records && s.records[pid].state == Accepted
    ensures var r := s.records[pid];
            r.processingId == pid && pid !in s.attemptOf && RecordConstructs(r) && Tidy(r) && r.error.None?
  {
    hide AlertValid, RecordConstructs, VisibleKey, Tidy, AttemptConstructs, PlanCoherent;
    assert RecordOk(s, pid);
  }

  function WithRecord(s: Store, r: Record): Store
    requires r.identity.Some?
  {
    s.(records := s.records[r.processingId := r],
       idempotency := s.idempotency[(r.identity.value.scope, r.identity.value.key) := r.processingId])
  }

  /** Adding an accepted record under a fresh identity. */
  lemma AddRecord(s: Store, r: Record, now: int)
    requires Lockstep(s)
    requires r.processingId !in s.records && r.state == Accepted && NoPlan(r) && r.error.None? && Tidy(r)
    requires r.createdAt == now && r.updatedAt == now
    requires RecordConstructs(r) && AlertValid(r.alert) && r.identity.Some?
    requires r.identity.value.scope == r.alert.source.source && VisibleKey(r.identity.value.key)
    requires (r.identity.value.scope, r.identity.value.key) !in s.idempotency
    ensures Lockstep(WithRecord(s, r)) && Advances(s, WithRecord(s, r), now)
  {
    hide AlertValid, RecordConstructs, VisibleKey, Tidy, AttemptOk, RecordOk, NoPlan, OneStep;
    AddRecordRecords(s, r);
    AddRecordAdvances(s, r, now);
    SameAttempts(s, WithRecord(s, r));
  }

  lemma AddRecordRecords(s: Store, r: Record)
    requires IndexesOk(s) && forall pid :: pid in s.records ==> RecordOk(s, pid)
    requires r.processingId !in s.records && r.state == Accepted && r.error.None? && Tidy(r)
    requires RecordConstructs(r) && AlertValid(r.alert) && r.identity.Some?
    requires r.identity.value.scope == r.alert.source.source && VisibleKey(r.identity.value.key)
    requires (r.identity.value.scope, r.identity.value.key) !in s.idempotency
    ensures forall pid :: pid in WithRecord(s, r).records ==> RecordOk(WithRecord(s, r), pid)
  {
    hide AlertValid, RecordConstructs, VisibleKey, Tidy;
    var t := WithRecord(s, r);
    assert r.processingId !in s.attemptOf;
    forall p | p in t.records ensures RecordOk(t, p) {
      if p != r.processingId {
        assert RecordOk(s, p);
        assert AttemptOf(t, p) == AttemptOf(s, p);
      }
    }
  }

  lemma AddRecordAdvances(s: Store, r: Record, now: int)
    requires r.processingId !in s.records && r.identity.Some?
    requires r.state == Accepted && r.createdAt == now && r.updatedAt == now
    requires (r.identity.value.scope, r.identity.value.key) !in s.idempotency
    ensures Advances(s, WithRecord(s, r), now)
  {
    hide RecordEvolves, OneStep, AttemptEvolves;
    forall q: Record ensures RecordEvolves(q, q) && OneStep(q, q, now) { SameRecord(q, now); }
    forall b: Attempt ensures AttemptEvolves(b, b) { SameAttempt(b); }
  }

  /** An indexed identity names its record. */
  lemma Indexed(s: Store, scope: string, key: string)
    requires Lockstep(s) && (scope, key) in s.idempotency
    ensures var pid := s.idempotency[(scope, key)];
            && pid in s.records && s.records[pid].processingId == pid && s.records[pid].identity.Some?
            && s.records[pid].identity.value.scope == scope && s.records[pid].identity.value.key == key
  {
    hide AlertValid, RecordConstructs, VisibleKey, Tidy, AttemptConstructs, Paired;
    assert RecordOk(s, s.idempotency[(scope, key)]);
  }

  lemma AcceptKeeps(s: Store, pid: nat, alert: Alert, identity: Identity, now: int)
    requires Lockstep(s) && AlertValid(alert) && IdentityValid(identity)
    ensures var (t, reply) := AcceptProcessing(s, pid, alert, identity, now);
            && Lockstep(t) && Advances(s, t, now)
            && (reply.Returned? ==>
                  var r := reply.value.record;
                  && r.processingId in t.records && t.records[r.processingId] == r
                  && r.identity.Some? && r.identity.value.scope == identity.scope && r.identity.value.key == identity.key
                  && (reply.value.created ==> r.processingId == pid && pid !in s.records && r == NewRecord(pid, alert, identity, now))
                  && (!reply.value.created ==> t == s))
            && (reply.Raised? ==> t == s)
            && t.attempts == s.attempts
  {
    hide Lockstep, Advances, AlertValid, VisibleKey;
    var (t, reply) := AcceptProcessing(s, pid, alert, identity, now);
    EvolvesReflexive(s, now);
    if reply.Returned? {
      if reply.value.created {
        AddRecord(s, NewRecord(pid, alert, identity, now), now);
      } else {
        Indexed(s, identity.scope, identity.key);
      }
    }
  }

  lemma StoreNoActionKeeps(s: Store, pid: nat, result: OrchestrationResult, now: int)
    requires Lockstep(s) && ClockOk(s, now)
    requires pid in s.records ==> NoActionFrom(s.records[pid], result)
    ensures var (t, reply) := StoreNoActionResult(s, pid, result, now);
            && Lockstep(t) && Advances(s, t, now) && t.attempts == s.attempts
            && (reply == Returned(None) ==> t == s && (pid in s.records ==> s.records[pid].state != Accepted))
            && (pid in s.records ==> reply.Returned?)
  {
    hide Lockstep, Advances, PlanCoherent, NonBlank, DecisionValid;
    EvolvesReflexive(s, now);
    if pid in s.records && s.records[pid].state == Accepted {
      AcceptedAlone(s, pid);
      UpdateAlone(s, CompletedNoAction(s.records[pid], result, now), now);
    }
  }

  function WithPlan(s: Store, r: Record, a: Attempt): Store {
    WithPair(s, r, a).(attemptOf := s.attemptOf[r.processingId := a.attemptId],
                       operationKeys := s.operationKeys + {a.operationKey})
  }

  /** Adding a plan: the accepted record becomes planned and gets its one attempt. */
  lemma AddPlan(s: Store, r: Record, a: Attempt, now: int)
    requires Lockstep(s)
    requires r.processingId in s.records && r.processingId !in s.attemptOf
    requires RecordEvolves(s.records[r.processingId], r) && OneStep(s.records[r.processingId], r, now)
    requires RecordConstructs(r) && AttemptConstructs(a) && Paired(r, Some(a)) && r.state == Planned && Tidy(r)
    requires a.attemptId !in s.attempts && a.operationKey !in s.operationKeys && AttemptTidy(a)
    requires a.processingId == r.processingId
    ensures var t := WithPlan(s, r, a);
            Lockstep(t) && Advances(s, t, now)
  {
    hide RecordConstructs, AttemptConstructs, AttemptTidy, Paired, Tidy, RecordOk, OneStep;
    AddPlanIndexes(s, r, a);
    AddPlanAttempts(s, r, a);
    AddPlanRecords(s, r, a);
    PlanAdvances(s, r, a, now);
  }

  lemma AddPlanKeys(s: Store, r: Record, a: Attempt)
    requires OperationKeysOk(s) && forall aid :: aid in s.attempts ==> s.attempts[aid].operationKey in s.operationKeys
    requires a.attemptId !in s.attempts && a.operationKey !in s.operationKeys
    ensures OperationKeysOk(WithPlan(s, r, a))
  {
    var t := WithPlan(s, r, a);
    forall k | k in t.operationKeys ensures exists b :: b in t.attempts && t.attempts[b].operationKey == k {
      if k == a.operationKey {
        assert t.attempts[a.attemptId].operationKey == k;
      } else {
        var b :| b in s.attempts && s.attempts[b].operationKey == k;
        assert t.attempts[b].operationKey == k;
      }
    }
  }

  lemma AddPlanIndexes(s: Store, r: Record, a: Attempt)
    requires IndexesOk(s) && forall aid :: aid in s.attempts ==> AttemptOk(s, aid)
    requires r.processingId in s.records && r.processingId !in s.attemptOf
    requires r.identity == s.records[r.processingId].identity
    requires a.attemptId !in s.attempts && a.operationKey !in s.operationKeys
    requires a.processingId == r.processingId
    ensures IndexesOk(WithPlan(s, r, a))
  {
    hide AttemptConstructs, AttemptTidy, OperationKeysOk;
    forall aid | aid in s.attempts ensures s.attempts[aid].operationKey in s.operationKeys {
      assert AttemptOk(s, aid);
    }
    hide AttemptOk;
    AddPlanKeys(s, r, a);
  }

  lemma AddPlanAttempts(s: Store, r: Record, a: Attempt)
    requires forall aid :: aid in s.attempts ==> AttemptOk(s, aid)
    requires r.processingId !in s.attemptOf && a.attemptId !in s.attempts
    requires AttemptConstructs(a) && AttemptTidy(a) && a.processingId == r.processingId
    ensures forall aid :: aid in WithPlan(s, r, a).attempts ==> AttemptOk(WithPlan(s, r, a), aid)
  {
    hide AttemptConstructs, AttemptTidy;
    var t := WithPlan(s, r, a);
    forall aid | aid in t.attempts ensures AttemptOk(t, aid) {
      if aid != a.attemptId {
        assert AttemptOk(s, aid);
      }
    }
  }

  lemma AddPlanRecords(s: Store, r: Record, a: Attempt)
    requires IndexesOk(s) && forall pid :: pid in s.records ==> RecordOk(s, pid)
    requires r.processingId in s.records && r.processingId !in s.attemptOf && a.attemptId !in s.attempts
    requires r.identity == s.records[r.processingId].identity && r.alert == s.records[r.processingId].alert
    requires RecordConstructs(r) && Paired(r, Some(a)) && r.state == Planned && Tidy(r)
    ensures var t := WithPlan(s, r, a);
            forall pid :: pid in t.records ==> RecordOk(t, pid)
  {
    hide AlertValid, RecordConstructs, Paired, VisibleKey, Tidy;
    var t := WithPlan(s, r, a);
    forall pid | pid in t.records ensures RecordOk(t, pid) {
      assert RecordOk(s, pid);
      if pid != r.processingId {
        assert AttemptOf(t, pid) == AttemptOf(s, pid);
      }
    }
  }

  lemma PlanAdvances(s: Store, r: Record, a: Attempt, now: int)
    requires r.processingId in s.records && a.attemptId !in s.attempts && r.processingId !in s.attemptOf
    requires RecordEvolves(s.records[r.processingId], r) && OneStep(s.records[r.processingId], r, now)
    ensures Advances(s, WithPlan(s, r, a), now)
  {
    hide RecordEvolves, OneStep, AttemptEvolves;
    forall q: Record ensures RecordEvolves(q, q) && OneStep(q, q, now) { SameRecord(q, now); }
    forall b: Attempt ensures AttemptEvolves(b, b) { SameAttempt(b); }
  }

  lemma StorePlanKeeps(s: Store, pid: nat, plan: Plan, aid: nat, operationKey: nat, now: int)
    requires Lockstep(s) && ClockOk(s, now)
    requires pid in s.records ==> PlanCoherent(s.records[pid].alert, plan.decision, plan.incident, plan.request)
    ensures var (t, reply) := StorePlan(s, pid, plan, aid, operationKey, now);
            && Lockstep(t) && Advances(s, t, now)
            && (reply.Raised? || reply.value.None? ==> t == s)
            && (reply == Returned(None) ==> pid in s.records ==> s.records[pid].state != Accepted)
            && (reply.Returned? && reply.value.Some? ==>
                  && aid !in s.attempts && pid in s.records
                  && reply.value.value.record == PlannedRecord(s.records[pid], plan, now)
                  && reply.value.value.attempt == NewAttempt(aid, pid, operationKey, plan.backend, now)
                  && t.records == s.records[pid := reply.value.value.record]
                  && t.attempts == s.attempts[aid := reply.value.value.attempt])
  {
    hide Lockstep, Advances, NonBlank, AllNonBlank, EntitiesValid;
    EvolvesReflexive(s, now);
    if pid in s.records && s.records[pid].state == Accepted {
      AcceptedAlone(s, pid);
      var (t, reply) := StorePlan(s, pid, plan, aid, operationKey, now);
      if reply.Returned? {
        AddPlan(s, PlannedRecord(s.records[pid], plan, now), NewAttempt(aid, pid, operationKey, plan.backend, now), now);
      }
    }
  }

  lemma ClaimKeeps(s: Store, aid: nat, now: int)
    requires Lockstep(s) && ClockOk(s, now)
    ensures var (t, reply) := ClaimAttempt(s, aid, now);
            && Lockstep(t) && Advances(s, t, now) && reply.Returned?
            && (reply.value.None? ==> t == s && (aid in s.attempts ==> s.attempts[aid].state != APlanned))
            && (reply.value.Some? ==>
                  && aid in s.attempts && s.attempts[aid].state == APlanned
                  && t == s.(attempts := s.attempts[aid := reply.value.value], records := t.records)
                  && reply.value.value == ClaimedAttempt(s.attempts[aid], now))
  {
    hide Lockstep, Advances, PlanCoherent, InvestigationFrom, NoActionFrom, NonBlank, OperationIdOk;
    EvolvesReflexive(s, now);
    if aid in s.attempts && s.attempts[aid].state == APlanned {
      PairOf(s, aid);
      var r := s.records[s.attempts[aid].processingId];
      UpdatePair(s, r.(state := Submitting, updatedAt := now), ClaimedAttempt(s.attempts[aid], now), now);
    }
  }

  lemma MarkSubmittedKeeps(s: Store, aid: nat, externalId: string, now: int)
    requires Lockstep(s) && ClockOk(s, now) && OperationIdOk(externalId)
    ensures var (t, reply) := MarkSubmitted(s, aid, externalId, now);
            && Lockstep(t) && Advances(s, t, now) && reply.Returned?
            && (reply.value.None? ==> t == s && (aid in s.attempts ==> s.attempts[aid].state != ASubmitting))
            && (reply.value.Some? ==>
                  && aid in s.attempts && s.attempts[aid].state == ASubmitting
                  && t == s.(attempts := s.attempts[aid := reply.value.value], records := t.records)
                  && reply.value.value == SubmittedAttempt(s.attempts[aid], externalId, now))
  {
    hide Lockstep, Advances, PlanCoherent, InvestigationFrom, NoActionFrom, NonBlank, OperationIdOk;
    EvolvesReflexive(s, now);
    if aid in s.attempts && s.attempts[aid].state == ASubmitting {
      PairOf(s, aid);
      var r := s.records[s.attempts[aid].processingId];
      UpdatePair(s, r.(state := Submitted, updatedAt := now), SubmittedAttempt(s.attempts[aid], externalId, now), now);
    }
  }

  lemma RecordPollKeeps(s: Store, aid: nat, remote: string, error: Option<ErrorInfo>, now: int)
    requires Lockstep(s) && ClockOk(s, now) && RemoteTextOk(Some(remote)) && ErrorTextOk(error)
    ensures var (t, reply) := RecordPoll(s, aid, remote, error, now);
            && Lockstep(t) && Advances(s, t, now) && reply.Returned?
            && (reply.value.None? ==> t == s && (aid in s.attempts ==> s.attempts[aid].state != ASubmitted))
            && (reply.value.Some? ==>
                  && aid in s.attempts && s.attempts[aid].state == ASubmitted
                  && t == s.(attempts := s.attempts[aid := reply.value.value], records := t.records)
                  && reply.value.value == PolledAttempt(s.attempts[aid], remote, error, now))
  {
    hide Lockstep, Advances, PlanCoherent, InvestigationFrom, NoActionFrom, NonBlank, OperationIdOk;
    EvolvesReflexive(s, now);
    if aid in s.attempts && s.attempts[aid].state == ASubmitted {
      PairOf(s, aid);
      var r := s.records[s.attempts[aid].processingId];
      UpdatePair(s, r.(updatedAt := now, error := error), PolledAttempt(s.attempts[aid], remote, error, now), now);
    }
  }

  lemma CompleteKeeps(s: Store, aid: nat, result: OrchestrationResult, now: int)
    requires Lockstep(s) && ClockOk(s, now)
    requires result.decision.outcome == Investigate
    requires aid in s.attempts && s.attempts[aid].state == ASubmitted ==>
               && s.attempts[aid].processingId in s.records
               && InvestigationFrom(s.records[s.attempts[aid].processingId], result)
    ensures var (t, reply) := CompleteProcessing(s, aid, result, now);
            && Lockstep(t) && Advances(s, t, now) && reply.Returned?
            && (reply.value.None? ==> t == s && (aid in s.attempts ==> s.attempts[aid].state != ASubmitted))
            && (reply.value.Some? ==>
                  && aid in s.attempts && s.attempts[aid].state == ASubmitted
                  && t == s.(attempts := s.attempts[aid := CompletedAttempt(s.attempts[aid], now)], records := t.records))
  {
    hide Lockstep, Advances, PlanCoherent, InvestigationValid, NonBlank, OperationIdOk;
    EvolvesReflexive(s, now);
    if aid in s.attempts && s.attempts[aid].state == ASubmitted {
      StartsNonBlank("succeeded");
      PairOf(s, aid);
      var r := s.records[s.attempts[aid].processingId];
      UpdatePair(s, CompletedRecord(r, result, now), CompletedAttempt(s.attempts[aid], now), now);
    }
  }

  /** Failing without an attempt identifier keeps the tables in lockstep only when the
      expected state is accepted, which is how the processor calls it. */
  lemma FailAcceptedKeeps(s: Store, pid: nat, error: ErrorInfo, now: int)
    requires Lockstep(s) && ClockOk(s, now) && ErrorTextOk(Some(error)) && PlanningError(error)
    ensures var (t, reply) := FailProcessing(s, pid, {Accepted}, error, None, now);
            && Lockstep(t) && Advances(s, t, now) && reply.Returned?
            && t.attempts == s.attempts
            && (reply.value.None? ==> t == s && (pid in s.records ==> s.records[pid].state != Accepted))
  {
    hide Lockstep, Advances, PlanCoherent, InvestigationFrom, NoActionFrom, NonBlank, OperationIdOk;
    EvolvesReflexive(s, now);
    if pid in s.records && s.records[pid].state == Accepted {
      AcceptedAlone(s, pid);
      UpdateAlone(s, FailedRecord(s.records[pid], error, now), now);
    }
  }

  /** Failing the attempt of a record expected in state `from`. */
  lemma FailAttemptKeeps(s: Store, pid: nat, from: ProcessingState, error: ErrorInfo, aid: nat, now: int)
    requires Lockstep(s) && ClockOk(s, now) && ErrorTextOk(Some(error))
    requires from in {Planned, Submitting, Submitted}
    requires aid in s.attempts && s.attempts[aid].processingId == pid
    ensures var (t, reply) := FailProcessing(s, pid, {from}, error, Some(aid), now);
            && Lockstep(t) && Advances(s, t, now) && reply.Returned?
            && (reply.value.None? ==> t == s && SameName(s.attempts[aid].state) != from)
            && (reply.value.Some? ==>
                  && SameName(s.attempts[aid].state) == from
                  && t == s.(attempts := s.attempts[aid := FailedAttempt(s.attempts[aid], error, now)], records := t.records))
  {
    hide Lockstep, Advances, PlanCoherent, InvestigationFrom, NoActionFrom, NonBlank, OperationIdOk;
    EvolvesReflexive(s, now);
    PairOf(s, aid);
    if s.records[pid].state == from {
      UpdatePair(s, FailedRecord(s.records[pid], error, now), FailedAttempt(s.attempts[aid], error, now), now);
    }
  }

  lemma RecoveryKeeps(s: Store, aid: nat, from: AttemptState, error: ErrorInfo, now: int)
    requires Lockstep(s) && ClockOk(s, now) && ErrorTextOk(Some(error))
    requires from in {ASubmitting, ASubmitted}
    ensures var (t, reply) := MarkRecoveryRequired(s, aid, {from}, error, now);
            && Lockstep(t) && Advances(s, t, now) && reply.Returned?
            && (reply.value.None? ==> t == s && (aid in s.attempts ==> s.attempts[aid].state != from))
            && (reply.value.Some? ==>
                  && aid in s.attempts && s.attempts[aid].state == from
                  && t == s.(attempts := s.attempts[aid := RecoveryAttempt(s.attempts[aid], error)], records := t.records))
  {
    hide Lockstep, Advances, PlanCoherent, InvestigationFrom, NoActionFrom, NonBlank, OperationIdOk;
    EvolvesReflexive(s, now);
    if aid in s.attempts && s.attempts[aid].state == from {
      PairOf(s, aid);
      var r := s.records[s.attempts[aid].processingId];
      UpdatePair(s, RecoveryRecord(r, error, now), RecoveryAttempt(s.attempts[aid], error), now);
    }
  }

  // ----- The clock proviso is exact

  /** A claim that passes its guard keeps the tables in lockstep exactly when the clock does
      not read before the record's creation: otherwise the attempt is written and the
      record's constructor raises. */
  lemma ClaimKeepsExactly(s: Store, aid: nat, now: int)
    requires Lockstep(s) && aid in s.attempts && s.attempts[aid].state == APlanned
    ensures var pid := s.attempts[aid].processingId;
            pid in s.records && (Lockstep(ClaimAttempt(s, aid, now).0) <==> s.records[pid].createdAt <= now)
  {
    hide Lockstep, Advances, PlanCoherent, InvestigationFrom, NoActionFrom, NonBlank, OperationIdOk;
    EvolvesReflexive(s, now);
    PairOf(s, aid);
    var pid := s.attempts[aid].processingId;
    var (t, reply) := ClaimAttempt(s, aid, now);
    if s.records[pid].createdAt <= now {
      UpdatePair(s, s.records[pid].(state := Submitting, updatedAt := now), ClaimedAttempt(s.attempts[aid], now), now);
    } else if Lockstep(t) {
      PairOf(t, aid);
      assert false;
    }
  }

  lemma MarkSubmittedKeepsExactly(s: Store, aid: nat, externalId: string, now: int)
    requires Lockstep(s) && aid in s.attempts && s.attempts[aid].state == ASubmitting && OperationIdOk(externalId)
    ensures var pid := s.attempts[aid].processingId;
            pid in s.records && (Lockstep(MarkSubmitted(s, aid, externalId, now).0) <==> s.records[pid].createdAt <= now)
  {
    hide Lockstep, Advances, PlanCoherent, InvestigationFrom, NoActionFrom, NonBlank, OperationIdOk;
    EvolvesReflexive(s, now);
    PairOf(s, aid);
    var pid := s.attempts[aid].processingId;
    var (t, reply) := MarkSubmitted(s, aid, externalId, now);
    if s.records[pid].createdAt <= now {
      UpdatePair(s, s.records[pid].(state := Submitted, updatedAt := now), SubmittedAttempt(s.attempts[aid], externalId, now), now);
    } else if Lockstep(t) {
      PairOf(t, aid);
      assert false;
    }
  }

  lemma RecoveryKeepsExactly(s: Store, aid: nat, from: AttemptState, error: ErrorInfo, now: int)
    requires Lockstep(s) && aid in s.attempts && s.attempts[aid].state == from && from in {ASubmitting, ASubmitted}
    requires ErrorTextOk(Some(error))
    ensures var pid := s.attempts[aid].processingId;
            pid in s.records && (Lockstep(MarkRecoveryRequired(s, aid, {from}, error, now).0) <==> s.records[pid].createdAt <= now)
  {
    hide Lockstep, Advances, PlanCoherent, InvestigationFrom, NoActionFrom, NonBlank, OperationIdOk;
    EvolvesReflexive(s, now);
    PairOf(s, aid);
    var pid := s.attempts[aid].processingId;
    var (t, reply) := MarkRecoveryRequired(s, aid, {from}, error, now);
    if s.records[pid].createdAt <= now {
      UpdatePair(s, RecoveryRecord(s.records[pid], error, now), RecoveryAttempt(s.attempts[aid], error), now);
    } else if Lockstep(t) {
      PairOf(t, aid);
      assert false;
    }
  }

  /** A poll leaves both states alone, so an early clock only shows when the attempt's error
      changes without the record's. */
  lemma RecordPollKeepsExactly(s: Store, aid: nat, remote: string, error: Option<ErrorInfo>, now: int)
    requires Lockstep(s) && aid in s.attempts && s.attempts[aid].state == ASubmitted && RemoteTextOk(Some(remote)) && ErrorTextOk(error)
    ensures var pid := s.attempts[aid].processingId;
            && pid in s.records
            && (Lockstep(RecordPoll(s, aid, remote, error, now).0) <==>
                  s.records[pid].createdAt <= now || s.records[pid].error == error)
  {
    hide Lockstep, Advances, PlanCoherent, InvestigationFrom, NoActionFrom, NonBlank, OperationIdOk;
    EvolvesReflexive(s, now);
    PairOf(s, aid);
    var pid := s.attempts[aid].processingId;
    var r := s.records[pid];
    var polled := PolledAttempt(s.attempts[aid], remote, error, now);
    var (t, reply) := RecordPoll(s, aid, remote, error, now);
    if r.createdAt <= now {
      UpdatePair(s, r.(updatedAt := now, error := error), polled, now);
    } else if r.error == error {
      UpdatePair(s, r, polled, now);
      assert t.records == s.records[pid := r];
    } else if Lockstep(t) {
      PairOf(t, aid);
      assert false;
    }
  }

  /** Failing without an attempt identifier a record that has an active attempt breaks the
      pairing; failing an accepted record does not. */
  lemma FailWithoutAttemptExactly(s: Store, pid: nat, from: ProcessingState, error: ErrorInfo, now: int)
    requires Lockstep(s) && ClockOk(s, now) && ErrorTextOk(Some(error)) && PlanningError(error)
    requires pid in s.records && s.records[pid].state == from && !Settled(from)
    ensures Lockstep(FailProcessing(s, pid, {from}, error, None, now).0) <==> from == Accepted
  {
    hide Lockstep, Advances, PlanCoherent, InvestigationFrom, NoActionFrom, NonBlank, OperationIdOk;
    EvolvesReflexive(s, now);
    Pairing(s, pid);
    var (t, reply) := FailProcessing(s, pid, {from}, error, None, now);
    if from == Accepted {
      FailAcceptedKeeps(s, pid, error, now);
    } else if Lockstep(t) {
      Pairing(t, pid);
      assert false;
    }
  }
}
