/** From the finding to the backend: however often one finding is delivered - retries, replays,
    duplicate searches - it keeps one key, one processing and at most one submission. Digests
    are functions; that two given preimages do not collide is a hypothesis where it is used. */
module EndToEnd {
  import opened Domain
  import opened Lifecycle
  import opened Repository
  import opened RepositoryInvariant
  import opened Calendar
  import opened Fingerprint
  import opened SplunkMapping
  import opened Protocol
  import opened ProtocolInvariant
  import opened ProtocolSteps
  import opened ProtocolTheorems
  import opened SubmitOnce
  import Delivery

  /** SHA-256 in hexadecimal and as 32 bytes. */
  datatype Hashes = Hashes(hex: seq<int> -> string, raw: seq<int> -> seq<int>)

  ghost predicate HashesOk(h: Hashes) {
    IsHexDigest(h.hex) && forall b :: |h.raw(b)| == 32
  }

  /** The digests of two findings' identities do not collide. */
  predicate NoKeyCollision(h: Hashes, f: Finding, g: Finding)
    requires InRange(f.detectedAt) && InRange(g.detectedAt)
  {
    h.hex(FindingBytes(IdentityOf(f))) == h.hex(FindingBytes(IdentityOf(g))) ==> FindingBytes(IdentityOf(f)) == FindingBytes(IdentityOf(g))
  }

  predicate NoAlertCollision(h: Hashes, a: Alert, b: Alert)
    requires InRange(a.detectedAt) && InRange(b.detectedAt)
  {
    h.raw(FingerprintBytes(a)) == h.raw(FingerprintBytes(b)) ==> FingerprintBytes(a) == FingerprintBytes(b)
  }

  /** Two findings get one key exactly when rule, channel, computer, time, event code and record
      number agree; the rest of the event - image names, sources, titles - does not matter. */
  lemma SameKeySameEvent(h: Hashes, f: Finding, g: Finding)
    requires InRange(f.detectedAt) && InRange(g.detectedAt) && NoKeyCollision(h, f, g)
    ensures FindingKey(f, h.hex) == FindingKey(g, h.hex) <==>
              && f.ruleId == g.ruleId && f.channel == g.channel && f.computer == g.computer
              && f.detectedAt == g.detectedAt && f.eventCode == g.eventCode && f.recordId == g.recordId
  {
    hide FindingBytes;
    if FindingKey(f, h.hex) == FindingKey(g, h.hex) {
      DropPrefix("splunk-v1-", h.hex(FindingBytes(IdentityOf(f))), h.hex(FindingBytes(IdentityOf(g))));
      FindingInjective(IdentityOf(f), IdentityOf(g));
    }
  }

  // ----- Stored fingerprints are the fingerprints of the stored alerts

  ghost predicate HonestEvents(h: Hashes, events: seq<Event>) {
    forall i :: 0 <= i < |events| && events[i].BeginProcess? ==>
      InRange(events[i].alert.detectedAt) && events[i].fingerprint == h.raw(FingerprintBytes(events[i].alert))
  }

  predicate HonestRecord(h: Hashes, r: Record) {
    && InRange(r.alert.detectedAt) && r.identity.Some?
    && r.identity.value.fingerprint == h.raw(FingerprintBytes(r.alert))
  }

  ghost predicate HonestStore(h: Hashes, s: Store) {
    forall pid :: pid in s.records ==> HonestRecord(h, s.records[pid])
  }

  predicate OwnIds(s: Store) {
    forall pid :: pid in s.records ==> s.records[pid].processingId == pid
  }

  lemma AttemptFirstKeys(s: Store, a: Attempt, r: Record)
    requires r.processingId in s.records
    ensures WriteAttemptThenRecord(s, a, r).0.records.Keys == s.records.Keys
  {
    hide AttemptConstructs, RecordConstructs;
  }

  lemma OneAttemptKeys(s: Store, aid: nat, id: string, remote: string, error: Option<ErrorInfo>, from: set<AttemptState>, err: ErrorInfo,
                       result: OrchestrationResult, now: int)
    requires OwnIds(s)
    ensures ClaimAttempt(s, aid, now).0.records.Keys == s.records.Keys
    ensures MarkSubmitted(s, aid, id, now).0.records.Keys == s.records.Keys
    ensures RecordPoll(s, aid, remote, error, now).0.records.Keys == s.records.Keys
    ensures MarkRecoveryRequired(s, aid, from, err, now).0.records.Keys == s.records.Keys
    ensures CompleteProcessing(s, aid, result, now).0.records.Keys == s.records.Keys
  {
    hide WriteAttemptThenRecord, AttemptConstructs, RecordConstructs;
    if aid in s.attempts && s.attempts[aid].processingId in s.records {
      var a := s.attempts[aid];
      var r := s.records[a.processingId];
      AttemptFirstKeys(s, ClaimedAttempt(a, now), r.(state := Submitting, updatedAt := now));
      AttemptFirstKeys(s, SubmittedAttempt(a, id, now), r.(state := Submitted, updatedAt := now));
      AttemptFirstKeys(s, PolledAttempt(a, remote, error, now), r.(updatedAt := now, error := error));
      AttemptFirstKeys(s, RecoveryAttempt(a, err), RecoveryRecord(r, err, now));
    }
  }

  /** Only an acceptance creates a record. */
  lemma MovesCreateNothing(w: World, i: nat, o: Oracle)
    requires OwnIds(w.store)
    ensures Step(w, i, o).store.records.Keys == w.store.records.Keys
  {
    var pc := At(w, i);
    if Writes(pc) {
      WritesCreateNothing(w, i, o);
    } else if !Reads(pc) {
      hide AfterPlan, AfterSubmit, AfterCall, BeforePoll, AfterPolling, AfterCollecting, CallRemote;
    }
  }

  lemma WritesCreateNothing(w: World, i: nat, o: Oracle)
    requires OwnIds(w.store) && Writes(At(w, i))
    ensures WriteStep(w, i, o).store.records.Keys == w.store.records.Keys
  {
    hide FailProcessing, StoreNoActionResult, StorePlan, ClaimAttempt, MarkSubmitted, RecordPoll, MarkRecoveryRequired, CompleteProcessing;
    hide OrReread, AfterMark, AfterRecordPoll, OwnIds;
    var pc := At(w, i);
    var s := w.store;
    var none := OrchestrationResult(Decision(NoAction, "", [], Source("", None)), None, None, None);
    match pc
    case FailAccepted(rec, err, _) => FailKeys(s, rec.processingId, {Accepted}, err, None, o.now);
    case FailPlanned(rec, att) => FailKeys(s, rec.processingId, {Planned}, ERR_UNCONFIGURED, Some(att.attemptId), o.now);
    case FailRejected(rec, att) => FailKeys(s, rec.processingId, {Submitting}, ERR_REJECTED, Some(att.attemptId), o.now);
    case FailExecution(rec, att) => FailKeys(s, rec.processingId, {Submitted}, ERR_EXECUTION, Some(att.attemptId), o.now);
    case StoreNoAction(rec, result) => NoActionKeys(s, rec.processingId, result, o.now);
    case StorePlanned(rec, plan) => PlanKeys(s, rec.processingId, plan, o.attemptId, o.operationKey, o.now);
    case Claim(_, att) => OneAttemptKeys(s, att.attemptId, "", "", None, {}, ERR_STALE, none, o.now);
    case Mark(_, att, id) => OneAttemptKeys(s, att.attemptId, id, "", None, {}, ERR_STALE, none, o.now);
    case Recover(_, aid, from, err, _) => OneAttemptKeys(s, aid, "", "", None, {from}, err, none, o.now);
    case RecordPolled(_, att, remote, pollError, _) => OneAttemptKeys(s, att.attemptId, "", remote, pollError, {}, ERR_STALE, none, o.now);
    case Complete(_, att, result) => OneAttemptKeys(s, att.attemptId, "", "", None, {}, ERR_STALE, result, o.now);
  }

  lemma FailKeys(s: Store, pid: nat, expected: set<ProcessingState>, err: ErrorInfo, aid: Option<nat>, now: int)
    ensures FailProcessing(s, pid, expected, err, aid, now).0.records.Keys == s.records.Keys
  {
    hide AttemptConstructs, RecordConstructs;
  }

  lemma NoActionKeys(s: Store, pid: nat, result: OrchestrationResult, now: int)
    ensures StoreNoActionResult(s, pid, result, now).0.records.Keys == s.records.Keys
  {
    hide AttemptConstructs, RecordConstructs;
  }

  lemma PlanKeys(s: Store, pid: nat, plan: Plan, attemptId: nat, key: nat, now: int)
    ensures StorePlan(s, pid, plan, attemptId, key, now).0.records.Keys == s.records.Keys
  {
    hide AttemptConstructs, RecordConstructs;
  }

  lemma InvIds(w: World)
    requires Inv(w)
    ensures OwnIds(w.store)
  {
    hide Lockstep, RemoteOk, WorkersOk, TokensDistinct, RecordConstructs, Paired, Tidy;
    forall pid | pid in w.store.records ensures w.store.records[pid].processingId == pid { Pairing(w.store, pid); }
  }

  /** One event keeps every stored fingerprint honest. */
  lemma EventHonest(h: Hashes, w: World, e: Event)
    requires Inv(w) && Enabled(w, e) && HonestStore(h, w.store)
    requires e.BeginProcess? ==> InRange(e.alert.detectedAt) && e.fingerprint == h.raw(FingerprintBytes(e.alert))
    ensures HonestStore(h, Apply(w, e).store)
  {
    hide Inv, Enabled, FingerprintBytes, AttemptEvolves, OneStep, Step;
    var t := Apply(w, e).store;
    EventKeeps(w, e);
    InvIds(w);
    NewRecordsOf(w, e);
    forall pid | pid in t.records ensures HonestRecord(h, t.records[pid]) {
      if pid in w.store.records {
        assert RecordEvolves(w.store.records[pid], t.records[pid]);
      }
    }
  }

  /** A record that was not there before is the one an acceptance made. */
  lemma NewRecordsOf(w: World, e: Event)
    requires OwnIds(w.store)
    ensures forall pid :: pid in Apply(w, e).store.records && pid !in w.store.records ==>
              && e.BeginProcess? && Apply(w, e).store.records[pid].alert == e.alert
              && Apply(w, e).store.records[pid].identity == Some(Identity(e.alert.source.source, e.key, 1, e.fingerprint))
  {
    hide Step, RecordConstructs, VisibleKey, OwnIds;
    if e.Move? {
      MovesCreateNothing(w, e.worker, e.oracle);
    }
  }

  lemma {:induction false} RunHonest(h: Hashes, w: World, events: seq<Event>)
    requires Inv(w) && CanRun(w, events) && HonestStore(h, w.store) && HonestEvents(h, events)
    ensures HonestStore(h, Run(w, events).store)
    decreases |events|
  {
    hide Inv, Enabled, Apply, FingerprintBytes, HonestStore;
    if events != [] {
      EventHonest(h, w, events[0]);
      EventKeeps(w, events[0]);
      assert HonestEvents(h, events[1..]) by {
        forall i | 0 <= i < |events| - 1 && events[1..][i].BeginProcess?
          ensures InRange(events[1..][i].alert.detectedAt)
                  && events[1..][i].fingerprint == h.raw(FingerprintBytes(events[1..][i].alert))
        {
          assert events[1..][i] == events[i + 1];
        }
      }
      RunHonest(h, Apply(w, events[0]), events[1..]);
    }
  }

  // ----- The theorem

  /** The scoped key of a finding. */
  function ScopedKey(h: Hashes, f: Finding): (string, string)
    requires InRange(f.detectedAt)
  {
    ("splunk", FindingKey(f, h.hex))
  }

  predicate Holds(s: Store, pid: nat, k: (string, string)) {
    pid in s.records && s.records[pid].identity.Some? && (s.records[pid].identity.value.scope, s.records[pid].identity.value.key) == k
  }

  /** What a processing under a finding's key is worth: its fingerprint is that of its own
      alert, its remote flows are those its state allows, at most one, and a delivery of the
      finding matches it exactly when its alert is the finding's canonical alert. */
  ghost predicate Answers(h: Hashes, w: World, alert: Alert, p: nat)
    requires p in w.store.records && InRange(alert.detectedAt)
  {
    var r := w.store.records[p];
    && HonestRecord(h, r)
    && FlowsAllowed(r, FlowsOf(w, p)) && FlowsOf(w, p) <= 1
    && (NoAlertCollision(h, alert, r.alert) ==> (r.identity.value.fingerprint == h.raw(FingerprintBytes(alert)) <==> r.alert == alert))
  }

  lemma StoredAnswers(h: Hashes, clock: int, events: seq<Event>, alert: Alert, p: nat)
    requires CanRun(InitialWorld(clock), events) && HonestEvents(h, events) && InRange(alert.detectedAt)
    requires p in Run(InitialWorld(clock), events).store.records
    ensures Answers(h, Run(InitialWorld(clock), events), alert, p)
  {
    hide CanRun, Run, Inv, FingerprintBytes, FlowsAllowed, HonestStore, HonestEvents, FlowsOf;
    var w := Run(InitialWorld(clock), events);
    ReachableInv(clock, events);
    StoredIsHonest(h, clock, events, p);
    FlowAccounting(clock, events, p);
    AtMostOneFlow(w, p);
    FingerprintInjective(alert, w.store.records[p].alert);
  }

  /** One key has one processing. */
  lemma OneProcessing(clock: int, events: seq<Event>, key: (string, string), p: nat, q: nat)
    requires CanRun(InitialWorld(clock), events)
    requires Holds(Run(InitialWorld(clock), events).store, p, key) && Holds(Run(InitialWorld(clock), events).store, q, key)
    ensures p == q
  {
    hide CanRun, Run, Inv, Holds;
    ReachableInv(clock, events);
    SameHolder(Run(InitialWorld(clock), events), p, q, key);
  }

  /** And at most one submission. */
  lemma OneSubmission(clock: int, events: seq<Event>, key: (string, string), j: nat, k: nat)
    requires CanRun(InitialWorld(clock), events)
    requires var w := Run(InitialWorld(clock), events);
             j < |w.remote.calls| && k < |w.remote.calls| && KeyOfCall(w, j) == Some(key) && KeyOfCall(w, k) == Some(key)
    ensures j == k
  {
    hide CanRun, Run, KeyOfCall;
    if j < k {
      AtMostOneSubmit(clock, events, j, k);
    } else if k < j {
      AtMostOneSubmit(clock, events, k, j);
    }
  }

  /** In any run of any number of deliveries, workers, passes and crashes, a validated finding
      has a canonical alert under a valid key; that key has at most one processing and at most
      one submission; and the processing, if there is one, answers for the finding. */
  lemma OneFindingOneSubmission(h: Hashes, clock: int, events: seq<Event>, f: Finding, p: nat, q: nat, j: nat, k: nat)
    requires HashesOk(h) && FindingValid(f) && CanRun(InitialWorld(clock), events) && HonestEvents(h, events)
    ensures Canonicalize(f, h.hex).Some? && VisibleKey(ScopedKey(h, f).1)
    ensures Holds(Run(InitialWorld(clock), events).store, p, ScopedKey(h, f)) && Holds(Run(InitialWorld(clock), events).store, q, ScopedKey(h, f)) ==> p == q
    ensures var w := Run(InitialWorld(clock), events);
            j < |w.remote.calls| && k < |w.remote.calls| && KeyOfCall(w, j) == Some(ScopedKey(h, f)) && KeyOfCall(w, k) == Some(ScopedKey(h, f)) ==> j == k
    ensures Holds(Run(InitialWorld(clock), events).store, p, ScopedKey(h, f)) ==>
              Answers(h, Run(InitialWorld(clock), events), Canonicalize(f, h.hex).value, p)
  {
    CanonicalAlertValid(f, h.hex);
    hide CanRun, Run, Inv, FingerprintBytes, FindingBytes, BuildEvidence, KeyOfCall, Answers, HonestEvents, AlertValid, FindingKey, VisibleKey;
    KeyVisible(h, f);
    var w := Run(InitialWorld(clock), events);
    var key := ScopedKey(h, f);
    if Holds(w.store, p, key) {
      StoredAnswers(h, clock, events, Canonicalize(f, h.hex).value, p);
      if Holds(w.store, q, key) {
        OneProcessing(clock, events, key, p, q);
      }
    }
    if j < |w.remote.calls| && k < |w.remote.calls| && KeyOfCall(w, j) == Some(key) && KeyOfCall(w, k) == Some(key) {
      OneSubmission(clock, events, key, j, k);
    }
  }

  lemma KeyVisible(h: Hashes, f: Finding)
    requires HashesOk(h) && FindingValid(f)
    ensures VisibleKey(FindingKey(f, h.hex))
  {
    CanonicalAlertValid(f, h.hex);
    hide FindingKey, Canonicalize;
  }

  lemma StoredIsHonest(h: Hashes, clock: int, events: seq<Event>, p: nat)
    requires CanRun(InitialWorld(clock), events) && HonestEvents(h, events) && p in Run(InitialWorld(clock), events).store.records
    ensures HonestRecord(h, Run(InitialWorld(clock), events).store.records[p])
  {
    hide CanRun, Run, Inv, FingerprintBytes, HonestRecord;
    InitialInv(clock);
    RunHonest(h, InitialWorld(clock), events);
  }

  lemma SameHolder(w: World, p: nat, q: nat, key: (string, string))
    requires Inv(w) && Holds(w.store, p, key) && Holds(w.store, q, key)
    ensures p == q
  {
    hide RemoteOk, WorkersOk, TokensDistinct, RecordConstructs, AttemptConstructs, AlertValid, VisibleKey, Paired, IndexesOk, Tidy;
    assert RecordOk(w.store, p) && RecordOk(w.store, q);
  }

  lemma AtMostOneFlow(w: World, p: nat)
    requires Inv(w)
    ensures FlowsOf(w, p) <= 1
  {
    hide Lockstep, WorkersOk, TokensDistinct, LookupsOk, AllAccounted, CallsOk;
    if p in w.store.attemptOf {
      FlowCountBounds(w.remote.flows, w.store.attemptOf[p]);
    }
  }

  // ----- What a storage failure leaves behind

  function AcceptanceSeen(w: World, pid: nat, alert: Alert, key: string, fingerprint: seq<int>, o: Oracle): Reply<Acceptance> {
    Seen(AcceptProcessing(w.store, pid, alert, Identity(alert.source.source, key, 1, fingerprint), o.now).1, o)
  }

  /** The delivery result for a storage failure says that nothing was accepted. When acceptance
      itself is what failed, that is right unless the key was taken before, or the call
      committed a new record and only its answer was lost. */
  lemma AcceptanceFailure(rules: Delivery.TextRules, w: World, i: nat, pid: nat, alert: Alert, key: string, fingerprint: seq<int>, o: Oracle)
    requires Delivery.RulesOk(rules)
    requires Inv(w) && Enabled(w, BeginProcess(i, pid, alert, key, fingerprint, o))
    requires AcceptanceSeen(w, pid, alert, key, fingerprint, o).Raised?
    ensures var answer := Delivery.SubmitAlert(rules, Delivery.Replied(Delivery.AnswerReply(rules, Delivery.PersistenceFailed)));
            answer.Classified? && answer.result.retryable && !answer.result.acceptanceUnknown
    ensures var k := (alert.source.source, key);
            k in Apply(w, BeginProcess(i, pid, alert, key, fingerprint, o)).store.idempotency <==>
              k in w.store.idempotency || (o.ack == LostAck && VisibleKey(key) && pid !in w.store.records)
  {
    hide Inv, VisibleKey, AlertValid, Delivery.RulesOk, Delivery.SubmitAlert, Delivery.AnswerReply, Enabled, Apply, AcceptanceSeen;
    Delivery.StorageFailureAnswer(rules);
    EnabledDigest(w, i, pid, alert, key, fingerprint, o);
    KeyAfterFailure(w, i, pid, alert, key, fingerprint, o);
  }

  lemma KeyAfterFailure(w: World, i: nat, pid: nat, alert: Alert, key: string, fingerprint: seq<int>, o: Oracle)
    requires |fingerprint| == 32 && AcceptanceSeen(w, pid, alert, key, fingerprint, o).Raised?
    ensures var k := (alert.source.source, key);
            k in Apply(w, BeginProcess(i, pid, alert, key, fingerprint, o)).store.idempotency <==>
              k in w.store.idempotency || (o.ack == LostAck && VisibleKey(key) && pid !in w.store.records)
  {
    hide VisibleKey;
  }

  lemma EnabledDigest(w: World, i: nat, pid: nat, alert: Alert, key: string, fingerprint: seq<int>, o: Oracle)
    requires Enabled(w, BeginProcess(i, pid, alert, key, fingerprint, o))
    ensures |fingerprint| == 32
  {
  }

  /** When a later call is what failed, it is wrong: the key is stored already. */
  lemma LaterFailure(w: World, i: nat)
    requires Inv(w) && !At(w, i).Idle? && !At(w, i).NextItem?
    ensures var identity := At(w, i).rec.identity;
            identity.Some? && (identity.value.scope, identity.value.key) in w.store.idempotency
  {
    hide Lockstep, RemoteOk, TokensDistinct, RecordSnap, TodoOk, AttemptSnap;
    var rec := At(w, i).rec;
    PcRecord(w.store, w.remote, At(w, i));
    SnapKey(w.store, rec);
  }

  lemma PcRecord(s: Store, m: Remote, pc: Pc)
    requires PcOk(s, m, pc) && !pc.Idle? && !pc.NextItem?
    ensures RecordSnap(s, pc.rec)
  {
    hide RecordSnap, AttemptSnap, Owns, NoFlow, TokenOk, PlanCoherent, NoActionFrom, ResultFromSnap, ErrorTextOk, RemoteTextOk, OperationIdOk, CanRead;
  }

  lemma SnapKey(s: Store, rec: Record)
    requires Lockstep(s) && RecordSnap(s, rec)
    ensures rec.identity.Some? && (rec.identity.value.scope, rec.identity.value.key) in s.idempotency
  {
    hide IndexesOk, Paired, Tidy, RecordConstructs, AlertValid, VisibleKey, AttemptOk;
    assert RecordOk(s, rec.processingId);
  }
}
