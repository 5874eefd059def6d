/** Rows of the two PostgreSQL tables: how values are written into columns, how rows are
    read back (`persistence/postgres.py:108-329`), and the CHECK constraints of migrations
    0001 and 0002 as predicates. */
module Rows {
  import opened Domain
  import opened Lifecycle
  import opened Repository

  /** A `jsonb` value of the kinds the snapshot uses. */
  datatype Jsonb = JNull | JText(text: string) | JArray(items: seq<Jsonb>) | JObject(members: map<string, Jsonb>)

  datatype Row = Row(
    id: nat, createdAt: int, updatedAt: int, snapshotVersion: int,
    detectionIdentifier: string, detectionName: Option<string>, detectedAt: int,
    source: string, sourceAlertId: Option<string>, severity: string,
    entities: Jsonb, alertEvidence: Jsonb,
    idempotencyScope: Option<string>, idempotencyKey: Option<string>,
    fingerprintVersion: Option<int>, requestFingerprint: Option<seq<int>>,
    state: string, selectedBackend: Option<string>,
    decisionOutcome: Option<string>, policyId: Option<string>, decisionReasons: Option<Jsonb>,
    requestDesiredOutcome: Option<string>, requestCapabilities: Option<Jsonb>, requestTargets: Option<Jsonb>,
    resultBackend: Option<string>, resultCompletedCapabilities: Option<Jsonb>, resultEvidence: Option<Jsonb>,
    completedAt: Option<int>, failedAt: Option<int>, errorCategory: Option<string>, errorDetail: Option<string>)

  datatype AttemptRow = AttemptRow(
    attemptId: nat, processingId: nat, attemptNumber: int, operationKey: nat, backend: string, state: string,
    externalOperationId: Option<string>, createdAt: int, startedAt: Option<int>, submittedAt: Option<int>,
    lastPolledAt: Option<int>, completedAt: Option<int>, failedAt: Option<int>, lastRemoteState: Option<string>,
    errorCategory: Option<string>, errorDetail: Option<string>)

  // ----- Enumeration texts

  function StateText(s: ProcessingState): string {
    match s
    case Accepted => "accepted"
    case Planned => "planned"
    case Submitting => "submitting"
    case Submitted => "submitted"
    case Completed => "completed"
    case Failed => "failed"
    case RecoveryRequired => "recovery_required"
  }

  function ParseState(text: string): Option<ProcessingState> {
    if text == "accepted" then Some(Accepted)
    else if text == "planned" then Some(Planned)
    else if text == "submitting" then Some(Submitting)
    else if text == "submitted" then Some(Submitted)
    else if text == "completed" then Some(Completed)
    else if text == "failed" then Some(Failed)
    else if text == "recovery_required" then Some(RecoveryRequired)
    else None
  }

  function AttemptStateText(s: AttemptState): string {
    StateText(SameName(s))
  }

  function ParseAttemptState(text: string): Option<AttemptState> {
    match ParseState(text)
    case None => None
    case Some(s) =>
      match s
      case Accepted => None
      case Planned => Some(APlanned)
      case Submitting => Some(ASubmitting)
      case Submitted => Some(ASubmitted)
      case Completed => Some(ACompleted)
      case Failed => Some(AFailed)
      case RecoveryRequired => Some(ARecoveryRequired)
  }

  function OutcomeText(o: Outcome): string {
    match o
    case Investigate => "investigate"
    case NoAction => "no_action"
  }

  function ParseOutcome(text: string): Option<Outcome> {
    if text == "investigate" then Some(Investigate) else if text == "no_action" then Some(NoAction) else None
  }

  lemma ParseTexts()
    ensures forall s :: ParseState(StateText(s)) == Some(s)
    ensures forall s :: ParseSeverity(SeverityText(s)) == Some(s)
    ensures forall o :: ParseOutcome(OutcomeText(o)) == Some(o)
    ensures forall s :: ParseAttemptState(AttemptStateText(s)) == Some(s)
  {
    hide ParseState, StateText, ParseSeverity, SeverityText, ParseOutcome, OutcomeText;
    forall s ensures ParseState(StateText(s)) == Some(s) { ParseOne(s); }
    forall s ensures ParseAttemptState(AttemptStateText(s)) == Some(s) { ParseOne(SameName(s)); }
    forall s ensures ParseSeverity(SeverityText(s)) == Some(s) { ParseLevel(s); }
    forall o ensures ParseOutcome(OutcomeText(o)) == Some(o) { ParseDecision(o); }
  }

  lemma ParseLevel(s: Severity)
    ensures ParseSeverity(SeverityText(s)) == Some(s)
  {
  }

  lemma ParseDecision(o: Outcome)
    ensures ParseOutcome(OutcomeText(o)) == Some(o)
  {
  }

  lemma ParseOne(s: ProcessingState)
    ensures ParseState(StateText(s)) == Some(s)
  {
    match s
    case Accepted =>
    case Planned =>
    case Submitting =>
    case Submitted =>
    case Completed =>
    case Failed =>
    case RecoveryRequired =>
  }

  // ----- Encoding arrays

  function EncodeOptional(s: Option<string>): Jsonb {
    if s.Some? then JText(s.value) else JNull
  }

  function EncodeEntity(e: Entity): Jsonb {
    JObject(map["kind" := JText(e.kind), "value" := JText(e.value)])
  }

  function EncodeEntities(es: seq<Entity>): Jsonb {
    JArray(seq(|es|, i requires 0 <= i < |es| => EncodeEntity(es[i])))
  }

  function EncodeOneEvidence(e: Evidence): Jsonb {
    JObject(map["reference" := JText(e.reference), "kind" := EncodeOptional(e.kind)])
  }

  function EncodeEvidence(es: seq<Evidence>): Jsonb {
    JArray(seq(|es|, i requires 0 <= i < |es| => EncodeOneEvidence(es[i])))
  }

  function EncodeStrings(ss: seq<string>): Jsonb {
    JArray(seq(|ss|, i requires 0 <= i < |ss| => JText(ss[i])))
  }

  // ----- Decoding arrays: any shape the code does not accept raises

  function DecodeEntity(item: Jsonb): Reply<Entity> {
    if !item.JObject? || item.members.Keys != {"kind", "value"} then Raised
    else if !item.members["kind"].JText? || !item.members["value"].JText? then Raised
    else
      var e := Entity(item.members["kind"].text, item.members["value"].text);
      if EntityValid(e) then Returned(e) else Raised
  }

  function DecodeOneEvidence(item: Jsonb): Reply<Evidence> {
    if !item.JObject? || item.members.Keys != {"reference", "kind"} then Raised
    else if !item.members["reference"].JText? then Raised
    else if !item.members["kind"].JText? && !item.members["kind"].JNull? then Raised
    else
      var kind := if item.members["kind"].JText? then Some(item.members["kind"].text) else None;
      var e := Evidence(item.members["reference"].text, kind);
      if EvidenceValid(e) then Returned(e) else Raised
  }

  function DecodeText(item: Jsonb): Reply<string> {
    if item.JText? then Returned(item.text) else Raised
  }

  function DecodeAll<T>(items: seq<Jsonb>, decode: Jsonb -> Reply<T>): Reply<seq<T>> {
    if items == [] then Returned([])
    else
      var first := decode(items[0]);
      if first.Raised? then Raised
      else
        var rest := DecodeAll(items[1..], decode);
        if rest.Raised? then Raised else Returned([first.value] + rest.value)
  }

  function DecodeArray<T>(value: Jsonb, decode: Jsonb -> Reply<T>): Reply<seq<T>> {
    if value.JArray? then DecodeAll(value.items, decode) else Raised
  }

  /** A decoder that undoes an encoder item by item undoes it on whole arrays, in order. */
  lemma {:induction false} DecodeAllInverse<A, T>(values: seq<A>, items: seq<Jsonb>, expected: seq<T>, decode: Jsonb -> Reply<T>)
    requires |items| == |values| == |expected|
    requires forall i :: 0 <= i < |items| ==> decode(items[i]) == Returned(expected[i])
    ensures DecodeAll(items, decode) == Returned(expected)
  {
    if items != [] {
      DecodeAllInverse(values[1..], items[1..], expected[1..], decode);
      assert expected == [expected[0]] + expected[1..];
    }
  }

  lemma EntitiesRoundTrip(es: seq<Entity>)
    requires EntitiesValid(es)
    ensures DecodeArray(EncodeEntities(es), DecodeEntity) == Returned(es)
  {
    hide EntityValid;
    var items := EncodeEntities(es).items;
    forall i | 0 <= i < |items| ensures DecodeEntity(items[i]) == Returned(es[i]) {
      assert items[i] == EncodeEntity(es[i]);
      assert EncodeEntity(es[i]).members.Keys == {"kind", "value"};
    }
    DecodeAllInverse(es, items, es, DecodeEntity);
  }

  lemma EvidenceRoundTrip(es: seq<Evidence>)
    requires EvidencesValid(es)
    ensures DecodeArray(EncodeEvidence(es), DecodeOneEvidence) == Returned(es)
  {
    hide EvidenceValid;
    var items := EncodeEvidence(es).items;
    forall i | 0 <= i < |items| ensures DecodeOneEvidence(items[i]) == Returned(es[i]) {
      assert items[i] == EncodeOneEvidence(es[i]);
      assert EncodeOneEvidence(es[i]).members.Keys == {"reference", "kind"};
    }
    DecodeAllInverse(es, items, es, DecodeOneEvidence);
  }

  lemma StringsRoundTrip(ss: seq<string>)
    ensures DecodeArray(EncodeStrings(ss), DecodeText) == Returned(ss)
  {
    var items := EncodeStrings(ss).items;
    DecodeAllInverse(ss, items, ss, DecodeText);
  }

  // ----- Whole rows

  function MapOption<A, B>(a: Option<A>, f: A -> B): Option<B> {
    if a.Some? then Some(f(a.value)) else None
  }

  function ResultOf(r: Record): Option<InvestigationResult> {
    if r.completedResult.Some? then r.completedResult.value.investigation else None
  }

  /** The columns a record occupies: what `_canonical_values`, `_decision_values`,
      `_request_values` and `_result_values` have written into it by then. The decision and
      request columns hold the public decision and request; completion does not rewrite them. */
  function RowOf(r: Record): Row {
    Row(
      r.processingId, r.createdAt, r.updatedAt, 1,
      r.alert.detection.identifier, r.alert.detection.name, r.alert.detectedAt,
      r.alert.source.source, r.alert.source.sourceAlertId, SeverityText(r.alert.severity),
      EncodeEntities(r.alert.entities), EncodeEvidence(r.alert.evidence),
      MapOption(r.identity, (i: Identity) => i.scope), MapOption(r.identity, (i: Identity) => i.key),
      MapOption(r.identity, (i: Identity) => i.version), MapOption(r.identity, (i: Identity) => i.fingerprint),
      StateText(r.state), r.selectedBackend,
      MapOption(r.Decision(), (d: Decision) => OutcomeText(d.outcome)),
      MapOption(r.Decision(), (d: Decision) => d.policyId),
      MapOption(r.Decision(), (d: Decision) => EncodeStrings(d.reasons)),
      MapOption(r.Request(), (q: Request) => q.desiredOutcome),
      MapOption(r.Request(), (q: Request) => EncodeStrings(q.requiredCapabilities)),
      MapOption(r.Request(), (q: Request) => EncodeEntities(q.targets)),
      MapOption(ResultOf(r), (v: InvestigationResult) => v.backend),
      MapOption(ResultOf(r), (v: InvestigationResult) => EncodeStrings(v.completedCapabilities)),
      MapOption(ResultOf(r), (v: InvestigationResult) => EncodeEvidence(v.evidence)),
      r.completedAt, r.failedAt,
      MapOption(r.error, (e: ErrorInfo) => e.category), MapOption(r.error, (e: ErrorInfo) => e.detail))
  }

  function AttemptRowOf(a: Attempt): AttemptRow {
    AttemptRow(
      a.attemptId, a.processingId, a.attemptNumber, a.operationKey, a.backend, AttemptStateText(a.state),
      a.externalOperationId, a.createdAt, a.startedAt, a.submittedAt, a.lastPolledAt, a.completedAt, a.failedAt,
      a.lastRemoteState, MapOption(a.error, (e: ErrorInfo) => e.category), MapOption(a.error, (e: ErrorInfo) => e.detail))
  }

  /** The paired nullable columns; the constructor raises when only one is set. */
  function PairColumns(category: Option<string>, detail: Option<string>): Reply<Option<ErrorInfo>> {
    if category.None? && detail.None? then Returned(None)
    else if category.Some? && detail.Some? then Returned(Some(ErrorInfo(category.value, detail.value)))
    else Raised
  }

  function IdentityColumns(row: Row): Reply<Option<Identity>> {
    if row.idempotencyScope.None? && row.idempotencyKey.None? && row.fingerprintVersion.None? && row.requestFingerprint.None? then
      Returned(None)
    else if row.idempotencyScope.Some? && row.idempotencyKey.Some? && row.fingerprintVersion.Some? && row.requestFingerprint.Some? then
      Returned(Some(Identity(row.idempotencyScope.value, row.idempotencyKey.value, row.fingerprintVersion.value, row.requestFingerprint.value)))
    else Raised
  }

  function DecodeAlert(row: Row): Reply<Alert> {
    var entities := DecodeArray(row.entities, DecodeEntity);
    var evidence := DecodeArray(row.alertEvidence, DecodeOneEvidence);
    var severity := ParseSeverity(row.severity);
    if entities.Raised? || evidence.Raised? || severity.None? then Raised
    else
      var alert := Alert(Detection(row.detectionIdentifier, row.detectionName), row.detectedAt,
                         Source(row.source, row.sourceAlertId), entities.value, severity.value, evidence.value);
      if AlertValid(alert) then Returned(alert) else Raised
  }

  function DecodeDecision(row: Row, source: Source): Reply<Option<Decision>> {
    if row.decisionOutcome.None? then Returned(None)
    else
      var outcome := ParseOutcome(row.decisionOutcome.value);
      if outcome.None? || row.policyId.None? || row.decisionReasons.None? then Raised
      else
        var reasons := DecodeArray(row.decisionReasons.value, DecodeText);
        if reasons.Raised? then Raised
        else
          var d := Decision(outcome.value, row.policyId.value, reasons.value, source);
          if DecisionValid(d) then Returned(Some(d)) else Raised
  }

  function DecodeRequest(row: Row, alert: Alert, decision: Option<Decision>): Reply<Option<Request>> {
    if decision.None? || decision.value.outcome != Investigate || row.requestDesiredOutcome.None? then Returned(None)
    else if row.requestCapabilities.None? || row.requestTargets.None? then Raised
    else
      var incident := Incident(alert, decision.value);
      var capabilities := DecodeArray(row.requestCapabilities.value, DecodeText);
      var targets := DecodeArray(row.requestTargets.value, DecodeEntity);
      if !IncidentValid(incident) || capabilities.Raised? || targets.Raised? then Raised
      else
        var q := Request(incident, row.requestDesiredOutcome.value, capabilities.value, targets.value);
        if RequestValid(q) then Returned(Some(q)) else Raised
  }

  function DecodeResult(row: Row, state: ProcessingState, decision: Option<Decision>, request: Option<Request>)
    : Reply<Option<OrchestrationResult>>
  {
    if state != Completed then Returned(None)
    else if decision.None? then Raised
    else if decision.value.outcome == NoAction then Returned(Some(OrchestrationResult(decision.value, None, None, None)))
    else if request.None? || row.resultBackend.None? || row.resultCompletedCapabilities.None? || row.resultEvidence.None? then Raised
    else
      var capabilities := DecodeArray(row.resultCompletedCapabilities.value, DecodeText);
      var evidence := DecodeArray(row.resultEvidence.value, DecodeOneEvidence);
      if capabilities.Raised? || evidence.Raised? then Raised
      else
        var investigation := InvestigationResult(row.resultBackend.value, capabilities.value, evidence.value);
        var result := OrchestrationResult(decision.value, Some(request.value.incident), request, Some(investigation));
        if InvestigationValid(investigation) && ResultValid(result) then Returned(Some(result)) else Raised
  }

  /** `_deserialize_processing`. */
  function DeserializeProcessing(row: Row): Reply<Record> {
    var alert := DecodeAlert(row);
    var state := ParseState(row.state);
    if row.snapshotVersion != 1 || alert.Raised? || state.None? then Raised
    else
      var decision := DecodeDecision(row, alert.value.source);
      if decision.Raised? then Raised
      else
        var request := DecodeRequest(row, alert.value, decision.value);
        if request.Raised? then Raised
        else
          var result := DecodeResult(row, state.value, decision.value, request.value);
          var identity := IdentityColumns(row);
          var error := PairColumns(row.errorCategory, row.errorDetail);
          if result.Raised? || identity.Raised? || error.Raised? then Raised
          else
            var open := result.value.None?;
            var r := Record(
              row.id, row.createdAt, row.updatedAt, alert.value, state.value, identity.value,
              if open then decision.value else None,
              if open then MapOption(request.value, (q: Request) => q.incident) else None,
              if open then request.value else None,
              row.selectedBackend, result.value, row.completedAt, row.failedAt, error.value);
            if RecordConstructs(r) then Returned(r) else Raised
  }

  /** `_deserialize_attempt`. */
  function DeserializeAttempt(row: AttemptRow): Reply<Attempt> {
    var state := ParseAttemptState(row.state);
    var error := PairColumns(row.errorCategory, row.errorDetail);
    if state.None? || error.Raised? then Raised
    else
      var a := Attempt(row.attemptId, row.processingId, row.attemptNumber, row.operationKey, row.backend, state.value,
                       row.createdAt, row.startedAt, row.submittedAt, row.lastPolledAt, row.completedAt, row.failedAt,
                       row.externalOperationId, row.lastRemoteState, error.value);
      if AttemptConstructs(a) then Returned(a) else Raised
  }

  // ----- Round trips

  /** A completed record read back from its row has no planned fields of its own: only the
      result carries them. Everything public is the same. */
  function Public(r: Record): Record {
    if r.completedResult.Some? then r.(plannedDecision := None, plannedIncident := None, plannedRequest := None) else r
  }

  lemma PublicProjections(r: Record)
    ensures Public(r).Decision() == r.Decision() && Public(r).Incident() == r.Incident() && Public(r).Request() == r.Request()
    ensures Public(r).completedResult == r.completedResult && Public(r).state == r.state && Public(r).error == r.error
  {
  }

  lemma AlertRoundTrip(r: Record)
    requires AlertValid(r.alert)
    ensures DecodeAlert(RowOf(r)) == Returned(r.alert)
  {
    hide NonBlank, EntityValid, EvidenceValid, DecodeArray, EncodeEntities, EncodeEvidence;
    EntitiesRoundTrip(r.alert.entities);
    EvidenceRoundTrip(r.alert.evidence);
    ParseTexts();
  }

  lemma DecisionRoundTrip(r: Record)
    requires r.Decision().Some? ==> DecisionValid(r.Decision().value) && r.Decision().value.source == r.alert.source
    ensures DecodeDecision(RowOf(r), r.alert.source) == Returned(r.Decision())
  {
    hide NonBlank, DecodeArray, EncodeEntities, EncodeEvidence, EncodeStrings, DecisionValid;
    if r.Decision().Some? {
      StringsRoundTrip(r.Decision().value.reasons);
      ParseTexts();
    }
  }

  lemma RequestRoundTrip(r: Record)
    requires match r.Request()
             case None => r.Decision().None? || r.Decision().value.outcome == NoAction
             case Some(q) =>
               r.Decision().Some? && r.Decision().value.outcome == Investigate && RequestValid(q)
               && q.incident == Incident(r.alert, r.Decision().value) && r.Decision().value.source == r.alert.source
    ensures DecodeRequest(RowOf(r), r.alert, r.Decision()) == Returned(r.Request())
  {
    hide NonBlank, DecodeArray, EncodeEntities, EncodeEvidence, EncodeStrings, EntityValid;
    if r.Request().Some? {
      StringsRoundTrip(r.Request().value.requiredCapabilities);
      EntitiesRoundTrip(r.Request().value.targets);
    }
  }

  lemma ResultRoundTrip(r: Record)
    requires r.state == Completed <==> r.completedResult.Some?
    requires r.completedResult.Some? ==>
      var result := r.completedResult.value;
      && ResultValid(result)
      && (result.decision.outcome == Investigate ==> InvestigationValid(result.investigation.value))
    ensures DecodeResult(RowOf(r), r.state, r.Decision(), r.Request()) == Returned(r.completedResult)
  {
    hide NonBlank, DecodeArray, EncodeEntities, EncodeEvidence, EncodeStrings, EvidenceValid;
    if r.completedResult.Some? && r.completedResult.value.decision.outcome == Investigate {
      var v := r.completedResult.value.investigation.value;
      StringsRoundTrip(v.completedCapabilities);
      EvidenceRoundTrip(v.evidence);
    }
  }

  /** What a record of the store says about its public decision, request and result. */
  predicate PublicCoherent(r: Record) {
    && AlertValid(r.alert)
    && (r.Decision().Some? ==> DecisionValid(r.Decision().value) && r.Decision().value.source == r.alert.source)
    && (match r.Request()
        case None => (r.Decision().None? || r.Decision().value.outcome == NoAction) && r.Incident().None?
        case Some(q) =>
          r.Decision().Some? && r.Decision().value.outcome == Investigate && RequestValid(q)
          && q.incident == Incident(r.alert, r.Decision().value) && r.Incident() == Some(q.incident))
    && (r.state == Completed <==> r.completedResult.Some?)
    && (r.completedResult.Some? ==>
          var result := r.completedResult.value;
          && ResultValid(result)
          && (result.decision.outcome == Investigate ==> InvestigationValid(result.investigation.value)))
  }

  lemma StoredCoherent(s: Store, pid: nat)
    requires Lockstep(s) && pid in s.records
    ensures PublicCoherent(s.records[pid]) && RecordConstructs(s.records[pid]) && Tidy(s.records[pid])
    ensures s.records[pid].identity.Some? && VisibleKey(s.records[pid].identity.value.key)
    ensures s.records[pid].identity.value.scope == s.records[pid].alert.source.source
    ensures Paired(s.records[pid], AttemptOf(s, pid))
  {
    hide IndexesOk, AttemptOk, Tidy, VisibleKey, NonBlank, AllNonBlank, EntitiesValid, AlertValid, InvestigationValid, AttemptOf;
    assert RecordOk(s, pid);
  }

  /** Snapshot round trip: the row of any stored record deserializes, and gives back the same
      alert, decision, incident, request, result, backend, times and error. */
  lemma SnapshotRoundTrip(s: Store, pid: nat)
    requires Lockstep(s) && pid in s.records
    ensures DeserializeProcessing(RowOf(s.records[pid])) == Returned(Public(s.records[pid]))
  {
    hide Lockstep, Paired, Tidy, VisibleKey;
    StoredCoherent(s, pid);
    RowRoundTrip(s.records[pid]);
  }

  lemma RowRoundTrip(r: Record)
    requires PublicCoherent(r) && RecordConstructs(r) && r.identity.Some?
    ensures DeserializeProcessing(RowOf(r)) == Returned(Public(r))
  {
    AlertRoundTrip(r);
    DecisionRoundTrip(r);
    RequestRoundTrip(r);
    ResultRoundTrip(r);
    ParseOne(r.state);
    RowRemainder(r);
  }

  /** The scalar columns, once the structured ones are known to come back. */
  lemma RowRemainder(r: Record)
    requires PublicCoherent(r) && RecordConstructs(r) && r.identity.Some?
    requires DecodeAlert(RowOf(r)) == Returned(r.alert) && ParseState(RowOf(r).state) == Some(r.state)
    requires DecodeDecision(RowOf(r), r.alert.source) == Returned(r.Decision())
    requires DecodeRequest(RowOf(r), r.alert, r.Decision()) == Returned(r.Request())
    requires DecodeResult(RowOf(r), r.state, r.Decision(), r.Request()) == Returned(r.completedResult)
    ensures DeserializeProcessing(RowOf(r)) == Returned(Public(r))
  {
    hide DecodeAlert, DecodeDecision, DecodeRequest, DecodeResult, ParseState, EncodeEntities, EncodeEvidence, EncodeStrings;
    hide AlertValid, DecisionValid, RequestValid, ResultValid, InvestigationValid, StateText, SeverityText, OutcomeText;
  }

  lemma AttemptRoundTrip(a: Attempt)
    requires AttemptConstructs(a)
    ensures DeserializeAttempt(AttemptRowOf(a)) == Returned(a)
  {
    hide NonBlank, OperationIdOk;
    ParseTexts();
  }
}
