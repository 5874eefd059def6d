/** Canonical alert, decision and investigation values, with the checks their
    constructors make (`core/models.py`, `core/workflow.py`, `backends/base.py`,
    `application/orchestrator.py`). An instant is a number of microseconds since
    1970-01-01T00:00:00Z, so two aware datetimes are equal exactly when they
    denote the same instant. */
module Domain {
  datatype Option<+T> = None | Some(value: T)

  /** The characters `str.strip` removes. */
  predicate IsSpace(c: char) {
    var n := c as int;
    || 0x09 <= n <= 0x0d || 0x1c <= n <= 0x20 || n == 0x85 || n == 0xa0
    || n == 0x1680 || 0x2000 <= n <= 0x200a || n == 0x2028 || n == 0x2029
    || n == 0x202f || n == 0x205f || n == 0x3000
  }

  predicate NonBlank(s: string) {
    exists i :: 0 <= i < |s| && !IsSpace(s[i])
  }

  lemma StartsNonBlank(s: string)
    requires |s| > 0 && !IsSpace(s[0])
    ensures NonBlank(s)
  {
  }

  lemma EndsNonBlank(s: string)
    requires |s| > 0 && !IsSpace(s[|s| - 1])
    ensures NonBlank(s)
  {
  }

  predicate OptionalNonBlank(s: Option<string>) {
    s.Some? ==> NonBlank(s.value)
  }

  predicate AllNonBlank(values: seq<string>) {
    forall i :: 0 <= i < |values| ==> NonBlank(values[i])
  }

  datatype Severity = Low | Medium | High | Critical

  /** The enumeration's text, in documents and in columns alike. */
  function SeverityText(s: Severity): string {
    match s
    case Low => "low"
    case Medium => "medium"
    case High => "high"
    case Critical => "critical"
  }

  function ParseSeverity(text: string): Option<Severity> {
    if text == "low" then Some(Low)
    else if text == "medium" then Some(Medium)
    else if text == "high" then Some(High)
    else if text == "critical" then Some(Critical)
    else None
  }

  datatype Detection = Detection(identifier: string, name: Option<string>)
  datatype Source = Source(source: string, sourceAlertId: Option<string>)
  datatype Entity = Entity(kind: string, value: string)
  datatype Evidence = Evidence(reference: string, kind: Option<string>)

  datatype Alert = Alert(
    detection: Detection,
    detectedAt: int,
    source: Source,
    entities: seq<Entity>,
    severity: Severity,
    evidence: seq<Evidence>)

  predicate EntityValid(e: Entity) {
    NonBlank(e.kind) && NonBlank(e.value)
  }

  predicate EvidenceValid(e: Evidence) {
    NonBlank(e.reference) && OptionalNonBlank(e.kind)
  }

  predicate EntitiesValid(es: seq<Entity>) {
    forall i :: 0 <= i < |es| ==> EntityValid(es[i])
  }

  predicate EvidencesValid(es: seq<Evidence>) {
    forall i :: 0 <= i < |es| ==> EvidenceValid(es[i])
  }

  predicate AlertValid(a: Alert) {
    && NonBlank(a.detection.identifier) && OptionalNonBlank(a.detection.name)
    && NonBlank(a.source.source) && OptionalNonBlank(a.source.sourceAlertId)
    && EntitiesValid(a.entities) && EvidencesValid(a.evidence)
  }

  datatype Outcome = Investigate | NoAction

  datatype Decision = Decision(outcome: Outcome, policyId: string, reasons: seq<string>, source: Source)
  datatype Incident = Incident(alert: Alert, decision: Decision)
  datatype Request = Request(
    incident: Incident,
    desiredOutcome: string,
    requiredCapabilities: seq<string>,
    targets: seq<Entity>)
  datatype InvestigationResult = InvestigationResult(
    backend: string,
    completedCapabilities: seq<string>,
    evidence: seq<Evidence>)
  datatype OrchestrationResult = OrchestrationResult(
    decision: Decision,
    incident: Option<Incident>,
    request: Option<Request>,
    investigation: Option<InvestigationResult>)

  predicate DecisionValid(d: Decision) {
    NonBlank(d.policyId) && |d.reasons| > 0 && AllNonBlank(d.reasons)
  }

  predicate IncidentValid(i: Incident) {
    i.decision.outcome == Investigate && i.decision.source == i.alert.source
  }

  predicate RequestValid(r: Request) {
    && NonBlank(r.desiredOutcome)
    && |r.requiredCapabilities| > 0 && AllNonBlank(r.requiredCapabilities)
    && EntitiesValid(r.targets)
  }

  predicate InvestigationValid(r: InvestigationResult) {
    NonBlank(r.backend) && AllNonBlank(r.completedCapabilities) && EvidencesValid(r.evidence)
  }

  predicate ResultValid(r: OrchestrationResult) {
    match r.decision.outcome
    case NoAction => r.incident.None? && r.request.None? && r.investigation.None?
    case Investigate =>
      && r.incident.Some? && r.request.Some? && r.investigation.Some?
      && r.incident.value.decision == r.decision
      && r.request.value.incident == r.incident.value
  }

  /** Everything reachable from a constructed investigation plan is itself constructed:
      what `AlertOrchestrator.plan` returns for an investigate decision. */
  predicate PlanCoherent(alert: Alert, decision: Decision, incident: Incident, request: Request) {
    && DecisionValid(decision) && decision.outcome == Investigate && decision.source == alert.source
    && incident == Incident(alert, decision)
    && RequestValid(request) && request.incident == incident
  }
}
