/** The two documents that carry identity - the canonical fingerprint
    (`application/fingerprinting.py`) and the Splunk finding identity
    (`adapters/splunk/idempotency.py`) - determine every field they are made from. */
module Fingerprint {
  import opened Domain
  import opened Json
  import Utf8
  import opened Calendar
  import opened Timestamps

  function OptionalText(s: Option<string>): Json {
    if s.Some? then JStr(s.value) else JNull
  }

  function DetectionDocument(d: Detection): seq<Member> {
    [Member("identifier", JStr(d.identifier)), Member("name", OptionalText(d.name))]
  }

  function SourceDocument(s: Source): seq<Member> {
    [Member("source", JStr(s.source)), Member("source_alert_id", OptionalText(s.sourceAlertId))]
  }

  function EntityDocument(e: Entity): seq<Member> {
    [Member("kind", JStr(e.kind)), Member("value", JStr(e.value))]
  }

  function EvidenceDocument(e: Evidence): seq<Member> {
    [Member("reference", JStr(e.reference)), Member("kind", OptionalText(e.kind))]
  }

  function EntityItems(es: seq<Entity>): seq<Json> {
    seq(|es|, i requires 0 <= i < |es| => JObj(EntityDocument(es[i])))
  }

  function EvidenceItems(es: seq<Evidence>): seq<Json> {
    seq(|es|, i requires 0 <= i < |es| => JObj(EvidenceDocument(es[i])))
  }

  const FINGERPRINT_SCHEMA := "alert2ir.canonical-alert-fingerprint.v1"

  /** `canonical_fingerprint_document`. */
  function FingerprintDocument(a: Alert): seq<Member>
    requires InRange(a.detectedAt)
  {
    [Member("schema", JStr(FINGERPRINT_SCHEMA)),
     Member("detection", JObj(DetectionDocument(a.detection))),
     Member("detected_at", JStr(Print(a.detectedAt))),
     Member("source", JObj(SourceDocument(a.source))),
     Member("entities", JArr(EntityItems(a.entities))),
     Member("severity", JStr(SeverityText(a.severity))),
     Member("evidence", JArr(EvidenceItems(a.evidence)))]
  }

  /** `canonical_fingerprint_bytes`. */
  function FingerprintBytes(a: Alert): seq<int>
    requires InRange(a.detectedAt)
  {
    Utf8.Encode(Dumps(JObj(FingerprintDocument(a))))
  }

  datatype FindingIdentity = FindingIdentity(ruleId: string, channel: string, computer: string, detectedAt: int, eventCode: nat, recordId: nat)

  const FINDING_SCHEMA := "alert2ir.splunk-finding-id.v1"

  function EventDocument(f: FindingIdentity): seq<Member>
    requires InRange(f.detectedAt)
  {
    [Member("channel", JStr(f.channel)), Member("computer", JStr(f.computer)), Member("detected_at", JStr(Print(f.detectedAt))),
     Member("event_code", JInt(f.eventCode)), Member("record_id", JInt(f.recordId))]
  }

  /** `finding_identity_document`. */
  function FindingDocument(f: FindingIdentity): seq<Member>
    requires InRange(f.detectedAt)
  {
    [Member("schema", JStr(FINDING_SCHEMA)), Member("detection_id", JStr(f.ruleId)), Member("event", JObj(EventDocument(f)))]
  }

  function FindingBytes(f: FindingIdentity): seq<int>
    requires InRange(f.detectedAt)
  {
    Utf8.Encode(Dumps(JObj(FindingDocument(f))))
  }

  // ----- Distinct keys

  lemma FingerprintKeys(a: Alert)
    requires InRange(a.detectedAt)
    ensures DistinctKeys(FingerprintDocument(a))
  {
    hide Print;
    var keys := ["schema", "detection", "detected_at", "source", "entities", "severity", "evidence"];
    assert keys[0] == "schema" && keys[0][1] == 'c';
    assert keys[1][6] == 'i' && |keys[1]| == 9 && |keys[2]| == 11;
    assert keys[3][1] == 'o' && keys[5][1] == 'e' && keys[5][0] == 's';
    assert keys[4][1] == 'n' && keys[6][1] == 'v' && |keys[4]| == 8 && |keys[6]| == 8;
  }

  lemma FindingKeys(f: FindingIdentity)
    requires InRange(f.detectedAt)
    ensures DistinctKeys(FindingDocument(f)) && DistinctKeys(EventDocument(f))
  {
    hide Print;
    var ms := EventDocument(f);
    assert |ms[0].key| == 7 && |ms[1].key| == 8 && |ms[2].key| == 11 && |ms[3].key| == 10 && |ms[4].key| == 9;
    var ns := FindingDocument(f);
    assert |ns[0].key| == 6 && |ns[1].key| == 12 && |ns[2].key| == 5;
  }

  // ----- Reading fields back

  lemma SameOptional(a: Option<string>, b: Option<string>)
    requires Sorted(OptionalText(a)) == Sorted(OptionalText(b))
    ensures a == b
  {
  }

  lemma SameDetection(a: Detection, b: Detection)
    requires Sorted(JObj(DetectionDocument(a))) == Sorted(JObj(DetectionDocument(b)))
    ensures a == b
  {
    assert |DetectionDocument(a)[0].key| == 10 && |DetectionDocument(a)[1].key| == 4;
    SameUnderKey(DetectionDocument(a), DetectionDocument(b), 0, 0);
    SameUnderKey(DetectionDocument(a), DetectionDocument(b), 1, 1);
    SameOptional(a.name, b.name);
  }

  lemma SameSource(a: Source, b: Source)
    requires Sorted(JObj(SourceDocument(a))) == Sorted(JObj(SourceDocument(b)))
    ensures a == b
  {
    assert |SourceDocument(a)[0].key| == 6 && |SourceDocument(a)[1].key| == 15;
    SameUnderKey(SourceDocument(a), SourceDocument(b), 0, 0);
    SameUnderKey(SourceDocument(a), SourceDocument(b), 1, 1);
    SameOptional(a.sourceAlertId, b.sourceAlertId);
  }

  lemma SameEntity(a: Entity, b: Entity)
    requires Sorted(JObj(EntityDocument(a))) == Sorted(JObj(EntityDocument(b)))
    ensures a == b
  {
    assert |EntityDocument(a)[0].key| == 4 && |EntityDocument(a)[1].key| == 5;
    SameUnderKey(EntityDocument(a), EntityDocument(b), 0, 0);
    SameUnderKey(EntityDocument(a), EntityDocument(b), 1, 1);
  }

  lemma SameEvidence(a: Evidence, b: Evidence)
    requires Sorted(JObj(EvidenceDocument(a))) == Sorted(JObj(EvidenceDocument(b)))
    ensures a == b
  {
    assert |EvidenceDocument(a)[0].key| == 9 && |EvidenceDocument(a)[1].key| == 4;
    SameUnderKey(EvidenceDocument(a), EvidenceDocument(b), 0, 0);
    SameUnderKey(EvidenceDocument(a), EvidenceDocument(b), 1, 1);
    SameOptional(a.kind, b.kind);
  }

  lemma SameArray(xs: seq<Json>, ys: seq<Json>)
    requires Sorted(JArr(xs)) == Sorted(JArr(ys))
    ensures |xs| == |ys| && forall i :: 0 <= i < |xs| ==> Sorted(xs[i]) == Sorted(ys[i])
  {
    assert SortedItems(xs) == SortedItems(ys);
    assert forall i :: 0 <= i < |xs| ==> SortedItems(xs)[i] == SortedItems(ys)[i];
  }

  lemma SameEntities(a: seq<Entity>, b: seq<Entity>)
    requires Sorted(JArr(EntityItems(a))) == Sorted(JArr(EntityItems(b)))
    ensures a == b
  {
    hide Sorted, EntityDocument;
    SameArray(EntityItems(a), EntityItems(b));
    forall i | 0 <= i < |a| ensures a[i] == b[i] {
      assert EntityItems(a)[i] == JObj(EntityDocument(a[i])) && EntityItems(b)[i] == JObj(EntityDocument(b[i]));
      SameEntity(a[i], b[i]);
    }
  }

  lemma SameEvidences(a: seq<Evidence>, b: seq<Evidence>)
    requires Sorted(JArr(EvidenceItems(a))) == Sorted(JArr(EvidenceItems(b)))
    ensures a == b
  {
    hide Sorted, EvidenceDocument;
    SameArray(EvidenceItems(a), EvidenceItems(b));
    forall i | 0 <= i < |a| ensures a[i] == b[i] {
      assert EvidenceItems(a)[i] == JObj(EvidenceDocument(a[i])) && EvidenceItems(b)[i] == JObj(EvidenceDocument(b[i]));
      SameEvidence(a[i], b[i]);
    }
  }

  lemma SameText(s: string, t: string)
    requires Sorted(JStr(s)) == Sorted(JStr(t))
    ensures s == t
  {
  }

  lemma SameSeverity(a: Severity, b: Severity)
    requires SeverityText(a) == SeverityText(b)
    ensures a == b
  {
  }

  lemma SameDocument(xs: seq<Member>, ys: seq<Member>)
    requires Utf8.Encode(Dumps(JObj(xs))) == Utf8.Encode(Dumps(JObj(ys)))
    ensures Sorted(JObj(xs)) == Sorted(JObj(ys))
  {
    hide Text, Sorted;
    Utf8.EncodeInjective(Dumps(JObj(xs)), Dumps(JObj(ys)));
    TextInjective(Sorted(JObj(xs)), Sorted(JObj(ys)));
  }

  /** Two canonical alerts have the same fingerprint bytes exactly when every field and the
      order of every list agree, with the detection time compared as an instant. */
  lemma FingerprintInjective(a: Alert, b: Alert)
    requires InRange(a.detectedAt) && InRange(b.detectedAt)
    ensures FingerprintBytes(a) == FingerprintBytes(b) <==> a == b
  {
    hide Text, Sorted, Print, EntityItems, EvidenceItems, DetectionDocument, SourceDocument, SeverityText, DistinctKeys, FingerprintBytes;
    if FingerprintBytes(a) == FingerprintBytes(b) {
      FingerprintSame(a, b);
    }
  }

  lemma FingerprintSame(a: Alert, b: Alert)
    requires InRange(a.detectedAt) && InRange(b.detectedAt) && FingerprintBytes(a) == FingerprintBytes(b)
    ensures a == b
  {
    hide Text, Sorted, Print, EntityItems, EvidenceItems, DetectionDocument, SourceDocument, SeverityText, DistinctKeys, Utf8.Encode;
    var xs, ys := FingerprintDocument(a), FingerprintDocument(b);
    FingerprintKeys(a);
    FingerprintKeys(b);
    SameDocument(xs, ys);
    SameUnderKey(xs, ys, 1, 1);
    SameDetection(a.detection, b.detection);
    SameUnderKey(xs, ys, 2, 2);
    SameText(Print(a.detectedAt), Print(b.detectedAt));
    PrintInjective(a.detectedAt, b.detectedAt);
    SameUnderKey(xs, ys, 3, 3);
    SameSource(a.source, b.source);
    SameUnderKey(xs, ys, 4, 4);
    SameEntities(a.entities, b.entities);
    SameUnderKey(xs, ys, 5, 5);
    SameText(SeverityText(a.severity), SeverityText(b.severity));
    SameSeverity(a.severity, b.severity);
    SameUnderKey(xs, ys, 6, 6);
    SameEvidences(a.evidence, b.evidence);
  }

  /** Two findings have the same identity bytes exactly when rule, channel, computer, instant,
      event code and record number agree. */
  lemma FindingInjective(f: FindingIdentity, g: FindingIdentity)
    requires InRange(f.detectedAt) && InRange(g.detectedAt)
    ensures FindingBytes(f) == FindingBytes(g) <==> f == g
  {
    hide Text, Sorted, Print, DistinctKeys, Utf8.Encode;
    if FindingBytes(f) == FindingBytes(g) {
      var xs, ys := FindingDocument(f), FindingDocument(g);
      FindingKeys(f);
      FindingKeys(g);
      SameDocument(xs, ys);
      SameUnderKey(xs, ys, 1, 1);
      SameText(f.ruleId, g.ruleId);
      SameUnderKey(xs, ys, 2, 2);
      SameEvent(f, g);
    }
  }

  lemma SameNumber(m: nat, n: nat)
    requires Sorted(JInt(m)) == Sorted(JInt(n))
    ensures m == n
  {
  }

  lemma SameEvent(f: FindingIdentity, g: FindingIdentity)
    requires InRange(f.detectedAt) && InRange(g.detectedAt)
    requires Sorted(JObj(EventDocument(f))) == Sorted(JObj(EventDocument(g)))
    ensures f.channel == g.channel && f.computer == g.computer && f.detectedAt == g.detectedAt
    ensures f.eventCode == g.eventCode && f.recordId == g.recordId
  {
    hide Text, Sorted, Print, DistinctKeys;
    var xs, ys := EventDocument(f), EventDocument(g);
    FindingKeys(f);
    FindingKeys(g);
    SameUnderKey(xs, ys, 0, 0);
    SameText(f.channel, g.channel);
    SameUnderKey(xs, ys, 1, 1);
    SameText(f.computer, g.computer);
    SameUnderKey(xs, ys, 2, 2);
    SameText(Print(f.detectedAt), Print(g.detectedAt));
    PrintInjective(f.detectedAt, g.detectedAt);
    SameUnderKey(xs, ys, 3, 3);
    SameNumber(f.eventCode, g.eventCode);
    SameUnderKey(xs, ys, 4, 4);
    SameNumber(f.recordId, g.recordId);
  }
}
