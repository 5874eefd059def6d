/** Normalized Splunk findings and the canonical alert made from one
    (`adapters/splunk/mapping.py`, `adapters/splunk/models.py`). */
module SplunkMapping {
  import opened Domain
  import opened Digits
  import opened Calendar
  import opened Fingerprint
  import Utf8

  // ----- Host names

  predicate IsLabelChar(c: char) {
    'a' <= c <= 'z' || 'A' <= c <= 'Z' || IsDigit(c) || c == '_' || c == '-'
  }

  /** Labels of one character or more, joined by single dots. */
  predicate IsHostname(s: string) {
    s != "" && IsLabelChar(s[0]) && IsLabelChar(s[|s| - 1])
    && (forall i :: 0 <= i < |s| ==> IsLabelChar(s[i]) || s[i] == '.')
    && (forall i :: 0 <= i < |s| - 1 ==> !(s[i] == '.' && s[i + 1] == '.'))
  }

  function LowerChar(c: char): char {
    if 'A' <= c <= 'Z' then 'a' + (c - 'A') else c
  }

  function Lower(s: string): (r: string)
    ensures |r| == |s| && forall i :: 0 <= i < |s| ==> r[i] == LowerChar(s[i])
  {
    if s == "" then "" else [LowerChar(s[0])] + Lower(s[1..])
  }

  function StripLeft(s: string): string {
    if s != "" && IsSpace(s[0]) then StripLeft(s[1..]) else s
  }

  function StripRight(s: string): string {
    if s != "" && IsSpace(s[|s| - 1]) then StripRight(s[..|s| - 1]) else s
  }

  const HOSTNAME_MAX := 255

  /** `_normalize_one_hostname`. */
  function NormalizeHostname(s: string): Option<string> {
    var stripped := StripRight(StripLeft(s));
    var name := if stripped != "" && stripped[|stripped| - 1] == '.' then stripped[..|stripped| - 1] else stripped;
    if name == "" || |name| > HOSTNAME_MAX || !IsHostname(name) then None else Some(Lower(name))
  }

  /** `normalize_hostname`: two names must agree once normalized. */
  function NormalizeHosts(computer: Option<string>, host: Option<string>): Option<string> {
    var c := if computer.Some? then NormalizeHostname(computer.value) else None;
    var h := if host.Some? then NormalizeHostname(host.value) else None;
    if (computer.Some? && c.None?) || (host.Some? && h.None?) then None
    else if c.Some? && h.Some? && c != h then None
    else if c.Some? then c
    else h
  }

  predicate NormalHostname(s: string) {
    IsHostname(s) && |s| <= HOSTNAME_MAX && forall i :: 0 <= i < |s| ==> !('A' <= s[i] <= 'Z')
  }

  lemma LabelsNotSpace(c: char)
    ensures IsLabelChar(c) ==> !IsSpace(c) && c != '.' && LowerChar(LowerChar(c)) == LowerChar(c) && IsLabelChar(LowerChar(c))
    ensures LowerChar(c) == '.' <==> c == '.'
    ensures !('A' <= LowerChar(c) <= 'Z')
  {
  }

  lemma LowerHostname(name: string)
    requires IsHostname(name)
    ensures IsHostname(Lower(name)) && forall i :: 0 <= i < |name| ==> !('A' <= Lower(name)[i] <= 'Z')
  {
    hide LowerChar, IsLabelChar, Lower;
    var r := Lower(name);
    forall i | 0 <= i < |r|
      ensures (r[i] == '.' <==> name[i] == '.') && (IsLabelChar(name[i]) ==> IsLabelChar(r[i])) && !('A' <= r[i] <= 'Z')
    {
      LabelsNotSpace(name[i]);
    }
    forall i | 0 <= i < |r| - 1 ensures !(r[i] == '.' && r[i + 1] == '.') {
      assert !(name[i] == '.' && name[i + 1] == '.');
    }
  }

  /** Normalizing gives a normal name. */
  lemma NormalizedHostname(s: string)
    requires NormalizeHostname(s).Some?
    ensures NormalHostname(NormalizeHostname(s).value)
  {
    hide IsHostname, Lower, StripLeft, StripRight;
    var stripped := StripRight(StripLeft(s));
    LowerHostname(if stripped != "" && stripped[|stripped| - 1] == '.' then stripped[..|stripped| - 1] else stripped);
  }

  /** And a normal name is its own normal form. */
  lemma NormalHostnameStays(s: string)
    requires NormalHostname(s)
    ensures NormalizeHostname(s) == Some(s)
  {
    hide LowerChar, IsLabelChar, Lower, StripLeft, StripRight;
    LabelsNotSpace(s[0]);
    LabelsNotSpace(s[|s| - 1]);
    StripStays(s);
    LowerStays(s);
  }

  lemma StripStays(s: string)
    requires s != "" && !IsSpace(s[0]) && !IsSpace(s[|s| - 1])
    ensures StripLeft(s) == s && StripRight(s) == s
  {
  }

  lemma LowerStays(s: string)
    requires forall i :: 0 <= i < |s| ==> !('A' <= s[i] <= 'Z')
    ensures Lower(s) == s
  {
  }

  predicate Spaces(s: string) {
    forall i :: 0 <= i < |s| ==> IsSpace(s[i])
  }

  /** A host name as it may be written: blanks around it, one final dot, any case. */
  predicate WrittenAs(s: string, left: string, name: string, dot: bool, right: string) {
    Spaces(left) && Spaces(right) && IsHostname(name) && |name| <= HOSTNAME_MAX && s == left + (name + (if dot then "." else "") + right)
  }

  /** It normalizes to the same name with its 26 capitals in lower case. */
  lemma HostnameMeans(s: string, left: string, name: string, dot: bool, right: string)
    requires WrittenAs(s, left, name, dot, right)
    ensures var n := NormalizeHostname(s);
            n.Some? && |n.value| == |name|
            && forall i :: 0 <= i < |name| ==> n.value[i] as int == name[i] as int + if 65 <= name[i] as int <= 90 then 32 else 0
  {
    hide IsHostname, Lower, IsLabelChar;
    var core := name + if dot then "." else "";
    EndsOfName(name);
    StripLeftIs(left, core + right);
    StripRightIs(core, right);
    assert core[..|core| - 1] == if dot then name else name[..|name| - 1];
    assert !dot ==> core == name;
  }

  lemma EndsOfName(name: string)
    requires IsHostname(name)
    ensures name != "" && !IsSpace(name[0]) && !IsSpace(name[|name| - 1]) && name[|name| - 1] != '.'
  {
    LabelsNotSpace(name[0]);
    LabelsNotSpace(name[|name| - 1]);
  }

  lemma {:induction false} StripLeftIs(left: string, rest: string)
    requires Spaces(left) && (rest != "" ==> !IsSpace(rest[0]))
    ensures StripLeft(left + rest) == rest
  {
    if left == "" {
      assert left + rest == rest;
    } else {
      assert (left + rest)[1..] == left[1..] + rest;
      StripLeftIs(left[1..], rest);
    }
  }

  lemma {:induction false} StripRightIs(rest: string, right: string)
    requires Spaces(right) && (rest != "" ==> !IsSpace(rest[|rest| - 1]))
    ensures StripRight(rest + right) == rest
  {
    if right == "" {
      assert rest + right == rest;
    } else {
      var n := |right| - 1;
      assert (rest + right)[..|rest + right| - 1] == rest + right[..n];
      StripRightIs(rest, right[..n]);
    }
  }

  /** And nothing else is taken for a host name. */
  lemma HostnameOnly(s: string) returns (left: string, name: string, dot: bool, right: string)
    requires NormalizeHostname(s).Some?
    ensures WrittenAs(s, left, name, dot, right)
  {
    hide IsHostname;
    left := Leading(s);
    right := Trailing(StripLeft(s));
    var stripped := StripRight(StripLeft(s));
    dot := stripped != "" && stripped[|stripped| - 1] == '.';
    name := if dot then stripped[..|stripped| - 1] else stripped;
    assert stripped == name + if dot then "." else "";
  }

  lemma {:induction false} Leading(s: string) returns (left: string)
    ensures Spaces(left) && s == left + StripLeft(s)
  {
    if s != "" && IsSpace(s[0]) {
      var rest := Leading(s[1..]);
      left := [s[0]] + rest;
      assert s == [s[0]] + s[1..];
    } else {
      left := "";
    }
  }

  lemma {:induction false} Trailing(s: string) returns (right: string)
    ensures Spaces(right) && s == StripRight(s) + right
  {
    if s != "" && IsSpace(s[|s| - 1]) {
      var rest := Trailing(s[..|s| - 1]);
      right := rest + [s[|s| - 1]];
      assert s == s[..|s| - 1] + [s[|s| - 1]];
    } else {
      right := "";
    }
  }

  /** Whichever names are given, the result is the normal form of each of them. */
  lemma HostsAgree(computer: Option<string>, host: Option<string>)
    ensures var n := NormalizeHosts(computer, host);
            && (n.Some? ==> NormalHostname(n.value))
            && (n.Some? && computer.Some? ==> NormalizeHostname(computer.value) == n)
            && (n.Some? && host.Some? ==> NormalizeHostname(host.value) == n)
            && (n.Some? <==>
                  && (computer.Some? || host.Some?)
                  && (computer.Some? ==> NormalizeHostname(computer.value).Some?) && (host.Some? ==> NormalizeHostname(host.value).Some?)
                  && (computer.Some? && host.Some? ==> NormalizeHostname(computer.value) == NormalizeHostname(host.value)))
  {
    hide NormalizeHostname, NormalHostname;
    if computer.Some? && NormalizeHostname(computer.value).Some? {
      NormalizedHostname(computer.value);
    }
    if host.Some? && NormalizeHostname(host.value).Some? {
      NormalizedHostname(host.value);
    }
  }

  // ----- The source-event reference

  function UpperHex(d: nat): char
    requires d < 16
  {
    if d < 10 then DigitOf(d) else 'A' + (d - 10) as char
  }

  /** What `quote(..., safe="-._~")` leaves as it is: section 2.3 of RFC 3986. */
  predicate Unreserved(b: nat) {
    0x61 <= b <= 0x7a || 0x41 <= b <= 0x5a || 0x30 <= b <= 0x39 || b == 0x2d || b == 0x2e || b == 0x5f || b == 0x7e
  }

  function QuoteByte(b: int): string
    requires 0 <= b < 256
  {
    if Unreserved(b) then [b as char] else ['%', UpperHex(b / 16), UpperHex(b % 16)]
  }

  predicate AreBytes(bytes: seq<int>) {
    forall i :: 0 <= i < |bytes| ==> 0 <= bytes[i] < 256
  }

  function QuoteBytes(bytes: seq<int>): string
    requires AreBytes(bytes)
  {
    if bytes == [] then "" else QuoteByte(bytes[0]) + QuoteBytes(bytes[1..])
  }

  lemma {:induction false} EncodedBytes(s: string)
    ensures AreBytes(Utf8.Encode(s))
  {
    if s != "" {
      EncodedBytes(s[1..]);
    }
  }

  function Quote(s: string): string {
    EncodedBytes(s);
    QuoteBytes(Utf8.Encode(s))
  }

  /** Percent-encoding is a prefix code without delimiters in it. */
  lemma QuoteCode(a: int, b: int, r: string, s: string)
    requires 0 <= a < 256 && 0 <= b < 256 && QuoteByte(a) + r == QuoteByte(b) + s
    ensures a == b && r == s
  {
    var x, y := QuoteByte(a) + r, QuoteByte(b) + s;
    assert x[0] == QuoteByte(a)[0] && y[0] == QuoteByte(b)[0];
    if Unreserved(a) {
      assert x[1..] == r && y[1..] == s;
    } else {
      assert x[1] == UpperHex(a / 16) && y[1] == UpperHex(b / 16) && x[2] == UpperHex(a % 16) && y[2] == UpperHex(b % 16);
      HexDigits(a / 16, b / 16);
      HexDigits(a % 16, b % 16);
      assert x[3..] == r && y[3..] == s;
    }
  }

  lemma HexDigits(a: nat, b: nat)
    requires a < 16 && b < 16 && UpperHex(a) == UpperHex(b)
    ensures a == b
  {
  }

  lemma QuoteByteChars(b: int)
    requires 0 <= b < 256
    ensures forall i :: 0 <= i < |QuoteByte(b)| ==> QuoteByte(b)[i] != '/'
    ensures 1 <= |QuoteByte(b)| <= 3
  {
  }

  /** A quoted component ends at the slash after it. */
  lemma {:induction false} ReadQuoted(a: seq<int>, b: seq<int>, r: string, s: string)
    requires AreBytes(a) && AreBytes(b) && QuoteBytes(a) + "/" + r == QuoteBytes(b) + "/" + s
    ensures a == b && r == s
    decreases |a|
  {
    hide QuoteByte;
    SlashFirst(a, r);
    SlashFirst(b, s);
    var x, y := QuoteBytes(a) + "/" + r, QuoteBytes(b) + "/" + s;
    if a == [] {
      assert x[1..] == r && y[1..] == s;
    } else {
      var r', s' := QuoteBytes(a[1..]) + "/" + r, QuoteBytes(b[1..]) + "/" + s;
      assert x == QuoteByte(a[0]) + r' && y == QuoteByte(b[0]) + s';
      QuoteCode(a[0], b[0], r', s');
      ReadQuoted(a[1..], b[1..], r, s);
      assert a == [a[0]] + a[1..] && b == [b[0]] + b[1..];
    }
  }

  lemma SlashFirst(a: seq<int>, r: string)
    requires AreBytes(a)
    ensures (QuoteBytes(a) + "/" + r)[0] == '/' <==> a == []
  {
    if a != [] {
      QuoteByteChars(a[0]);
      assert (QuoteBytes(a) + "/" + r)[0] == QuoteByte(a[0])[0];
    }
  }

  function SourceEvent(computer: string, channel: string, recordId: nat, eventCode: nat): string {
    "windows-event://" + Quote(computer) + "/" + Quote(channel) + "/" + Decimal(recordId) + "?event_code=" + Decimal(eventCode)
  }

  lemma DropPrefix(p: string, x: string, y: string)
    requires p + x == p + y
    ensures x == y
  {
    assert (p + x)[|p|..] == x && (p + y)[|p|..] == y;
  }

  /** The reference determines the computer, the channel, the record number and the event
      code. */
  lemma SourceEventInjective(computer: string, channel: string, recordId: nat, eventCode: nat,
                             computer': string, channel': string, recordId': nat, eventCode': nat)
    requires SourceEvent(computer, channel, recordId, eventCode) == SourceEvent(computer', channel', recordId', eventCode')
    ensures computer == computer' && channel == channel' && recordId == recordId' && eventCode == eventCode'
  {
    hide QuoteBytes, Utf8.Encode, Decimal;
    EncodedBytes(computer);
    EncodedBytes(computer');
    EncodedBytes(channel);
    EncodedBytes(channel');
    var tail, tail' := Decimal(recordId) + "?event_code=" + Decimal(eventCode), Decimal(recordId') + "?event_code=" + Decimal(eventCode');
    var rest, rest' := Quote(channel) + "/" + tail, Quote(channel') + "/" + tail';
    var whole, whole' := Quote(computer) + "/" + rest, Quote(computer') + "/" + rest';
    assert SourceEvent(computer, channel, recordId, eventCode) == "windows-event://" + whole;
    assert SourceEvent(computer', channel', recordId', eventCode') == "windows-event://" + whole';
    DropPrefix("windows-event://", whole, whole');
    ReadQuoted(Utf8.Encode(computer), Utf8.Encode(computer'), rest, rest');
    ReadQuoted(Utf8.Encode(channel), Utf8.Encode(channel'), tail, tail');
    Utf8.EncodeInjective(computer, computer');
    Utf8.EncodeInjective(channel, channel');
    ReadNumbers(recordId, eventCode, recordId', eventCode');
  }

  lemma ReadNumbers(m: nat, n: nat, m': nat, n': nat)
    requires Decimal(m) + "?event_code=" + Decimal(n) == Decimal(m') + "?event_code=" + Decimal(n')
    ensures m == m' && n == n'
  {
    hide Decimal;
    ReadAround(Decimal(m), Decimal(m'), "?event_code=", Decimal(n), Decimal(n'));
    DecimalInjective(m, m');
    DecimalInjective(n, n');
  }

  lemma ReadAround(a: string, a': string, between: string, b: string, b': string)
    requires AllDigits(a) && AllDigits(a') && between != "" && !IsDigit(between[0])
    requires a + between + b == a' + between + b'
    ensures a == a' && b == b'
  {
    var r, r' := between + b, between + b';
    assert a + between + b == a + r && a' + between + b' == a' + r';
    ReadDigits(a, a', r, r');
    DropPrefix(between, b, b');
  }

  // ----- Lengths

  lemma {:induction false} QuotedLength(bytes: seq<int>)
    requires AreBytes(bytes)
    ensures |QuoteBytes(bytes)| <= 3 * |bytes|
    ensures (forall i :: 0 <= i < |bytes| ==> Unreserved(bytes[i])) ==> |QuoteBytes(bytes)| == |bytes|
  {
    if bytes != [] {
      QuotedLength(bytes[1..]);
      QuoteByteChars(bytes[0]);
    }
  }

  predicate Ascii(s: string) {
    forall i :: 0 <= i < |s| ==> (s[i] as int) < 0x80
  }

  lemma {:induction false} AsciiBytes(s: string)
    requires Ascii(s)
    ensures |Utf8.Encode(s)| == |s| && forall i :: 0 <= i < |s| ==> Utf8.Encode(s)[i] == s[i] as int
  {
    if s != "" {
      AsciiBytes(s[1..]);
      assert Utf8.EncodeChar(s[0]) == [s[0] as int];
    }
  }

  lemma {:induction false} DecimalLength(n: nat, width: nat)
    requires n < Pow10(width) && width > 0
    ensures |Decimal(n)| <= width
  {
    if n >= 10 {
      assert Pow10(width) == 10 * Pow10(width - 1);
      DecimalLength(n / 10, width - 1);
    }
  }

  // ----- Findings

  datatype SigmaLevel = Informational | SigmaLow | SigmaMedium | SigmaHigh | SigmaCritical

  function LevelText(l: SigmaLevel): string {
    match l
    case Informational => "informational"
    case SigmaLow => "low"
    case SigmaMedium => "medium"
    case SigmaHigh => "high"
    case SigmaCritical => "critical"
  }

  function NormalizeSeverity(l: SigmaLevel): Severity {
    match l
    case Informational => Low
    case SigmaLow => Low
    case SigmaMedium => Medium
    case SigmaHigh => High
    case SigmaCritical => Critical
  }

  datatype Finding = Finding(
    ruleId: string, ruleTitle: string, level: SigmaLevel, detectedAt: int,
    computer: string, channel: string, eventCode: nat, recordId: nat,
    processGuid: Option<string>, image: Option<string>, parentImage: Option<string>, targetFilename: Option<string>)

  predicate TextWithin(s: string, limit: nat) {
    NonBlank(s) && |s| <= limit
  }

  predicate OptionWithin(s: Option<string>, limit: nat) {
    s.Some? ==> TextWithin(s.value, limit)
  }

  predicate Printable(s: string) {
    forall i :: 0 <= i < |s| ==> 0x20 <= s[i] as int <= 0x7e
  }

  const MAX_RECORD_ID := 9_223_372_036_854_775_807

  /** What validation and normalization leave of a finding. */
  predicate FindingValid(f: Finding) {
    && |f.ruleId| == 36 && NonBlank(f.ruleId) && TextWithin(f.ruleTitle, 256) && InRange(f.detectedAt)
    && NormalHostname(f.computer)
    && TextWithin(f.channel, 128) && Printable(f.channel)
    && 1 <= f.eventCode <= 65535 && 1 <= f.recordId <= MAX_RECORD_ID
    && OptionWithin(f.processGuid, 128) && OptionWithin(f.image, 1024)
    && OptionWithin(f.parentImage, 1024) && OptionWithin(f.targetFilename, 1024)
  }

  const EVIDENCE_MAX := 1024

  lemma RecordIdDigits()
    ensures MAX_RECORD_ID < Pow10(19) && 65535 < Pow10(5)
  {
    assert Pow10(5) == 10 * Pow10(4);
    assert Pow10(4) == 10 * Pow10(3);
    assert Pow10(3) == 10 * Pow10(2);
    assert Pow10(2) == 10 * Pow10(1);
    assert Pow10(1) == 10 * Pow10(0);
    Pow10Add(5, 5);
    Pow10Add(10, 5);
    Pow10Add(15, 4);
  }

  /** The source-event reference of a validated finding fits in 693 characters, so the length
      guard at 1024 never fires on it. */
  lemma SourceEventFits(f: Finding)
    requires FindingValid(f)
    ensures |SourceEvent(f.computer, f.channel, f.recordId, f.eventCode)| <= 693
  {
    hide QuoteBytes, Utf8.Encode, Decimal, Pow10, NonBlank;
    forall i | 0 <= i < |f.computer| ensures (f.computer[i] as int) < 0x80 && Unreserved(f.computer[i] as int) {
      assert IsLabelChar(f.computer[i]) || f.computer[i] == '.';
    }
    EncodedBytes(f.computer);
    EncodedBytes(f.channel);
    AsciiBytes(f.computer);
    AsciiBytes(f.channel);
    QuotedLength(Utf8.Encode(f.computer));
    QuotedLength(Utf8.Encode(f.channel));
    RecordIdDigits();
    DecimalLength(f.recordId, 19);
    DecimalLength(f.eventCode, 5);
  }

  /** `_evidence`. */
  function OneEvidence(reference: string, kind: string): Option<Evidence> {
    if |reference| > EVIDENCE_MAX then None else Some(Evidence(reference, Some(kind)))
  }

  function OptionalEvidence(reference: Option<string>, kind: string): Option<seq<Evidence>> {
    if reference.None? then Some([])
    else
      match OneEvidence(reference.value, kind)
      case None => None
      case Some(e) => Some([e])
  }

  function PolicyReference(f: Finding): string {
    "alert2ir.splunk.sigma-level.v1:" + LevelText(f.level) + "->" + SeverityText(NormalizeSeverity(f.level))
  }

  /** `build_evidence`: `None` where it raises. */
  function BuildEvidence(f: Finding): Option<seq<Evidence>> {
    var policy := OneEvidence(PolicyReference(f), "normalization-policy");
    var event := OneEvidence(SourceEvent(f.computer, f.channel, f.recordId, f.eventCode), "source-event");
    var guid := OptionalEvidence(f.processGuid, "process-guid");
    var image := OptionalEvidence(f.image, "process-image");
    var parent := OptionalEvidence(f.parentImage, "parent-process-image");
    var target := OptionalEvidence(f.targetFilename, "target-file");
    if policy.None? || event.None? || guid.None? || image.None? || parent.None? || target.None? then None
    else Some([policy.value, event.value] + guid.value + image.value + parent.value + target.value)
  }

  function IdentityOf(f: Finding): FindingIdentity {
    FindingIdentity(f.ruleId, f.channel, f.computer, f.detectedAt, f.eventCode, f.recordId)
  }

  /** A message digest of 32 bytes, written in 64 lower-case hexadecimal digits. */
  ghost predicate IsHexDigest(hex: seq<int> -> string) {
    forall bytes :: |hex(bytes)| == 64 && forall i :: 0 <= i < 64 ==> IsDigit(hex(bytes)[i]) || 'a' <= hex(bytes)[i] <= 'f'
  }

  /** `idempotency_key`. */
  function FindingKey(f: Finding, hex: seq<int> -> string): string
    requires InRange(f.detectedAt)
  {
    "splunk-v1-" + hex(FindingBytes(IdentityOf(f)))
  }

  /** `canonicalize`: the alert, whose source alert identifier is the key. */
  function Canonicalize(f: Finding, hex: seq<int> -> string): Option<Alert>
    requires InRange(f.detectedAt)
  {
    match BuildEvidence(f)
    case None => None
    case Some(evidence) =>
      Some(Alert(Detection(f.ruleId, Some(f.ruleTitle)), f.detectedAt, Source("splunk", Some(FindingKey(f, hex))),
                 [Entity("host", f.computer)], NormalizeSeverity(f.level), evidence))
  }

  lemma LevelTexts(f: Finding)
    ensures 1 <= |PolicyReference(f)| <= 100 && !IsSpace(PolicyReference(f)[0])
  {
    assert |LevelText(f.level)| <= 13 && |SeverityText(NormalizeSeverity(f.level))| <= 8;
  }

  lemma SourceEventText(f: Finding)
    ensures NonBlank(SourceEvent(f.computer, f.channel, f.recordId, f.eventCode))
  {
    hide Quote, Decimal;
    var s := SourceEvent(f.computer, f.channel, f.recordId, f.eventCode);
    assert s == "windows-event://" + (Quote(f.computer) + "/" + Quote(f.channel) + "/" + Decimal(f.recordId) + "?event_code=" + Decimal(f.eventCode));
    assert s[0] == 'w';
    StartsNonBlank(s);
  }

  lemma OptionalEvidenceValid(reference: Option<string>, kind: string, limit: nat)
    requires OptionWithin(reference, limit) && limit <= EVIDENCE_MAX && NonBlank(kind)
    ensures OptionalEvidence(reference, kind).Some? && EvidencesValid(OptionalEvidence(reference, kind).value)
  {
    hide NonBlank;
  }

  lemma KindTexts()
    ensures NonBlank("normalization-policy") && NonBlank("source-event") && NonBlank("process-guid")
    ensures NonBlank("process-image") && NonBlank("parent-process-image") && NonBlank("target-file")
  {
    hide NonBlank;
    StartsNonBlank("normalization-policy");
    StartsNonBlank("source-event");
    StartsNonBlank("process-guid");
    StartsNonBlank("process-image");
    StartsNonBlank("parent-process-image");
    StartsNonBlank("target-file");
  }

  /** Building the evidence of a validated finding never raises. */
  lemma EvidenceBuilt(f: Finding)
    requires FindingValid(f)
    ensures BuildEvidence(f).Some? && EvidencesValid(BuildEvidence(f).value)
  {
    hide NonBlank, TextWithin, Printable, OptionalEvidence, PolicyReference, SourceEvent, NormalHostname;
    KindTexts();
    LevelTexts(f);
    StartsNonBlank(PolicyReference(f));
    SourceEventFits(f);
    SourceEventText(f);
    OptionalEvidenceValid(f.processGuid, "process-guid", 128);
    OptionalEvidenceValid(f.image, "process-image", 1024);
    OptionalEvidenceValid(f.parentImage, "parent-process-image", 1024);
    OptionalEvidenceValid(f.targetFilename, "target-file", 1024);
  }

  /** A validated finding always gives an alert the core accepts, under a key it accepts. */
  lemma CanonicalAlertValid(f: Finding, hex: seq<int> -> string)
    requires FindingValid(f) && IsHexDigest(hex)
    ensures Canonicalize(f, hex).Some? && AlertValid(Canonicalize(f, hex).value)
    ensures var key := FindingKey(f, hex);
            |key| == 74 && forall i :: 0 <= i < |key| ==> 0x21 <= key[i] as int <= 0x7e
  {
    hide FindingBytes, BuildEvidence;
    EvidenceBuilt(f);
    var key := FindingKey(f, hex);
    assert key[0] == 's';
    StartsNonBlank(key);
    StartsNonBlank("splunk");
    StartsNonBlank("host");
    LabelsNotSpace(f.computer[0]);
    StartsNonBlank(f.computer);
  }

  // ----- What the alert takes from the finding

  predicate SeverityFor(level: SigmaLevel, severity: Severity) {
    match severity
    case Low => level == Informational || level == SigmaLow
    case Medium => level == SigmaMedium
    case High => level == SigmaHigh
    case Critical => level == SigmaCritical
  }

  /** The evidence of how a level was mapped. */
  predicate Maps(e: Evidence, level: SigmaLevel, severity: Severity) {
    && e.kind == Some("normalization-policy")
    && e.reference == "alert2ir.splunk.sigma-level.v1:" + LevelText(level) + "->" + SeverityText(severity)
  }

  /** The evidence has this reference under the kind and no other, or none if there is none. */
  ghost predicate Lists(evidence: seq<Evidence>, kind: string, reference: Option<string>) {
    forall r :: reference == Some(r) <==> Evidence(r, Some(kind)) in evidence
  }

  /** Which part of the finding each part of the alert takes: rule, time and host as they are,
      the severity of the level, the key of the finding as the source's identifier, and as
      evidence the mapping of the level, the source event, and each reference the finding has
      under its own kind. */
  lemma AlertTells(f: Finding, hex: seq<int> -> string)
    requires FindingValid(f) && InRange(f.detectedAt)
    ensures Canonicalize(f, hex).Some?
    ensures var a := Canonicalize(f, hex).value;
            && a.detection.identifier == f.ruleId && a.detection.name == Some(f.ruleTitle) && a.detectedAt == f.detectedAt
            && a.source.source == "splunk" && a.source.sourceAlertId == Some(FindingKey(f, hex))
            && a.entities == [Entity("host", f.computer)] && SeverityFor(f.level, a.severity)
            && |a.evidence| >= 2
            && Maps(a.evidence[0], f.level, a.severity)
            && a.evidence[1] == Evidence(SourceEvent(f.computer, f.channel, f.recordId, f.eventCode), Some("source-event"))
            && Lists(a.evidence, "process-guid", f.processGuid) && Lists(a.evidence, "process-image", f.image)
            && Lists(a.evidence, "parent-process-image", f.parentImage) && Lists(a.evidence, "target-file", f.targetFilename)
  {
    hide FindingValid, SourceEvent, FindingKey, LevelText, SeverityText, EvidencesValid, BuildEvidence, PolicyReference, Lists, Maps;
    EvidenceBuilt(f);
    EvidenceTells(f);
    PolicyText(f);
  }

  lemma PolicyText(f: Finding)
    ensures Maps(Evidence(PolicyReference(f), Some("normalization-policy")), f.level, NormalizeSeverity(f.level))
  {
  }

  lemma EvidenceTells(f: Finding)
    requires BuildEvidence(f).Some?
    ensures var evidence := BuildEvidence(f).value;
            && |evidence| >= 2 && evidence[0] == Evidence(PolicyReference(f), Some("normalization-policy"))
            && evidence[1] == Evidence(SourceEvent(f.computer, f.channel, f.recordId, f.eventCode), Some("source-event"))
            && Lists(evidence, "process-guid", f.processGuid) && Lists(evidence, "process-image", f.image)
            && Lists(evidence, "parent-process-image", f.parentImage) && Lists(evidence, "target-file", f.targetFilename)
  {
    hide SourceEvent, PolicyReference, OptionalEvidence, Lists;
    var head := [OneEvidence(PolicyReference(f), "normalization-policy").value,
                 OneEvidence(SourceEvent(f.computer, f.channel, f.recordId, f.eventCode), "source-event").value];
    var guid, image := OptionalEvidence(f.processGuid, "process-guid").value, OptionalEvidence(f.image, "process-image").value;
    var parent, target := OptionalEvidence(f.parentImage, "parent-process-image").value, OptionalEvidence(f.targetFilename, "target-file").value;
    OptionalTells(f.processGuid, "process-guid");
    OptionalTells(f.image, "process-image");
    OptionalTells(f.parentImage, "parent-process-image");
    OptionalTells(f.targetFilename, "target-file");
    FourKinds(head, guid, image, parent, target);
    SameLists(guid, BuildEvidence(f).value, "process-guid", f.processGuid);
    SameLists(image, BuildEvidence(f).value, "process-image", f.image);
    SameLists(parent, BuildEvidence(f).value, "parent-process-image", f.parentImage);
    SameLists(target, BuildEvidence(f).value, "target-file", f.targetFilename);
  }

  predicate OfKind(part: seq<Evidence>, kind: string) {
    forall e :: e in part ==> e.kind == Some(kind)
  }

  ghost predicate SameOfKind(part: seq<Evidence>, whole: seq<Evidence>, kind: string) {
    forall e: Evidence :: e.kind == Some(kind) ==> (e in part <==> e in whole)
  }

  lemma FourKinds(head: seq<Evidence>, guid: seq<Evidence>, image: seq<Evidence>, parent: seq<Evidence>, target: seq<Evidence>)
    requires |head| == 2 && head[0].kind == Some("normalization-policy") && head[1].kind == Some("source-event")
    requires OfKind(guid, "process-guid") && OfKind(image, "process-image") && OfKind(parent, "parent-process-image") && OfKind(target, "target-file")
    ensures var whole := head + guid + image + parent + target;
            && SameOfKind(guid, whole, "process-guid") && SameOfKind(image, whole, "process-image")
            && SameOfKind(parent, whole, "parent-process-image") && SameOfKind(target, whole, "target-file")
  {
    KindsDiffer();
    var whole := head + guid + image + parent + target;
    assert forall e :: e in whole <==> e in head || e in guid || e in image || e in parent || e in target;
  }

  lemma SameLists(part: seq<Evidence>, whole: seq<Evidence>, kind: string, reference: Option<string>)
    requires Lists(part, kind, reference) && SameOfKind(part, whole, kind)
    ensures Lists(whole, kind, reference)
  {
  }

  lemma OptionalTells(reference: Option<string>, kind: string)
    requires OptionalEvidence(reference, kind).Some?
    ensures var part := OptionalEvidence(reference, kind).value;
            Lists(part, kind, reference) && OfKind(part, kind)
  {
  }

  lemma KindsDiffer()
    ensures |"normalization-policy"| == 20 && |"source-event"| == 12 && |"process-guid"| == 12 && |"process-image"| == 13
    ensures |"parent-process-image"| == 20 && |"target-file"| == 11
    ensures "normalization-policy"[0] == 'n' && "parent-process-image"[0] == 'p' && "source-event"[0] == 's' && "process-guid"[0] == 'p'
  {
  }

  /** So no two findings give the same alert: nothing that a finding says is lost. */
  lemma CanonicalizeInjective(f: Finding, g: Finding, hex: seq<int> -> string)
    requires FindingValid(f) && FindingValid(g)
    ensures Canonicalize(f, hex) == Canonicalize(g, hex) <==> f == g
  {
    assert InRange(f.detectedAt) && InRange(g.detectedAt);
    hide FindingValid, Canonicalize, SourceEvent, FindingKey, LevelText, SeverityText, Lists, Maps;
    if Canonicalize(f, hex) == Canonicalize(g, hex) {
      AlertTells(f, hex);
      AlertTells(g, hex);
      var a := Canonicalize(f, hex).value;
      SourceEventInjective(f.computer, f.channel, f.recordId, f.eventCode, g.computer, g.channel, g.recordId, g.eventCode);
      LevelRead(a.evidence[0], f.level, g.level, a.severity);
      SameReference(f.processGuid, g.processGuid, a.evidence, "process-guid");
      SameReference(f.image, g.image, a.evidence, "process-image");
      SameReference(f.parentImage, g.parentImage, a.evidence, "parent-process-image");
      SameReference(f.targetFilename, g.targetFilename, a.evidence, "target-file");
    }
  }

  lemma SameReference(a: Option<string>, b: Option<string>, evidence: seq<Evidence>, kind: string)
    requires Lists(evidence, kind, a) && Lists(evidence, kind, b)
    ensures a == b
  {
    if a.Some? {
      assert Evidence(a.value, Some(kind)) in evidence;
    } else if b.Some? {
      assert Evidence(b.value, Some(kind)) in evidence;
    }
  }

  lemma LevelRead(e: Evidence, a: SigmaLevel, b: SigmaLevel, severity: Severity)
    requires Maps(e, a, severity) && Maps(e, b, severity)
    ensures a == b
  {
    hide LevelText, SeverityText;
    var rest := "->" + SeverityText(severity);
    var prefix := "alert2ir.splunk.sigma-level.v1:";
    assert prefix + LevelText(a) + "->" + SeverityText(severity) == prefix + (LevelText(a) + rest);
    assert prefix + LevelText(b) + "->" + SeverityText(severity) == prefix + (LevelText(b) + rest);
    DropPrefix(prefix, LevelText(a) + rest, LevelText(b) + rest);
    DropSuffix(LevelText(a), LevelText(b), rest);
    LevelsDiffer(a, b);
  }

  lemma DropSuffix(x: string, y: string, rest: string)
    requires x + rest == y + rest
    ensures x == y
  {
    assert |x| == |y|;
    assert (x + rest)[..|x|] == x && (y + rest)[..|y|] == y;
  }

  lemma LevelsDiffer(a: SigmaLevel, b: SigmaLevel)
    requires LevelText(a) == LevelText(b)
    ensures a == b
  {
    assert |"informational"| == 13 && |"low"| == 3 && |"medium"| == 6 && |"high"| == 4 && |"critical"| == 8;
  }
}
