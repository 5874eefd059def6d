/** The delivery chain: the core's reply (`api/app.py`), what the adapter's client makes of it
    (`adapters/splunk/client.py`), the adapter's own reply (`adapters/splunk/app.py`), and the
    sender's classification and retry loop (`alert2ir_delivery.py`). */
module Delivery {
  import opened Domain
  import opened Lifecycle
  import opened Digits
  import opened Json
  import Rows
  import Utf8

  /** Library behaviour the chain relies on: parsing a UUID's text, `str.isprintable` on one
      character, and how an identifier and an instant print. */
  datatype TextRules = TextRules(
    uuid: string -> Option<string>, printable: char -> bool, idText: nat -> string, timeText: int -> string)

  ghost predicate RulesOk(rules: TextRules) {
    && (forall c :: 0x20 <= c as int <= 0x7e ==> rules.printable(c))
    && (forall p :: |rules.idText(p)| == 36 && (forall i :: 0 <= i < 36 ==> 0x21 <= rules.idText(p)[i] as int <= 0x7e))
    && (forall p :: rules.uuid(rules.idText(p)) == Some(rules.idText(p)))
    && (forall s :: rules.uuid(s).Some? ==> |rules.uuid(s).value| == 36)
  }

  // ----- Bodies

  /** What the JSON parser makes of a body: nothing when it is too large, not JSON or not an
      object; an error other than `ValueError`, such as the recursion error of deep nesting; or
      an object with its members in order. Client and sender only ask of a number that it is
      one, so any `JInt` stands for the numbers `Json` lacks. */
  datatype Payload = Unreadable | ParserRaised | Object(members: seq<Member>)

  const BODY_MAX := 65_536

  /** What a `JSONResponse` with these members arrives as: its bytes can be read in one way
      only (`Json.TextInjective`, `Utf8.EncodeInjective`), and are not read when too many. */
  function Received(members: seq<Member>): Payload {
    if |Utf8.Encode(Text(JObj(members)))| <= BODY_MAX then Object(members) else Unreadable
  }

  function LastValue(ms: seq<Member>, key: string): Json {
    if ms == [] then JNull
    else if ms[|ms| - 1].key == key then ms[|ms| - 1].value
    else LastValue(ms[..|ms| - 1], key)
  }

  function Field(body: Payload, name: string): Json {
    if body.Object? then LastValue(body.members, name) else JNull
  }

  /** Arrays and objects cannot be looked up in a set or a dictionary: Python raises. */
  predicate Unhashable(j: Json) {
    j.JArr? || j.JObj?
  }

  // ----- The adapter's client

  datatype HttpReply = HttpReply(status: int, body: Payload, locations: seq<string>, replayHeaders: seq<string>)

  datatype Classification = Complete | Accept | Permanent | Durable | Transient

  datatype Result = Result(
    classification: Classification,
    upstreamStatus: Option<int>,
    processingId: Option<string>,
    state: Option<string>,
    statusUrl: Option<string>,
    replayed: bool,
    decisionOutcome: Option<string>,
    errorCode: Option<string>,
    retryable: bool,
    acceptanceUnknown: bool)

  function ProcessingIdOf(rules: TextRules, value: Json): Option<string> {
    if value.JStr? then rules.uuid(value.s) else None
  }

  const URL_MAX := 2048

  predicate VisibleText(rules: TextRules, s: string) {
    1 <= |s| <= URL_MAX && forall i :: 0 <= i < |s| ==> rules.printable(s[i])
  }

  /** `_status_url`: from the body, else from the one Location header. */
  function StatusUrlOf(rules: TextRules, reply: HttpReply): Option<string> {
    var fromBody := Field(reply.body, "status_url");
    if fromBody.JStr? && VisibleText(rules, fromBody.s) then Some(fromBody.s)
    else if |reply.locations| == 1 && VisibleText(rules, reply.locations[0]) then Some(reply.locations[0])
    else None
  }

  function StateOf(body: Payload): Option<string> {
    var value := Field(body, "state");
    if value.JStr? && Rows.ParseState(value.s).Some? then Some(value.s) else None
  }

  predicate SafeCode(s: string) {
    1 <= |s| <= 64 && 'a' <= s[0] <= 'z' && forall i :: 0 <= i < |s| ==> 'a' <= s[i] <= 'z' || IsDigit(s[i]) || s[i] == '_'
  }

  function ErrorCodeOf(body: Payload): Option<string> {
    var code := Field(body, "code");
    var category := Field(body, "error_category");
    if code.JStr? && SafeCode(code.s) then Some(code.s)
    else if category.JStr? && SafeCode(category.s) then Some(category.s)
    else None
  }

  /** `_decision_outcome` looks the outcome up in a set of two strings. */
  predicate OutcomeRaises(body: Payload) {
    var decision := Field(body, "decision");
    decision.JObj? && Unhashable(LastValue(decision.members, "outcome"))
  }

  function OutcomeOf(body: Payload): Option<string>
    requires !OutcomeRaises(body)
  {
    var decision := Field(body, "decision");
    if !decision.JObj? then None
    else
      var value := LastValue(decision.members, "outcome");
      if value.JStr? && (value.s == "no_action" || value.s == "investigate") then Some(value.s) else None
  }

  predicate ReplayedHeader(values: seq<string>) {
    |values| == 1 && |values[0]| == 4
    && (values[0][0] == 't' || values[0][0] == 'T') && (values[0][1] == 'r' || values[0][1] == 'R')
    && (values[0][2] == 'u' || values[0][2] == 'U') && (values[0][3] == 'e' || values[0][3] == 'E')
  }

  /** `_response_fields`, with the reply taken as final. */
  function BaseResult(rules: TextRules, reply: HttpReply): Result
    requires !OutcomeRaises(reply.body)
  {
    Result(Complete, Some(reply.status), ProcessingIdOf(rules, Field(reply.body, "processing_id")), StateOf(reply.body),
           StatusUrlOf(rules, reply), ReplayedHeader(reply.replayHeaders), OutcomeOf(reply.body), ErrorCodeOf(reply.body), false, false)
  }

  function Retry(base: Result, code: string, unknown: bool): Result {
    base.(classification := Transient, errorCode := Some(code), retryable := true, acceptanceUnknown := unknown)
  }

  /** `_classify_response` where nothing raises. */
  function ClassifyReply(rules: TextRules, reply: HttpReply): Result
    requires !OutcomeRaises(reply.body)
  {
    var base := BaseResult(rules, reply);
    if reply.status == 200 then base
    else if reply.status == 202 then base.(classification := Accept)
    else if reply.status == 400 || reply.status == 409 || reply.status == 422 then base.(classification := Permanent)
    else if reply.status == 500 then
      if base.processingId.Some? || base.statusUrl.Some? then base.(classification := Durable)
      else Retry(base, "upstream_internal_failure", true)
    else if reply.status == 503 then Retry(base, if base.errorCode.Some? then base.errorCode.value else "upstream_unavailable", false)
    else Retry(base, "unexpected_upstream_status", true)
  }

  datatype Upstream = Replied(reply: HttpReply) | TimedOut | NotConnected | TransportFailed

  datatype ClientAnswer = Classified(result: Result) | ClientRaised

  /** The replies on which the client raises: the parser does, the outcome cannot be looked up,
      or the result model refuses the status. */
  predicate ClientRaises(reply: HttpReply) {
    reply.body.ParserRaised? || OutcomeRaises(reply.body) || !(100 <= reply.status <= 599)
  }

  function TransientResult(code: string, unknown: bool): Result {
    Result(Transient, None, None, None, None, false, None, Some(code), true, unknown)
  }

  /** `submit_alert` once the request has been made. */
  function SubmitAlert(rules: TextRules, u: Upstream): ClientAnswer {
    match u
    case Replied(reply) => if ClientRaises(reply) then ClientRaised else Classified(ClassifyReply(rules, reply))
    case TimedOut => Classified(TransientResult("upstream_timeout", true))
    case NotConnected => Classified(TransientResult("upstream_connection_failed", false))
    case TransportFailed => Classified(TransientResult("upstream_transport_failure", true))
  }

  // ----- The adapter's reply

  /** `_adapter_status`. */
  function AdapterStatus(r: Result): int {
    match r.classification
    case Complete => 200
    case Accept => 202
    case Permanent => if r.upstreamStatus in {Some(400), Some(409), Some(422)} then r.upstreamStatus.value else 502
    case Durable => 500
    case Transient =>
      if r.errorCode == Some("upstream_timeout") then 504
      else if r.upstreamStatus == Some(503) then 503
      else 502
  }

  function ClassificationText(c: Classification): string {
    match c
    case Complete => "completed"
    case Accept => "accepted"
    case Permanent => "permanent_failure"
    case Durable => "durable_failure"
    case Transient => "transient_failure"
  }

  function OptionalMember(key: string, value: Option<string>): seq<Member> {
    if value.Some? then [Member(key, JStr(value.value))] else []
  }

  function StatusMember(r: Result): seq<Member> {
    if r.upstreamStatus.Some? && r.upstreamStatus.value >= 0 then [Member("upstream_status", JInt(r.upstreamStatus.value))] else []
  }

  /** `model_dump(exclude_none=True)`, in declaration order. */
  function AdapterDocument(r: Result): seq<Member> {
    [Member("classification", JStr(ClassificationText(r.classification)))]
    + StatusMember(r)
    + OptionalMember("processing_id", r.processingId) + OptionalMember("state", r.state) + OptionalMember("status_url", r.statusUrl)
    + [Member("replayed", JBool(r.replayed))]
    + OptionalMember("decision_outcome", r.decisionOutcome) + OptionalMember("error_code", r.errorCode)
    + [Member("retryable", JBool(r.retryable)), Member("acceptance_unknown", JBool(r.acceptanceUnknown))]
  }

  function AdapterBytes(r: Result): seq<int> {
    Utf8.Encode(Text(JObj(AdapterDocument(r))))
  }

  /** What the sender receives: the result with its status, or, where the endpoint lets an
      exception through, the plain-text 500 of the server. */
  datatype AdapterAnswer = AdapterAnswer(status: int, body: Payload)

  function AdapterReply(answer: ClientAnswer): AdapterAnswer {
    match answer
    case Classified(r) => AdapterAnswer(AdapterStatus(r), Received(AdapterDocument(r)))
    case ClientRaised => AdapterAnswer(500, Unreadable)
  }

  // ----- The sender

  datatype Disposition = Disposition(category: string, retryable: bool, success: bool)

  /** `_fallback_disposition`. */
  function Fallback(status: int): Disposition {
    if status == 200 || status == 202 then Disposition("success", false, true)
    else if 300 <= status <= 499 then Disposition("permanent_failure", false, false)
    else Disposition("transient_failure", true, false)
  }

  /** The contract a reply's fields name: the statuses it is sent with, whether to retry, the
      category and success. */
  function Contract(classification: Json): Option<(set<int>, bool, string, bool)> {
    if !classification.JStr? then None
    else if classification.s == "completed" then Some(({200}, false, "success", true))
    else if classification.s == "accepted" then Some(({202}, false, "success", true))
    else if classification.s == "permanent_failure" then Some(({400, 409, 422}, false, "permanent_failure", false))
    else if classification.s == "durable_failure" then Some(({500}, false, "durable_failure", false))
    else if classification.s == "transient_failure" then Some(({502, 503, 504}, true, "transient_failure", false))
    else None
  }

  /** What the sender takes from the vocabulary; `None` where it falls back on the status. */
  function Contracted(status: int, classification: Json, retryable: Json): Option<Disposition> {
    match Contract(classification)
    case None => None
    case Some(c) => if status !in c.0 || retryable != JBool(c.1) then None else Some(Disposition(c.2, c.1, c.3))
  }

  /** How the sender read a reply: by the vocabulary, by the status alone, or not at all, when
      the parser raises or the classification cannot be looked up. */
  datatype Reading = Recognized(disposition: Disposition) | FellBack(disposition: Disposition) | ReadingRaised

  /** `classify_adapter_response` for a valid status. */
  function ClassifyAdapter(answer: AdapterAnswer): Reading {
    match answer.body
    case Unreadable => FellBack(Fallback(answer.status))
    case ParserRaised => ReadingRaised
    case Object(members) =>
      var classification := LastValue(members, "classification");
      if Unhashable(classification) then ReadingRaised
      else
        match Contracted(answer.status, classification, LastValue(members, "retryable"))
        case None => FellBack(Fallback(answer.status))
        case Some(d) => Recognized(d)
  }

  // ----- The adapter's reply always reaches the sender as an object

  lemma {:induction false} BodyBytes(s: string)
    ensures |Utf8.Encode(Body(s))| <= 6 * |s|
  {
    if s != "" {
      BodyBytes(s[1..]);
      EscapeBytes(s[0]);
      AppendBytes(EscapeChar(s[0]), Body(s[1..]));
    }
  }

  lemma {:induction false} AppendBytes(a: string, b: string)
    ensures Utf8.Encode(a + b) == Utf8.Encode(a) + Utf8.Encode(b)
  {
    if a == "" {
      assert a + b == b;
    } else {
      assert (a + b)[1..] == a[1..] + b;
      AppendBytes(a[1..], b);
    }
  }

  lemma {:induction false} FewBytes(s: string)
    ensures |Utf8.Encode(s)| <= 4 * |s|
    ensures (forall i :: 0 <= i < |s| ==> (s[i] as int) < 0x80) ==> |Utf8.Encode(s)| == |s|
  {
    if s != "" {
      FewBytes(s[1..]);
    }
  }

  lemma EscapeBytes(c: char)
    ensures |Utf8.Encode(EscapeChar(c))| <= 6
  {
    FewBytes(EscapeChar(c));
  }

  /** An upper bound for the bytes of one scalar member. */
  function Weight(m: Member): nat {
    6 * |m.key| + 4 + (match m.value
                       case JStr(s) => 6 * |s| + 2
                       case JInt(n) => |Decimal(n)|
                       case JBool(_) => 5
                       case _ => 4)
  }

  function Weights(ms: seq<Member>): nat {
    if ms == [] then 0 else Weight(ms[0]) + Weights(ms[1..])
  }

  lemma {:induction false} WeightsAppend(a: seq<Member>, b: seq<Member>)
    ensures Weights(a + b) == Weights(a) + Weights(b)
  {
    if a == [] {
      assert a + b == b;
    } else {
      assert (a + b)[1..] == a[1..] + b;
      WeightsAppend(a[1..], b);
    }
  }

  predicate Scalar(j: Json) {
    !j.JArr? && !j.JObj?
  }

  predicate Scalars(ms: seq<Member>) {
    forall i :: 0 <= i < |ms| ==> Scalar(ms[i].value)
  }

  lemma QuotedBytes(s: string)
    ensures |Utf8.Encode(Quoted(s))| <= 6 * |s| + 2
  {
    hide Body;
    BodyBytes(s);
    AppendBytes("\"" + Body(s), "\"");
    AppendBytes("\"", Body(s));
    FewBytes("\"");
  }

  lemma ScalarBytes(j: Json)
    requires Scalar(j)
    ensures |Utf8.Encode(Text(j))| <= match j case JStr(s) => 6 * |s| + 2 case JInt(n) => |Decimal(n)| case JBool(_) => 5 case _ => 4
  {
    hide Utf8.Encode;
    match j
    case JNull => FewBytes("null");
    case JBool(b) => FewBytes(Text(j));
    case JInt(n) => FewBytes(Decimal(n));
    case JStr(s) => QuotedBytes(s);
  }

  lemma MemberBytes(m: Member)
    requires Scalar(m.value)
    ensures |Utf8.Encode(MemberText(m))| + 1 <= Weight(m)
  {
    hide Text, Quoted, Utf8.Encode;
    AppendBytes(Quoted(m.key) + ":", Text(m.value));
    AppendBytes(Quoted(m.key), ":");
    QuotedBytes(m.key);
    ScalarBytes(m.value);
    FewBytes(":");
  }

  lemma {:induction false} MoreBytes(ms: seq<Member>)
    requires Scalars(ms)
    ensures |Utf8.Encode(MoreMembers(ms))| <= Weights(ms) + 1
  {
    hide Utf8.Encode, MemberText, Weight;
    if ms == [] {
      FewBytes("}");
    } else {
      MoreBytes(ms[1..]);
      MemberBytes(ms[0]);
      AppendBytes("," + MemberText(ms[0]), MoreMembers(ms[1..]));
      AppendBytes(",", MemberText(ms[0]));
      FewBytes(",");
    }
  }

  lemma ObjectBytes(ms: seq<Member>)
    requires Scalars(ms) && ms != []
    ensures |Utf8.Encode(Text(JObj(ms)))| <= Weights(ms) + 2
  {
    hide Utf8.Encode, MemberText, Weight, MoreMembers;
    var inner := MemberText(ms[0]) + MoreMembers(ms[1..]);
    assert Text(JObj(ms)) == "{" + inner;
    MemberBytes(ms[0]);
    MoreBytes(ms[1..]);
    AppendBytes("{", inner);
    AppendBytes(MemberText(ms[0]), MoreMembers(ms[1..]));
    FewBytes("{");
  }

  /** What the client's own bounds leave of a result. */
  predicate ResultBounded(r: Result) {
    && (r.upstreamStatus.Some? ==> 100 <= r.upstreamStatus.value <= 599)
    && (r.processingId.Some? ==> |r.processingId.value| == 36)
    && (r.state.Some? ==> |r.state.value| <= 17)
    && (r.statusUrl.Some? ==> |r.statusUrl.value| <= URL_MAX)
    && (r.decisionOutcome.Some? ==> |r.decisionOutcome.value| <= 11)
    && (r.errorCode.Some? ==> |r.errorCode.value| <= 64)
  }

  lemma OptionalWeight(key: string, value: Option<string>, limit: nat)
    requires |key| <= 20 && (value.Some? ==> |value.value| <= limit)
    ensures Weights(OptionalMember(key, value)) <= 126 + 6 * limit && Scalars(OptionalMember(key, value))
  {
    if value.Some? {
      assert OptionalMember(key, value)[1..] == [];
    }
  }

  lemma OneWeight(m: Member)
    ensures Weights([m]) == Weight(m)
  {
    assert [m][1..] == [];
  }

  lemma WeightsOfNine(a: seq<Member>, b: seq<Member>, c: seq<Member>, d: seq<Member>, e: seq<Member>,
                      f: seq<Member>, g: seq<Member>, h: seq<Member>, k: seq<Member>)
    ensures Weights(a + b + c + d + e + f + g + h + k)
         == Weights(a) + Weights(b) + Weights(c) + Weights(d) + Weights(e) + Weights(f) + Weights(g) + Weights(h) + Weights(k)
  {
    hide Weights;
    WeightsAppend(a, b);
    WeightsAppend(a + b, c);
    WeightsAppend(a + b + c, d);
    WeightsAppend(a + b + c + d, e);
    WeightsAppend(a + b + c + d + e, f);
    WeightsAppend(a + b + c + d + e + f, g);
    WeightsAppend(a + b + c + d + e + f + g, h);
    WeightsAppend(a + b + c + d + e + f + g + h, k);
  }

  lemma DocumentWeight(r: Result)
    requires ResultBounded(r)
    ensures Weights(AdapterDocument(r)) <= BODY_MAX - 2
  {
    OptionalWeight("processing_id", r.processingId, 36);
    OptionalWeight("state", r.state, 17);
    OptionalWeight("status_url", r.statusUrl, URL_MAX);
    OptionalWeight("decision_outcome", r.decisionOutcome, 11);
    OptionalWeight("error_code", r.errorCode, 64);
    FixedWeights(r);
    hide Weights, OptionalMember, Scalars, Weight, ClassificationText;
    WeightsOfNine([Member("classification", JStr(ClassificationText(r.classification)))], StatusMember(r),
                  OptionalMember("processing_id", r.processingId), OptionalMember("state", r.state), OptionalMember("status_url", r.statusUrl),
                  [Member("replayed", JBool(r.replayed))],
                  OptionalMember("decision_outcome", r.decisionOutcome), OptionalMember("error_code", r.errorCode),
                  [Member("retryable", JBool(r.retryable)), Member("acceptance_unknown", JBool(r.acceptanceUnknown))]);
  }

  lemma DocumentScalars(r: Result)
    ensures Scalars(AdapterDocument(r)) && AdapterDocument(r) != []
  {
    hide OptionalMember, StatusMember;
    OptionalScalars("processing_id", r.processingId);
    OptionalScalars("state", r.state);
    OptionalScalars("status_url", r.statusUrl);
    OptionalScalars("decision_outcome", r.decisionOutcome);
    OptionalScalars("error_code", r.errorCode);
    StatusScalars(r);
    forall m | m in AdapterDocument(r) ensures Scalar(m.value) {
    }
  }

  lemma OptionalScalars(key: string, value: Option<string>)
    ensures forall m :: m in OptionalMember(key, value) ==> Scalar(m.value)
  {
  }

  lemma StatusScalars(r: Result)
    ensures forall m :: m in StatusMember(r) ==> Scalar(m.value)
  {
  }

  /** The adapter's reply is never too large for the sender to read. */
  lemma AdapterReplyFits(r: Result)
    requires ResultBounded(r)
    ensures |AdapterBytes(r)| <= BODY_MAX
  {
    DocumentWeight(r);
    DocumentScalars(r);
    hide AdapterDocument, Weights, Scalars, Utf8.Encode, Text;
    ObjectBytes(AdapterDocument(r));
  }

  lemma FixedWeights(r: Result)
    requires ResultBounded(r)
    ensures Weights([Member("classification", JStr(ClassificationText(r.classification)))]) <= 1000
    ensures r.upstreamStatus.Some? ==> Weights([Member("upstream_status", JInt(r.upstreamStatus.value))]) <= 1000
    ensures Weights([Member("replayed", JBool(r.replayed))]) <= 1000
    ensures Weights([Member("retryable", JBool(r.retryable)), Member("acceptance_unknown", JBool(r.acceptanceUnknown))]) <= 1000
    ensures Weights([]) == 0
  {
    OneWeight(Member("classification", JStr(ClassificationText(r.classification))));
    assert |ClassificationText(r.classification)| <= 20;
    if r.upstreamStatus.Some? {
      OneWeight(Member("upstream_status", JInt(r.upstreamStatus.value)));
      ShortDecimal(r.upstreamStatus.value);
    }
    OneWeight(Member("replayed", JBool(r.replayed)));
    var x, y := Member("retryable", JBool(r.retryable)), Member("acceptance_unknown", JBool(r.acceptanceUnknown));
    OneWeight(x);
    OneWeight(y);
    WeightsAppend([x], [y]);
    assert [x] + [y] == [x, y];
  }

  lemma ShortDecimal(n: nat)
    requires n <= 999
    ensures |Decimal(n)| <= 3
  {
    if n >= 10 {
      assert |Decimal(n / 10)| <= 2 by {
        if n / 10 >= 10 {
          assert Decimal(n / 10) == Decimal(n / 10 / 10) + [DigitOf(n / 10 % 10)];
        }
      }
    }
  }

  lemma StateLength(s: string)
    requires Rows.ParseState(s).Some?
    ensures |s| <= 17
  {
  }

  lemma OutcomeLength(body: Payload)
    requires !OutcomeRaises(body)
    ensures OutcomeOf(body).Some? ==> |OutcomeOf(body).value| <= 11
  {
    assert |"no_action"| == 9 && |"investigate"| == 11;
    hide LastValue, Field;
  }

  lemma StateOfLength(body: Payload)
    ensures StateOf(body).Some? ==> |StateOf(body).value| <= 17
  {
    hide Rows.ParseState, Field;
    if StateOf(body).Some? {
      StateLength(StateOf(body).value);
    }
  }

  lemma UrlLength(rules: TextRules, reply: HttpReply)
    ensures StatusUrlOf(rules, reply).Some? ==> |StatusUrlOf(rules, reply).value| <= URL_MAX
  {
    hide Field;
  }

  lemma IdLength(rules: TextRules, value: Json)
    requires RulesOk(rules)
    ensures ProcessingIdOf(rules, value).Some? ==> |ProcessingIdOf(rules, value).value| == 36
  {
  }

  lemma CodeLength(body: Payload)
    ensures ErrorCodeOf(body).Some? ==> |ErrorCodeOf(body).value| <= 64
  {
    hide Field;
  }

  lemma BaseBounded(rules: TextRules, reply: HttpReply)
    requires RulesOk(rules) && !ClientRaises(reply)
    ensures ResultBounded(BaseResult(rules, reply))
  {
    IdLength(rules, Field(reply.body, "processing_id"));
    StateOfLength(reply.body);
    UrlLength(rules, reply);
    OutcomeLength(reply.body);
    CodeLength(reply.body);
    hide RulesOk, ReplayedHeader, ProcessingIdOf, StateOf, StatusUrlOf, OutcomeOf, OutcomeRaises, ErrorCodeOf, Field;
  }

  lemma RetryBounded(base: Result, code: string, unknown: bool)
    requires ResultBounded(base) && |code| <= 64
    ensures ResultBounded(Retry(base, code, unknown))
  {
  }

  lemma TransientBounded(code: string, unknown: bool)
    requires |code| <= 64
    ensures ResultBounded(TransientResult(code, unknown))
  {
  }

  lemma KindBounded(base: Result, c: Classification)
    requires ResultBounded(base)
    ensures ResultBounded(base.(classification := c))
  {
  }

  lemma ReplyBounded(rules: TextRules, reply: HttpReply)
    requires RulesOk(rules) && !ClientRaises(reply)
    ensures ResultBounded(ClassifyReply(rules, reply))
  {
    CodesDiffer();
    hide RulesOk, BaseResult, Retry, ResultBounded, OutcomeRaises;
    BaseBounded(rules, reply);
    var base := BaseResult(rules, reply);
    KindBounded(base, Accept);
    KindBounded(base, Permanent);
    KindBounded(base, Durable);
    if reply.status == 500 {
      RetryBounded(base, "upstream_internal_failure", true);
    } else if reply.status == 503 {
      CodeLength(reply.body);
      ServiceBounded(base);
    } else {
      RetryBounded(base, "unexpected_upstream_status", true);
    }
  }

  lemma ServiceBounded(base: Result)
    requires ResultBounded(base)
    ensures ResultBounded(Retry(base, if base.errorCode.Some? then base.errorCode.value else "upstream_unavailable", false))
  {
  }

  /** Every result of the client is within those bounds. */
  lemma ClientResultBounded(rules: TextRules, u: Upstream)
    requires RulesOk(rules) && SubmitAlert(rules, u).Classified?
    ensures ResultBounded(SubmitAlert(rules, u).result)
  {
    CodesDiffer();
    hide RulesOk, ClassifyReply, TransientResult, ResultBounded, OutcomeRaises;
    match u
    case TimedOut => TransientBounded("upstream_timeout", true);
    case NotConnected => TransientBounded("upstream_connection_failed", false);
    case TransportFailed => TransientBounded("upstream_transport_failure", true);
    case Replied(reply) => ReplyBounded(rules, reply);
  }

  // ----- Agreement

  lemma {:induction false} LastValueSkip(a: seq<Member>, b: seq<Member>, key: string)
    requires forall i :: 0 <= i < |b| ==> b[i].key != key
    ensures LastValue(a + b, key) == LastValue(a, key)
    decreases |b|
  {
    if b == [] {
      assert a + b == a;
    } else {
      var n := |b| - 1;
      assert (a + b)[..|a + b| - 1] == a + b[..n];
      LastValueSkip(a, b[..n], key);
    }
  }

  /** The sender finds the classification and the retry flag the adapter wrote. */
  lemma AdapterFields(r: Result)
    ensures LastValue(AdapterDocument(r), "classification") == JStr(ClassificationText(r.classification))
    ensures LastValue(AdapterDocument(r), "retryable") == JBool(r.retryable)
  {
    var first := [Member("classification", JStr(ClassificationText(r.classification)))];
    var rest := AdapterDocument(r)[1..];
    assert AdapterDocument(r) == first + rest;
    RestKeys(r);
    LastValueSkip(first, rest, "classification");
    assert first[..0] == [];
    var n := |AdapterDocument(r)|;
    var flag := AdapterDocument(r)[..n - 1];
    assert AdapterDocument(r)[n - 1].key == "acceptance_unknown" && flag[n - 2] == Member("retryable", JBool(r.retryable));
    assert "acceptance_unknown"[0] == 'a' && "retryable"[0] == 'r';
  }

  lemma RestKeys(r: Result)
    ensures var rest := AdapterDocument(r)[1..]; forall i :: 0 <= i < |rest| ==> rest[i].key != "classification"
  {
    assert |"classification"| == 14 && |"upstream_status"| == 15 && |"processing_id"| == 13 && |"state"| == 5 && |"status_url"| == 10;
    assert |"replayed"| == 8 && |"decision_outcome"| == 16 && |"error_code"| == 10 && |"retryable"| == 9 && |"acceptance_unknown"| == 18;
  }

  /** What each classification is to the sender: category, whether to retry, success. */
  function Meaning(c: Classification): Disposition {
    match c
    case Complete => Disposition("success", false, true)
    case Accept => Disposition("success", false, true)
    case Permanent => Disposition("permanent_failure", false, false)
    case Durable => Disposition("durable_failure", false, false)
    case Transient => Disposition("transient_failure", true, false)
  }

  /** The one disposition left when the client raised. */
  const RAISED_DISPOSITION := Disposition("transient_failure", true, false)

  /** Retry agreement: the sender recognizes the adapter's reply, rather than falling back on
      its status, exactly when the client did not raise. Then it retries exactly when the
      adapter said so; where the client raised it retries whatever the core had answered. */
  lemma RetryAgreement(rules: TextRules, u: Upstream)
    requires RulesOk(rules)
    ensures var answer := SubmitAlert(rules, u);
            var reading := ClassifyAdapter(AdapterReply(answer));
            && (reading.Recognized? <==> !(u.Replied? && ClientRaises(u.reply)))
            && (answer.Classified? ==>
                  && AdapterReply(answer).body == Object(AdapterDocument(answer.result))
                  && reading.disposition == Meaning(answer.result.classification)
                  && reading.disposition.retryable == answer.result.retryable)
            && (answer.ClientRaised? ==> reading == FellBack(RAISED_DISPOSITION))
  {
    hide ClientRaises, RulesOk, AdapterDocument, LastValue, Contracted, AdapterStatus, AdapterBytes;
    var answer := SubmitAlert(rules, u);
    if answer.Classified? {
      ClientResultBounded(rules, u);
      ReplyReceived(answer.result);
      AdapterFields(answer.result);
      ContractedResult(rules, u);
    }
  }

  lemma ReplyReceived(r: Result)
    requires ResultBounded(r)
    ensures Received(AdapterDocument(r)) == Object(AdapterDocument(r))
  {
    hide AdapterDocument, ResultBounded;
    AdapterReplyFits(r);
  }

  lemma ContractedResult(rules: TextRules, u: Upstream)
    requires SubmitAlert(rules, u).Classified?
    ensures var r := SubmitAlert(rules, u).result;
            var d := Contracted(AdapterStatus(r), JStr(ClassificationText(r.classification)), JBool(r.retryable));
            && d.Some? && d.value == Meaning(r.classification) && d.value.retryable == r.retryable
  {
    hide ProcessingIdOf, StatusUrlOf, StateOf, ErrorCodeOf, OutcomeOf, OutcomeRaises, ReplayedHeader;
    CodesDiffer();
  }

  /** The codes the client sets by itself. */
  lemma CodesDiffer()
    ensures |"upstream_timeout"| == 16 && |"upstream_internal_failure"| == 25 && |"upstream_unavailable"| == 20
    ensures |"unexpected_upstream_status"| == 26 && |"upstream_connection_failed"| == 26 && |"upstream_transport_failure"| == 26
  {
  }

  predicate Names(r: Result, status: int, members: seq<Member>) {
    && AdapterStatus(r) == status
    && LastValue(members, "classification") == JStr(ClassificationText(r.classification))
    && LastValue(members, "retryable") == JBool(r.retryable)
  }

  /** The sender's vocabulary is the adapter's: it recognizes a status with a classification
      and a retry flag exactly when some answer of the core or of the transport makes the
      adapter send these three. */
  lemma VocabularyExact(rules: TextRules, status: int, members: seq<Member>)
    requires RulesOk(rules)
    ensures ClassifyAdapter(AdapterAnswer(status, Object(members))).Recognized? <==>
              exists u :: SubmitAlert(rules, u).Classified? && Names(SubmitAlert(rules, u).result, status, members)
  {
    hide LastValue, SubmitAlert, Contracted, AdapterStatus, ClassificationText;
    if ClassifyAdapter(AdapterAnswer(status, Object(members))).Recognized? {
      SentAs(rules, status, members);
    } else {
      forall u | SubmitAlert(rules, u).Classified? && Names(SubmitAlert(rules, u).result, status, members) ensures false {
        ContractedResult(rules, u);
      }
    }
  }

  lemma SentAs(rules: TextRules, status: int, members: seq<Member>)
    requires RulesOk(rules) && ClassifyAdapter(AdapterAnswer(status, Object(members))).Recognized?
    ensures exists u :: SubmitAlert(rules, u).Classified? && Names(SubmitAlert(rules, u).result, status, members)
  {
    hide LastValue, SubmitAlert;
    if status == 502 {
      PlainTransport(rules);
      assert Names(SubmitAlert(rules, NotConnected).result, status, members);
    } else if status == 504 {
      PlainTransport(rules);
      assert Names(SubmitAlert(rules, TimedOut).result, status, members);
    } else {
      PlainReply(rules, status);
      assert Names(SubmitAlert(rules, PlainUpstream(status)).result, status, members);
    }
  }

  lemma PlainTransport(rules: TextRules)
    ensures SubmitAlert(rules, NotConnected) == Classified(TransientResult("upstream_connection_failed", false))
    ensures SubmitAlert(rules, TimedOut) == Classified(TransientResult("upstream_timeout", true))
    ensures AdapterStatus(TransientResult("upstream_connection_failed", false)) == 502
    ensures AdapterStatus(TransientResult("upstream_timeout", true)) == 504
  {
    CodesDiffer();
  }

  /** A reply without a body the client can read, but with a Location. */
  function PlainUpstream(status: int): Upstream {
    Replied(HttpReply(status, Unreadable, ["/"], []))
  }

  lemma PlainReply(rules: TextRules, status: int)
    requires RulesOk(rules) && status in {200, 202, 400, 409, 422, 500, 503}
    ensures var answer := SubmitAlert(rules, PlainUpstream(status));
            && answer.Classified? && AdapterStatus(answer.result) == status
            && answer.result.retryable == (status == 503)
            && answer.result.classification ==
                 (if status == 200 then Complete else if status == 202 then Accept else if status == 500 then Durable
                  else if status == 503 then Transient else Permanent)
  {
    CodesDiffer();
    assert VisibleText(rules, "/");
    hide RulesOk, VisibleText;
  }

  /** Where the sender cannot read the body of the adapter's reply, the status alone says the
      same of everything but a durable failure, which it then tries again. */
  lemma FallbackAgrees(rules: TextRules, u: Upstream)
    requires RulesOk(rules) && SubmitAlert(rules, u).Classified?
    ensures var r := SubmitAlert(rules, u).result;
            var unread := ClassifyAdapter(AdapterAnswer(AdapterStatus(r), Unreadable));
            && unread.FellBack?
            && (unread.disposition == Meaning(r.classification) <==> r.classification != Durable)
            && (r.classification == Durable ==> unread.disposition == RAISED_DISPOSITION)
  {
    CodesDiffer();
    assert |"durable_failure"| == 15 && |"transient_failure"| == 17;
    hide RulesOk, ProcessingIdOf, StatusUrlOf, StateOf, ErrorCodeOf, OutcomeOf, OutcomeRaises, ReplayedHeader, Field;
  }

  /** A 200 whose decision outcome is an array is answered with a 500 the sender cannot read,
      and retried. */
  lemma RaisingReply(rules: TextRules)
    requires RulesOk(rules)
    ensures var reply := HttpReply(200, Object([Member("decision", JObj([Member("outcome", JArr([]))]))]), [], []);
            && ClientRaises(reply)
            && ClassifyAdapter(AdapterReply(SubmitAlert(rules, Replied(reply)))) == FellBack(RAISED_DISPOSITION)
  {
    var inner := [Member("outcome", JArr([]))];
    var outer := [Member("decision", JObj(inner))];
    assert LastValue(inner, "outcome") == JArr([]);
    assert LastValue(outer, "decision") == JObj(inner);
    RetryAgreement(rules, Replied(HttpReply(200, Object(outer), [], [])));
  }

  /** The adapter's bytes stand for its document and for no other. */
  lemma AdapterReplyReadsBack(r: Result, members: seq<Member>)
    requires Utf8.Encode(Text(JObj(members))) == AdapterBytes(r)
    ensures members == AdapterDocument(r)
  {
    hide Text, AdapterDocument;
    Utf8.EncodeInjective(Text(JObj(members)), Text(JObj(AdapterDocument(r))));
    TextInjective(JObj(members), JObj(AdapterDocument(r)));
  }

  /** The client's retry decision, by status and by whether the reply names a processing. */
  lemma ClientRetries(rules: TextRules, reply: HttpReply)
    requires !ClientRaises(reply)
    ensures ClassifyReply(rules, reply).retryable <==>
            && reply.status !in {200, 202, 400, 409, 422}
            && (reply.status == 500 ==>
                  ProcessingIdOf(rules, Field(reply.body, "processing_id")).None? && StatusUrlOf(rules, reply).None?)
  {
    hide ProcessingIdOf, StatusUrlOf, StateOf, ErrorCodeOf, OutcomeOf, OutcomeRaises, ReplayedHeader, Field;
  }

  /** Acceptance is reported unknown exactly when the request may have arrived without an
      answer that settles it. */
  lemma AcceptanceUnknown(rules: TextRules, u: Upstream)
    requires SubmitAlert(rules, u).Classified?
    ensures SubmitAlert(rules, u).result.acceptanceUnknown <==>
              || u.TimedOut? || u.TransportFailed?
              || (u.Replied? && u.reply.status !in {200, 202, 400, 409, 422, 503}
                  && (u.reply.status == 500 ==>
                        && ProcessingIdOf(rules, Field(u.reply.body, "processing_id")).None?
                        && StatusUrlOf(rules, u.reply).None?))
  {
    hide ProcessingIdOf, StatusUrlOf, StateOf, ErrorCodeOf, OutcomeOf, OutcomeRaises, ReplayedHeader, Field;
  }

  // ----- The documents of the core (`api/schemas.py`), nulls included

  function OptionalText(value: Option<string>): Json {
    if value.Some? then JStr(value.value) else JNull
  }

  function Texts(values: seq<string>): Json {
    JArr(seq(|values|, i requires 0 <= i < |values| => JStr(values[i])))
  }

  function SourceDocument(s: Source): Json {
    JObj([Member("source", JStr(s.source)), Member("source_alert_id", OptionalText(s.sourceAlertId))])
  }

  function EntityDocument(e: Entity): Json {
    JObj([Member("kind", JStr(e.kind)), Member("value", JStr(e.value))])
  }

  function EntityDocuments(es: seq<Entity>): Json {
    JArr(seq(|es|, i requires 0 <= i < |es| => EntityDocument(es[i])))
  }

  function EvidenceDocument(e: Evidence): Json {
    JObj([Member("reference", JStr(e.reference)), Member("kind", OptionalText(e.kind))])
  }

  function EvidenceDocuments(es: seq<Evidence>): Json {
    JArr(seq(|es|, i requires 0 <= i < |es| => EvidenceDocument(es[i])))
  }

  function AlertDocument(rules: TextRules, a: Alert): Json {
    JObj([Member("detection", JObj([Member("identifier", JStr(a.detection.identifier)), Member("name", OptionalText(a.detection.name))])),
          Member("detected_at", JStr(rules.timeText(a.detectedAt))), Member("source", SourceDocument(a.source)),
          Member("entities", EntityDocuments(a.entities)), Member("severity", JStr(SeverityText(a.severity))),
          Member("evidence", EvidenceDocuments(a.evidence))])
  }

  function DecisionMembers(d: Decision): seq<Member> {
    [Member("outcome", JStr(Rows.OutcomeText(d.outcome))), Member("policy_id", JStr(d.policyId)),
     Member("reasons", Texts(d.reasons)), Member("source", SourceDocument(d.source))]
  }

  function IncidentDocument(rules: TextRules, i: Incident): Json {
    JObj([Member("alert", AlertDocument(rules, i.alert)), Member("decision", JObj(DecisionMembers(i.decision)))])
  }

  function RequestDocument(r: Request): Json {
    JObj([Member("desired_outcome", JStr(r.desiredOutcome)), Member("required_capabilities", Texts(r.requiredCapabilities)),
          Member("targets", EntityDocuments(r.targets))])
  }

  function InvestigationDocument(r: InvestigationResult): Json {
    JObj([Member("backend", JStr(r.backend)), Member("completed_capabilities", Texts(r.completedCapabilities)),
          Member("evidence", EvidenceDocuments(r.evidence))])
  }

  function StatusUrl(rules: TextRules, pid: nat): string {
    "/v1/processings/" + rules.idText(pid)
  }

  function OptionalTime(rules: TextRules, t: Option<int>): Json {
    if t.Some? then JStr(rules.timeText(t.value)) else JNull
  }

  function DecisionDocument(r: Record): Json {
    if r.Decision().Some? then JObj(DecisionMembers(r.Decision().value)) else JNull
  }

  /** `AlertProcessingResponse.from_application`: the head of the document and the rest. */
  function PublicDocument(rules: TextRules, r: Record): seq<Member> {
    [Member("processing_id", JStr(rules.idText(r.processingId))), Member("state", JStr(Rows.StateText(r.state))),
     Member("status_url", JStr(StatusUrl(rules, r.processingId))), Member("created_at", JStr(rules.timeText(r.createdAt))),
     Member("updated_at", JStr(rules.timeText(r.updatedAt))), Member("completed_at", OptionalTime(rules, r.completedAt)),
     Member("failed_at", OptionalTime(rules, r.failedAt)), Member("decision", DecisionDocument(r)),
     Member("incident", if r.Incident().Some? then IncidentDocument(rules, r.Incident().value) else JNull),
     Member("investigation_request", if r.Request().Some? then RequestDocument(r.Request().value) else JNull),
     Member("investigation_result", if Rows.ResultOf(r).Some? then InvestigationDocument(Rows.ResultOf(r).value) else JNull),
     Member("error_category", if r.error.Some? then JStr(r.error.value.category) else JNull),
     Member("error_detail", if r.error.Some? then JStr(r.error.value.detail) else JNull)]
  }

  datatype Origin = Origin(pid: nat, state: ProcessingState)

  function OptionalTexts(key: string, values: Option<seq<string>>): seq<Member> {
    if values.Some? then [Member(key, Texts(values.value))] else []
  }

  function OriginMembers(rules: TextRules, origin: Option<Origin>): seq<Member> {
    if origin.None? then []
    else [Member("processing_id", JStr(rules.idText(origin.value.pid))), Member("state", JStr(Rows.StateText(origin.value.state))),
          Member("status_url", JStr(StatusUrl(rules, origin.value.pid)))]
  }

  /** `ApiErrorResponse` with `exclude_none`. */
  function ErrorDocument(rules: TextRules, code: string, message: string, requested: Option<seq<string>>,
                         eligible: Option<seq<string>>, origin: Option<Origin>): seq<Member> {
    [Member("code", JStr(code)), Member("message", JStr(message))]
    + OptionalTexts("requested_capabilities", requested) + OptionalTexts("eligible_backends", eligible)
    + OriginMembers(rules, origin)
  }

  // ----- What the core answers a delivery

  /** How a request ends: refused by validation, a stored record, one of the error branches of
      `process_alert`, or an exception none of them describes. The two planning errors carry
      the processing they arose in where the processor attached it. */
  datatype CoreAnswer =
    | InvalidRequest(detail: Json)
    | StoredRecord(record: Record, replayed: bool)
    | KeyMissing
    | KeyInvalid
    | KeyConflict
    | PersistenceFailed
    | UnsupportedCapability(requested: seq<string>, origin: Option<Origin>)
    | AmbiguousBackend(requested: seq<string>, eligible: seq<string>, origin: Option<Origin>)
    | InternalError

  /** `_DURABLE_CLIENT_FAILURES` has one entry. */
  predicate ClientFailure(r: Record) {
    r.state == Failed && r.error.Some? && r.error.value.category == "unsupported_capability"
  }

  function RecordStatus(r: Record): int {
    match r.state
    case Completed => 200
    case Failed => if ClientFailure(r) then 409 else 500
    case _ => 202
  }

  function AnswerStatus(a: CoreAnswer): int {
    match a
    case InvalidRequest(_) => 422
    case StoredRecord(record, _) => RecordStatus(record)
    case KeyMissing => 400
    case KeyInvalid => 400
    case KeyConflict => 409
    case PersistenceFailed => 503
    case UnsupportedCapability(_, _) => 409
    case AmbiguousBackend(_, _, _) => 500
    case InternalError => 500
  }

  /** The processing a reply names. */
  function AnswerOrigin(a: CoreAnswer): Option<Origin> {
    match a
    case StoredRecord(record, _) => Some(Origin(record.processingId, record.state))
    case UnsupportedCapability(_, origin) => origin
    case AmbiguousBackend(_, _, origin) => origin
    case _ => None
  }

  const NO_CAPABILITY_MESSAGE := "no configured backend supports the required capability"

  function AnswerDocument(rules: TextRules, a: CoreAnswer): seq<Member> {
    match a
    case InvalidRequest(detail) => [Member("detail", detail)]
    case StoredRecord(record, _) =>
      if ClientFailure(record) then
        ErrorDocument(rules, record.error.value.category, NO_CAPABILITY_MESSAGE, None, None, AnswerOrigin(a))
      else PublicDocument(rules, record)
    case KeyMissing => ErrorDocument(rules, "idempotency_key_required", "Idempotency-Key header is required", None, None, None)
    case KeyInvalid =>
      ErrorDocument(rules, "invalid_idempotency_key", "Idempotency-Key must contain 1-128 visible ASCII characters", None, None, None)
    case KeyConflict =>
      ErrorDocument(rules, "idempotency_conflict", "idempotency key is already bound to another request", None, None, None)
    case PersistenceFailed =>
      ErrorDocument(rules, "persistence_failed", "durable processing is temporarily unavailable", None, None, None)
    case UnsupportedCapability(requested, origin) =>
      ErrorDocument(rules, "unsupported_capability", NO_CAPABILITY_MESSAGE, Some(requested), None, origin)
    case AmbiguousBackend(requested, eligible, origin) =>
      ErrorDocument(rules, "backend_selection_error", "backend selection was ambiguous", Some(requested), Some(eligible), origin)
    case InternalError => [Member("detail", JStr("Internal Server Error"))]
  }

  function AnswerReply(rules: TextRules, a: CoreAnswer): HttpReply {
    HttpReply(AnswerStatus(a), Received(AnswerDocument(rules, a)),
              if AnswerOrigin(a).Some? then [StatusUrl(rules, AnswerOrigin(a).value.pid)] else [],
              if a.StoredRecord? && a.replayed then ["true"] else [])
  }

  lemma UrlVisible(rules: TextRules, pid: nat)
    requires RulesOk(rules)
    ensures VisibleText(rules, StatusUrl(rules, pid))
  {
    var url := StatusUrl(rules, pid);
    forall i | 0 <= i < |url| ensures 0x20 <= url[i] as int <= 0x7e {
      if i >= 16 {
        assert url[i] == rules.idText(pid)[i - 16];
      }
    }
  }

  lemma {:induction false} LastValueAt(ms: seq<Member>, i: nat)
    requires i < |ms| && forall j :: i < j < |ms| ==> ms[j].key != ms[i].key
    ensures LastValue(ms, ms[i].key) == ms[i].value
  {
    assert ms == ms[..i + 1] + ms[i + 1..];
    LastValueSkip(ms[..i + 1], ms[i + 1..], ms[i].key);
    assert ms[..i + 1][..i] == ms[..i];
  }

  lemma LastValueAbsent(ms: seq<Member>, key: string)
    requires forall j :: 0 <= j < |ms| ==> ms[j].key != key
    ensures LastValue(ms, key) == JNull
  {
    LastValueSkip([], ms, key);
    assert [] + ms == ms;
  }

  lemma PublicNames(rules: TextRules, r: Record)
    ensures var doc := PublicDocument(rules, r);
            && LastValue(doc, "processing_id") == JStr(rules.idText(r.processingId))
            && LastValue(doc, "state") == JStr(Rows.StateText(r.state))
            && LastValue(doc, "status_url") == JStr(StatusUrl(rules, r.processingId))
  {
    var doc := PublicDocument(rules, r);
    KeyLengths();
    LastValueAt(doc, 0);
    LastValueAt(doc, 1);
    assert doc[2].key[0] == 's' && doc[3].key[0] == 'c' && doc[4].key[0] == 'u';
    LastValueAt(doc, 2);
  }

  lemma PublicDecision(rules: TextRules, r: Record)
    ensures LastValue(PublicDocument(rules, r), "decision") == DecisionDocument(r)
  {
    var doc := PublicDocument(rules, r);
    KeyLengths();
    assert doc[7].key[0] == 'd' && doc[8].key[0] == 'i';
    LastValueAt(doc, 7);
  }

  lemma KeyLengths()
    ensures |"processing_id"| == 13 && |"state"| == 5 && |"status_url"| == 10 && |"created_at"| == 10 && |"updated_at"| == 10
    ensures |"completed_at"| == 12 && |"failed_at"| == 9 && |"decision"| == 8 && |"incident"| == 8
    ensures |"investigation_request"| == 21 && |"investigation_result"| == 20 && |"error_category"| == 14 && |"error_detail"| == 12
    ensures |"code"| == 4 && |"message"| == 7 && |"requested_capabilities"| == 22 && |"eligible_backends"| == 17 && |"detail"| == 6
  {
  }

  lemma DecisionOutcome(d: Decision)
    ensures LastValue(DecisionMembers(d), "outcome") == JStr(Rows.OutcomeText(d.outcome))
  {
    var ms := DecisionMembers(d);
    assert |"outcome"| == 7 && |"policy_id"| == 9 && |"reasons"| == 7 && |"source"| == 6;
    assert ms[0].key[0] == 'o' && ms[2].key[0] == 'r';
    LastValueAt(ms, 0);
  }

  lemma ErrorNames(rules: TextRules, code: string, message: string, requested: Option<seq<string>>,
                   eligible: Option<seq<string>>, origin: Option<Origin>)
    ensures var doc := ErrorDocument(rules, code, message, requested, eligible, origin);
            && LastValue(doc, "decision") == JNull
            && LastValue(doc, "processing_id") == (if origin.Some? then JStr(rules.idText(origin.value.pid)) else JNull)
            && LastValue(doc, "state") == (if origin.Some? then JStr(Rows.StateText(origin.value.state)) else JNull)
            && LastValue(doc, "status_url") == (if origin.Some? then JStr(StatusUrl(rules, origin.value.pid)) else JNull)
  {
    hide LastValue, StatusUrl, Texts;
    KeyLengths();
    var head := [Member("code", JStr(code)), Member("message", JStr(message))]
                + OptionalTexts("requested_capabilities", requested) + OptionalTexts("eligible_backends", eligible);
    var tail := OriginMembers(rules, origin);
    var doc := ErrorDocument(rules, code, message, requested, eligible, origin);
    assert doc == head + tail;
    assert forall i :: 0 <= i < |head| ==> |head[i].key| in {4, 7, 22, 17};
    assert forall i :: 0 <= i < |tail| ==> |tail[i].key| in {13, 5, 10};
    LastValueAbsent(doc, "decision");
    if origin.None? {
      LastValueAbsent(doc, "processing_id");
      LastValueAbsent(doc, "state");
      LastValueAbsent(doc, "status_url");
    } else {
      LastValueAt(doc, |head|);
      LastValueAt(doc, |head| + 1);
      LastValueAt(doc, |head| + 2);
    }
  }

  lemma DetailNames(detail: Json)
    ensures var doc := [Member("detail", detail)];
            && LastValue(doc, "decision") == JNull && LastValue(doc, "processing_id") == JNull && LastValue(doc, "status_url") == JNull
  {
    KeyLengths();
    LastValueAbsent([Member("detail", detail)], "decision");
    LastValueAbsent([Member("detail", detail)], "processing_id");
    LastValueAbsent([Member("detail", detail)], "status_url");
  }

  /** What the documents of the core say in the fields the client looks at. */
  lemma AnswerNames(rules: TextRules, a: CoreAnswer)
    ensures var doc := AnswerDocument(rules, a);
            var origin := AnswerOrigin(a);
            && LastValue(doc, "decision") == (if a.StoredRecord? && !ClientFailure(a.record) then DecisionDocument(a.record) else JNull)
            && LastValue(doc, "processing_id") == (if origin.Some? then JStr(rules.idText(origin.value.pid)) else JNull)
            && LastValue(doc, "status_url") == (if origin.Some? then JStr(StatusUrl(rules, origin.value.pid)) else JNull)
            && (origin.Some? ==> LastValue(doc, "state") == JStr(Rows.StateText(origin.value.state)))
  {
    hide LastValue, StatusUrl, PublicDocument, ErrorDocument, DecisionDocument, Rows.StateText;
    var doc := AnswerDocument(rules, a);
    match a
    case InvalidRequest(detail) => DetailNames(detail);
    case InternalError => DetailNames(JStr("Internal Server Error"));
    case StoredRecord(record, _) =>
      if ClientFailure(record) {
        ErrorNames(rules, record.error.value.category, NO_CAPABILITY_MESSAGE, None, None, AnswerOrigin(a));
      } else {
        PublicNames(rules, record);
        PublicDecision(rules, record);
      }
    case KeyMissing => ErrorNames(rules, "idempotency_key_required", "Idempotency-Key header is required", None, None, None);
    case KeyInvalid =>
      ErrorNames(rules, "invalid_idempotency_key", "Idempotency-Key must contain 1-128 visible ASCII characters", None, None, None);
    case KeyConflict =>
      ErrorNames(rules, "idempotency_conflict", "idempotency key is already bound to another request", None, None, None);
    case PersistenceFailed =>
      ErrorNames(rules, "persistence_failed", "durable processing is temporarily unavailable", None, None, None);
    case UnsupportedCapability(requested, origin) =>
      ErrorNames(rules, "unsupported_capability", NO_CAPABILITY_MESSAGE, Some(requested), None, origin);
    case AmbiguousBackend(requested, eligible, origin) =>
      ErrorNames(rules, "backend_selection_error", "backend selection was ambiguous", Some(requested), Some(eligible), origin);
  }

  /** No document of the core makes the client raise. */
  lemma AnswerNeverRaises(rules: TextRules, a: CoreAnswer)
    ensures !ClientRaises(AnswerReply(rules, a))
  {
    AnswerNames(rules, a);
    hide AnswerDocument, LastValue, DecisionMembers, StatusUrl;
    if a.StoredRecord? && a.record.Decision().Some? {
      DecisionOutcome(a.record.Decision().value);
    }
  }

  /** The client takes a reply to name a processing, by its body or by its Location header,
      exactly when the core's answer has one. */
  lemma ReplyNamed(rules: TextRules, a: CoreAnswer)
    requires RulesOk(rules)
    ensures var reply := AnswerReply(rules, a);
            (ProcessingIdOf(rules, Field(reply.body, "processing_id")).Some? || StatusUrlOf(rules, reply).Some?)
              <==> AnswerOrigin(a).Some?
  {
    AnswerNames(rules, a);
    hide AnswerDocument, LastValue, VisibleText, StatusUrl;
    if AnswerOrigin(a).Some? {
      UrlVisible(rules, AnswerOrigin(a).value.pid);
    }
  }

  /** A failure that no retry of the same request would avoid. */
  predicate RequestAtFault(r: Record) {
    r.state == Failed && r.error.Some? && r.error.value.category == "unsupported_capability"
  }

  /** What the client sees of each answer: the status it stands for. */
  lemma AnswerSeen(rules: TextRules, a: CoreAnswer)
    requires RulesOk(rules)
    ensures var answer := SubmitAlert(rules, Replied(AnswerReply(rules, a)));
            && answer.Classified? && answer.result.upstreamStatus.Some?
            && var code := answer.result.upstreamStatus.value;
               && (code == 200 <==> a.StoredRecord? && a.record.state == Completed)
               && (code == 202 <==> a.StoredRecord? && a.record.state in {Accepted, Planned, Submitting, Submitted, RecoveryRequired})
               && (code == 400 <==> a.KeyMissing? || a.KeyInvalid?)
               && (code == 409 <==> a.KeyConflict? || a.UnsupportedCapability? || (a.StoredRecord? && RequestAtFault(a.record)))
               && (code == 422 <==> a.InvalidRequest?)
               && (code == 503 <==> a.PersistenceFailed?)
               && (code == 500 <==>
                     a.AmbiguousBackend? || a.InternalError? || (a.StoredRecord? && a.record.state == Failed && !RequestAtFault(a.record)))
  {
    AnswerNeverRaises(rules, a);
    BaseFieldsStay(rules, AnswerReply(rules, a));
    StatusOf(rules, a);
    hide RulesOk, ClassifyReply, ClientRaises, ProcessingIdOf, StatusUrlOf, StateOf, OutcomeOf, OutcomeRaises, Field, ReplayedHeader, AnswerReply;
  }

  lemma StatusOf(rules: TextRules, a: CoreAnswer)
    ensures var code := AnswerReply(rules, a).status;
               && (code == 200 <==> a.StoredRecord? && a.record.state == Completed)
               && (code == 202 <==> a.StoredRecord? && a.record.state in {Accepted, Planned, Submitting, Submitted, RecoveryRequired})
               && (code == 400 <==> a.KeyMissing? || a.KeyInvalid?)
               && (code == 409 <==> a.KeyConflict? || a.UnsupportedCapability? || (a.StoredRecord? && RequestAtFault(a.record)))
               && (code == 422 <==> a.InvalidRequest?)
               && (code == 503 <==> a.PersistenceFailed?)
               && (code == 500 <==>
                     a.AmbiguousBackend? || a.InternalError? || (a.StoredRecord? && a.record.state == Failed && !RequestAtFault(a.record)))
  {
    hide AnswerDocument, StatusUrl, Received;
  }

  /** The client takes an answer for durable when it is an internal failure that names a
      processing, and reports acceptance unknown when it is one that names none. */
  lemma AnswerTaken(rules: TextRules, a: CoreAnswer)
    requires RulesOk(rules)
    ensures var answer := SubmitAlert(rules, Replied(AnswerReply(rules, a)));
            && answer.Classified? && answer.result.upstreamStatus.Some?
            && var code, kind := answer.result.upstreamStatus.value, answer.result.classification;
               && (kind == Complete <==> code == 200) && (kind == Accept <==> code == 202)
               && (kind == Permanent <==> code in {400, 409, 422})
               && (kind == Durable <==> code == 500 && (a.StoredRecord? || (a.AmbiguousBackend? && a.origin.Some?)))
               && (answer.result.acceptanceUnknown <==> a.InternalError? || (a.AmbiguousBackend? && a.origin.None?))
  {
    AnswerNeverRaises(rules, a);
    ReplyNamed(rules, a);
    BaseFieldsStay(rules, AnswerReply(rules, a));
    ClassifiedBy(rules, AnswerReply(rules, a));
    AcceptanceUnknown(rules, Replied(AnswerReply(rules, a)));
    StatusOf(rules, a);
    hide RulesOk, ClassifyReply, ClientRaises, ProcessingIdOf, StatusUrlOf, StateOf, OutcomeOf, OutcomeRaises, Field, AnswerReply, ReplayedHeader;
  }

  lemma ClassifiedBy(rules: TextRules, reply: HttpReply)
    requires !ClientRaises(reply)
    ensures var kind := ClassifyReply(rules, reply).classification;
            && (kind == Complete <==> reply.status == 200) && (kind == Accept <==> reply.status == 202)
            && (kind == Permanent <==> reply.status in {400, 409, 422})
            && (kind == Durable <==>
                  && reply.status == 500
                  && (ProcessingIdOf(rules, Field(reply.body, "processing_id")).Some? || StatusUrlOf(rules, reply).Some?))
  {
    hide ProcessingIdOf, StatusUrlOf, StateOf, ErrorCodeOf, OutcomeOf, OutcomeRaises, ReplayedHeader, Field;
  }

  /** Every answer of the core is recognized. The sender reports success exactly for a stored
      record that has not failed. It tries again exactly when the core could not reach its
      storage, or failed without naming a processing; a failure of the processing that the core
      does name, and that no other request would avoid, is durable. */
  lemma RetriedAnswers(rules: TextRules, a: CoreAnswer)
    requires RulesOk(rules)
    ensures var reading := ClassifyAdapter(AdapterReply(SubmitAlert(rules, Replied(AnswerReply(rules, a)))));
            && reading.Recognized?
            && (reading.disposition.success <==> a.StoredRecord? && a.record.state != Failed)
            && (reading.disposition.retryable <==>
                  a.PersistenceFailed? || a.InternalError? || (a.AmbiguousBackend? && a.origin.None?))
            && (reading.disposition.category == "success" <==> reading.disposition.success)
            && (reading.disposition.category == "transient_failure" <==> reading.disposition.retryable)
            && (reading.disposition.category == "durable_failure" <==>
                  (a.AmbiguousBackend? && a.origin.Some?) || (a.StoredRecord? && a.record.state == Failed && !RequestAtFault(a.record)))
  {
    AnswerNeverRaises(rules, a);
    RetryAgreement(rules, Replied(AnswerReply(rules, a)));
    AnswerSeen(rules, a);
    AnswerTaken(rules, a);
    hide RulesOk, ClassifyAdapter, SubmitAlert, AnswerReply, ClientRaises, AdapterReply, Meaning;
    MeaningNames(SubmitAlert(rules, Replied(AnswerReply(rules, a))).result.classification);
  }

  lemma MeaningNames(c: Classification)
    ensures var d := Meaning(c);
            && (d.success <==> c in {Complete, Accept}) && (d.category == "success" <==> c in {Complete, Accept})
            && (d.retryable <==> c == Transient) && (d.category == "transient_failure" <==> c == Transient)
            && (d.category == "durable_failure" <==> c == Durable)
  {
    assert |"success"| == 7 && |"permanent_failure"| == 17 && |"durable_failure"| == 15 && |"transient_failure"| == 17;
    assert "permanent_failure"[0] == 'p' && "transient_failure"[0] == 't';
  }

  /** What the client says of a storage failure: try again, and nothing was accepted. */
  lemma StorageFailureAnswer(rules: TextRules)
    requires RulesOk(rules)
    ensures var answer := SubmitAlert(rules, Replied(AnswerReply(rules, PersistenceFailed)));
            answer.Classified? && answer.result.retryable && !answer.result.acceptanceUnknown
  {
    var reply := AnswerReply(rules, PersistenceFailed);
    AnswerNeverRaises(rules, PersistenceFailed);
    ClientRetries(rules, reply);
    AcceptanceUnknown(rules, Replied(reply));
    hide RulesOk, ClassifyReply, ClientRaises, ProcessingIdOf, StatusUrlOf, Field, AnswerDocument, Received;
  }

  /** A reply the core makes from a stored record is never retried, even when its body is too
      large to be read, for the Location header is enough; it counts as delivered unless the
      record failed. */
  lemma StoredRepliesFinal(rules: TextRules, r: Record, replayed: bool)
    requires RulesOk(rules)
    ensures var reading := ClassifyAdapter(AdapterReply(SubmitAlert(rules, Replied(AnswerReply(rules, StoredRecord(r, replayed))))));
            reading.Recognized? && !reading.disposition.retryable && reading.disposition.success == (r.state != Failed)
  {
    var a := StoredRecord(r, replayed);
    RetriedAnswers(rules, a);
    AnswerNeverRaises(rules, a);
    RetryAgreement(rules, Replied(AnswerReply(rules, a)));
    ReplyNamed(rules, a);
    hide RulesOk, ClassifyAdapter, ClientRaises, AdapterReply, ProcessingIdOf, StatusUrlOf, Field, AnswerDocument, StatusUrl, Received,
         StateOf, OutcomeOf, OutcomeRaises, ErrorCodeOf, ReplayedHeader;
  }

  /** The fields of a stored record's reply reach the client's result; of a body too large to
      be read, the status, the URL and the replay flag still do. */
  lemma StoredFieldsKept(rules: TextRules, r: Record, replayed: bool)
    requires RulesOk(rules)
    ensures var reply := AnswerReply(rules, StoredRecord(r, replayed));
            var answer := SubmitAlert(rules, Replied(reply));
            && answer.Classified?
            && answer.result.replayed == replayed
            && answer.result.statusUrl == Some(StatusUrl(rules, r.processingId))
            && (reply.body.Object? ==>
                  && answer.result.processingId == Some(rules.idText(r.processingId))
                  && answer.result.state == Some(Rows.StateText(r.state))
                  && answer.result.decisionOutcome ==
                       (if r.Decision().Some? && !ClientFailure(r) then Some(Rows.OutcomeText(r.Decision().value.outcome)) else None))
  {
    var a := StoredRecord(r, replayed);
    AnswerNeverRaises(rules, a);
    StoredNames(rules, r, replayed);
    StoredOutcome(rules, r, replayed);
    BaseFieldsStay(rules, AnswerReply(rules, a));
    hide RulesOk, AnswerDocument, ClassifyReply, StatusUrl, ErrorCodeOf, ClientRaises, OutcomeRaises, Rows.StateText, Rows.OutcomeText,
         ProcessingIdOf, StateOf, StatusUrlOf, OutcomeOf, Field, Received;
  }

  /** Whatever a reply is classified as, its fields go into the result unchanged. */
  lemma BaseFieldsStay(rules: TextRules, reply: HttpReply)
    requires !ClientRaises(reply)
    ensures var result := ClassifyReply(rules, reply);
            && result.upstreamStatus == Some(reply.status) && result.replayed == ReplayedHeader(reply.replayHeaders)
            && result.processingId == ProcessingIdOf(rules, Field(reply.body, "processing_id")) && result.state == StateOf(reply.body)
            && result.statusUrl == StatusUrlOf(rules, reply) && result.decisionOutcome == OutcomeOf(reply.body)
  {
    hide ProcessingIdOf, StateOf, StatusUrlOf, OutcomeOf, OutcomeRaises, Field, ErrorCodeOf, ReplayedHeader;
  }

  lemma StoredNames(rules: TextRules, r: Record, replayed: bool)
    requires RulesOk(rules)
    ensures var reply := AnswerReply(rules, StoredRecord(r, replayed));
            && StatusUrlOf(rules, reply) == Some(StatusUrl(rules, r.processingId))
            && (reply.body.Object? ==>
                  && ProcessingIdOf(rules, Field(reply.body, "processing_id")) == Some(rules.idText(r.processingId))
                  && StateOf(reply.body) == Some(Rows.StateText(r.state)))
  {
    AnswerNames(rules, StoredRecord(r, replayed));
    UrlVisible(rules, r.processingId);
    StateReads(r.state);
    IdReads(rules, r.processingId);
    hide RulesOk, AnswerDocument, LastValue, VisibleText, StatusUrl, Rows.StateText, Rows.ParseState;
  }

  lemma StoredOutcome(rules: TextRules, r: Record, replayed: bool)
    ensures var body := AnswerReply(rules, StoredRecord(r, replayed)).body;
            && !OutcomeRaises(body)
            && (body.Object? ==>
                  OutcomeOf(body) == if r.Decision().Some? && !ClientFailure(r) then Some(Rows.OutcomeText(r.Decision().value.outcome)) else None)
  {
    AnswerNeverRaises(rules, StoredRecord(r, replayed));
    AnswerNames(rules, StoredRecord(r, replayed));
    if r.Decision().Some? {
      DecisionOutcome(r.Decision().value);
    }
    hide AnswerDocument, LastValue, DecisionMembers, StatusUrl, ClientFailure;
  }

  lemma StateReads(s: ProcessingState)
    ensures Rows.ParseState(Rows.StateText(s)).Some?
  {
    Rows.ParseOne(s);
  }

  lemma IdReads(rules: TextRules, pid: nat)
    requires RulesOk(rules)
    ensures rules.uuid(rules.idText(pid)) == Some(rules.idText(pid))
  {
  }

  // ----- The retry loop

  datatype TransportAnswer = Answered(reply: AdapterAnswer) | ConnectionFailure | RequestTimeout

  /** What the sender makes of an answer; nothing when reading it raises. */
  function Dispose(t: TransportAnswer): Option<Disposition> {
    match t
    case Answered(reply) =>
      var reading := ClassifyAdapter(reply);
      if reading.ReadingRaised? then None else Some(reading.disposition)
    case _ => Some(Disposition("transient_failure", true, false))
  }

  /** How `deliver` ends: with an outcome, with the error of an oversized body or an invalid
      status, or with the exception that reading a reply raised. */
  datatype DeliveryOutcome = Delivered(success: bool, attempts: nat, category: string) | InputError | Crashed

  const MAXIMUM_ATTEMPTS := 3

  predicate ValidAnswer(t: TransportAnswer) {
    t.Answered? ==> 100 <= t.reply.status <= 599
  }

  /** The replies whose reading raises: by the parser, or by an array or object in the place
      of the classification. */
  predicate SenderRaises(t: TransportAnswer) {
    t.Answered? && (t.reply.body.ParserRaised? || Unhashable(Field(t.reply.body, "classification")))
  }

  predicate TriesAgain(t: TransportAnswer) {
    Dispose(t).Some? && Dispose(t).value.retryable && !Dispose(t).value.success
  }

  /** Of replies without a body it can read, the sender takes 200 and 202 for success, gives up
      on redirections and client errors, and tries again after all others. */
  lemma UnreadableReplies(status: int)
    ensures var t := Answered(AdapterAnswer(status, Unreadable));
            && Dispose(t).Some? && (Dispose(t).value.success <==> status == 200 || status == 202)
            && (TriesAgain(t) <==> status != 200 && status != 202 && (status <= 299 || status >= 500))
  {
  }

  /** `deliver`: `answers` is what the transport would answer, call by call; `calls` is what it
      was given and `sleeps` the pauses taken. Clock readings and signatures are left out. */
  method Deliver(body: seq<int>, answers: seq<TransportAnswer>) returns (outcome: DeliveryOutcome, calls: seq<seq<int>>, sleeps: seq<real>)
    requires |answers| == MAXIMUM_ATTEMPTS
    ensures |calls| <= MAXIMUM_ATTEMPTS && forall i :: 0 <= i < |calls| ==> calls[i] == body
    ensures |body| > BODY_MAX <==> calls == []
    ensures calls == [] ==> outcome == InputError && sleeps == []
    ensures calls != [] ==>
              var n := |calls| - 1;
              && sleeps == [1.0, 2.0][..n]
              && (forall i :: 0 <= i < n ==> ValidAnswer(answers[i]) && !SenderRaises(answers[i]) && TriesAgain(answers[i]))
              && (outcome.InputError? <==> !ValidAnswer(answers[n]))
              && (outcome.Crashed? <==> ValidAnswer(answers[n]) && SenderRaises(answers[n]))
              && (outcome.Delivered? ==>
                    && outcome.attempts == |calls|
                    && Dispose(answers[n]).Some?
                    && outcome.success == Dispose(answers[n]).value.success && outcome.category == Dispose(answers[n]).value.category
                    && (TriesAgain(answers[n]) ==> |calls| == MAXIMUM_ATTEMPTS))
  {
    calls, sleeps := [], [];
    outcome := InputError;
    if |body| > BODY_MAX {
      return;
    }
    var attempt := 1;
    while attempt <= MAXIMUM_ATTEMPTS
      invariant 1 <= attempt <= MAXIMUM_ATTEMPTS && |calls| == attempt - 1
      invariant forall i :: 0 <= i < |calls| ==>
                  calls[i] == body && ValidAnswer(answers[i]) && !SenderRaises(answers[i]) && TriesAgain(answers[i])
      invariant sleeps == [1.0, 2.0][..attempt - 1]
      invariant outcome == InputError
      decreases MAXIMUM_ATTEMPTS - attempt
    {
      calls := calls + [body];
      var answer := answers[attempt - 1];
      if !ValidAnswer(answer) {
        return;
      }
      var read := Dispose(answer);
      if read.None? {
        outcome := Crashed;
        return;
      }
      var disposition := read.value;
      if disposition.success || !disposition.retryable || attempt == MAXIMUM_ATTEMPTS {
        outcome := Delivered(disposition.success, attempt, disposition.category);
        return;
      }
      sleeps := sleeps + [[1.0, 2.0][attempt - 1]];
      attempt := attempt + 1;
    }
  }
}
