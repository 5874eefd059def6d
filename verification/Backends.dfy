/** Planning, backend selection and the Velociraptor backend (`application/orchestrator.py`,
    `backends/router.py`, `backends/velociraptor.py`), as the code that gives the protocol its
    answers: what the protocol assumes of a plan, of a submission and of a poll is proved of
    them here. */
module Backends {
  import opened Domain
  import opened Lifecycle
  import R = Repository
  import P = Protocol
  import opened Json

  // ----- Planning

  datatype BackendInfo = BackendInfo(name: string, capabilities: set<string>)

  predicate Eligible(b: BackendInfo, request: Request) {
    forall c :: c in request.requiredCapabilities ==> c in b.capabilities
  }

  function EligibleBackends(backends: seq<BackendInfo>, request: Request): seq<BackendInfo> {
    if backends == [] then []
    else (if Eligible(backends[0], request) then [backends[0]] else []) + EligibleBackends(backends[1..], request)
  }

  /** `AlertOrchestrator.plan` for what the policy decided and the request factory made. */
  function MakePlan(alert: Alert, decision: Decision, request: Request, backends: seq<BackendInfo>): P.PlanOutcome {
    if decision.source != alert.source then P.PlanningRaised
    else
      match decision.outcome
      case NoAction => P.NoActionPlan(decision)
      case Investigate =>
        var incident := Incident(alert, decision);
        if request.incident != incident then P.PlanningRaised
        else
          var eligible := EligibleBackends(backends, request);
          if eligible == [] then P.Unsupported
          else if |eligible| > 1 then P.Ambiguous
          else P.InvestigatePlan(R.Plan(decision, incident, request, eligible[0].name))
  }

  /** `BackendRouter.get`: exactly one backend of that name. */
  function Named(backends: seq<BackendInfo>, name: string): seq<BackendInfo> {
    if backends == [] then []
    else (if backends[0].name == name then [backends[0]] else []) + Named(backends[1..], name)
  }

  lemma {:induction false} EligibleAre(backends: seq<BackendInfo>, request: Request)
    ensures forall b :: b in EligibleBackends(backends, request) <==> b in backends && Eligible(b, request)
  {
    if backends != [] {
      EligibleAre(backends[1..], request);
      assert forall b :: b in backends <==> b == backends[0] || b in backends[1..];
    }
  }

  lemma {:induction false} NamedAre(backends: seq<BackendInfo>, name: string)
    ensures forall b :: b in Named(backends, name) <==> b in backends && b.name == name
  {
    if backends != [] {
      NamedAre(backends[1..], name);
      assert forall b :: b in backends <==> b == backends[0] || b in backends[1..];
    }
  }

  lemma {:induction false} NamedNone(backends: seq<BackendInfo>, name: string)
    requires forall b :: b in backends ==> b.name != name
    ensures Named(backends, name) == []
  {
    if backends != [] {
      NamedNone(backends[1..], name);
    }
  }

  lemma {:induction false} NamedOnce(backends: seq<BackendInfo>, name: string)
    requires forall i, j :: 0 <= i < j < |backends| ==> backends[i].name != backends[j].name
    ensures |Named(backends, name)| <= 1
  {
    if backends != [] {
      if backends[0].name == name {
        forall b | b in backends[1..] ensures b.name != name {
          var j :| 0 <= j < |backends| - 1 && backends[1..][j] == b;
          assert b == backends[j + 1];
        }
        NamedNone(backends[1..], name);
      } else {
        NamedOnce(backends[1..], name);
      }
    }
  }

  ghost predicate NamedTwice(backends: seq<BackendInfo>, name: string) {
    exists i, j :: 0 <= i < j < |backends| && backends[i].name == name && backends[j].name == name
  }

  lemma {:induction false} NamedMore(backends: seq<BackendInfo>, name: string)
    ensures |Named(backends, name)| > 1 <==> NamedTwice(backends, name)
  {
    if backends != [] {
      var rest := backends[1..];
      NamedMore(rest, name);
      NamedPlace(rest, name);
      if backends[0].name == name && Named(rest, name) != [] {
        var k :| 0 <= k < |rest| && rest[k].name == name;
        assert backends[k + 1] == rest[k];
      }
      if NamedTwice(rest, name) {
        var i, j :| 0 <= i < j < |rest| && rest[i].name == name && rest[j].name == name;
        assert backends[i + 1] == rest[i] && backends[j + 1] == rest[j];
      }
      if NamedTwice(backends, name) {
        var i, j :| 0 <= i < j < |backends| && backends[i].name == name && backends[j].name == name;
        assert rest[j - 1] == backends[j];
        assert i > 0 ==> rest[i - 1] == backends[i];
      }
    }
  }

  lemma NamedPlace(backends: seq<BackendInfo>, name: string)
    ensures Named(backends, name) != [] <==> exists k :: 0 <= k < |backends| && backends[k].name == name
  {
    NamedAre(backends, name);
    if Named(backends, name) != [] {
      assert Named(backends, name)[0] in backends;
    }
    if exists k :: 0 <= k < |backends| && backends[k].name == name {
      var k :| 0 <= k < |backends| && backends[k].name == name;
      assert backends[k] in Named(backends, name);
    }
  }

  /** A name is found when the configuration has it at exactly one position. */
  lemma NamedCount(backends: seq<BackendInfo>, name: string)
    ensures |Named(backends, name)| == 1 <==>
              (exists k :: 0 <= k < |backends| && backends[k].name == name) && !NamedTwice(backends, name)
  {
    NamedMore(backends, name);
    NamedPlace(backends, name);
    hide Named, NamedTwice;
  }

  /** Two positions of the configuration hold backends with every required capability. */
  ghost predicate TwoEligible(backends: seq<BackendInfo>, request: Request) {
    exists i, j :: 0 <= i < j < |backends| && Eligible(backends[i], request) && Eligible(backends[j], request)
  }

  lemma {:induction false} EligibleCount(backends: seq<BackendInfo>, request: Request)
    ensures |EligibleBackends(backends, request)| > 1 <==> TwoEligible(backends, request)
  {
    hide Eligible;
    if backends != [] {
      var rest := backends[1..];
      EligibleCount(rest, request);
      EligibleAre(rest, request);
      if Eligible(backends[0], request) && EligibleBackends(rest, request) != [] {
        var b := EligibleBackends(rest, request)[0];
        assert b in EligibleBackends(rest, request);
        var k :| 0 <= k < |rest| && rest[k] == b;
        assert backends[k + 1] == b;
      }
      if TwoEligible(rest, request) {
        var i, j :| 0 <= i < j < |rest| && Eligible(rest[i], request) && Eligible(rest[j], request);
        assert backends[i + 1] == rest[i] && backends[j + 1] == rest[j];
      }
      if TwoEligible(backends, request) {
        var i, j :| 0 <= i < j < |backends| && Eligible(backends[i], request) && Eligible(backends[j], request);
        assert rest[j - 1] == backends[j] && rest[j - 1] in EligibleBackends(rest, request);
        assert i > 0 ==> rest[i - 1] == backends[i];
      }
    }
  }

  /** A plan is what the protocol takes it for. A decision or a request about something else
      raises; a decision for no action is planned as such; otherwise the investigation is
      unsupported when no backend has every required capability, ambiguous when two do, and
      goes to the only one when there is one. */
  lemma PlanSound(alert: Alert, decision: Decision, request: Request, backends: seq<BackendInfo>)
    requires DecisionValid(decision) && RequestValid(request)
    ensures var p := MakePlan(alert, decision, request, backends);
            && P.PlanOutcomeOk(alert, p)
            && (p.PlanningRaised? <==>
                  decision.source != alert.source || (decision.outcome == Investigate && request.incident != Incident(alert, decision)))
            && (decision.source == alert.source && decision.outcome == NoAction ==> p == P.NoActionPlan(decision))
            && (p.NoActionPlan? ==> decision.outcome == NoAction)
            && (p.Unsupported? ==> forall b :: b in backends ==> !Eligible(b, request))
            && (p.Ambiguous? ==> TwoEligible(backends, request))
            && (p.InvestigatePlan? ==>
                  && !TwoEligible(backends, request)
                  && p.plan.decision == decision && p.plan.incident == Incident(alert, decision) && p.plan.request == request
                  && (exists b :: b in backends && Eligible(b, request) && b.name == p.plan.backend)
                  && (forall b :: b in backends && Eligible(b, request) ==> b.name == p.plan.backend))
  {
    hide DecisionValid, RequestValid, Eligible, TwoEligible;
    EligibleAre(backends, request);
    EligibleCount(backends, request);
    var eligible := EligibleBackends(backends, request);
    if |eligible| == 1 {
      assert eligible[0] in eligible;
    } else if eligible == [] {
      assert forall b :: b !in eligible;
    }
  }

  /** The persisted name finds exactly the eligible backend the plan selected, in the same
      configuration, when no two backends share a name. */
  lemma SelectedFoundAgain(alert: Alert, decision: Decision, request: Request, backends: seq<BackendInfo>)
    requires forall i, j :: 0 <= i < j < |backends| ==> backends[i].name != backends[j].name
    requires MakePlan(alert, decision, request, backends).InvestigatePlan?
    ensures Named(backends, MakePlan(alert, decision, request, backends).plan.backend) == EligibleBackends(backends, request)
    ensures |EligibleBackends(backends, request)| == 1
  {
    hide Eligible;
    EligibleAre(backends, request);
    var b := EligibleBackends(backends, request)[0];
    assert b in EligibleBackends(backends, request);
    NamedOnce(backends, b.name);
    NamedAre(backends, b.name);
    assert b in Named(backends, b.name);
    assert Named(backends, b.name) == [b];
  }

  // ----- Velociraptor

  datatype Velociraptor = Velociraptor(hostClients: map<string, string>, timeoutSeconds: real)

  predicate Configured(b: Velociraptor) {
    b.timeoutSeconds > 0.0 && forall h :: h in b.hostClients ==> NonBlank(b.hostClients[h])
  }

  const CAPABILITY := "process.list"
  const ARTIFACT := "Windows.System.Pslist"

  datatype Resolution = Client(id: string) | TargetRejected | CapabilityMissing

  /** `_resolve_client_id`. */
  function ResolveClient(b: Velociraptor, request: Request): Resolution {
    if exists c :: c in request.requiredCapabilities && c != CAPABILITY then CapabilityMissing
    else if |request.targets| != 1 then TargetRejected
    else if request.targets[0].kind != "host" then TargetRejected
    else if request.targets[0].value !in b.hostClients then TargetRejected
    else Client(b.hostClients[request.targets[0].value])
  }

  /** `_effective_timeout`: `None` where it raises. */
  function EffectiveTimeout(b: Velociraptor, timeout: Option<real>): Option<real> {
    if timeout.None? then Some(b.timeoutSeconds)
    else if timeout.value <= 0.0 then None
    else Some(if timeout.value < b.timeoutSeconds then timeout.value else b.timeoutSeconds)
  }

  /** The effective timeout is positive and within both bounds. */
  lemma TimeoutBounds(b: Velociraptor, timeout: Option<real>)
    requires Configured(b)
    ensures var e := EffectiveTimeout(b, timeout);
            && (e.None? <==> timeout.Some? && timeout.value <= 0.0)
            && (e.Some? ==>
                  && 0.0 < e.value <= b.timeoutSeconds && (timeout.Some? ==> e.value <= timeout.value)
                  && (e.value == b.timeoutSeconds || e == timeout))
  {
  }

  /** How one query ends: the channel cannot be made, the call raises, or rows come back. */
  datatype Query = ChannelFailed | Raised(deadline: bool) | Rows(rows: seq<map<string, Json>>)

  function Column(row: map<string, Json>, name: string): Json {
    if name in row then row[name] else JNull
  }

  predicate ForClient(row: map<string, Json>, client: string) {
    Column(row, "client_id") == JStr(client) && Column(row, "artifacts") == JArr([JStr(ARTIFACT)])
  }

  predicate FlowId(v: Json) {
    v.JStr? && NonBlank(v.s) && |v.s| >= 2 && v.s[0] == 'F' && v.s[1] == '.'
  }

  /** `schedule` and the `SubmittedOperation` made of its answer, as the processor sees it. */
  function ScheduleOutcome(client: string, q: Query): P.SubmitOutcome {
    match q
    case ChannelFailed => P.RejectedSubmission
    case Raised(_) => P.UnknownSubmission
    case Rows(rows) =>
      if |rows| != 1 || !FlowId(Column(rows[0], "flow_id")) || !ForClient(rows[0], client) then P.UnknownSubmission
      else if |Column(rows[0], "flow_id").s| > 512 then P.UnknownSubmission
      else P.CreatedOperation(Column(rows[0], "flow_id").s)
  }

  /** What `submit` does before it queries; the query is made only from a resolved client. */
  datatype Submission = Stopped(outcome: P.SubmitOutcome) | Queries(client: string, timeout: real)

  function Prepare(b: Velociraptor, request: Request, timeout: Option<real>): Submission {
    match ResolveClient(b, request)
    case TargetRejected => Stopped(P.RejectedSubmission)
    case CapabilityMissing => Stopped(P.UnknownSubmission)
    case Client(id) =>
      match EffectiveTimeout(b, timeout)
      case None => Stopped(P.UnknownSubmission)
      case Some(t) => if NonBlank(id) then Queries(id, t) else Stopped(P.UnknownSubmission)
  }

  /** `VelociraptorBackend.submit`. */
  function Submit(b: Velociraptor, request: Request, timeout: Option<real>, q: Query): P.SubmitOutcome {
    match Prepare(b, request, timeout)
    case Stopped(outcome) => outcome
    case Queries(client, _) => ScheduleOutcome(client, q)
  }

  /** What is assumed of the server: without a query there is no flow, one query makes at most
      one, and a scheduling row for this client and artifact names the flow it made. */
  ghost predicate ServerHonest(b: Velociraptor, request: Request, timeout: Option<real>, q: Query, e: P.RemoteEffect) {
    match Prepare(b, request, timeout)
    case Stopped(_) => e == P.NoEffect
    case Queries(client, _) =>
      && (q.ChannelFailed? ==> e == P.NoEffect)
      && (q.Rows? && |q.rows| == 1 && FlowId(Column(q.rows[0], "flow_id")) && ForClient(q.rows[0], client) ==>
            e == P.FlowCreated(Column(q.rows[0], "flow_id").s))
  }

  /** The backend keeps the contract the protocol relies on: an identifier it returns names an
      existing flow, and a rejection is only raised where no query ran. */
  lemma SubmitKeepsContract(b: Velociraptor, request: Request, timeout: Option<real>, q: Query, e: P.RemoteEffect)
    requires ServerHonest(b, request, timeout, q, e)
    ensures P.SubmitContract(Submit(b, request, timeout, q), e)
    ensures Submit(b, request, timeout, q) == P.RejectedSubmission <==>
            ResolveClient(b, request) == TargetRejected || (Prepare(b, request, timeout).Queries? && q == ChannelFailed)
    ensures Prepare(b, request, timeout).Queries? && Configured(b) ==>
            0.0 < Prepare(b, request, timeout).timeout <= b.timeoutSeconds
  {
    hide NonBlank, ForClient, ResolveClient;
    if Configured(b) {
      TimeoutBounds(b, timeout);
    }
  }

  /** The one host a request for process lists may name, as this backend knows it. */
  predicate Reaches(b: Velociraptor, request: Request, client: string) {
    && (forall c :: c in request.requiredCapabilities ==> c == "process.list")
    && |request.targets| == 1 && request.targets[0].kind == "host"
    && request.targets[0].value in b.hostClients && b.hostClients[request.targets[0].value] == client
  }

  /** A row about the flow of this client for the process-list artifact and nothing else. */
  predicate About(row: map<string, Json>, client: string) {
    && "client_id" in row && row["client_id"] == JStr(client)
    && "artifacts" in row && row["artifacts"] == JArr([JStr("Windows.System.Pslist")])
  }

  predicate Answers(q: Query, client: string, id: string) {
    && q.Rows? && |q.rows| == 1 && About(q.rows[0], client)
    && "flow_id" in q.rows[0] && q.rows[0]["flow_id"] == JStr(id)
    && NonBlank(id) && 2 <= |id| <= 512 && id[..2] == "F."
  }

  /** A submission is created exactly when the request names one known host, and nothing but
      process lists, while time is left, and the one row that comes back is about this client
      and artifact; the identifier is the row's. It is rejected exactly when the host is not
      known or the channel cannot be made. */
  lemma SubmitExact(b: Velociraptor, request: Request, timeout: Option<real>, q: Query, id: string)
    requires Configured(b)
    ensures var outcome, ready := Submit(b, request, timeout, q), timeout.Some? ==> timeout.value > 0.0;
            && (outcome == P.CreatedOperation(id) <==> ready && exists client :: Reaches(b, request, client) && Answers(q, client, id))
            && (outcome == P.RejectedSubmission <==>
                  && (forall c :: c in request.requiredCapabilities ==> c == "process.list")
                  && ((exists client :: Reaches(b, request, client)) ==> ready && q == ChannelFailed))
            && (outcome.CreatedOperation? || outcome == P.RejectedSubmission || outcome == P.UnknownSubmission)
  {
    hide NonBlank;
    if ResolveClient(b, request).Client? {
      var client := ResolveClient(b, request).id;
      assert Reaches(b, request, client);
      assert forall other :: Reaches(b, request, other) ==> other == client;
      ScheduleExact(client, q, id);
    } else {
      assert forall client :: !Reaches(b, request, client);
    }
  }

  lemma ScheduleExact(client: string, q: Query, id: string)
    ensures ScheduleOutcome(client, q) == P.CreatedOperation(id) <==> Answers(q, client, id)
    ensures ScheduleOutcome(client, q) == P.RejectedSubmission <==> q == ChannelFailed
  {
    hide NonBlank;
    if q.Rows? && |q.rows| == 1 {
      var v := Column(q.rows[0], "flow_id");
      if v.JStr? && |v.s| >= 2 {
        assert v.s[..2] == [v.s[0], v.s[1]];
        assert v.s[..2] == "F." <==> v.s[0] == 'F' && v.s[1] == '.';
      }
    }
  }

  const NONTERMINAL: set<string> := {"UNSET", "RUNNING", "WAITING", "IN_PROGRESS", "UNRESPONSIVE"}

  /** `poll_flow`, as the processor sees it. */
  function PollFlow(client: string, flowId: string, q: Query): P.PollOutcome {
    match q
    case ChannelFailed => P.PollRaised
    case Raised(deadline) => if deadline then P.PollTimedOut else P.PollRaised
    case Rows(rows) =>
      if rows == [] then P.Polled(P.Nonterminal, "UNSEEN")
      else if |rows| != 1 || Column(rows[0], "session_id") != JStr(flowId) || !ForClient(rows[0], client) then P.PollRaised
      else
        var state := Column(rows[0], "state");
        if !state.JStr? then P.PollRaised
        else if state.s == "FINISHED" then P.Polled(P.Succeeded, state.s)
        else if state.s == "ERROR" then P.Polled(P.OperationFailed, state.s)
        else if state.s in NONTERMINAL then P.Polled(P.Nonterminal, state.s)
        else P.PollRaised
  }

  /** `VelociraptorBackend.poll`. */
  function Poll(b: Velociraptor, request: Request, flowId: string, timeout: Option<real>, q: Query): P.PollOutcome {
    match Prepare(b, request, timeout)
    case Stopped(_) => P.PollRaised
    case Queries(client, _) => if NonBlank(flowId) then PollFlow(client, flowId, q) else P.PollRaised
  }

  lemma StateTexts()
    ensures forall s :: s in NONTERMINAL + {"UNSEEN", "FINISHED", "ERROR"} ==> Bounded(s) && NonBlank(s)
  {
    hide NonBlank, Bounded;
    forall s | s in NONTERMINAL + {"UNSEEN", "FINISHED", "ERROR"} ensures Bounded(s) && NonBlank(s) {
      StateText(s);
    }
  }

  lemma StateText(s: string)
    requires s in NONTERMINAL || s == "UNSEEN" || s == "FINISHED" || s == "ERROR"
    ensures Bounded(s) && NonBlank(s)
  {
    hide NonBlank;
    assert 0 < |s| <= 12 && 'A' <= s[0] <= 'Z';
    StartsNonBlank(s);
  }

  /** What one row says of the flow: the state it names, as the processor takes it. */
  predicate Shows(q: Query, client: string, flowId: string, state: P.OperationState, remote: string) {
    && q.Rows?
    && if q.rows == [] then state == P.Nonterminal && remote == "UNSEEN"
       else
         && |q.rows| == 1 && About(q.rows[0], client)
         && "session_id" in q.rows[0] && q.rows[0]["session_id"] == JStr(flowId)
         && "state" in q.rows[0] && q.rows[0]["state"] == JStr(remote)
         && match state
            case Succeeded => remote == "FINISHED"
            case OperationFailed => remote == "ERROR"
            case Nonterminal => remote in {"UNSET", "RUNNING", "WAITING", "IN_PROGRESS", "UNRESPONSIVE"}
            case Unrecognized => false
  }

  /** A poll reports exactly what one row shows that carries this flow's identity and was made
      by this client for this artifact, or that there is no row yet; always with text the store
      accepts. It times out exactly when its query exceeds the deadline. */
  lemma PollSound(b: Velociraptor, request: Request, flowId: string, timeout: Option<real>, q: Query, state: P.OperationState, remote: string)
    requires Configured(b)
    ensures var p, ready := Poll(b, request, flowId, timeout, q), NonBlank(flowId) && (timeout.Some? ==> timeout.value > 0.0);
            && (p == P.Polled(state, remote) <==>
                  ready && exists client :: Reaches(b, request, client) && Shows(q, client, flowId, state, remote))
            && (p == P.PollTimedOut <==> ready && q == Raised(true) && exists client :: Reaches(b, request, client))
            && (p.Polled? || p == P.PollTimedOut || p == P.PollRaised)
            && (p == P.Polled(state, remote) ==> Bounded(remote) && NonBlank(remote))
  {
    StateTexts();
    hide NonBlank, Bounded;
    if ResolveClient(b, request).Client? {
      var client := ResolveClient(b, request).id;
      assert Reaches(b, request, client);
      assert forall other :: Reaches(b, request, other) ==> other == client;
      PollExact(client, flowId, q, state, remote);
    } else {
      assert forall client :: !Reaches(b, request, client);
    }
  }

  lemma PollExact(client: string, flowId: string, q: Query, state: P.OperationState, remote: string)
    ensures var p := PollFlow(client, flowId, q);
            && (p == P.Polled(state, remote) <==> Shows(q, client, flowId, state, remote))
            && (p == P.PollTimedOut <==> q == Raised(true)) && (p.Polled? || p == P.PollTimedOut || p == P.PollRaised)
            && (p == P.Polled(state, remote) ==> remote in NONTERMINAL + {"UNSEEN", "FINISHED", "ERROR"})
  {
    assert |"FINISHED"| == 8 && |"ERROR"| == 5 && |"UNSET"| == 5 && "UNSET"[0] == 'U' && "ERROR"[0] == 'E';
    assert |"RUNNING"| == 7 && |"WAITING"| == 7 && |"IN_PROGRESS"| == 11 && |"UNRESPONSIVE"| == 12;
  }

  /** `collect_result`. */
  function CollectResult(b: Velociraptor, request: Request, flowId: string): P.CollectOutcome {
    if !ResolveClient(b, request).Client? || !NonBlank(flowId) then P.CollectRaised
    else P.Collected(InvestigationResult("velociraptor", request.requiredCapabilities, []))
  }

  /** What it collects is a result the processor can store: it names this backend and the
      capabilities that were asked for, without evidence of its own. It raises exactly when the
      request names no one known host, or more than process lists, or the identifier is blank. */
  lemma CollectSound(b: Velociraptor, request: Request, flowId: string)
    requires RequestValid(request)
    ensures var c := CollectResult(b, request, flowId);
            && (c.Collected? <==> NonBlank(flowId) && exists client :: Reaches(b, request, client))
            && (c.Collected? ==>
                  && InvestigationValid(c.result) && c.result.backend == "velociraptor"
                  && c.result.completedCapabilities == request.requiredCapabilities && c.result.evidence == [])
            && (c.Collected? || c.CollectRaised?)
  {
    StartsNonBlank("velociraptor");
    hide NonBlank;
    if ResolveClient(b, request).Client? {
      assert Reaches(b, request, ResolveClient(b, request).id);
    }
  }
}
