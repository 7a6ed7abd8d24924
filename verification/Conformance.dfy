/**
 The conformance suite (internal/conformance/conformance.go) against a Provider hosted by the server: what a
 passing report means.
 */
module Conformance {
  import opened Common
  import opened Strings
  import opened Contract
  import opened Client

  datatype Verdict = Pass | Absent | Fail    // PASS, NOT IMPLEMENTED, FAIL

  datatype Subject = Authentication | Capability(cap: Cap)

  datatype Line = Line(subject: Subject, verdict: Verdict)

  datatype Report = Report(declared: seq<Cap>, results: seq<Line>)

  predicate Passed(r: Report) {
    forall l <- r.results :: l.verdict != Fail
  }

  /** The requests of one run, told apart: a Provider may answer each differently. */
  const DISCOVERY_CALL: Moment := 0
  const UNAUTHENTICATED_CALL: Moment := 1
  const UNKNOWN_METRIC_CALL: Moment := 2
  const NO_WINDOW_CALL: Moment := 3

  function CapabilityCall(c: Cap): Moment {
    match c
    case Instances => 10
    case Metrics => 11
    case Alarms => 12
    case Ingress => 13
    case Backups => 14
    case OtherCap(_) => 15
  }

  function MetricCall(m: Metric): Moment {
    match m
    case CpuUtilization => 20
    case MemoryUtilization => 21
    case HealthyBackends => 22
    case UnhealthyBackends => 23
    case UptimeAvailability => 24
    case OtherMetric(_) => 25
  }

  const WINDOW := 300

  /** No header at all when the suite has no token. */
  function SuiteHeader(token: string): string {
    if token == "" then "" else BearerHeader(token)
  }

  function CapabilityRequest(token: string, c: Cap): Request {
    Request(true, Endpoint(c), SuiteHeader(token), CpuUtilization, Some(WINDOW))
  }

  function MetricRequest(token: string, m: Metric, window: Option<int>): Request {
    Request(true, Endpoint(Metrics), SuiteHeader(token), m, window)
  }

  /** The documented shape: the capability's own field is present. */
  predicate GoodBody(c: Cap, b: Body) {
    if c.Ingress? then b.AddressBody? else b.ListBody? && b.cap == c
  }

  class Suite {
    const net: Net
    const token: string

    constructor (net: Net, token: string)
      ensures this.net == net && this.token == token
    {
      this.net, this.token := net, token;
    }

    /** An unauthenticated discovery request must be refused. */
    method CheckAuthentication() returns (l: Line)
      ensures l == Line(Authentication, if AuthenticationHolds(net) then Pass else Fail)
    {
      var res := net(Request(true, Discovery, "", OtherMetric(""), None), UNAUTHENTICATED_CALL);
      if res.None? || res.value.status != UNAUTHORIZED {
        return Line(Authentication, Fail);
      }
      l := Line(Authentication, Pass);
    }

    /** Every contract metric must be answered, an unknown one and a missing window refused with 400. */
    method CheckEveryMetric() returns (ok: bool)
      ensures ok == MetricsHold(net, token)
    {
      for i := 0 to |METRICS|
        invariant forall j :: 0 <= j < i ==> MetricAnswered(net, token, METRICS[j])
      {
        var res := net(MetricRequest(token, METRICS[i], Some(WINDOW)), MetricCall(METRICS[i]));
        if res.None? || res.value.status != OK || !GoodBody(Metrics, res.value.body) {
          assert !MetricAnswered(net, token, METRICS[i]);
          return false;
        }
      }
      var unknown := net(MetricRequest(token, OtherMetric("not.a.contract.metric"), Some(WINDOW)), UNKNOWN_METRIC_CALL);
      if unknown.None? || unknown.value.status != BAD_REQUEST {
        return false;
      }
      var noWindow := net(MetricRequest(token, CpuUtilization, None), NO_WINDOW_CALL);
      ok := noWindow.Some? && noWindow.value.status == BAD_REQUEST;
    }

    /** A capability that was not declared must answer 501; one that was must answer in contract. */
    method CheckCapability(c: Cap, declared: bool) returns (l: Line)
      ensures l == Line(Capability(c), CapabilityVerdict(net, token, c, declared))
    {
      var res := net(CapabilityRequest(token, c), CapabilityCall(c));
      if res.None? {
        return Line(Capability(c), Fail);
      }
      var status := res.value.status;
      if !declared {
        return Line(Capability(c), if status == NOT_IMPLEMENTED then Absent else Fail);
      }
      if status == NOT_IMPLEMENTED || status != OK || !GoodBody(c, res.value.body) {
        return Line(Capability(c), Fail);
      }
      if c.Metrics? {
        var ok := CheckEveryMetric();
        if !ok {
          return Line(Capability(c), Fail);
        }
      }
      l := Line(Capability(c), Pass);
    }

    /** The names discovery listed: contract capabilities, and one failing line for each other name. */
    method Classify(listed: seq<Cap>) returns (declared: seq<Cap>, results: seq<Line>)
      ensures declared == Valid(listed) && results == Unknown(listed)
    {
      declared, results := [], [];
      for i := 0 to |listed|
        invariant declared + Valid(listed[i..]) == Valid(listed)
        invariant results + Unknown(listed[i..]) == Unknown(listed)
      {
        ClassifyStep(listed, i);
        if ValidCapability(listed[i]) {
          declared := declared + [listed[i]];
        } else {
          results := results + [Line(Capability(listed[i]), Fail)];
        }
      }
      assert listed[|listed|..] == [] && declared + Valid([]) == declared && results + Unknown([]) == results;
    }

    method CheckAll(declared: seq<Cap>) returns (lines: seq<Line>)
      ensures lines == CapabilityLines(net, token, declared, INFRA_CAPABILITIES)
    {
      lines := [];
      for i := 0 to |INFRA_CAPABILITIES|
        invariant |lines| == i
        invariant forall j :: 0 <= j < i ==> lines[j] == CapabilityLine(net, token, declared, INFRA_CAPABILITIES[j])
      {
        var line := CheckCapability(INFRA_CAPABILITIES[i], INFRA_CAPABILITIES[i] in declared);
        lines := lines + [line];
      }
    }

    /** Run: None is the error of a Provider that could not be asked what it serves. */
    method Run() returns (r: Option<Report>)
      ensures r.None? <==> DiscoveryList(net, token).None?
      ensures r.Some? ==> IsReport(net, token, DiscoveryList(net, token).value, r.value)
      ensures r.Some? ==> (Passed(r.value) <==> Conforms(net, token, DiscoveryList(net, token).value))
    {
      var res := net(Request(true, Discovery, SuiteHeader(token), OtherMetric(""), None), DISCOVERY_CALL);
      if res.None? || res.value.status != OK || !res.value.body.CapabilitiesBody? || res.value.body.kind != KIND_INFRA {
        return None;
      }
      var declared, unknown := Classify(res.value.body.capabilities);
      var auth := CheckAuthentication();
      var lines := CheckAll(declared);
      r := Some(Report(declared, unknown + [auth] + lines));
      PassedExactly(net, token, res.value.body.capabilities, r.value);
    }
  }

  // ----- what the suite computes, call by call -----

  ghost predicate AuthenticationHolds(net: Net) {
    var res := net(Request(true, Discovery, "", OtherMetric(""), None), UNAUTHENTICATED_CALL);
    res.Some? && res.value.status == UNAUTHORIZED
  }

  ghost predicate MetricAnswered(net: Net, token: string, m: Metric) {
    var res := net(MetricRequest(token, m, Some(WINDOW)), MetricCall(m));
    res.Some? && res.value.status == OK && GoodBody(Metrics, res.value.body)
  }

  ghost predicate Refused(net: Net, r: Request, at: Moment) {
    net(r, at).Some? && net(r, at).value.status == BAD_REQUEST
  }

  ghost predicate MetricsHold(net: Net, token: string) {
    && (forall i :: 0 <= i < |METRICS| ==> MetricAnswered(net, token, METRICS[i]))
    && Refused(net, MetricRequest(token, OtherMetric("not.a.contract.metric"), Some(WINDOW)), UNKNOWN_METRIC_CALL)
    && Refused(net, MetricRequest(token, CpuUtilization, None), NO_WINDOW_CALL)
  }

  ghost function CapabilityVerdict(net: Net, token: string, c: Cap, declared: bool): Verdict {
    match net(CapabilityRequest(token, c), CapabilityCall(c))
    case None => Fail
    case Some(res) =>
      if !declared then (if res.status == NOT_IMPLEMENTED then Absent else Fail)
      else if res.status != OK || !GoodBody(c, res.body) then Fail
      else if c.Metrics? && !MetricsHold(net, token) then Fail
      else Pass
  }

  function DiscoveryList(net: Net, token: string): Option<seq<Cap>> {
    match net(Request(true, Discovery, SuiteHeader(token), OtherMetric(""), None), DISCOVERY_CALL)
    case None => None
    case Some(res) =>
      if res.status == OK && res.body.CapabilitiesBody? && res.body.kind == KIND_INFRA
      then Some(res.body.capabilities) else None
  }

  function Unknown(listed: seq<Cap>): seq<Line> {
    if listed == [] then []
    else (if ValidCapability(listed[0]) then [] else [Line(Capability(listed[0]), Fail)]) + Unknown(listed[1..])
  }

  ghost function CapabilityLines(net: Net, token: string, declared: seq<Cap>, caps: seq<Cap>): seq<Line> {
    seq(|caps|, i requires 0 <= i < |caps| => CapabilityLine(net, token, declared, caps[i]))
  }

  ghost function CapabilityLine(net: Net, token: string, declared: seq<Cap>, c: Cap): Line {
    Line(Capability(c), CapabilityVerdict(net, token, c, c in declared))
  }

  lemma ClassifyStep(listed: seq<Cap>, i: nat)
    requires i < |listed|
    ensures Valid(listed[i..]) == (if ValidCapability(listed[i]) then [listed[i]] else []) + Valid(listed[i + 1..])
    ensures Unknown(listed[i..]) ==
            (if ValidCapability(listed[i]) then [] else [Line(Capability(listed[i]), Fail)]) + Unknown(listed[i + 1..])
  {
    assert listed[i..][1..] == listed[i + 1..];
  }

  ghost predicate IsReport(net: Net, token: string, listed: seq<Cap>, r: Report) {
    && r.declared == Valid(listed)
    && r.results == Unknown(listed)
                    + [Line(Authentication, if AuthenticationHolds(net) then Pass else Fail)]
                    + CapabilityLines(net, token, Valid(listed), INFRA_CAPABILITIES)
  }

  // ----- what a passing report means, whoever answers -----

  ghost predicate Replies(res: Option<Response>, status: int) {
    res.Some? && res.value.status == status
  }

  /** A 200 whose body has the field the contract documents for the capability. */
  ghost predicate InShape(res: Option<Response>, c: Cap) {
    Replies(res, OK) && (if c.Ingress? then res.value.body.AddressBody?
                         else res.value.body.ListBody? && res.value.body.cap == c)
  }

  /** All five contract metrics are answered, and an unknown metric and a missing window are refused. */
  ghost predicate MetricsConform(net: Net, token: string) {
    && (forall m :: ValidMetric(m) ==>
          InShape(net(Request(true, Endpoint(Metrics), SuiteHeader(token), m, Some(WINDOW)), MetricCall(m)), Metrics))
    && Replies(net(Request(true, Endpoint(Metrics), SuiteHeader(token), OtherMetric("not.a.contract.metric"),
                           Some(WINDOW)), UNKNOWN_METRIC_CALL), BAD_REQUEST)
    && Replies(net(Request(true, Endpoint(Metrics), SuiteHeader(token), CpuUtilization, None), NO_WINDOW_CALL),
               BAD_REQUEST)
  }

  ghost predicate CapabilityConforms(net: Net, token: string, c: Cap, declared: bool) {
    var res := net(Request(true, Endpoint(c), SuiteHeader(token), CpuUtilization, Some(WINDOW)), CapabilityCall(c));
    if declared then InShape(res, c) && (c.Metrics? ==> MetricsConform(net, token)) else Replies(res, NOT_IMPLEMENTED)
  }

  /** What the contract asks of a Provider, seen from outside; `listed` is what its discovery answered. */
  ghost predicate Conforms(net: Net, token: string, listed: seq<Cap>) {
    && Replies(net(Request(true, Discovery, "", OtherMetric(""), None), UNAUTHENTICATED_CALL), UNAUTHORIZED)
    && (forall c <- listed :: ValidCapability(c))
    && (forall c :: ValidCapability(c) ==> CapabilityConforms(net, token, c, c in listed))
  }

  lemma EveryMetric(m: Metric)
    requires ValidMetric(m)
    ensures exists i :: 0 <= i < |METRICS| && METRICS[i] == m
  {
    match m
    case CpuUtilization => assert METRICS[0] == m;
    case MemoryUtilization => assert METRICS[1] == m;
    case HealthyBackends => assert METRICS[2] == m;
    case UnhealthyBackends => assert METRICS[3] == m;
    case UptimeAvailability => assert METRICS[4] == m;
  }

  lemma MetricsHoldExactly(net: Net, token: string)
    ensures MetricsHold(net, token) <==> MetricsConform(net, token)
  {
    if MetricsHold(net, token) {
      forall m | ValidMetric(m)
        ensures InShape(net(MetricRequest(token, m, Some(WINDOW)), MetricCall(m)), Metrics)
      {
        EveryMetric(m);
        var i :| 0 <= i < |METRICS| && METRICS[i] == m;
        assert MetricAnswered(net, token, METRICS[i]);
      }
    }
    if MetricsConform(net, token) {
      forall i | 0 <= i < |METRICS| ensures MetricAnswered(net, token, METRICS[i]) {
        assert ValidMetric(METRICS[i]);
      }
    }
  }

  lemma VerdictTells(net: Net, token: string, c: Cap, declared: bool)
    ensures CapabilityConforms(net, token, c, declared) <==>
            CapabilityVerdict(net, token, c, declared) == if declared then Pass else Absent
    ensures !CapabilityConforms(net, token, c, declared) <==> CapabilityVerdict(net, token, c, declared) == Fail
  {
    MetricsHoldExactly(net, token);
  }

  lemma {:induction false} UnknownFails(listed: seq<Cap>)
    ensures forall l <- Unknown(listed) :: l.verdict == Fail
    ensures Unknown(listed) == [] <==> forall c <- listed :: ValidCapability(c)
    decreases |listed|
  {
    if listed != [] {
      UnknownFails(listed[1..]);
      assert listed == [listed[0]] + listed[1..];
    }
  }

  lemma PassesTogether(a: seq<Line>, l: Line, b: seq<Line>, r: Report)
    requires r.results == a + [l] + b
    ensures Passed(r) <==>
            (forall x <- a :: x.verdict != Fail) && l.verdict != Fail && (forall x <- b :: x.verdict != Fail)
  {
    assert l in r.results;
    assert forall x <- a :: x in r.results;
    assert forall x <- b :: x in r.results;
  }

  lemma LinesPass(net: Net, token: string, declared: seq<Cap>)
    ensures (forall x <- CapabilityLines(net, token, declared, INFRA_CAPABILITIES) :: x.verdict != Fail) <==>
            forall c :: ValidCapability(c) ==> CapabilityConforms(net, token, c, c in declared)
  {
    var lines := CapabilityLines(net, token, declared, INFRA_CAPABILITIES);
    forall c | ValidCapability(c)
      ensures CapabilityLine(net, token, declared, c) in lines
      ensures CapabilityLine(net, token, declared, c).verdict != Fail <==>
              CapabilityConforms(net, token, c, c in declared)
    {
      KnownCapabilities(c);
      var i :| 0 <= i < |INFRA_CAPABILITIES| && INFRA_CAPABILITIES[i] == c;
      assert lines[i] == CapabilityLine(net, token, declared, c);
      VerdictTells(net, token, c, c in declared);
    }
    forall x | x in lines
      ensures exists c :: ValidCapability(c) && x == CapabilityLine(net, token, declared, c)
    {
      var i :| 0 <= i < |lines| && lines[i] == x;
      assert INFRA_CAPABILITIES[i] in INFRA_CAPABILITIES;
      KnownCapabilities(INFRA_CAPABILITIES[i]);
      assert x == CapabilityLine(net, token, declared, INFRA_CAPABILITIES[i]);
    }
  }

  /**
   Whoever is at the other end: a report passes if and only if unauthenticated discovery is refused, no unknown name
   is listed, every declared capability answers in its documented shape (the metrics all of them, and the two bad
   requests refused), and every undeclared one answers 501.
   */
  lemma PassedExactly(net: Net, token: string, listed: seq<Cap>, r: Report)
    requires IsReport(net, token, listed, r)
    ensures Passed(r) <==> Conforms(net, token, listed)
  {
    UnknownFails(listed);
    forall c ensures c in Valid(listed) <==> c in listed && ValidCapability(c) { ValidMembers(listed, c); }
    LinesPass(net, token, Valid(listed));
    assert forall c :: ValidCapability(c) ==>
             CapabilityConforms(net, token, c, c in Valid(listed)) == CapabilityConforms(net, token, c, c in listed);
    PassesTogether(Unknown(listed), Line(Authentication, if AuthenticationHolds(net) then Pass else Fail),
                   CapabilityLines(net, token, Valid(listed), INFRA_CAPABILITIES), r);
    if Unknown(listed) != [] { assert Unknown(listed)[0] in Unknown(listed); }
  }

  // ----- a hosted Provider -----

  /** Every call the suite makes to the declared capability c succeeds. */
  ghost predicate Succeeds(p: Provider, c: Cap) {
    var at := CapabilityCall(c);
    match c
    case Instances => p.list(at, ReadInstances).Ok?
    case Alarms => p.list(at, ReadAlarms).Ok?
    case Backups => p.list(at, ReadBackups).Ok?
    case Ingress => p.address(at).Ok?
    case Metrics =>
      && p.list(at, ReadMetric(CpuUtilization, WINDOW * SECOND)).Ok?
      && forall i :: 0 <= i < |METRICS| ==> p.list(MetricCall(METRICS[i]), ReadMetric(METRICS[i], WINDOW * SECOND)).Ok?
    case OtherCap(_) => false
  }

  lemma SuiteAuthorized(t: string, at: Moment)
    ensures Authorized(Guarded((m: Moment) => Some(t)), SuiteHeader(t), at) <==> Trim(t) == t
    ensures Trim("") == ""
  {
    if t != "" { OwnTokenAccepted(t, at); } else { NoHeaderRefused(t, at); }
  }

  lemma WindowKept()
    ensures Wrap64(WINDOW * SECOND) == WINDOW * SECOND
  {
  }

  lemma HostedMetric(p: Provider, t: string, m: Metric)
    requires Trim(t) == t && Metrics in p.caps && ValidMetric(m)
    ensures MetricAnswered(Hosted(Sharing(p, t)), t, m) <==> p.list(MetricCall(m), ReadMetric(m, WINDOW * SECOND)).Ok?
  {
    SuiteAuthorized(t, MetricCall(m));
    WindowKept();
  }

  lemma HostedRefusals(p: Provider, t: string)
    requires Trim(t) == t && Metrics in p.caps
    ensures Refused(Hosted(Sharing(p, t)), MetricRequest(t, OtherMetric("not.a.contract.metric"), Some(WINDOW)),
                    UNKNOWN_METRIC_CALL)
    ensures Refused(Hosted(Sharing(p, t)), MetricRequest(t, CpuUtilization, None), NO_WINDOW_CALL)
  {
    SuiteAuthorized(t, UNKNOWN_METRIC_CALL);
    SuiteAuthorized(t, NO_WINDOW_CALL);
  }

  lemma HostedMetrics(p: Provider, t: string)
    requires Trim(t) == t && Metrics in p.caps
    ensures MetricsHold(Hosted(Sharing(p, t)), t) <==>
            forall i :: 0 <= i < |METRICS| ==>
              p.list(MetricCall(METRICS[i]), ReadMetric(METRICS[i], WINDOW * SECOND)).Ok?
  {
    HostedRefusals(p, t);
    forall i | 0 <= i < |METRICS|
      ensures MetricAnswered(Hosted(Sharing(p, t)), t, METRICS[i]) <==>
              p.list(MetricCall(METRICS[i]), ReadMetric(METRICS[i], WINDOW * SECOND)).Ok?
    {
      HostedMetric(p, t, METRICS[i]);
    }
  }

  /** One capability's line: declared ones pass exactly when their calls succeed, undeclared ones are absent. */
  lemma HostedCapability(p: Provider, t: string, c: Cap)
    requires Trim(t) == t && ValidCapability(c)
    ensures CapabilityVerdict(Hosted(Sharing(p, t)), t, c, c in p.caps) ==
            if c !in p.caps then Absent else if Succeeds(p, c) then Pass else Fail
  {
    SuiteAuthorized(t, CapabilityCall(c));
    WindowKept();
    if c in p.caps && c.Metrics? { HostedMetrics(p, t); }
  }

  lemma HostedAuthentication(p: Provider, t: string)
    ensures AuthenticationHolds(Hosted(Sharing(p, t))) <==> t != ""
  {
    NoHeaderRefused(t, UNAUTHENTICATED_CALL);
  }

  lemma {:induction false} AllKnown(caps: seq<Cap>)
    requires forall c <- caps :: ValidCapability(c)
    ensures Valid(caps) == caps && Unknown(caps) == []
    decreases |caps|
  {
    if caps != [] { AllKnown(caps[1..]); }
  }

  lemma HostedDiscoveryList(p: Provider, t: string)
    ensures DiscoveryList(Hosted(Sharing(p, t)), t) ==
            if Trim(t) == t then Some(Filter(INFRA_CAPABILITIES, p.caps)) else None
  {
    SuiteAuthorized(t, DISCOVERY_CALL);
  }

  /** The line the suite reports for capability c of a hosted Provider. */
  ghost function ExpectedLine(p: Provider, c: Cap): Line {
    Line(Capability(c), if c !in p.caps then Absent else if Succeeds(p, c) then Pass else Fail)
  }

  lemma HostedLines(p: Provider, t: string, listed: seq<Cap>)
    requires Trim(t) == t && listed == Filter(INFRA_CAPABILITIES, p.caps)
    ensures Valid(listed) == listed && Unknown(listed) == []
    ensures forall i :: 0 <= i < |INFRA_CAPABILITIES| ==>
              CapabilityLines(Hosted(Sharing(p, t)), t, listed, INFRA_CAPABILITIES)[i]
              == ExpectedLine(p, INFRA_CAPABILITIES[i])
  {
    forall c ensures c in listed <==> ValidCapability(c) && c in p.caps {
      DiscoveryIsHonest(Sharing(p, t), c);
    }
    AllKnown(listed);
    forall i | 0 <= i < |INFRA_CAPABILITIES|
      ensures CapabilityLines(Hosted(Sharing(p, t)), t, listed, INFRA_CAPABILITIES)[i]
              == ExpectedLine(p, INFRA_CAPABILITIES[i])
    {
      assert INFRA_CAPABILITIES[i] in INFRA_CAPABILITIES;
      KnownCapabilities(INFRA_CAPABILITIES[i]);
      HostedCapability(p, t, INFRA_CAPABILITIES[i]);
    }
  }

  /**
   For every hosted Provider and every shared token: the suite can ask what is served exactly when the token
   carries no outer whitespace, and then it passes exactly when the token is not empty and every call it makes
   to a declared capability succeeds. Undeclared capabilities are reported absent and never fail the run.
   */
  lemma SuiteAcceptsExactly(p: Provider, t: string, r: Option<Report>)
    requires var net := Hosted(Sharing(p, t));
             && (r.None? <==> DiscoveryList(net, t).None?)
             && (r.Some? ==> IsReport(net, t, DiscoveryList(net, t).value, r.value))
    ensures r.Some? <==> Trim(t) == t
    ensures r.Some? ==>
              && (Passed(r.value) <==> t != "" && forall c :: ValidCapability(c) && c in p.caps ==> Succeeds(p, c))
              && (forall c :: ValidCapability(c) && c !in p.caps ==> Line(Capability(c), Absent) in r.value.results)
  {
    HostedDiscoveryList(p, t);
    if Trim(t) == t {
      HostedLines(p, t, Filter(INFRA_CAPABILITIES, p.caps));
      HostedAuthentication(p, t);
      ReportReads(p, t, r.value);
    }
  }

  /** Reading a report off its six lines. */
  lemma ReportReads(p: Provider, t: string, r: Report)
    requires |r.results| == 6
    requires r.results[0] == Line(Authentication, if t != "" then Pass else Fail)
    requires forall i :: 0 <= i < |INFRA_CAPABILITIES| ==> r.results[i + 1] == ExpectedLine(p, INFRA_CAPABILITIES[i])
    ensures Passed(r) <==> t != "" && forall c :: ValidCapability(c) && c in p.caps ==> Succeeds(p, c)
    ensures forall c :: ValidCapability(c) && c !in p.caps ==> Line(Capability(c), Absent) in r.results
  {
    forall c | ValidCapability(c) ensures ExpectedLine(p, c) in r.results {
      KnownCapabilities(c);
      var i :| 0 <= i < |INFRA_CAPABILITIES| && INFRA_CAPABILITIES[i] == c;
      assert r.results[i + 1] == ExpectedLine(p, c);
    }
    forall l | l in r.results
      ensures || l == r.results[0]
              || (l.subject.Capability? && ValidCapability(l.subject.cap) && l == ExpectedLine(p, l.subject.cap))
    {
      var k :| 0 <= k < 6 && r.results[k] == l;
      if k > 0 {
        assert INFRA_CAPABILITIES[k - 1] in INFRA_CAPABILITIES;
        KnownCapabilities(INFRA_CAPABILITIES[k - 1]);
      }
    }
    assert r.results[0] in r.results;
  }
}
