/**
 The `/v0` Provider contract and the server that hosts an in-tree Provider over it
 (internal/provider/provider.go, wire.go, server.go). HTTP is a function from request to response; JSON bodies
 are tagged values. Statuses are those of RFC 9110; the Authorization header is the bearer form of section 2.1
 of RFC 6750.
 */
module Contract {
  import opened Common
  import opened Strings

  const KIND_INFRA := "infra"
  const SECOND := 1_000_000_000

  /** A capability name: one of the five the contract defines, or anything else a Provider may send. */
  datatype Cap = Instances | Metrics | Alarms | Ingress | Backups | OtherCap(name: string)

  const INFRA_CAPABILITIES := [Instances, Metrics, Alarms, Ingress, Backups]

  predicate ValidCapability(c: Cap) { !c.OtherCap? }

  datatype Metric = CpuUtilization | MemoryUtilization | HealthyBackends | UnhealthyBackends | UptimeAvailability
                  | OtherMetric(name: string)

  const METRICS := [CpuUtilization, MemoryUtilization, HealthyBackends, UnhealthyBackends, UptimeAvailability]

  predicate ValidMetric(m: Metric) { !m.OtherMetric? }

  // ----- the in-tree Provider -----

  /** What a Provider method returns; an error either matches ErrNotImplemented or does not. */
  datatype Answer<+T> = Ok(value: T) | NotServed | Broken

  datatype Read = ReadInstances | ReadMetric(metric: Metric, window: int) | ReadAlarms | ReadBackups

  /** Answers may change from call to call: `at` tells the calls apart. A list may be nil. */
  type Moment = nat

  datatype Provider = Provider(name: string, caps: seq<Cap>,
                               list: (Moment, Read) -> Answer<Option<seq<string>>>,
                               address: Moment -> Answer<string>)

  // ----- the wire -----

  datatype Path = Health | Discovery | Endpoint(cap: Cap) | Elsewhere(path: string)

  datatype Request = Request(get: bool, path: Path, authorization: string, metric: Metric, window: Option<int>)

  datatype Body =
    | StatusBody
    | CapabilitiesBody(kind: string, provider: string, capabilities: seq<Cap>)
    | ListBody(cap: Cap, items: seq<string>)
    | AddressBody(publicIp: string)
    | ErrorBody(code: string)

  datatype Response = Response(status: int, body: Body)

  const OK := 200
  const BAD_REQUEST := 400
  const UNAUTHORIZED := 401
  const NOT_FOUND := 404
  const METHOD_NOT_ALLOWED := 405
  const NOT_IMPLEMENTED := 501
  const BAD_GATEWAY := 502

  // ----- bearer authentication -----

  function LowerAscii(c: char): char {
    if 'A' <= c <= 'Z' then c - 'A' + 'a' else c
  }

  predicate EqualFold(a: string, b: string) {
    |a| == |b| && forall i :: 0 <= i < |a| ==> LowerAscii(a[i]) == LowerAscii(b[i])
  }

  /** strings.Cut at the first space: how much lies before it, or None. */
  function FirstSpace(s: string): (i: Option<nat>)
    ensures i.Some? ==> i.value < |s|
  {
    if s == "" then None
    else if s[0] == ' ' then Some(0)
    else match FirstSpace(s[1..]) case None => None case Some(n) => Some(n + 1)
  }

  function BearerToken(header: string): string {
    match FirstSpace(header)
    case None => ""
    case Some(i) => if EqualFold(header[..i], "Bearer") then Trim(header[i + 1..]) else ""
  }

  /** Where the server's token comes from; None is the error of reading it. */
  datatype Guard = Unguarded | Guarded(token: Moment -> Option<string>)

  predicate Authorized(g: Guard, header: string, at: Moment) {
    g.Unguarded? || (g.token(at).Some? && BearerToken(header) == g.token(at).value)
  }

  function BearerHeader(token: string): string { "Bearer " + token }

  lemma BearerRoundTrip(t: string)
    ensures BearerToken(BearerHeader(t)) == Trim(t)
  {
    var h := BearerHeader(t);
    assert h == ['B', 'e', 'a', 'r', 'e', 'r', ' '] + t;
    assert FirstSpace(h) == Some(6) by { SpaceAt(h, 6); }
    assert h[..6] == "Bearer" && h[7..] == t;
  }

  lemma {:induction false} SpaceAt(s: string, n: nat)
    requires n < |s| && s[n] == ' ' && forall i :: 0 <= i < n ==> s[i] != ' '
    ensures FirstSpace(s) == Some(n)
    decreases n
  {
    if n > 0 { SpaceAt(s[1..], n - 1); }
  }

  /** Any scheme word but "bearer", in whatever case, makes the header no token at all; so does a missing space. */
  lemma SchemeDecides(scheme: string, rest: string)
    requires ' ' !in scheme
    ensures BearerToken(scheme + " " + rest) ==
            if |scheme| == 6 && forall i :: 0 <= i < 6 ==> scheme[i] == "bearer"[i] || scheme[i] == "BEARER"[i]
            then Trim(rest) else ""
    ensures BearerToken(scheme) == ""
  {
    var h := scheme + " " + rest;
    SpaceAt(h, |scheme|);
    assert h[..|scheme|] == scheme && h[|scheme| + 1..] == rest;
    assert FirstSpace(scheme).None? by { NoSpace(scheme); }
  }

  lemma {:induction false} NoSpace(s: string)
    requires ' ' !in s
    ensures FirstSpace(s).None?
  {
    if s != "" { NoSpace(s[1..]); }
  }

  /** A caller holding the server's own token is let in exactly when the token carries no outer whitespace. */
  lemma OwnTokenAccepted(t: string, at: Moment)
    ensures Authorized(Guarded((m: Moment) => Some(t)), BearerHeader(t), at) <==> Trim(t) == t
  {
    BearerRoundTrip(t);
  }

  /** A request without the header is refused exactly when the token is not empty. */
  lemma NoHeaderRefused(t: string, at: Moment)
    ensures Authorized(Guarded((m: Moment) => Some(t)), "", at) <==> t == ""
  {
  }

  // ----- the server -----

  datatype Server = Server(provider: Provider, guard: Guard)

  predicate Declares(s: Server, c: Cap) { c in s.provider.caps }

  function Filter(caps: seq<Cap>, declared: seq<Cap>): seq<Cap> {
    if caps == [] then []
    else (if caps[0] in declared then [caps[0]] else []) + Filter(caps[1..], declared)
  }

  function Failure<T>(a: Answer<T>): Response
    requires !a.Ok?
  {
    if a.NotServed? then Response(NOT_IMPLEMENTED, ErrorBody("not_implemented"))
    else Response(BAD_GATEWAY, ErrorBody("upstream_error"))
  }

  function ListResponse(c: Cap, a: Answer<Option<seq<string>>>): Response {
    if !a.Ok? then Failure(a)
    else Response(OK, ListBody(c, if a.value.None? then [] else a.value.value))
  }

  function MetricsResponse(s: Server, r: Request, at: Moment): Response {
    if !ValidMetric(r.metric) then Response(BAD_REQUEST, ErrorBody("bad_request"))
    else if r.window.None? || r.window.value <= 0 then Response(BAD_REQUEST, ErrorBody("bad_request"))
    else ListResponse(Metrics, s.provider.list(at, ReadMetric(r.metric, Wrap64(r.window.value * SECOND))))
  }

  function Handle(s: Server, c: Cap, r: Request, at: Moment): Response {
    if !r.get then Response(METHOD_NOT_ALLOWED, ErrorBody("bad_request"))
    else match c
      case Instances => ListResponse(c, s.provider.list(at, ReadInstances))
      case Metrics => MetricsResponse(s, r, at)
      case Alarms => ListResponse(c, s.provider.list(at, ReadAlarms))
      case Ingress =>
        var a := s.provider.address(at);
        if a.Ok? then Response(OK, AddressBody(a.value)) else Failure(a)
      case Backups => ListResponse(c, s.provider.list(at, ReadBackups))
      case OtherCap(_) => Response(NOT_FOUND, ErrorBody("bad_request"))
  }

  /** The mux: authentication, then the capability gate, then the method test and the handler. */
  function Serve(s: Server, r: Request, at: Moment): Response {
    match r.path
    case Health =>
      if r.get then Response(OK, StatusBody) else Response(METHOD_NOT_ALLOWED, ErrorBody("bad_request"))
    case Elsewhere(_) => Response(NOT_FOUND, ErrorBody("bad_request"))
    case Discovery =>
      if !Authorized(s.guard, r.authorization, at) then Response(UNAUTHORIZED, ErrorBody("unauthorized"))
      else if !r.get then Response(METHOD_NOT_ALLOWED, ErrorBody("bad_request"))
      else Response(OK, CapabilitiesBody(KIND_INFRA, s.provider.name, Filter(INFRA_CAPABILITIES, s.provider.caps)))
    case Endpoint(c) =>
      if !ValidCapability(c) then Response(NOT_FOUND, ErrorBody("bad_request"))
      else if !Authorized(s.guard, r.authorization, at) then Response(UNAUTHORIZED, ErrorBody("unauthorized"))
      else if !Declares(s, c) then Response(NOT_IMPLEMENTED, ErrorBody("not_implemented"))
      else Handle(s, c, r, at)
  }

  lemma {:induction false} FilterMembers(caps: seq<Cap>, declared: seq<Cap>, c: Cap)
    ensures c in Filter(caps, declared) <==> c in caps && c in declared
    decreases |caps|
  {
    if caps != [] {
      FilterMembers(caps[1..], declared, c);
      assert caps == [caps[0]] + caps[1..];
    }
  }

  lemma KnownCapabilities(c: Cap)
    ensures c in INFRA_CAPABILITIES <==> ValidCapability(c)
  {
    assert INFRA_CAPABILITIES[0] == Instances && INFRA_CAPABILITIES[1] == Metrics
        && INFRA_CAPABILITIES[2] == Alarms && INFRA_CAPABILITIES[3] == Ingress && INFRA_CAPABILITIES[4] == Backups;
  }

  lemma {:induction false} FilterOnce(caps: seq<Cap>, declared: seq<Cap>, c: Cap)
    ensures multiset(Filter(caps, declared))[c] == if c in declared then multiset(caps)[c] else 0
    decreases |caps|
  {
    if caps != [] {
      FilterOnce(caps[1..], declared, c);
      assert caps == [caps[0]] + caps[1..];
    }
  }

  /** Discovery lists exactly the declared capabilities the contract knows, each once. */
  lemma DiscoveryIsHonest(s: Server, c: Cap)
    ensures c in Filter(INFRA_CAPABILITIES, s.provider.caps) <==> ValidCapability(c) && Declares(s, c)
    ensures multiset(Filter(INFRA_CAPABILITIES, s.provider.caps))[c] <= 1
  {
    FilterOnce(INFRA_CAPABILITIES, s.provider.caps, c);
    FilterMembers(INFRA_CAPABILITIES, s.provider.caps, c);
    KnownCapabilities(c);
  }

  /**
   Discovery and behaviour cannot disagree: with an authorised GET, an endpoint answers 200 only if discovery
   lists it, and everything discovery does not list answers 501.
   */
  lemma GateMatchesDiscovery(s: Server, r: Request, at: Moment)
    requires r.path.Endpoint? && ValidCapability(r.path.cap) && r.get && Authorized(s.guard, r.authorization, at)
    ensures var listed := Serve(s, r.(path := Discovery), at).body.capabilities;
            && (r.path.cap !in listed ==> Serve(s, r, at).status == NOT_IMPLEMENTED)
            && (Serve(s, r, at).status == OK ==> r.path.cap in listed)
  {
    DiscoveryIsHonest(s, r.path.cap);
  }

  // ----- who gets in -----

  /** The paths behind the token: discovery and the five capability endpoints. */
  predicate Protected(p: Path) {
    p.Discovery? || (p.Endpoint? && ValidCapability(p.cap))
  }

  /**
   A protected path, whatever the method, answers 401 exactly to requests whose bearer token is not the token the
   server reads, and to everyone when it cannot be read; no other path ever does. Such a refusal does not depend on
   the Provider: it reveals nothing about it.
   */
  lemma RefusesExactly(s: Server, r: Request, at: Moment, other: Provider)
    ensures Serve(s, r, at).status == UNAUTHORIZED <==>
            Protected(r.path) && s.guard.Guarded? && s.guard.token(at) != Some(BearerToken(r.authorization))
    ensures Serve(s, r, at).status == UNAUTHORIZED ==> Serve(s.(provider := other), r, at) == Serve(s, r, at)
  {
  }

  /** A caller with the server's own token passes a protected path's door exactly when trimming leaves it alone. */
  lemma OwnTokenPasses(p: Provider, t: string, r: Request, at: Moment)
    requires Protected(r.path) && r.authorization == BearerHeader(t)
    ensures Serve(Server(p, Guarded((m: Moment) => Some(t))), r, at).status != UNAUTHORIZED <==> Trim(t) == t
  {
    OwnTokenAccepted(t, at);
    RefusesExactly(Server(p, Guarded((m: Moment) => Some(t))), r, at, p);
  }

  /** A caller without any header passes it exactly when the server's token is empty. */
  lemma NoHeaderPasses(p: Provider, t: string, r: Request, at: Moment)
    requires Protected(r.path) && r.authorization == ""
    ensures Serve(Server(p, Guarded((m: Moment) => Some(t))), r, at).status != UNAUTHORIZED <==> t == ""
  {
    NoHeaderRefused(t, at);
    RefusesExactly(Server(p, Guarded((m: Moment) => Some(t))), r, at, p);
  }

  // ----- every status means one thing -----

  function Tag<T>(a: Answer<T>): Answer<()> {
    match a
    case Ok(_) => Ok(())
    case NotServed => NotServed
    case Broken => Broken
  }

  /** How the Provider takes the read an endpoint stands for. */
  function Verdict(p: Provider, r: Request, at: Moment): Answer<()>
    requires r.path.Endpoint? && WellAsked(r)
  {
    match r.path.cap
    case Instances => Tag(p.list(at, ReadInstances))
    case Metrics => Tag(p.list(at, ReadMetric(r.metric, Wrap64(r.window.value * SECOND))))
    case Alarms => Tag(p.list(at, ReadAlarms))
    case Ingress => Tag(p.address(at))
    case Backups => Tag(p.list(at, ReadBackups))
    case OtherCap(_) => NotServed
  }

  /** A metrics request names a contract metric and a positive window. */
  predicate WellAsked(r: Request)
    requires r.path.Endpoint?
  {
    r.path.cap.Metrics? ==> ValidMetric(r.metric) && r.window.Some? && r.window.value > 0
  }

  ghost predicate Reached(s: Server, r: Request, at: Moment) {
    Protected(r.path) && (s.guard.Guarded? ==> s.guard.token(at) == Some(BearerToken(r.authorization)))
  }

  /** Past the door and the capability gate. */
  ghost predicate Admitted(s: Server, r: Request, at: Moment) {
    Reached(s, r, at) && (r.path.Endpoint? ==> r.path.cap in s.provider.caps)
  }

  /** Each status by what was asked of whom, independent of the order in which the server finds out. */
  lemma StatusTells(s: Server, r: Request, at: Moment)
    ensures var status, read := Serve(s, r, at).status, Admitted(s, r, at) && r.get && r.path.Endpoint?;
            && (status == NOT_FOUND <==> !r.path.Health? && !Protected(r.path))
            && (status == METHOD_NOT_ALLOWED <==> !r.get && (r.path.Health? || Admitted(s, r, at)))
            && (status == BAD_REQUEST <==> read && !WellAsked(r))
            && (status == BAD_GATEWAY <==> read && WellAsked(r) && Verdict(s.provider, r, at).Broken?)
            && (status == NOT_IMPLEMENTED <==>
                  || (Reached(s, r, at) && !Admitted(s, r, at))
                  || (read && WellAsked(r) && Verdict(s.provider, r, at).NotServed?))
            && (status == OK <==>
                  || (r.get && (r.path.Health? || (r.path.Discovery? && Admitted(s, r, at))))
                  || (read && WellAsked(r) && Verdict(s.provider, r, at).Ok?))
  {
    RefusesExactly(s, r, at, s.provider);
  }

  /** And every refusal carries the code of its status. */
  lemma CodeTells(s: Server, r: Request, at: Moment)
    ensures var res := Serve(s, r, at);
            res.status != OK ==> res.body == ErrorBody(
              if res.status == UNAUTHORIZED then "unauthorized"
              else if res.status == NOT_IMPLEMENTED then "not_implemented"
              else if res.status == BAD_GATEWAY then "upstream_error"
              else "bad_request")
  {
  }
}
