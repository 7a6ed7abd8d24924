/**
 The Provider client (internal/provider/client.go) and what it preserves over the server: a client talking to
 a hosted Provider gives back what the Provider answered, and tells "not implemented" from "broken".
 */
module Client {
  import opened Common
  import opened Strings
  import opened Contract

  const CAPABILITY_TTL := 300 * SECOND

  type Time = int

  /** The network: a response, or None for unreachable, refused or timed out. */
  type Net = (Request, Moment) -> Option<Response>

  /** The five source methods with their arguments. */
  datatype Query = ListInstances | QueryMetric(metric: Metric, window: int) | ListAlarmStatuses
                 | IngressPublicIp | ListObjects

  function CapOf(q: Query): Cap {
    match q
    case ListInstances => Instances
    case QueryMetric(_, _) => Metrics
    case ListAlarmStatuses => Alarms
    case IngressPublicIp => Ingress
    case ListObjects => Backups
  }

  datatype Value = Items(items: seq<string>) | PublicIp(ip: string)

  datatype Result<+T> = Got(value: T) | NotImplemented | Failed

  /** int(window.Seconds()), at least one. */
  function WindowSeconds(window: int): (s: int)
    ensures s >= 1
  {
    var s := if window >= 0 then window / SECOND else -((-window) / SECOND);
    if s <= 0 then 1 else s
  }

  function RequestFor(q: Query, authorization: string): Request {
    match q
    case QueryMetric(m, w) => Request(true, Endpoint(Metrics), authorization, m, Some(WindowSeconds(w)))
    case _ => Request(true, Endpoint(CapOf(q)), authorization, OtherMetric(""), None)
  }

  /** Where the client's token comes from; None is a failed read. */
  datatype Credential = NoToken | Token(read: Moment -> Option<string>)

  function Header(c: Credential, at: Moment): Option<string> {
    match c
    case NoToken => Some("")
    case Token(read) => if read(at).None? then None else Some(BearerHeader(read(at).value))
  }

  /** One contract call: 200 is decoded, 501 is "not implemented", anything else is an error. */
  function Fetch(net: Net, r: Request, at: Moment): Result<Body> {
    match net(r, at)
    case None => Failed
    case Some(res) =>
      if res.status == NOT_IMPLEMENTED then NotImplemented
      else if res.status != OK then Failed
      else Got(res.body)
  }

  /** A body without the expected field decodes to that field's zero value. */
  function Decode(q: Query, b: Body): Value {
    if q.IngressPublicIp? then PublicIp(if b.AddressBody? then b.publicIp else "")
    else Items(if b.ListBody? && b.cap == CapOf(q) then b.items else [])
  }

  function Valid(caps: seq<Cap>): seq<Cap> {
    if caps == [] then []
    else (if ValidCapability(caps[0]) then [caps[0]] else []) + Valid(caps[1..])
  }

  function Discover(net: Net, cred: Credential, at: Moment): Result<seq<Cap>> {
    match Header(cred, at)
    case None => Failed
    case Some(h) =>
      match Fetch(net, Request(true, Discovery, h, OtherMetric(""), None), at)
      case NotImplemented => NotImplemented
      case Failed => Failed
      case Got(b) => if b.CapabilitiesBody? && b.kind == KIND_INFRA then Got(Valid(b.capabilities)) else Failed
  }

  function AsSet(caps: seq<Cap>): set<Cap> { set c | c in caps }

  /** What the client knows: nil is not the empty declaration. */
  datatype Known = Known(declared: Option<set<Cap>>, knownAt: Time)

  /** The outcome of `supports`: the answer to consult, or the error of asking. */
  function Consult(k: Known, net: Net, cred: Credential, at: Moment, now: Time): Result<set<Cap>> {
    if k.declared.Some? && now - k.knownAt <= CAPABILITY_TTL then Got(k.declared.value)
    else match Discover(net, cred, at)
      case Got(caps) => Got(AsSet(caps))
      case NotImplemented => NotImplemented
      case Failed => Failed
  }

  function Ask(net: Net, cred: Credential, q: Query, at: Moment): Result<Value> {
    match Header(cred, at)
    case None => Failed
    case Some(h) =>
      match Fetch(net, RequestFor(q, h), at)
      case NotImplemented => NotImplemented
      case Failed => Failed
      case Got(b) => Got(Decode(q, b))
  }

  /** One source method: consult discovery at one moment, ask at the next. */
  function Outcome(k: Known, net: Net, cred: Credential, q: Query, at: Moment, now: Time): Result<Value> {
    match Consult(k, net, cred, at, now)
    case NotImplemented => NotImplemented
    case Failed => Failed
    case Got(declared) => if CapOf(q) in declared then Ask(net, cred, q, at + 1) else NotImplemented
  }

  /** What the client knows after asking for discovery: a failure forgets nothing. */
  function Rediscovered(k: Known, net: Net, cred: Credential, at: Moment, now: Time): Known {
    var answer := Discover(net, cred, at);
    if answer.Got? then Known(Some(AsSet(answer.value)), now) else k
  }

  /** What it knows after a read: discovery is asked for when nothing is known or the answer has expired. */
  function AfterRead(k: Known, net: Net, cred: Credential, at: Moment, now: Time): Known {
    if k.declared.Some? && now - k.knownAt <= CAPABILITY_TTL then k else Rediscovered(k, net, cred, at, now)
  }

  /** The calls one client gets, one after the other. */
  datatype Call = CallCapabilities(at: Moment, now: Time) | CallRead(q: Query, at: Moment, now: Time)

  /** What a client knows after a run of calls. */
  function Memory(net: Net, cred: Credential, calls: seq<Call>): Known {
    if calls == [] then Known(None, 0)
    else
      var k, c := Memory(net, cred, calls[..|calls| - 1]), calls[|calls| - 1];
      if c.CallRead? then AfterRead(k, net, cred, c.at, c.now) else Rediscovered(k, net, cred, c.at, c.now)
  }

  class Client {
    const cred: Credential
    var declared: Option<set<Cap>>
    var knownAt: Time

    constructor (cred: Credential)
      ensures this.cred == cred && declared == None
    {
      this.cred := cred;
      declared, knownAt := None, 0;
    }

    ghost function State(): Known
      reads this
    {
      Known(declared, knownAt)
    }

    /** Asks what the Provider serves and remembers a well-formed answer; a failure forgets nothing. */
    method Capabilities(net: Net, at: Moment, now: Time) returns (r: Result<seq<Cap>>)
      modifies this
      ensures r == Discover(net, cred, at)
      ensures State() == Rediscovered(old(State()), net, cred, at, now)
    {
      var header := Header(cred, at);
      if header.None? {
        return Failed;
      }
      var fetched := Fetch(net, Request(true, Discovery, header.value, OtherMetric(""), None), at);
      match fetched {
        case NotImplemented => return NotImplemented;
        case Failed => return Failed;
        case Got(b) =>
          if !(b.CapabilitiesBody? && b.kind == KIND_INFRA) {
            return Failed;
          }
          var caps: seq<Cap> := [];
          for i := 0 to |b.capabilities|
            invariant caps + Valid(b.capabilities[i..]) == Valid(b.capabilities)
          {
            assert b.capabilities[i..][1..] == b.capabilities[i + 1..];
            if ValidCapability(b.capabilities[i]) {
              caps := caps + [b.capabilities[i]];
            }
          }
          assert b.capabilities[|b.capabilities|..] == [] && caps + Valid([]) == caps;
          assert caps == Valid(b.capabilities);
          declared, knownAt := Some(AsSet(caps)), now;
          return Got(caps);
      }
    }

    method Supports(c: Cap, net: Net, at: Moment, now: Time) returns (r: Result<()>)
      modifies this
      ensures var answer := Consult(old(State()), net, cred, at, now);
              r == match answer
                   case Got(known) => if c in known then Got(()) else NotImplemented
                   case NotImplemented => NotImplemented
                   case Failed => Failed
      ensures State() == AfterRead(old(State()), net, cred, at, now)
    {
      if declared.None? || now - knownAt > CAPABILITY_TTL {
        var answer := Capabilities(net, at, now);
        match answer {
          case NotImplemented => return NotImplemented;
          case Failed => return Failed;
          case Got(_) =>
        }
      }
      r := if c in declared.value then Got(()) else NotImplemented;
    }

    /** Any of the five source methods. */
    method ReadSource(q: Query, net: Net, at: Moment, now: Time) returns (r: Result<Value>)
      modifies this
      ensures r == Outcome(old(State()), net, cred, q, at, now)
      ensures State() == AfterRead(old(State()), net, cred, at, now)
    {
      var supported := Supports(CapOf(q), net, at, now);
      match supported {
        case NotImplemented => return NotImplemented;
        case Failed => return Failed;
        case Got(_) =>
      }
      r := Ask(net, cred, q, at + 1);
    }
  }

  // ----- client over server -----

  function Hosted(s: Server): Net {
    (r: Request, at: Moment) => Some(Serve(s, r, at))
  }

  /** Client and server share the token t. */
  function Sharing(p: Provider, t: string): Server {
    Server(p, Guarded((m: Moment) => Some(t)))
  }

  function Holding(t: string): Credential {
    Token((m: Moment) => Some(t))
  }

  function Read(q: Query): Contract.Read
    requires !q.IngressPublicIp?
  {
    match q
    case ListInstances => ReadInstances
    case QueryMetric(m, w) => ReadMetric(m, WindowSeconds(w) * SECOND)
    case ListAlarmStatuses => ReadAlarms
    case ListObjects => ReadBackups
  }

  /** The Provider's own answer to a query, nil lists read as empty. */
  function ProviderAnswer(p: Provider, q: Query, at: Moment): Result<Value> {
    if q.IngressPublicIp? then
      match p.address(at)
      case Ok(ip) => Got(PublicIp(ip))
      case NotServed => NotImplemented
      case Broken => Failed
    else
      match p.list(at, Read(q))
      case Ok(items) => Got(Items(if items.None? then [] else items.value))
      case NotServed => NotImplemented
      case Broken => Failed
  }

  /** Go durations, and metrics the contract defines. */
  predicate InContract(q: Query) {
    q.QueryMetric? ==> ValidMetric(q.metric) && FitsInt64(q.window)
  }

  /** What the client remembers agrees with what the Provider declares. */
  ghost predicate Agrees(k: Known, p: Provider) {
    k.declared.Some? ==> forall c :: c in k.declared.value <==> ValidCapability(c) && c in p.caps
  }

  lemma {:induction false} ValidMembers(caps: seq<Cap>, c: Cap)
    ensures c in Valid(caps) <==> c in caps && ValidCapability(c)
    decreases |caps|
  {
    if caps != [] {
      ValidMembers(caps[1..], c);
      assert caps == [caps[0]] + caps[1..];
    }
  }

  /** A contract metric's window reaches the Provider as a positive whole number of seconds, never wrapped. */
  lemma WindowArrives(window: int)
    requires FitsInt64(window)
    ensures var s := WindowSeconds(window);
            && s >= 1 && Wrap64(s * SECOND) == s * SECOND
            && (window >= SECOND ==> s * SECOND <= window < (s + 1) * SECOND)
            && (window < SECOND ==> s == 1)
  {
    var s := WindowSeconds(window);
    if window >= SECOND {
      assert s * SECOND <= window;
    }
    assert (s * SECOND + INT64_HALF) % INT64_RANGE == s * SECOND + INT64_HALF;
  }

  /** The server lets in what the client sends with the credential it reads at this moment. */
  ghost predicate LetIn(s: Server, cred: Credential, at: Moment) {
    && Header(cred, at).Some?
    && (s.guard.Guarded? ==> s.guard.token(at) == Some(BearerToken(Header(cred, at).value)))
  }

  lemma ListedByDiscovery(p: Provider, c: Cap)
    ensures c in AsSet(Valid(Filter(INFRA_CAPABILITIES, p.caps))) <==> ValidCapability(c) && c in p.caps
  {
    ValidMembers(Filter(INFRA_CAPABILITIES, p.caps), c);
    DiscoveryIsHonest(Server(p, Unguarded), c);
  }

  lemma HostedDiscovery(s: Server, cred: Credential, at: Moment)
    ensures Discover(Hosted(s), cred, at) ==
            if LetIn(s, cred, at) then Got(Valid(Filter(INFRA_CAPABILITIES, s.provider.caps))) else Failed
  {
  }

  lemma HostedAsk(s: Server, cred: Credential, q: Query, at: Moment)
    requires InContract(q) && CapOf(q) in s.provider.caps
    ensures Ask(Hosted(s), cred, q, at) == if LetIn(s, cred, at) then ProviderAnswer(s.provider, q, at) else Failed
  {
    if q.QueryMetric? { WindowArrives(q.window); }
  }

  /**
   For every Provider, every guard and every credential, each free to change from moment to moment (so through any
   rotation of the token): a read fails if the door is shut when discovery has to be asked or when the capability
   is; otherwise it gives the Provider's value (nil becoming empty) if the capability is declared and the call
   succeeds, "not implemented" if it is undeclared or the Provider's error says so, and another error if not.
   */
  lemma ClientOverAnyServer(k: Known, s: Server, cred: Credential, q: Query, at: Moment, now: Time)
    requires InContract(q) && Agrees(k, s.provider)
    ensures Outcome(k, Hosted(s), cred, q, at, now) ==
            if !(k.declared.Some? && now - k.knownAt <= CAPABILITY_TTL) && !LetIn(s, cred, at) then Failed
            else if CapOf(q) !in s.provider.caps then NotImplemented
            else if !LetIn(s, cred, at + 1) then Failed
            else ProviderAnswer(s.provider, q, at + 1)
  {
    HostedDiscovery(s, cred, at);
    ListedByDiscovery(s.provider, CapOf(q));
    if CapOf(q) in s.provider.caps { HostedAsk(s, cred, q, at + 1); }
  }

  /** With a shared trimmed token the door is never shut. */
  lemma ClientOverServer(k: Known, p: Provider, t: string, q: Query, at: Moment, now: Time)
    requires Trim(t) == t && InContract(q) && Agrees(k, p)
    ensures Outcome(k, Hosted(Sharing(p, t)), Holding(t), q, at, now) ==
            if CapOf(q) in p.caps then ProviderAnswer(p, q, at + 1) else NotImplemented
  {
    BearerRoundTrip(t);
    ClientOverAnyServer(k, Sharing(p, t), Holding(t), q, at, now);
  }

  /** Without a token on either side nobody is ever refused. */
  lemma NoTokenNoGuard(k: Known, p: Provider, q: Query, at: Moment, now: Time)
    requires InContract(q) && Agrees(k, p)
    ensures Outcome(k, Hosted(Server(p, Unguarded)), NoToken, q, at, now) ==
            if CapOf(q) in p.caps then ProviderAnswer(p, q, at + 1) else NotImplemented
  {
    ClientOverAnyServer(k, Server(p, Unguarded), NoToken, q, at, now);
  }

  /** With a token that cannot be read nothing is sent: the outcome is the same whoever is at the other end. */
  lemma UnreadableTokenSendsNothing(k: Known, net: Net, other: Net, read: Moment -> Option<string>, q: Query,
                                    at: Moment, now: Time)
    requires read(at).None? && read(at + 1).None?
    ensures Outcome(k, net, Token(read), q, at, now) == Outcome(k, other, Token(read), q, at, now)
    ensures !Outcome(k, net, Token(read), q, at, now).Got?
  {
  }

  // ----- a client over any network -----

  ghost predicate Lists(res: Option<Response>, c: Cap) {
    Usable(res) && c in res.value.body.capabilities && ValidCapability(c)
  }

  ghost predicate Usable(res: Option<Response>) {
    res.Some? && res.value.status == OK && res.value.body.CapabilitiesBody? && res.value.body.kind == KIND_INFRA
  }

  /** What comes back for a request that carries the credential, if it can be read and anything comes back at all. */
  function Returned(net: Net, cred: Credential, request: string -> Request, at: Moment): Option<Response> {
    if Header(cred, at).None? then None else net(request(Header(cred, at).value), at)
  }

  /**
   Whatever the other side is: a read succeeds exactly if a usable answer, remembered or fresh, lists the capability
   and the call is answered 200, with the list or the address of the body, or the empty one if the body has none; it
   is "not implemented" exactly if one of the two calls is answered 501 or a usable answer leaves the capability out.
   */
  lemma ClientOverAnyNet(k: Known, net: Net, cred: Credential, q: Query, at: Moment, now: Time)
    ensures var recent := k.declared.Some? && now - k.knownAt <= CAPABILITY_TTL;
            var asked := Returned(net, cred, h => Request(true, Discovery, h, OtherMetric(""), None), at);
            var called := Returned(net, cred, h => RequestFor(q, h), at + 1);
            var usable := recent || Usable(asked);
            var listed := if recent then CapOf(q) in k.declared.value else Lists(asked, CapOf(q));
            var outcome := Outcome(k, net, cred, q, at, now);
            && (outcome.Got? <==> listed && called.Some? && called.value.status == OK)
            && (outcome.NotImplemented? <==>
                  || (!recent && asked.Some? && asked.value.status == NOT_IMPLEMENTED)
                  || (usable && !listed)
                  || (listed && called.Some? && called.value.status == NOT_IMPLEMENTED))
            && (outcome.Got? && q.IngressPublicIp? ==>
                  outcome.value == PublicIp(if called.value.body.AddressBody? then called.value.body.publicIp else ""))
            && (outcome.Got? && !q.IngressPublicIp? ==>
                  outcome.value == Items(if called.value.body.ListBody? && called.value.body.cap == CapOf(q)
                                         then called.value.body.items else []))
  {
    var asked := Returned(net, cred, h => Request(true, Discovery, h, OtherMetric(""), None), at);
    if Usable(asked) { ValidMembers(asked.value.body.capabilities, CapOf(q)); }
  }

  /** Discovery over the server keeps the client's memory in agreement with the Provider. */
  lemma AgreementKept(p: Provider, t: string, at: Moment, now: Time)
    requires Trim(t) == t
    ensures var d := Discover(Hosted(Sharing(p, t)), Holding(t), at);
            d.Got? && Agrees(Known(Some(AsSet(d.value)), now), p)
  {
    BearerRoundTrip(t);
    HostedDiscovery(Sharing(p, t), Holding(t), at);
    forall c { ListedByDiscovery(p, c); }
  }

  lemma {:induction false} AlwaysAgrees(p: Provider, t: string, calls: seq<Call>)
    requires Trim(t) == t
    ensures Agrees(Memory(Hosted(Sharing(p, t)), Holding(t), calls), p)
  {
    if calls != [] {
      AlwaysAgrees(p, t, calls[..|calls| - 1]);
      AgreementKept(p, t, calls[|calls| - 1].at, calls[|calls| - 1].now);
    }
  }

  /** Hence, whatever the client has been asked before, each read gives back what the Provider says. */
  lemma EveryReadIsFaithful(p: Provider, t: string, calls: seq<Call>, q: Query, at: Moment, now: Time)
    requires Trim(t) == t && InContract(q)
    ensures Outcome(Memory(Hosted(Sharing(p, t)), Holding(t), calls), Hosted(Sharing(p, t)), Holding(t), q, at, now) ==
            if CapOf(q) in p.caps then ProviderAnswer(p, q, at + 1) else NotImplemented
  {
    AlwaysAgrees(p, t, calls);
    ClientOverServer(Memory(Hosted(Sharing(p, t)), Holding(t), calls), p, t, q, at, now);
  }

  lemma PaddedDiscovery(p: Provider, t: string, at: Moment)
    requires Trim(t) != t
    ensures Discover(Hosted(Sharing(p, t)), Holding(t), at) == Failed
  {
    BearerRoundTrip(t);
    HostedDiscovery(Sharing(p, t), Holding(t), at);
  }

  /**
   With a token that trimming would change the two halves never match: no run of calls ever learns a declaration,
   and every read ends in an error that is not "not implemented".
   */
  lemma {:induction false} PaddedTokenNeverWorks(p: Provider, t: string, calls: seq<Call>, q: Query,
                                                 at: Moment, now: Time)
    requires Trim(t) != t
    ensures Memory(Hosted(Sharing(p, t)), Holding(t), calls) == Known(None, 0)
    ensures Outcome(Memory(Hosted(Sharing(p, t)), Holding(t), calls), Hosted(Sharing(p, t)), Holding(t), q, at, now)
            == Failed
    decreases |calls|
  {
    if calls != [] {
      PaddedTokenNeverWorks(p, t, calls[..|calls| - 1], q, at, now);
      PaddedDiscovery(p, t, calls[|calls| - 1].at);
    }
    PaddedDiscovery(p, t, at);
  }
}
