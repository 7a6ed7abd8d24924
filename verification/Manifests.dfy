/**
 Manifest generation (internal/manifests/generator.go): validation, the rendered environment block and the
 eight generated files.

 Plain template text is a parameter: a template is its placeholders and its brace-carrying fragments in
 order, with arbitrary brace-free text in between that does not end next to one in a placeholder character.
 */
module Manifests {
  import opened Common
  import opened Strings
  import opened Substitution

  const MAX_REPLICAS := 5
  const APP_PORT := 8080

  const RESERVED_NAMES := {
    "tinycloud-api", "tinycloud-ui", "tinycloud-platform", "nginx-proxy", "oauth2-proxy", "traefik",
    "kube-system", "monitoring", "argocd", "cert-manager", "kube-dns", "default" }

  datatype Request = Request(name: string, image: string, tag: string, replicas: int, port: int,
                             env: map<string, string>)

  // ----- validation -----

  datatype Fault =
    | BodyRequired | NameRequired | NameTooLong | NameShape | NameReserved
    | ImageRequired | ImageHasTag | ImageShape | TagRequired | TagShape
    | ReplicasRange | PortFixed | EnvPortFixed

  predicate LowerAlnum(c: char) { 'a' <= c <= 'z' || '0' <= c <= '9' }

  /** Go's len counts UTF-8 bytes. */
  function Bytes(s: string): nat {
    if s == "" then 0
    else (if s[0] < '\U{80}' then 1 else if s[0] < '\U{800}' then 2 else if s[0] < '\U{10000}' then 3 else 4)
         + Bytes(s[1..])
  }

  /** ^[a-z0-9]([-a-z0-9]*[a-z0-9])?$ */
  predicate NameMatches(s: string) {
    && s != "" && LowerAlnum(s[0]) && LowerAlnum(s[|s| - 1])
    && forall c <- s :: LowerAlnum(c) || c == '-'
  }

  /** unicode.ToLower, as far as the result can be an ASCII letter. */
  function Lower(c: char): char {
    if 'A' <= c <= 'Z' then c - 'A' + 'a'
    else if c == '\U{212A}' then 'k'
    else if c == '\U{130}' then 'i'
    else c
  }

  predicate ImageSeparator(c: char) { c == '.' || c == '_' || c == '-' || c == '/' }

  /** Runs of [a-z0-9] joined by single separators, at least one of them a slash, compared in lower case. */
  predicate ImageMatches(s: string) {
    && s != "" && LowerAlnum(Lower(s[0])) && LowerAlnum(Lower(s[|s| - 1]))
    && (forall c <- s :: LowerAlnum(Lower(c)) || ImageSeparator(c))
    && (forall i :: 0 <= i < |s| - 1 && ImageSeparator(s[i]) ==> !ImageSeparator(s[i + 1]))
    && '/' in s
  }

  /** ^[a-f0-9]{40}$ */
  predicate TagMatches(s: string) {
    |s| == 40 && forall c <- s :: 'a' <= c <= 'f' || '0' <= c <= '9'
  }

  function Validate(body: Option<Request>): Option<Fault> {
    if body.None? then Some(BodyRequired)
    else
      var req := body.value;
      var name, image, tag := Trim(req.name), Trim(req.image), Trim(req.tag);
      if name == "" then Some(NameRequired)
      else if Bytes(name) > 63 then Some(NameTooLong)
      else if !NameMatches(name) then Some(NameShape)
      else if name in RESERVED_NAMES then Some(NameReserved)
      else if image == "" then Some(ImageRequired)
      else if ':' in image then Some(ImageHasTag)
      else if !ImageMatches(image) then Some(ImageShape)
      else if tag == "" then Some(TagRequired)
      else if !TagMatches(tag) then Some(TagShape)
      else if req.replicas < 1 || req.replicas > MAX_REPLICAS then Some(ReplicasRange)
      else if req.port != APP_PORT then Some(PortFixed)
      else if "PORT" in req.env && Trim(req.env["PORT"]) != Decimal(APP_PORT) then Some(EnvPortFixed)
      else None
  }

  function Normalized(req: Request): Request {
    req.(name := Trim(req.name), image := Trim(req.image), tag := Trim(req.tag), port := APP_PORT,
         replicas := if req.replicas == 0 then 1 else req.replicas)
  }

  /** The rules, each by itself. */
  predicate Breaks(body: Option<Request>, f: Fault) {
    if body.None? then f.BodyRequired?
    else
      var name, image, tag := Trim(body.value.name), Trim(body.value.image), Trim(body.value.tag);
      match f
      case BodyRequired => false
      case NameRequired => name == ""
      case NameTooLong => Bytes(name) > 63
      case NameShape => !NameMatches(name)
      case NameReserved => name in RESERVED_NAMES
      case ImageRequired => image == ""
      case ImageHasTag => ':' in image
      case ImageShape => !ImageMatches(image)
      case TagRequired => tag == ""
      case TagShape => !TagMatches(tag)
      case ReplicasRange => !(1 <= body.value.replicas <= MAX_REPLICAS)
      case PortFixed => body.value.port != APP_PORT
      case EnvPortFixed => "PORT" in body.value.env && Trim(body.value.env["PORT"]) != Decimal(APP_PORT)
  }

  /** The order they are checked in. */
  function Rank(f: Fault): nat {
    match f
    case BodyRequired => 0
    case NameRequired => 1
    case NameTooLong => 2
    case NameShape => 3
    case NameReserved => 4
    case ImageRequired => 5
    case ImageHasTag => 6
    case ImageShape => 7
    case TagRequired => 8
    case TagShape => 9
    case ReplicasRange => 10
    case PortFixed => 11
    case EnvPortFixed => 12
  }

  lemma ReportedIsBroken(body: Option<Request>)
    ensures Validate(body).Some? ==> Breaks(body, Validate(body).value)
  {
  }

  lemma EarlierIsKept(body: Option<Request>, f: Fault)
    requires Validate(body).None? || Rank(f) < Rank(Validate(body).value)
    ensures !Breaks(body, f)
  {
  }

  lemma RanksDiffer(f: Fault, g: Fault)
    requires Rank(f) == Rank(g)
    ensures f == g
  {
  }

  /** A request is refused for the first rule it breaks, and accepted if and only if it breaks none. */
  lemma FirstFaultDecides(body: Option<Request>, f: Fault)
    ensures Validate(body) == Some(f) <==> Breaks(body, f) && forall g :: Rank(g) < Rank(f) ==> !Breaks(body, g)
    ensures Validate(body).None? <==> forall g :: !Breaks(body, g)
  {
    ReportedIsBroken(body);
    var v := Validate(body);
    forall g | v.None? || Rank(g) < Rank(v.value) ensures !Breaks(body, g) { EarlierIsKept(body, g); }
    if v.Some? && Rank(v.value) == Rank(f) { RanksDiffer(v.value, f); }
  }

  lemma ValidationIgnoresPadding(a: Request, b: Request)
    requires Trim(a.name) == Trim(b.name) && Trim(a.image) == Trim(b.image) && Trim(a.tag) == Trim(b.tag)
    requires a.replicas == b.replicas && a.port == b.port && a.env == b.env
    ensures Validate(Some(a)) == Validate(Some(b))
  {
  }

  /** The request object handlers pass around. */
  class CreateAppRequest {
    var name: string
    var image: string
    var tag: string
    var replicas: int
    var port: int
    var env: map<string, string>

    function Value(): Request
      reads this
    {
      Request(name, image, tag, replicas, port, env)
    }

    constructor (r: Request)
      ensures Value() == r
    {
      name, image, tag, replicas, port, env := r.name, r.image, r.tag, r.replicas, r.port, r.env;
    }

    method Normalize()
      modifies this
      ensures Value() == Normalized(old(Value()))
      ensures name == Trim(old(name)) && image == Trim(old(image)) && tag == Trim(old(tag))
      ensures port == APP_PORT && replicas == (if old(replicas) == 0 then 1 else old(replicas)) && env == old(env)
    {
      name := Trim(name);
      image := Trim(image);
      tag := Trim(tag);
      port := APP_PORT;
      if replicas == 0 {
        replicas := 1;
      }
    }
  }

  // ----- the environment block -----

  const ENV_HEADER := "          env:\n"
  const ENTRY_NAME := "            - name: "
  const ENTRY_VALUE := "\n              value: \""
  const ENTRY_END := "\"\n"

  /** One entry; `esc` is what %q makes of a string between the quotes. */
  function EnvEntry(k: string, v: string, esc: string -> string): string {
    ENTRY_NAME + (k + (ENTRY_VALUE + (esc(v) + ENTRY_END)))
  }

  function EnvEntries(keys: seq<string>, env: map<string, string>, esc: string -> string): string
    requires forall k <- keys :: k in env
  {
    if keys == [] then ""
    else EnvEntry(keys[0], env[keys[0]], esc) + EnvEntries(keys[1..], env, esc)
  }

  /** PORT first, then every other key in sorted order. */
  ghost function EnvText(env: map<string, string>, esc: string -> string): string {
    var keys := SortedElements(env.Keys - {"PORT"});
    assert forall k <- keys :: k in multiset(keys);
    ENV_HEADER + (EnvEntry("PORT", Decimal(APP_PORT), s => s) + EnvEntries(keys, env, esc))
  }

  /** The state between two iterations of the exchange sort. */
  ghost predicate Exchanged(s: seq<string>, i: nat) {
    forall p, q :: 0 <= p < i && p <= q < |s| ==> AtMost(s[p], s[q])
  }

  ghost predicate LeastFrom(s: seq<string>, i: nat, j: nat) {
    i < |s| && j <= |s| && forall q :: i <= q < j ==> AtMost(s[i], s[q])
  }

  lemma ExchangeStep(s: seq<string>, i: nat, j: nat)
    requires i < j < |s| && Exchanged(s, i) && LeastFrom(s, i, j) && Below(s[j], s[i])
    ensures var t := s[i := s[j]][j := s[i]];
            Exchanged(t, i) && LeastFrom(t, i, j + 1) && multiset(t) == multiset(s)
  {
    var t := s[i := s[j]][j := s[i]];
    Total(s[i], s[j]);
    Total(t[i], t[i]);
    forall q | i < q < j ensures AtMost(t[i], t[q]) {
      Transitive(s[j], s[i], s[q]);
    }
  }

  /** The doubly nested exchange loop. */
  method ExchangeSort(keys: array<string>)
    modifies keys
    ensures Sorted(keys[..]) && multiset(keys[..]) == multiset(old(keys[..]))
  {
    for i := 0 to keys.Length
      invariant Exchanged(keys[..], i) && multiset(keys[..]) == multiset(old(keys[..]))
    {
      Total(keys[i], keys[i]);
      for j := i + 1 to keys.Length
        invariant Exchanged(keys[..], i) && LeastFrom(keys[..], i, j)
        invariant multiset(keys[..]) == multiset(old(keys[..]))
      {
        if Below(keys[j], keys[i]) {
          ghost var before := keys[..];
          ExchangeStep(before, i, j);
          keys[i], keys[j] := keys[j], keys[i];
          assert keys[..] == before[i := before[j]][j := before[i]];
        } else {
          Total(keys[i], keys[j]);
        }
      }
    }
  }

  /** `range env`: every key but PORT, in whatever order the map yields them. */
  method CollectKeys(env: map<string, string>) returns (keys: seq<string>)
    ensures multiset(keys) == multiset(env.Keys - {"PORT"})
  {
    keys := [];
    var todo := env.Keys;
    while todo != {}
      invariant todo <= env.Keys
      invariant multiset(keys) == multiset(env.Keys - todo - {"PORT"})
      decreases |todo|
    {
      var k :| k in todo;
      ghost var seen := env.Keys - todo - {"PORT"};
      todo := todo - {k};
      if k == "PORT" {
        assert env.Keys - todo - {"PORT"} == seen;
        continue;
      }
      assert env.Keys - todo - {"PORT"} == seen + {k};
      keys := keys + [k];
    }
    assert env.Keys - todo - {"PORT"} == env.Keys - {"PORT"};
  }

  method WriteEntries(keys: seq<string>, env: map<string, string>, esc: string -> string) returns (out: string)
    requires forall k <- keys :: k in env
    ensures out == EnvEntries(keys, env, esc)
  {
    out := "";
    for i := 0 to |keys|
      invariant out + EnvEntries(keys[i..], env, esc) == EnvEntries(keys, env, esc)
    {
      var rest := keys[i..];
      assert rest[0] == keys[i] && rest[1..] == keys[i + 1..];
      ghost var written := out;
      var entry := EnvEntry(keys[i], env[keys[i]], esc);
      assert EnvEntries(rest, env, esc) == entry + EnvEntries(keys[i + 1..], env, esc);
      out := out + entry;
      assert written + (entry + EnvEntries(keys[i + 1..], env, esc)) == out + EnvEntries(keys[i + 1..], env, esc);
    }
  }

  /** Whatever order the map yields its keys in, the block is the same. */
  method RenderEnvVars(env: map<string, string>, esc: string -> string) returns (out: string)
    ensures out == EnvText(env, esc)
  {
    var visited := CollectKeys(env);
    var keys := new string[|visited|](i requires 0 <= i < |visited| => visited[i]);
    assert keys[..] == visited;
    ExchangeSort(keys);
    SortedUnique(keys[..], SortedElements(env.Keys - {"PORT"}));
    ghost var sorted := keys[..];
    assert forall k <- sorted :: k in multiset(sorted);
    var entries := WriteEntries(keys[..], env, esc);
    out := ENV_HEADER + (EnvEntry("PORT", Decimal(APP_PORT), s => s) + entries);
  }

  // ----- the eight templates -----

  datatype File = Namespace | Deployment | Service | ResourceQuota | NetworkPolicies | PullSecret
                | Kustomization | ImageUpdater

  const FILES := [Namespace, Deployment, Service, ResourceQuota, NetworkPolicies, PullSecret,
                  Kustomization, ImageUpdater]

  /** Template text without braces that cannot touch a placeholder. */
  predicate IsPlain(s: string) {
    && s != "" && !KeyChar(s[0]) && !KeyChar(s[|s| - 1])
    && forall i :: 0 <= i < |s| ==> s[i] != '{'
  }

  type Plain = s: string | IsPlain(s) witness " "

  /** The plain text between the slots of each template. */
  type Words = (File, nat) -> Plain

  /** The Go template expression of the pull secret, after its opening braces. */
  const SECRET_INDEX := " index . \".dockerconfigjson\" }}"

  /** What interrupts the plain text of a template: placeholders and literal braces, in order. */
  function Slots(f: File): seq<Piece> {
    match f
    case Namespace => [Hole(AppName), Hole(AppName)]
    case Deployment =>
      [Hole(AppName), Hole(AppName), Hole(Replicas), Hole(AppName), Hole(AppName), Hole(AppName),
       Hole(Image), Hole(Tag), Hole(Port), Hole(EnvVars)]
    case Service => [Hole(AppName), Hole(AppName), Hole(AppName)]
    case ResourceQuota => [Hole(AppName)]
    case NetworkPolicies => [Lit("{}"), Lit("{}"), Hole(Port), Lit("{}"), Hole(Port), Lit("{}")]
    case PullSecret => [Hole(AppName), Hole(AppName), Lit("{{" + SECRET_INDEX)]
    case Kustomization => [Hole(AppName), Hole(Image), Hole(Tag)]
    case ImageUpdater => [Hole(AppName), Lit("{40}"), Hole(AppName), Hole(Image)]
  }

  /** Plain text before, between and after the slots. */
  function Weave(f: File, words: Words, i: nat, slots: seq<Piece>): seq<Piece>
    decreases |slots|
  {
    [Lit(words(f, i))] + if slots == [] then [] else [slots[0]] + Weave(f, words, i + 1, slots[1..])
  }

  function Template(f: File, words: Words): seq<Piece> {
    Weave(f, words, 0, Slots(f))
  }

  lemma PlainIsKeyFree(s: Plain)
    ensures KeyFree(s)
  {
    NoBraceMeansNone(s);
    forall x ensures !Contains(s, Key(x)) { BraceFreeIsKeyFree(s, x); }
  }

  lemma SingleBraces(s: string, x: Var)
    requires s == "{}" || s == "{40}"
    ensures !Contains(s, Key(x))
  {
    KeyHead(x);
    NoOpening(s, Key(x));
  }

  /** The Go template inside the pull secret opens with two braces, but no placeholder does so before a space. */
  lemma SpacedOpening(rest: string, x: Var)
    requires rest != "" && rest[0] == '{' && (|rest| > 1 ==> rest[1] == ' ')
    requires forall i :: 1 <= i < |rest| ==> rest[i] != '{'
    ensures !Contains("{" + rest, Key(x))
  {
    KeyHead(x);
    NoOpening(rest, Key(x));
    assert ("{" + rest)[1..] == rest;
    if |rest| > 1 { assert ("{" + rest)[2] == ' '; }
  }

  lemma SecretIndex(rest: string)
    requires rest == SECRET_INDEX
    ensures rest != "" && rest[0] == ' ' && forall i :: 0 <= i < |rest| ==> rest[i] != '{'
  {
  }

  lemma PullSecretData(rest: string, x: Var)
    requires rest != "" && rest[0] == ' ' && forall i :: 0 <= i < |rest| ==> rest[i] != '{'
    ensures !Contains("{{" + rest, Key(x))
  {
    assert "{{" + rest == "{" + ("{" + rest);
    assert forall i :: 1 <= i < |rest| + 1 ==> ("{" + rest)[i] == rest[i - 1];
    SpacedOpening("{" + rest, x);
  }

  lemma SlotLiterals(f: File)
    ensures forall p <- Slots(f) :: p.Lit? ==> KeyFree(p.text)
  {
    forall p, x | p in Slots(f) && p.Lit? ensures !Contains(p.text, Key(x)) {
      if f.PullSecret? {
        SecretIndex(SECRET_INDEX);
        PullSecretData(SECRET_INDEX, x);
      } else {
        SingleBraces(p.text, x);
      }
    }
  }

  lemma {:induction false} WeaveIsHygienic(f: File, words: Words, i: nat, slots: seq<Piece>)
    requires forall p <- slots :: p.Lit? ==> KeyFree(p.text)
    ensures var ps := Weave(f, words, i, slots); Hygienic(ps) && Solid(ps[0])
    decreases |slots|
  {
    var ps, w := Weave(f, words, i, slots), words(f, i);
    PlainIsKeyFree(w);
    if slots != [] {
      WeaveIsHygienic(f, words, i + 1, slots[1..]);
      var rest := Weave(f, words, i + 1, slots[1..]);
      assert ps == [Lit(w), slots[0]] + rest;
      assert forall j :: 2 <= j < |ps| ==> ps[j] == rest[j - 2];
      assert slots[0] in slots;
      forall p | p in ps && p.Lit? ensures KeyFree(p.text) {
        assert p == Lit(w) || p == slots[0] || p in rest;
      }
    }
  }

  lemma {:induction false} WeaveHoles(f: File, words: Words, i: nat, slots: seq<Piece>, x: Var)
    ensures Hole(x) in Weave(f, words, i, slots) <==> Hole(x) in slots
    decreases |slots|
  {
    if slots != [] {
      WeaveHoles(f, words, i + 1, slots[1..], x);
      assert slots == [slots[0]] + slots[1..];
    }
  }

  /** All eight templates keep placeholders apart from everything that could be mistaken for one. */
  lemma TemplatesAreHygienic(f: File, words: Words)
    ensures Hygienic(Template(f, words))
    ensures Hole(EnvVars) in Template(f, words) <==> f.Deployment?
  {
    SlotLiterals(f);
    WeaveIsHygienic(f, words, 0, Slots(f));
    SlotHoles(f);
    WeaveHoles(f, words, 0, Slots(f), EnvVars);
  }

  lemma SlotHoles(f: File)
    ensures Hole(EnvVars) in Slots(f) <==> f.Deployment?
  {
    if f.Deployment? { assert Slots(f)[9] == Hole(EnvVars); }
  }

  // ----- generation -----

  /** The `vars` map of GenerateAppFiles. */
  ghost function Vars(req: Request, esc: string -> string): Values {
    Values(Trim(req.name), Trim(req.image), Trim(req.tag), Decimal(req.replicas), Decimal(req.port),
           EnvText(req.env, esc))
  }

  function Path(f: File, name: string): string {
    match f
    case Namespace => "apps/" + name + "/namespace.yaml"
    case Deployment => "apps/" + name + "/deployment.yaml"
    case Service => "apps/" + name + "/service.yaml"
    case ResourceQuota => "apps/" + name + "/resource-quota.yaml"
    case NetworkPolicies => "apps/" + name + "/network-policies.yaml"
    case PullSecret => "apps/" + name + "/pull-secret.yaml"
    case Kustomization => "apps/" + name + "/kustomization.yaml"
    case ImageUpdater => "argocd/imageupdater-" + name + ".yaml"
  }

  lemma PathsDiffer(f: File, g: File, name: string)
    requires f != g
    ensures Path(f, name) != Path(g, name)
  {
    var p, q := Path(f, name), Path(g, name);
    assert |p| != |q| || p[1] != q[1];
  }

  /** `s` is what the template's replacement yields for some visiting order of the map. */
  ghost predicate Replaced(template: string, vars: Values, s: string) {
    exists order :: VisitOrder(order, ALL_VARS) && s == ReplaceInOrder(template, order, vars)
  }

  /** One ReplaceAll per map entry, in whatever order the map yields them. */
  method ReplaceVars(template: string, vars: Values) returns (out: string)
    ensures Replaced(template, vars, out)
  {
    out := template;
    ghost var order := [];
    var todo := ALL_VARS;
    while todo != {}
      invariant todo <= ALL_VARS && VisitOrder(order, ALL_VARS - todo)
      invariant out == ReplaceInOrder(template, order, vars)
      decreases |todo|
    {
      var x :| x in todo;
      ghost var before := order;
      todo := todo - {x};
      out := ReplaceAll(out, Key(x), vars.At(x));
      order := order + [x];
      OrderExtended(template, before, x, vars);
    }
    assert ALL_VARS - todo == ALL_VARS;
  }

  lemma {:induction false} OrderExtended(s: string, order: seq<Var>, x: Var, vars: Values)
    ensures ReplaceInOrder(s, order + [x], vars) == ReplaceAll(ReplaceInOrder(s, order, vars), Key(x), vars.At(x))
    decreases |order|
  {
    if order == [] {
      assert [] + [x] == [x] && [x][1..] == [];
    } else {
      assert (order + [x])[1..] == order[1..] + [x];
      OrderExtended(ReplaceAll(s, Key(order[0]), vars.At(order[0])), order[1..], x, vars);
    }
  }

  /** No value put into the templates contains a placeholder. */
  ghost predicate Clean(vars: Values) {
    forall y :: KeyFree(vars.At(y))
  }

  lemma ReplacedIsSubstituted(f: File, words: Words, vars: Values, s: string)
    requires Clean(vars) && Replaced(Raw(Template(f, words)), vars, s)
    ensures s == Text(Template(f, words), vars) && KeyFree(s)
  {
    var order :| VisitOrder(order, ALL_VARS) && s == ReplaceInOrder(Raw(Template(f, words)), order, vars);
    TemplatesAreHygienic(f, words);
    Confluence(Template(f, words), order, vars);
  }

  function Paths(name: string): seq<string> {
    seq(|FILES|, i requires 0 <= i < |FILES| => Path(FILES[i], name))
  }

  function RawTemplates(words: Words): seq<string> {
    seq(|FILES|, i requires 0 <= i < |FILES| => Raw(Template(FILES[i], words)))
  }

  /** No two of the eight paths collide: pairing them with the contents is a map. */
  lemma PathsDistinct(name: string, i: nat, j: nat)
    requires i < j < |FILES|
    ensures Paths(name)[i] != Paths(name)[j]
  {
    PathsDiffer(FILES[i], FILES[j], name);
  }

  /** Every template is replaced on its own, in an order of its own. */
  method ReplaceEach(templates: seq<string>, vars: Values) returns (contents: seq<string>)
    ensures |contents| == |templates|
    ensures forall i :: 0 <= i < |templates| ==> Replaced(templates[i], vars, contents[i])
  {
    contents := [];
    for i := 0 to |templates|
      invariant |contents| == i && forall j :: 0 <= j < i ==> Replaced(templates[j], vars, contents[j])
    {
      var out := ReplaceVars(templates[i], vars);
      contents := contents + [out];
    }
  }

  /**
   For a validated request with a brace-free environment every run of GenerateAppFiles yields the same eight
   contents: each the simultaneous substitution of its template, with no placeholder left.
   */
  lemma GenerationIsDeterministic(req: Request, esc: string -> string, words: Words, i: nat, content: string)
    requires Validate(Some(req)).None? && BraceFreeEnv(req.env, esc) && i < |FILES|
    requires Replaced(RawTemplates(words)[i], Vars(req, esc), content)
    ensures content == Text(Template(FILES[i], words), Vars(req, esc)) && KeyFree(content)
  {
    ValidatedIsClean(req, esc);
    ReplacedIsSubstituted(FILES[i], words, Vars(req, esc), content);
  }

  /**
   Normalising never invalidates a request and never changes a generated content. The eight paths use the name as
   it came, so they stay the same exactly when it carried no outer whitespace.
   */
  lemma NormalizingKeepsContents(req: Request, esc: string -> string, words: Words, i: nat, content: string)
    requires Validate(Some(req)).None? && i < |FILES|
    ensures var n := Normalized(req);
            && Validate(Some(n)).None?
            && (Replaced(RawTemplates(words)[i], Vars(n, esc), content) <==>
                Replaced(RawTemplates(words)[i], Vars(req, esc), content))
            && (Paths(n.name)[i] == Paths(req.name)[i] <==> Trim(req.name) == req.name)
  {
    NormalizingKeepsVars(req, esc);
    PathTellsName(FILES[i], Trim(req.name), req.name);
  }

  lemma NormalizingKeepsVars(req: Request, esc: string -> string)
    requires Validate(Some(req)).None?
    ensures Validate(Some(Normalized(req))).None? && Vars(Normalized(req), esc) == Vars(req, esc)
  {
    TrimTwice(req.name);
    TrimTwice(req.image);
    TrimTwice(req.tag);
    ValidatedShape(req);
    ValidationIgnoresPadding(req, Normalized(req));
  }

  lemma Cancel(a: string, s: string, t: string, b: string)
    requires a + s + b == a + t + b
    ensures s == t
  {
    assert |s| == |t|;
    forall i | 0 <= i < |s| ensures s[i] == t[i] {
      assert (a + s + b)[|a| + i] == s[i] && (a + t + b)[|a| + i] == t[i];
    }
  }

  /** The path of a file determines the name it was made from. */
  lemma PathTellsName(f: File, s: string, t: string)
    ensures Path(f, s) == Path(f, t) <==> s == t
  {
    if Path(f, s) == Path(f, t) {
      var head := if f.ImageUpdater? then "argocd/imageupdater-" else "apps/";
      var tail := if f.ImageUpdater? then ".yaml" else Path(f, "")[|head|..];
      Cancel(head, s, t, tail);
    }
  }

  // ----- what validation guarantees, and what it does not -----

  lemma {:induction false} NoBraceMeansNone(s: string)
    requires forall i :: 0 <= i < |s| ==> s[i] != '{'
    ensures Braces(s) == 0
  {
    if s != "" { NoBraceMeansNone(s[1..]); }
  }

  lemma ValidatedShape(req: Request)
    requires Validate(Some(req)).None?
    ensures NameMatches(Trim(req.name)) && ImageMatches(Trim(req.image)) && TagMatches(Trim(req.tag))
    ensures 1 <= req.replicas <= MAX_REPLICAS && req.port == APP_PORT
  {
  }

  lemma MatchedIsBraceFree(s: string)
    requires NameMatches(s) || ImageMatches(s) || TagMatches(s)
    ensures Braces(s) == 0
  {
    forall i | 0 <= i < |s| ensures s[i] != '{' { assert s[i] in s; }
    NoBraceMeansNone(s);
  }

  lemma DecimalIsBraceFree(n: int)
    ensures Braces(Decimal(n)) == 0
  {
    var s := Decimal(n);
    forall i | 0 <= i < |s| ensures s[i] != '{' { assert s[i] in s; }
    NoBraceMeansNone(s);
  }

  lemma ValidatedFieldsAreBraceFree(req: Request, esc: string -> string, y: Var)
    requires Validate(Some(req)).None? && y != EnvVars
    ensures Braces(Vars(req, esc).At(y)) == 0
  {
    ValidatedShape(req);
    match y
    case AppName => MatchedIsBraceFree(Trim(req.name));
    case Image => MatchedIsBraceFree(Trim(req.image));
    case Tag => MatchedIsBraceFree(Trim(req.tag));
    case Replicas => DecimalIsBraceFree(req.replicas);
    case Port => DecimalIsBraceFree(req.port);
  }

  predicate BraceFreeEnv(env: map<string, string>, esc: string -> string) {
    forall k | k in env && k != "PORT" :: Braces(k) == 0 && Braces(esc(env[k])) == 0
  }

  /** The placeholder of x stands in this key or in its quoted value. */
  predicate EntryMentions(env: map<string, string>, esc: string -> string, x: Var, k: string) {
    k in env && (Contains(k, Key(x)) || Contains(esc(env[k]), Key(x)))
  }

  predicate EnvMentions(env: map<string, string>, esc: string -> string, x: Var) {
    exists k :: k in env && k != "PORT" && EntryMentions(env, esc, x, k)
  }

  lemma EnvLiteralIsPlain(s: string)
    requires s == ENV_HEADER || s == ENTRY_NAME || s == ENTRY_VALUE || s == ENTRY_END
    ensures IsPlain(s) && (s == ENTRY_NAME ==> s[0] == ' ')
  {
  }

  lemma PlainBefore(p: string, s: string, x: Var)
    requires IsPlain(p)
    ensures Contains(p + s, Key(x)) <==> Contains(s, Key(x))
    ensures (p + s)[0] == p[0] && !KeyChar((p + s)[0])
  {
    KeyShape(x);
    PlainIsKeyFree(p);
    ContainsSplit(p, s, Key(x));
  }

  lemma BeforePlain(s: string, t: string, x: Var)
    requires t != "" && !KeyChar(t[0])
    ensures Contains(s + t, Key(x)) <==> Contains(s, Key(x)) || Contains(t, Key(x))
  {
    KeyShape(x);
    ContainsSplit(s, t, Key(x));
  }

  lemma Sandwich(a: string, k: string, b: string, v: string, c: string, x: Var)
    requires IsPlain(a) && IsPlain(b) && IsPlain(c)
    ensures Contains(a + (k + (b + (v + c))), Key(x)) <==> Contains(k, Key(x)) || Contains(v, Key(x))
    ensures (a + (k + (b + (v + c))))[0] == a[0]
  {
    BeforePlain(v, c, x);
    PlainIsKeyFree(c);
    PlainBefore(b, v + c, x);
    BeforePlain(k, b + (v + c), x);
    PlainBefore(a, k + (b + (v + c)), x);
  }

  lemma EntryContains(k: string, v: string, esc: string -> string, x: Var)
    ensures Contains(EnvEntry(k, v, esc), Key(x)) <==> Contains(k, Key(x)) || Contains(esc(v), Key(x))
    ensures EnvEntry(k, v, esc)[0] == ' '
  {
    EnvLiteralIsPlain(ENTRY_NAME);
    EnvLiteralIsPlain(ENTRY_VALUE);
    EnvLiteralIsPlain(ENTRY_END);
    Sandwich(ENTRY_NAME, k, ENTRY_VALUE, esc(v), ENTRY_END, x);
  }

  lemma {:induction false} EntriesContain(keys: seq<string>, env: map<string, string>, esc: string -> string, x: Var)
    requires forall k <- keys :: k in env
    ensures Contains(EnvEntries(keys, env, esc), Key(x)) <==>
            exists k <- keys :: EntryMentions(env, esc, x, k)
    ensures keys != [] ==> EnvEntries(keys, env, esc)[0] == ' '
    decreases |keys|
  {
    KeyShape(x);
    if keys != [] {
      EntryContains(keys[0], env[keys[0]], esc, x);
      EntriesContain(keys[1..], env, esc, x);
      ContainsSplit(EnvEntry(keys[0], env[keys[0]], esc), EnvEntries(keys[1..], env, esc), Key(x));
      assert keys == [keys[0]] + keys[1..];
    }
  }

  lemma PortEntryIsKeyFree(port: string, x: Var)
    requires port == EnvEntry("PORT", Decimal(APP_PORT), s => s)
    ensures !Contains(port, Key(x)) && port != "" && !KeyChar(port[0])
  {
    NoBraceMeansNone("PORT");
    BraceFreeIsKeyFree("PORT", x);
    DecimalIsBraceFree(APP_PORT);
    BraceFreeIsKeyFree(Decimal(APP_PORT), x);
    EntryContains("PORT", Decimal(APP_PORT), s => s, x);
  }

  lemma HeadedContains(header: string, port: string, entries: string, x: Var)
    requires IsPlain(header) && !Contains(port, Key(x))
    requires entries != "" ==> !KeyChar(entries[0])
    ensures Contains(header + (port + entries), Key(x)) <==> Contains(entries, Key(x))
  {
    PlainBefore(header, port + entries, x);
    KeyShape(x);
    ContainsSplit(port, entries, Key(x));
  }

  lemma KeysInOrder(env: map<string, string>)
    ensures forall k :: k in SortedElements(env.Keys - {"PORT"}) <==> k in env && k != "PORT"
  {
    var keys := SortedElements(env.Keys - {"PORT"});
    assert forall k :: k in keys <==> k in multiset(keys);
  }

  lemma EntriesMention(keys: seq<string>, env: map<string, string>, esc: string -> string, x: Var)
    requires forall k :: k in keys <==> k in env && k != "PORT"
    ensures Contains(EnvEntries(keys, env, esc), Key(x)) <==> EnvMentions(env, esc, x)
    ensures keys != [] ==> EnvEntries(keys, env, esc)[0] == ' '
  {
    EntriesContain(keys, env, esc, x);
  }

  /** The rendered block mentions a placeholder exactly when some key or quoted value does. */
  lemma EnvTextContains(env: map<string, string>, esc: string -> string, x: Var)
    ensures Contains(EnvText(env, esc), Key(x)) <==> EnvMentions(env, esc, x)
  {
    var port := EnvEntry("PORT", Decimal(APP_PORT), s => s);
    KeysInOrder(env);
    var keys := SortedElements(env.Keys - {"PORT"});
    var entries := EnvEntries(keys, env, esc);
    EnvLiteralIsPlain(ENV_HEADER);
    PortEntryIsKeyFree(port, x);
    EntriesMention(keys, env, esc, x);
    HeadedContains(ENV_HEADER, port, entries, x);
  }

  lemma BraceFreeEnvMentionsNothing(env: map<string, string>, esc: string -> string, x: Var)
    requires BraceFreeEnv(env, esc)
    ensures !EnvMentions(env, esc, x)
  {
    forall k | k in env && k != "PORT" ensures !EntryMentions(env, esc, x, k) {
      BraceFreeIsKeyFree(k, x);
      BraceFreeIsKeyFree(esc(env[k]), x);
    }
  }

  lemma EnvTextIsKeyFree(env: map<string, string>, esc: string -> string)
    requires BraceFreeEnv(env, esc)
    ensures KeyFree(EnvText(env, esc))
  {
    forall x ensures !Contains(EnvText(env, esc), Key(x)) {
      BraceFreeEnvMentionsNothing(env, esc, x);
      EnvTextContains(env, esc, x);
    }
  }

  lemma ValidatedFieldsAreKeyFree(req: Request, esc: string -> string, y: Var)
    requires Validate(Some(req)).None? && y != EnvVars
    ensures KeyFree(Vars(req, esc).At(y))
  {
    ValidatedFieldsAreBraceFree(req, esc, y);
    forall x ensures !Contains(Vars(req, esc).At(y), Key(x)) { BraceFreeIsKeyFree(Vars(req, esc).At(y), x); }
  }

  /** A validated request with a brace-free environment puts nothing but clean values into the templates. */
  lemma ValidatedIsClean(req: Request, esc: string -> string)
    requires Validate(Some(req)).None? && BraceFreeEnv(req.env, esc)
    ensures Clean(Vars(req, esc))
  {
    EnvTextIsKeyFree(req.env, esc);
    forall y | y != EnvVars ensures KeyFree(Vars(req, esc).At(y)) { ValidatedFieldsAreKeyFree(req, esc, y); }
  }

  lemma EnvironmentSettled(req: Request, esc: string -> string)
    ensures Settled(Vars(req, esc), EnvVars) <==> forall x :: x != EnvVars ==> !EnvMentions(req.env, esc, x)
  {
    forall x ensures Contains(Vars(req, esc).At(EnvVars), Key(x)) <==> EnvMentions(req.env, esc, x) {
      EnvTextContains(req.env, esc, x);
    }
  }

  /**
   Validation does not look into the environment. For a validated request any two visiting orders of Go's map
   give the same deployment manifest if and only if no environment key or quoted value mentions one of the other
   five placeholders; then it is the simultaneous substitution.
   */
  lemma DeploymentIsOrderFreeExactly(req: Request, esc: string -> string, words: Words)
    requires Validate(Some(req)).None?
    ensures OrdersAgree(Template(Deployment, words), Vars(req, esc)) <==>
            forall x :: x != EnvVars ==> !EnvMentions(req.env, esc, x)
    ensures OrderFree(Template(Deployment, words), Vars(req, esc)) <==>
            forall x :: x != EnvVars ==> !EnvMentions(req.env, esc, x)
  {
    TemplatesAreHygienic(Deployment, words);
    forall y | y != EnvVars ensures Braces(Vars(req, esc).At(y)) == 0 {
      ValidatedFieldsAreBraceFree(req, esc, y);
    }
    OrderFreeExactly(Template(Deployment, words), Vars(req, esc));
    EnvironmentSettled(req, esc);
  }

  /** The other seven files do not depend on the map order of a validated request, whatever its environment. */
  lemma OtherFilesAreOrderFree(req: Request, esc: string -> string, f: File, words: Words)
    requires Validate(Some(req)).None? && f != Deployment
    ensures OrderFree(Template(f, words), Vars(req, esc)) && OrdersAgree(Template(f, words), Vars(req, esc))
  {
    TemplatesAreHygienic(f, words);
    forall y | y != EnvVars ensures Settled(Vars(req, esc), y) { ValidatedFieldsAreKeyFree(req, esc, y); }
    forall order | VisitOrder(order, ALL_VARS)
      ensures ReplaceInOrder(Raw(Template(f, words)), order, Vars(req, esc)) == Text(Template(f, words), Vars(req, esc))
    {
      OrderDoesNotMatter(Template(f, words), order, Vars(req, esc));
    }
  }

  /**
   Every mentioned placeholder names two orders that differ: the environment visited first, or moved to the end.
   */
  lemma MentionBreaksIt(req: Request, esc: string -> string, words: Words, x: Var)
    requires Validate(Some(req)).None? && x != EnvVars && EnvMentions(req.env, esc, x)
    ensures var raw, vars := Raw(Template(Deployment, words)), Vars(req, esc);
            && VisitOrder(EnvThen(x), ALL_VARS) && VisitOrder(ThenEnv(x), ALL_VARS)
            && ReplaceInOrder(raw, EnvThen(x), vars) != ReplaceInOrder(raw, ThenEnv(x), vars)
  {
    EnvTextContains(req.env, esc, x);
    TemplatesAreHygienic(Deployment, words);
    forall y | y != EnvVars ensures Braces(Vars(req, esc).At(y)) == 0 {
      ValidatedFieldsAreBraceFree(req, esc, y);
    }
    SomeOrderDiffers(Template(Deployment, words), Vars(req, esc), x);
    EnvironmentLast(Template(Deployment, words), ThenEnv(x), Vars(req, esc));
  }

  /** A request like any other, but for its environment. */
  ghost predicate Spoiled(req: Request) {
    && req.name == "shop" && req.image == "team/shop" && req.tag == "0123456789abcdef0123456789abcdef01234567"
    && req.replicas == 1 && req.port == APP_PORT && req.env == map["A" := "{{TAG}}"]
  }

  lemma NothingToTrim(s: string)
    requires s != "" && !IsSpace(s[0]) && !IsSpace(s[|s| - 1])
    ensures Trim(s) == s
  {
  }

  lemma {:induction false} AsciiBytes(s: string)
    requires forall i :: 0 <= i < |s| ==> s[i] < '\U{80}'
    ensures Bytes(s) == |s|
  {
    if s != "" { AsciiBytes(s[1..]); }
  }

  lemma SpoiledName(name: string)
    requires name == "shop"
    ensures Trim(name) == name && Bytes(name) <= 63 && NameMatches(name) && name !in RESERVED_NAMES
  {
    NothingToTrim(name);
    AsciiBytes(name);
  }

  lemma SpoiledImage(image: string)
    requires image == "team/shop"
    ensures Trim(image) == image && ImageMatches(image) && ':' !in image
  {
    NothingToTrim(image);
    assert image[4] == '/';
  }

  lemma SpoiledTag(tag: string)
    requires tag == "0123456789abcdef0123456789abcdef01234567"
    ensures Trim(tag) == tag && TagMatches(tag)
  {
    NothingToTrim(tag);
  }

  lemma ShapeIsEnough(req: Request)
    requires Trim(req.name) == req.name && Bytes(req.name) <= 63
    requires NameMatches(req.name) && req.name !in RESERVED_NAMES
    requires Trim(req.image) == req.image && ImageMatches(req.image) && ':' !in req.image
    requires Trim(req.tag) == req.tag && TagMatches(req.tag)
    requires 1 <= req.replicas <= MAX_REPLICAS && req.port == APP_PORT && "PORT" !in req.env
    ensures Validate(Some(req)).None?
  {
  }

  lemma SpoiledIsValid(req: Request)
    requires Spoiled(req)
    ensures Validate(Some(req)).None?
  {
    SpoiledName(req.name);
    SpoiledImage(req.image);
    SpoiledTag(req.tag);
    ShapeIsEnough(req);
  }

  /** Validation does not see what is wrong with it, and two visiting orders give different deployments. */
  lemma EnvironmentCanBreakIt(req: Request, esc: string -> string, words: Words)
    requires Spoiled(req) && esc("{{TAG}}") == "{{TAG}}"
    ensures Validate(Some(req)).None?
    ensures var raw, vars := Raw(Template(Deployment, words)), Vars(req, esc);
            && VisitOrder(EnvThen(Tag), ALL_VARS) && VisitOrder(ThenEnv(Tag), ALL_VARS)
            && ReplaceInOrder(raw, EnvThen(Tag), vars) != ReplaceInOrder(raw, ThenEnv(Tag), vars)
  {
    SpoiledIsValid(req);
    TagIsMentioned(req.env, esc);
    MentionBreaksIt(req, esc, words, Tag);
  }

  lemma TagIsMentioned(env: map<string, string>, esc: string -> string)
    requires env == map["A" := "{{TAG}}"] && esc("{{TAG}}") == "{{TAG}}"
    ensures EnvMentions(env, esc, Tag)
  {
    assert "A" in env && Contains(esc(env["A"]), Key(Tag)) && EntryMentions(env, esc, Tag, "A");
  }

  // ----- the eight files, spelled out -----

  /** What stands in the slots of each template, in order. */
  function SlotTexts(f: File, name: string, image: string, tag: string, replicas: string, port: string, env: string)
    : seq<string>
  {
    match f
    case Namespace => [name, name]
    case Deployment => [name, name, replicas, name, name, name, image, tag, port, env]
    case Service => [name, name, name]
    case ResourceQuota => [name]
    case NetworkPolicies => ["{}", "{}", port, "{}", port, "{}"]
    case PullSecret => [name, name, "{{" + SECRET_INDEX]
    case Kustomization => [name, image, tag]
    case ImageUpdater => [name, "{40}", name, image]
  }

  /** Plain text before, between and after the slot texts. */
  function Interleave(f: File, words: Words, i: nat, texts: seq<string>): string
    decreases |texts|
  {
    words(f, i) + if texts == [] then "" else texts[0] + Interleave(f, words, i + 1, texts[1..])
  }

  function Filled(slots: seq<Piece>, vars: Values): seq<string> {
    seq(|slots|, i requires 0 <= i < |slots| => PieceText(slots[i], vars))
  }

  lemma TextOfTwo(a: Piece, b: Piece, rest: seq<Piece>, vars: Values)
    ensures Text([a] + ([b] + rest), vars) == PieceText(a, vars) + (PieceText(b, vars) + Text(rest, vars))
  {
    assert ([a] + ([b] + rest))[1..] == [b] + rest && ([b] + rest)[1..] == rest;
  }

  lemma {:induction false} WeaveText(f: File, words: Words, i: nat, slots: seq<Piece>, vars: Values)
    ensures Text(Weave(f, words, i, slots), vars) == Interleave(f, words, i, Filled(slots, vars))
    decreases |slots|
  {
    var w := Lit(words(f, i));
    if slots == [] {
      assert [w][1..] == [];
    } else {
      WeaveText(f, words, i + 1, slots[1..], vars);
      TextOfTwo(w, slots[0], Weave(f, words, i + 1, slots[1..]), vars);
      assert Filled(slots, vars)[1..] == Filled(slots[1..], vars);
    }
  }

  lemma SlotsFilled(f: File, v: Values)
    ensures Filled(Slots(f), v) == SlotTexts(f, v.appName, v.image, v.tag, v.replicas, v.port, v.envVars)
  {
  }

  /** No environment text can be rewritten: the file has none, or it mentions no other placeholder. */
  ghost predicate Stable(f: File, req: Request, esc: string -> string) {
    f != Deployment || forall x :: x != EnvVars ==> !EnvMentions(req.env, esc, x)
  }

  /** What the file must be: the plain words with the request's own texts in the slots. */
  ghost function Spelled(f: File, req: Request, esc: string -> string, words: Words): string {
    var texts := SlotTexts(f, Trim(req.name), Trim(req.image), Trim(req.tag), Decimal(req.replicas),
                           Decimal(req.port), EnvText(req.env, esc));
    Interleave(f, words, 0, texts)
  }

  lemma StableContent(f: File, req: Request, esc: string -> string, words: Words, content: string)
    requires Validate(Some(req)).None? && Stable(f, req, esc)
    requires Replaced(Raw(Template(f, words)), Vars(req, esc), content)
    ensures content == Text(Template(f, words), Vars(req, esc))
  {
    if f.Deployment? {
      DeploymentIsOrderFreeExactly(req, esc, words);
    } else {
      OtherFilesAreOrderFree(req, esc, f, words);
    }
  }

  /** For a validated request the replacement yields the spelled-out file, whatever the visiting order. */
  lemma FilesAreSpelledOut(f: File, req: Request, esc: string -> string, words: Words, content: string)
    requires Validate(Some(req)).None? && Stable(f, req, esc)
    requires Replaced(Raw(Template(f, words)), Vars(req, esc), content)
    ensures content == Spelled(f, req, esc, words)
  {
    StableContent(f, req, esc, words, content);
    WeaveText(f, words, 0, Slots(f), Vars(req, esc));
    SlotsFilled(f, Vars(req, esc));
  }

  /**
   GenerateAppFiles: the content for each of the eight paths. For a validated request each is the plain text of
   its template with the request's own values in the slots.
   */
  method GenerateAppFiles(req: Request, esc: string -> string, words: Words)
    returns (paths: seq<string>, contents: seq<string>)
    ensures paths == Paths(req.name) && |contents| == |FILES|
    ensures forall i :: 0 <= i < |FILES| ==> Replaced(RawTemplates(words)[i], Vars(req, esc), contents[i])
    ensures Validate(Some(req)).None? ==>
              forall i :: 0 <= i < |FILES| && Stable(FILES[i], req, esc) ==>
                contents[i] == Spelled(FILES[i], req, esc, words)
  {
    var env := RenderEnvVars(req.env, esc);
    var vars := Values(Trim(req.name), Trim(req.image), Trim(req.tag), Decimal(req.replicas),
                       Decimal(req.port), env);
    paths := Paths(req.name);
    contents := ReplaceEach(RawTemplates(words), vars);
    forall i | 0 <= i < |FILES| && Validate(Some(req)).None? && Stable(FILES[i], req, esc)
      ensures contents[i] == Spelled(FILES[i], req, esc, words)
    {
      FilesAreSpelledOut(FILES[i], req, esc, words, contents[i]);
    }
  }

  // ----- the environment block reads back -----

  /** How far the first line reaches. */
  function LineEnd(s: string): (n: nat)
    ensures n <= |s| && '\n' !in s[..n] && (n < |s| ==> s[n] == '\n')
  {
    if s == "" || s[0] == '\n' then 0
    else
      var n := LineEnd(s[1..]);
      assert s[..n + 1] == [s[0]] + s[1..][..n];
      n + 1
  }

  /** What one entry says and where the text goes on, if it starts with one: `a` introduces the name, `b` the value. */
  function ReadEntry(a: string, b: string, s: string): (r: Option<((string, string), string)>)
    ensures r.Some? ==> |r.value.1| < |s|
  {
    if !(a <= s) then None
    else
      var named := s[|a|..];
      var n := LineEnd(named);
      if !(b <= named[n..]) then None
      else
        var valued := named[n..][|b|..];
        var m := LineEnd(valued);
        if m == 0 || m == |valued| then None
        else Some(((named[..n], valued[..m - 1]), valued[m + 1..]))
  }

  /** The (name, quoted value) pairs of a block's entries, read line by line. */
  function ReadEntries(s: string): seq<(string, string)>
    decreases |s|
  {
    match ReadEntry(ENTRY_NAME, ENTRY_VALUE, s)
    case None => []
    case Some(r) => [r.0] + ReadEntries(r.1)
  }

  function ReadBlock(s: string): seq<(string, string)> {
    if ENV_HEADER <= s then ReadEntries(s[|ENV_HEADER|..]) else []
  }

  lemma LineEndAt(a: string, b: string)
    requires '\n' !in a && b != "" && b[0] == '\n'
    ensures LineEnd(a + b) == |a|
  {
    var n, s := LineEnd(a + b), a + b;
    assert forall i :: 0 <= i < |a| ==> s[i] == a[i];
    assert s[|a|] == '\n';
    assert forall i :: 0 <= i < n ==> s[i] == s[..n][i];
  }

  /** Cutting the text of an entry, whatever its fixed parts a, b and c are. */
  lemma EntryParts(a: string, k: string, b: string, v: string, c: string, rest: string)
    ensures var s := a + (k + (b + (v + c))) + rest;
            && a <= s && s[|a|..] == k + (b + (v + c + rest))
            && (k + (b + (v + c + rest)))[..|k|] == k && (k + (b + (v + c + rest)))[|k|..] == b + (v + c + rest)
            && b <= b + (v + c + rest) && (b + (v + c + rest))[|b|..] == v + c + rest
  {
    assert a + (k + (b + (v + c))) + rest == a + (k + (b + (v + c + rest)));
  }

  lemma ValueParts(v: string, c: string, rest: string)
    requires c == "\"\n" && '\n' !in v
    ensures var s := v + c + rest; LineEnd(s) == |v| + 1 && s[..|v|] == v && s[|v| + 2..] == rest
  {
    assert v + c + rest == (v + ['"']) + (['\n'] + rest);
    LineEndAt(v + ['"'], ['\n'] + rest);
  }

  lemma EntryReadsBack(a: string, k: string, b: string, v: string, c: string, rest: string)
    requires '\n' !in k && '\n' !in v && b != "" && b[0] == '\n' && c == "\"\n"
    ensures ReadEntry(a, b, a + (k + (b + (v + c))) + rest) == Some(((k, v), rest))
  {
    EntryParts(a, k, b, v, c, rest);
    LineEndAt(k, b + (v + c + rest));
    ValueParts(v, c, rest);
  }

  lemma EnvEntryReadsBack(k: string, v: string, esc: string -> string, rest: string)
    requires '\n' !in k && '\n' !in esc(v)
    ensures ReadEntry(ENTRY_NAME, ENTRY_VALUE, EnvEntry(k, v, esc) + rest) == Some(((k, esc(v)), rest))
  {
    EntryReadsBack(ENTRY_NAME, k, ENTRY_VALUE, esc(v), ENTRY_END, rest);
  }

  /** The pairs the block is made of. */
  function EntryPairs(keys: seq<string>, env: map<string, string>, esc: string -> string): seq<(string, string)>
    requires forall k <- keys :: k in env
  {
    seq(|keys|, i requires 0 <= i < |keys| => (keys[i], esc(env[keys[i]])))
  }

  ghost predicate OneLine(ps: seq<(string, string)>) {
    forall i :: 0 <= i < |ps| ==> '\n' !in ps[i].0 && '\n' !in ps[i].1
  }

  lemma {:induction false} EntriesReadBack(keys: seq<string>, env: map<string, string>, esc: string -> string)
    requires (forall k <- keys :: k in env) && OneLine(EntryPairs(keys, env, esc))
    ensures ReadEntries(EnvEntries(keys, env, esc)) == EntryPairs(keys, env, esc)
    decreases |keys|
  {
    var ps := EntryPairs(keys, env, esc);
    if keys != [] {
      assert ps[0] == (keys[0], esc(env[keys[0]])) && ps[1..] == EntryPairs(keys[1..], env, esc);
      assert forall i :: 0 <= i < |ps| - 1 ==> ps[1..][i] == ps[i + 1];
      EntriesReadBack(keys[1..], env, esc);
      EnvEntryReadsBack(keys[0], env[keys[0]], esc, EnvEntries(keys[1..], env, esc));
    }
  }

  lemma ReadsLine(a: string, b: string, s: string)
    ensures var r := ReadEntry(a, b, s); r.Some? ==> '\n' !in r.value.0.0 && '\n' !in r.value.0.1
  {
    if a <= s {
      var named := s[|a|..];
      var n := LineEnd(named);
      if b <= named[n..] {
        var valued := named[n..][|b|..];
        var m := LineEnd(valued);
        if m > 0 { assert valued[..m - 1] == valued[..m][..m - 1]; }
      }
    }
  }

  lemma {:induction false} ReadsLines(s: string)
    ensures OneLine(ReadEntries(s))
    decreases |s|
  {
    var r := ReadEntry(ENTRY_NAME, ENTRY_VALUE, s);
    if r.Some? {
      ReadsLine(ENTRY_NAME, ENTRY_VALUE, s);
      ReadsLines(r.value.1);
    }
  }

  /** PORT with 8080 first, then every other key with its quoted value, in sorted order. */
  ghost function EnvPairs(env: map<string, string>, esc: string -> string): seq<(string, string)> {
    var keys := SortedElements(env.Keys - {"PORT"});
    assert forall k <- keys :: k in multiset(keys);
    [("PORT", Decimal(APP_PORT))] + EntryPairs(keys, env, esc)
  }

  /**
   Reading the block line by line gives back the environment, name by name and value by value, if and only if no
   key and no quoted value spans lines. (Quoting escapes line breaks; validation does not look at the keys.)
   */
  lemma BlockReadsBack(env: map<string, string>, esc: string -> string)
    ensures ReadBlock(EnvText(env, esc)) == EnvPairs(env, esc) <==> OneLine(EnvPairs(env, esc))
  {
    var keys := SortedElements(env.Keys - {"PORT"});
    assert forall k <- keys :: k in multiset(keys);
    BlockOfKeys(keys, env, esc, ENV_HEADER, Decimal(APP_PORT));
  }

  lemma BlockOfLines(keys: seq<string>, env: map<string, string>, esc: string -> string, port: string)
    requires (forall k <- keys :: k in env) && OneLine([("PORT", port)] + EntryPairs(keys, env, esc))
    ensures ReadEntries(EnvEntry("PORT", port, s => s) + EnvEntries(keys, env, esc))
            == [("PORT", port)] + EntryPairs(keys, env, esc)
  {
    var ps, more := [("PORT", port)] + EntryPairs(keys, env, esc), EntryPairs(keys, env, esc);
    assert forall i :: 0 <= i < |more| ==> ps[i + 1] == more[i];
    assert ps[0] == ("PORT", port);
    EntriesReadBack(keys, env, esc);
    EnvEntryReadsBack("PORT", port, s => s, EnvEntries(keys, env, esc));
  }

  lemma BlockOfKeys(keys: seq<string>, env: map<string, string>, esc: string -> string, header: string, port: string)
    requires (forall k <- keys :: k in env) && header == ENV_HEADER
    ensures var block := header + (EnvEntry("PORT", port, s => s) + EnvEntries(keys, env, esc));
            var ps := [("PORT", port)] + EntryPairs(keys, env, esc);
            ReadBlock(block) == ps <==> OneLine(ps)
  {
    var entries := EnvEntry("PORT", port, s => s) + EnvEntries(keys, env, esc);
    assert (header + entries)[|header|..] == entries;
    ReadsLines(entries);
    if OneLine([("PORT", port)] + EntryPairs(keys, env, esc)) { BlockOfLines(keys, env, esc, port); }
  }
}
