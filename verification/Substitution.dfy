/**
 Sequential ReplaceAll against one simultaneous substitution (internal/manifests/generator.go, replaceVars).

 A template is a list of pieces: literal text and holes. Its raw text spells every hole by its placeholder.
 The program replaces placeholder after placeholder, in whatever order the map is visited, on flat text.
 This module finds out when that equals filling all holes at once.
 */
module Substitution {
  import opened Common

  datatype Var = AppName | Image | Tag | Replicas | Port | EnvVars

  const ALL_VARS := {AppName, Image, Tag, Replicas, Port, EnvVars}

  function Key(x: Var): string {
    match x
    case AppName => "{{APP_NAME}}"
    case Image => "{{IMAGE}}"
    case Tag => "{{TAG}}"
    case Replicas => "{{REPLICAS}}"
    case Port => "{{PORT}}"
    case EnvVars => "{{ENV_VARS}}"
  }

  /** One text per variable: the program's `vars` map, or what currently stands at the holes. */
  datatype Values = Values(appName: string, image: string, tag: string,
                           replicas: string, port: string, envVars: string)
  {
    function At(x: Var): string {
      match x
      case AppName => appName
      case Image => image
      case Tag => tag
      case Replicas => replicas
      case Port => port
      case EnvVars => envVars
    }
  }

  // ----- strings.ReplaceAll and strings.Contains -----

  function ReplaceAll(s: string, k: string, v: string): string
    requires k != ""
    decreases |s|
  {
    if k <= s then v + ReplaceAll(s[|k|..], k, v)
    else if s == "" then ""
    else [s[0]] + ReplaceAll(s[1..], k, v)
  }

  predicate Contains(s: string, k: string) {
    k <= s || (s != "" && Contains(s[1..], k))
  }

  /** The characters placeholders are made of. */
  predicate KeyChar(c: char) {
    c == '{' || c == '}' || c == '_' || 'A' <= c <= 'Z'
  }

  ghost predicate KeyLike(k: string) {
    k != "" && forall i :: 0 <= i < |k| ==> KeyChar(k[i])
  }

  lemma KeyShape(x: Var)
    ensures KeyLike(Key(x)) && Key(x)[0] == '{'
  {
  }

  /** No placeholder can straddle the boundary of a and b. */
  predicate Apart(a: string, b: string) {
    a == "" || b == "" || !KeyChar(a[|a| - 1]) || !KeyChar(b[0])
  }

  lemma Straddles(a: string, b: string, k: string)
    requires a != "" && |k| > |a| && k <= a + b
    ensures b != "" && k[|a| - 1] == a[|a| - 1] && k[|a|] == b[0]
  {
    assert k[|a| - 1] == (a + b)[|a| - 1] && k[|a|] == (a + b)[|a|];
  }

  lemma PrefixStaysLeft(a: string, b: string, k: string)
    requires KeyLike(k) && Apart(a, b) && a != ""
    ensures k <= a + b <==> k <= a
  {
    if k <= a + b && |k| > |a| {
      Straddles(a, b, k);
      assert false;
    }
  }

  lemma Associate(a: string, b: string, c: string)
    ensures a + (b + c) == a + b + c
  {
  }

  lemma ReplaceHead(a: string, b: string, k: string, v: string)
    requires KeyLike(k) && Apart(a, b) && a != ""
    ensures k <= a ==> ReplaceAll(a + b, k, v) == v + ReplaceAll(a[|k|..] + b, k, v)
    ensures !(k <= a) ==> ReplaceAll(a + b, k, v) == [a[0]] + ReplaceAll(a[1..] + b, k, v)
  {
    PrefixStaysLeft(a, b, k);
    if k <= a {
      assert (a + b)[|k|..] == a[|k|..] + b;
    } else {
      assert (a + b)[1..] == a[1..] + b;
    }
  }

  lemma {:induction false} ReplaceSplit(a: string, b: string, k: string, v: string)
    requires KeyLike(k) && Apart(a, b)
    ensures ReplaceAll(a + b, k, v) == ReplaceAll(a, k, v) + ReplaceAll(b, k, v)
    decreases |a|
  {
    if a == "" {
      assert a + b == b;
    } else {
      ReplaceHead(a, b, k, v);
      var head := if k <= a then v else [a[0]];
      var tail := if k <= a then a[|k|..] else a[1..];
      ReplaceSplit(tail, b, k, v);
      assert ReplaceAll(a, k, v) == head + ReplaceAll(tail, k, v);
      Associate(head, ReplaceAll(tail, k, v), ReplaceAll(b, k, v));
    }
  }

  lemma {:induction false} ContainsSplit(a: string, b: string, k: string)
    requires KeyLike(k) && Apart(a, b)
    ensures Contains(a + b, k) <==> Contains(a, k) || Contains(b, k)
    decreases |a|
  {
    if a == "" {
      assert a + b == b;
    } else {
      PrefixStaysLeft(a, b, k);
      assert (a + b)[1..] == a[1..] + b;
      ContainsSplit(a[1..], b, k);
    }
  }

  lemma {:induction false} ReplaceAbsent(s: string, k: string, v: string)
    requires k != "" && !Contains(s, k)
    ensures ReplaceAll(s, k, v) == s
    decreases |s|
  {
    if s != "" { ReplaceAbsent(s[1..], k, v); }
  }

  // ----- braces -----

  function Braces(s: string): nat {
    if s == "" then 0 else (if s[0] == '{' then 1 else 0) + Braces(s[1..])
  }

  lemma {:induction false} BracesSplit(a: string, b: string)
    ensures Braces(a + b) == Braces(a) + Braces(b)
    decreases |a|
  {
    if a == "" {
      assert a + b == b;
    } else {
      assert (a + b)[1..] == a[1..] + b;
      BracesSplit(a[1..], b);
    }
  }

  /** Replacing by text without braces never adds a brace, and loses one if there was anything to replace. */
  lemma {:induction false} ReplaceLosesBraces(s: string, k: string, v: string)
    requires k != "" && k[0] == '{' && Braces(v) == 0
    ensures Braces(ReplaceAll(s, k, v)) <= Braces(s)
    ensures Contains(s, k) ==> Braces(ReplaceAll(s, k, v)) < Braces(s)
    decreases |s|
  {
    if k <= s {
      assert s == k + s[|k|..];
      BracesSplit(k, s[|k|..]);
      BracesSplit(v, ReplaceAll(s[|k|..], k, v));
      ReplaceLosesBraces(s[|k|..], k, v);
    } else if s != "" {
      ReplaceLosesBraces(s[1..], k, v);
      BracesSplit([s[0]], ReplaceAll(s[1..], k, v));
    }
  }

  lemma {:induction false} BraceFreeIsKeyFree(s: string, x: Var)
    requires Braces(s) == 0
    ensures !Contains(s, Key(x))
    decreases |s|
  {
    KeyShape(x);
    if s != "" { BraceFreeIsKeyFree(s[1..], x); }
  }

  // ----- placeholders do not contain one another -----

  function Initial(x: Var): char {
    match x
    case AppName => 'A'
    case Image => 'I'
    case Tag => 'T'
    case Replicas => 'R'
    case Port => 'P'
    case EnvVars => 'E'
  }

  lemma KeyHead(x: Var)
    ensures |Key(x)| >= 3 && Key(x)[0] == Key(x)[1] == '{' && Key(x)[2] == Initial(x)
    ensures forall i :: 2 <= i < |Key(x)| ==> Key(x)[i] != '{'
  {
  }

  lemma KeysApart(x: Var, y: Var)
    requires x != y
    ensures !Contains(Key(x), Key(y))
  {
    var k := Key(x);
    KeyHead(x);
    KeyHead(y);
    assert Initial(x) != Initial(y);
    NoOpening(k[1..], Key(y));
  }

  /** Text in which no two consecutive opening braces follow one another holds no placeholder. */
  lemma {:induction false} NoOpening(s: string, k: string)
    requires |k| >= 2 && k[0] == k[1] == '{'
    requires forall i :: 0 <= i < |s| - 1 ==> !(s[i] == '{' && s[i + 1] == '{')
    ensures !Contains(s, k)
    decreases |s|
  {
    if s != "" { NoOpening(s[1..], k); }
  }

  lemma ReplaceSelf(x: Var, v: string)
    ensures ReplaceAll(Key(x), Key(x), v) == v
  {
    assert Key(x)[|Key(x)|..] == "";
    assert ReplaceAll("", Key(x), v) == "";
  }

  // ----- templates -----

  datatype Piece = Lit(text: string) | Hole(x: Var)

  function PieceText(p: Piece, fill: Values): string {
    match p
    case Lit(t) => t
    case Hole(x) => fill.At(x)
  }

  /** The text of a template when hole x reads fill.At(x): all holes at once. */
  function Text(ps: seq<Piece>, fill: Values): string {
    if ps == [] then "" else PieceText(ps[0], fill) + Text(ps[1..], fill)
  }

  const PLACEHOLDERS :=
    Values(Key(AppName), Key(Image), Key(Tag), Key(Replicas), Key(Port), Key(EnvVars))

  /** The template as the program holds it. */
  function Raw(ps: seq<Piece>): string {
    Text(ps, PLACEHOLDERS)
  }

  ghost predicate KeyFree(s: string) {
    forall x :: !Contains(s, Key(x))
  }

  /** Literal text that begins and ends with a character no placeholder contains. */
  predicate Solid(p: Piece) {
    p.Lit? && p.text != "" && !KeyChar(p.text[0]) && !KeyChar(p.text[|p.text| - 1])
  }

  /** Literals hold no placeholder, and of two neighbouring pieces at least one is solid. */
  ghost predicate Hygienic(ps: seq<Piece>) {
    && (forall p <- ps :: p.Lit? ==> KeyFree(p.text))
    && (forall i :: 0 <= i < |ps| - 1 ==> Solid(ps[i]) || Solid(ps[i + 1]))
  }

  lemma HeadApart(ps: seq<Piece>, fill: Values)
    requires ps != [] && Hygienic(ps)
    ensures Apart(PieceText(ps[0], fill), Text(ps[1..], fill)) && Hygienic(ps[1..])
  {
    assert forall i :: 0 <= i < |ps| - 1 ==> ps[1..][i] == ps[i + 1];
    if |ps| > 1 {
      assert Solid(ps[0]) || Solid(ps[1]);
      assert ps[1..][0] == ps[1];
      if Solid(ps[1]) {
        assert Text(ps[1..], fill) == ps[1].text + Text(ps[1..][1..], fill);
      }
    }
  }

  /** What stands at each hole after one ReplaceAll over the whole text. */
  function ReplaceInFill(fill: Values, k: string, v: string): (r: Values)
    requires k != ""
    ensures forall y :: r.At(y) == ReplaceAll(fill.At(y), k, v)
  {
    Values(ReplaceAll(fill.appName, k, v), ReplaceAll(fill.image, k, v), ReplaceAll(fill.tag, k, v),
           ReplaceAll(fill.replicas, k, v), ReplaceAll(fill.port, k, v), ReplaceAll(fill.envVars, k, v))
  }

  lemma ReplaceInPiece(p: Piece, fill: Values, after: Values, k: string, v: string)
    requires k != "" && (p.Lit? ==> !Contains(p.text, k))
    requires forall y :: after.At(y) == ReplaceAll(fill.At(y), k, v)
    ensures ReplaceAll(PieceText(p, fill), k, v) == PieceText(p, after)
  {
    if p.Lit? { ReplaceAbsent(p.text, k, v); }
  }

  lemma {:induction false} ReplaceInTemplate(ps: seq<Piece>, fill: Values, after: Values, k: string, v: string)
    requires Hygienic(ps) && KeyLike(k) && forall p <- ps :: p.Lit? ==> !Contains(p.text, k)
    requires forall y :: after.At(y) == ReplaceAll(fill.At(y), k, v)
    ensures ReplaceAll(Text(ps, fill), k, v) == Text(ps, after)
    decreases |ps|
  {
    if ps != [] {
      assert ps[0] in ps;
      HeadApart(ps, fill);
      ReplaceSplit(PieceText(ps[0], fill), Text(ps[1..], fill), k, v);
      ReplaceInPiece(ps[0], fill, after, k, v);
      ReplaceInTemplate(ps[1..], fill, after, k, v);
    }
  }

  lemma {:induction false} ContainsInTemplate(ps: seq<Piece>, fill: Values, k: string)
    requires Hygienic(ps) && KeyLike(k) && forall p <- ps :: !Contains(PieceText(p, fill), k)
    ensures !Contains(Text(ps, fill), k)
    decreases |ps|
  {
    if ps == [] {
      assert !(k <= "");
    } else {
      assert ps[0] in ps;
      HeadApart(ps, fill);
      ContainsSplit(PieceText(ps[0], fill), Text(ps[1..], fill), k);
      ContainsInTemplate(ps[1..], fill, k);
    }
  }

  // ----- replaceVars in a given order -----

  function ReplaceInOrder(s: string, order: seq<Var>, vars: Values): string
    decreases |order|
  {
    if order == [] then s
    else ReplaceInOrder(ReplaceAll(s, Key(order[0]), vars.At(order[0])), order[1..], vars)
  }

  /** A possible visiting order of the map. */
  ghost predicate VisitOrder(order: seq<Var>, xs: set<Var>) {
    && (forall x :: x in order <==> x in xs)
    && (forall i, j :: 0 <= i < j < |order| ==> order[i] != order[j])
  }

  function FillInOrder(fill: Values, order: seq<Var>, vars: Values): Values
    decreases |order|
  {
    if order == [] then fill
    else FillInOrder(ReplaceInFill(fill, Key(order[0]), vars.At(order[0])), order[1..], vars)
  }

  /** Sequential replacement works hole by hole: nothing is created or destroyed across piece boundaries. */
  lemma {:induction false} OrderWorksHoleByHole(ps: seq<Piece>, fill: Values, order: seq<Var>, vars: Values)
    requires Hygienic(ps)
    ensures ReplaceInOrder(Text(ps, fill), order, vars) == Text(ps, FillInOrder(fill, order, vars))
    decreases |order|
  {
    if order != [] {
      KeyShape(order[0]);
      var next := ReplaceInFill(fill, Key(order[0]), vars.At(order[0]));
      ReplaceInTemplate(ps, fill, next, Key(order[0]), vars.At(order[0]));
      OrderWorksHoleByHole(ps, next, order[1..], vars);
    }
  }

  /** The value of y holds no placeholder but possibly y's own (which is not visited again). */
  ghost predicate Settled(vars: Values, y: Var) {
    forall x :: x != y ==> !Contains(vars.At(y), Key(x))
  }

  /** A hole still showing its placeholder ends up with its value; one already holding its value keeps it. */
  lemma {:induction false} HoleSettles(fill: Values, order: seq<Var>, vars: Values, y: Var)
    requires VisitOrder(order, set x | x in order) && Settled(vars, y)
    requires fill.At(y) == (if y in order then Key(y) else vars.At(y))
    ensures FillInOrder(fill, order, vars).At(y) == vars.At(y)
    decreases |order|
  {
    if order != [] {
      var x, next := order[0], ReplaceInFill(fill, Key(order[0]), vars.At(order[0]));
      TailOrder(order);
      KeyShape(x);
      if x == y {
        ReplaceSelf(x, vars.At(x));
      } else if y in order {
        KeysApart(y, x);
        ReplaceAbsent(Key(y), Key(x), vars.At(x));
      } else {
        ReplaceAbsent(vars.At(y), Key(x), vars.At(x));
      }
      HoleSettles(next, order[1..], vars, y);
    }
  }

  lemma TailOrder(order: seq<Var>)
    requires order != [] && VisitOrder(order, set x | x in order)
    ensures VisitOrder(order[1..], set x | x in order[1..])
    ensures order[0] !in order[1..] && forall y :: y in order <==> y == order[0] || y in order[1..]
  {
    assert order == [order[0]] + order[1..];
  }

  lemma {:induction false} SameHolesSameText(ps: seq<Piece>, f: Values, g: Values)
    requires forall y :: Hole(y) in ps ==> f.At(y) == g.At(y)
    ensures Text(ps, f) == Text(ps, g)
    decreases |ps|
  {
    if ps != [] {
      assert ps[0] in ps;
      SameHolesSameText(ps[1..], f, g);
    }
  }

  lemma FinalFill(order: seq<Var>, vars: Values, y: Var)
    requires VisitOrder(order, ALL_VARS) && Settled(vars, y)
    ensures FillInOrder(PLACEHOLDERS, order, vars).At(y) == vars.At(y)
  {
    assert (set x | x in order) == ALL_VARS;
    assert y in ALL_VARS && PLACEHOLDERS.At(y) == Key(y);
    HoleSettles(PLACEHOLDERS, order, vars, y);
  }

  lemma NothingLeft(ps: seq<Piece>, vars: Values, x: Var)
    requires Hygienic(ps) && forall y :: Hole(y) in ps ==> KeyFree(vars.At(y))
    ensures !Contains(Text(ps, vars), Key(x))
  {
    KeyShape(x);
    forall p | p in ps ensures !Contains(PieceText(p, vars), Key(x)) {
      if p.Hole? { assert Hole(p.x) in ps; }
    }
    ContainsInTemplate(ps, vars, Key(x));
  }

  lemma OrderDoesNotMatter(ps: seq<Piece>, order: seq<Var>, vars: Values)
    requires Hygienic(ps) && VisitOrder(order, ALL_VARS) && forall y :: Hole(y) in ps ==> Settled(vars, y)
    ensures ReplaceInOrder(Raw(ps), order, vars) == Text(ps, vars)
  {
    var final := FillInOrder(PLACEHOLDERS, order, vars);
    OrderWorksHoleByHole(ps, PLACEHOLDERS, order, vars);
    forall y | Hole(y) in ps ensures final.At(y) == vars.At(y) { FinalFill(order, vars, y); }
    SameHolesSameText(ps, final, vars);
  }

  /**
   Confluence: on a hygienic template, if no value put into it contains a placeholder, then every visiting
   order produces the simultaneous substitution, and no placeholder is left.
   */
  lemma Confluence(ps: seq<Piece>, order: seq<Var>, vars: Values)
    requires Hygienic(ps) && VisitOrder(order, ALL_VARS)
    requires forall y :: Hole(y) in ps ==> KeyFree(vars.At(y))
    ensures ReplaceInOrder(Raw(ps), order, vars) == Text(ps, vars)
    ensures KeyFree(Text(ps, vars))
  {
    OrderDoesNotMatter(ps, order, vars);
    forall x ensures !Contains(Text(ps, vars), Key(x)) { NothingLeft(ps, vars, x); }
  }

  // ----- the exact condition when one value is unchecked -----

  lemma {:induction false} FillLosesBraces(fill: Values, order: seq<Var>, vars: Values, y: Var)
    requires forall x <- order :: Braces(vars.At(x)) == 0
    ensures Braces(FillInOrder(fill, order, vars).At(y)) <= Braces(fill.At(y))
    ensures order != [] && Contains(fill.At(y), Key(order[0])) ==>
              Braces(FillInOrder(fill, order, vars).At(y)) < Braces(fill.At(y))
    decreases |order|
  {
    if order != [] {
      KeyShape(order[0]);
      assert order[0] in order;
      ReplaceLosesBraces(fill.At(y), Key(order[0]), vars.At(order[0]));
      FillLosesBraces(ReplaceInFill(fill, Key(order[0]), vars.At(order[0])), order[1..], vars, y);
    }
  }

  lemma {:induction false} FewerBracesInText(ps: seq<Piece>, f: Values, g: Values, e: Var)
    requires Braces(f.At(e)) < Braces(g.At(e)) && forall y :: y != e && Hole(y) in ps ==> f.At(y) == g.At(y)
    ensures Braces(Text(ps, f)) <= Braces(Text(ps, g))
    ensures Hole(e) in ps ==> Braces(Text(ps, f)) < Braces(Text(ps, g))
    decreases |ps|
  {
    if ps != [] {
      assert ps[0] in ps;
      BracesSplit(PieceText(ps[0], f), Text(ps[1..], f));
      BracesSplit(PieceText(ps[0], g), Text(ps[1..], g));
      FewerBracesInText(ps[1..], f, g, e);
    }
  }

  ghost predicate OrderFree(ps: seq<Piece>, vars: Values) {
    forall order :: VisitOrder(order, ALL_VARS) ==> ReplaceInOrder(Raw(ps), order, vars) == Text(ps, vars)
  }

  /** Any two visiting orders produce the same text. */
  ghost predicate OrdersAgree(ps: seq<Piece>, vars: Values) {
    forall a, b :: VisitOrder(a, ALL_VARS) && VisitOrder(b, ALL_VARS) ==>
      ReplaceInOrder(Raw(ps), a, vars) == ReplaceInOrder(Raw(ps), b, vars)
  }

  /** A visiting order that comes to the environment last. */
  ghost predicate EnvLast(order: seq<Var>) {
    order != [] && forall i :: 0 <= i < |order| ==> (order[i] == EnvVars <==> i == |order| - 1)
  }

  lemma LastHoleStep(fill: Values, x: Var, v: string)
    requires fill.At(EnvVars) == Key(EnvVars)
    ensures ReplaceInFill(fill, Key(x), v).At(EnvVars) == if x == EnvVars then v else Key(EnvVars)
  {
    KeyShape(x);
    if x == EnvVars {
      ReplaceSelf(x, v);
    } else {
      KeysApart(EnvVars, x);
      ReplaceAbsent(Key(EnvVars), Key(x), v);
    }
  }

  lemma {:induction false} LastHoleSettles(fill: Values, order: seq<Var>, vars: Values)
    requires EnvLast(order) && fill.At(EnvVars) == Key(EnvVars)
    ensures FillInOrder(fill, order, vars).At(EnvVars) == vars.At(EnvVars)
    decreases |order|
  {
    LastHoleStep(fill, order[0], vars.At(order[0]));
    if |order| == 1 {
      assert order[1..] == [];
    } else {
      LastHoleSettles(ReplaceInFill(fill, Key(order[0]), vars.At(order[0])), order[1..], vars);
    }
  }

  lemma BraceFreeIsSettled(vars: Values, y: Var)
    requires Braces(vars.At(y)) == 0
    ensures Settled(vars, y)
  {
    forall z ensures !Contains(vars.At(y), Key(z)) { BraceFreeIsKeyFree(vars.At(y), z); }
  }

  /** The five variables but the environment, x first. */
  function FirstOf(x: Var): (order: seq<Var>)
    requires x != EnvVars
    ensures |order| == 5 && order[0] == x && VisitOrder(order, ALL_VARS - {EnvVars})
  {
    match x
    case AppName => [AppName, Image, Tag, Replicas, Port]
    case Image => [Image, AppName, Tag, Replicas, Port]
    case Tag => [Tag, AppName, Image, Replicas, Port]
    case Replicas => [Replicas, AppName, Image, Tag, Port]
    case Port => [Port, AppName, Image, Tag, Replicas]
  }

  /** The environment first, then x, then the rest. */
  function EnvThen(x: Var): (order: seq<Var>)
    requires x != EnvVars
    ensures VisitOrder(order, ALL_VARS) && |order| == 6 && order[0] == EnvVars && order[1] == x
  {
    [EnvVars] + FirstOf(x)
  }

  /** The same with the environment moved to the end. */
  function ThenEnv(x: Var): (order: seq<Var>)
    requires x != EnvVars
    ensures VisitOrder(order, ALL_VARS) && EnvLast(order)
  {
    FirstOf(x) + [EnvVars]
  }

  /** Visiting an unchecked environment last is always right: nothing comes after it to rewrite it. */
  lemma EnvironmentLast(ps: seq<Piece>, order: seq<Var>, vars: Values)
    requires Hygienic(ps) && VisitOrder(order, ALL_VARS) && EnvLast(order)
    requires forall y :: y != EnvVars ==> Braces(vars.At(y)) == 0
    ensures ReplaceInOrder(Raw(ps), order, vars) == Text(ps, vars)
  {
    var final := FillInOrder(PLACEHOLDERS, order, vars);
    OrderWorksHoleByHole(ps, PLACEHOLDERS, order, vars);
    LastHoleSettles(PLACEHOLDERS, order, vars);
    forall y ensures final.At(y) == vars.At(y) {
      if y != EnvVars {
        BraceFreeIsSettled(vars, y);
        FinalFill(order, vars, y);
      }
    }
    SameHolesSameText(ps, final, vars);
  }

  lemma EnvironmentIsRewritten(vars: Values, x: Var)
    requires x != EnvVars && Contains(vars.envVars, Key(x))
    requires forall y :: y != EnvVars ==> Braces(vars.At(y)) == 0
    ensures Braces(FillInOrder(PLACEHOLDERS, EnvThen(x), vars).envVars) < Braces(vars.envVars)
  {
    var order := EnvThen(x);
    var next := ReplaceInFill(PLACEHOLDERS, Key(EnvVars), vars.envVars);
    ReplaceSelf(EnvVars, vars.envVars);
    assert next.At(EnvVars) == ReplaceAll(PLACEHOLDERS.At(EnvVars), Key(EnvVars), vars.envVars);
    assert forall y <- order[1..] :: y != EnvVars;
    FillLosesBraces(next, order[1..], vars, EnvVars);
    assert FillInOrder(PLACEHOLDERS, order, vars) == FillInOrder(next, order[1..], vars);
  }

  /** If the environment text contains the placeholder of x, visiting it before x rewrites it. */
  lemma SomeOrderDiffers(ps: seq<Piece>, vars: Values, x: Var)
    requires Hygienic(ps) && Hole(EnvVars) in ps
    requires forall y :: y != EnvVars ==> Braces(vars.At(y)) == 0
    requires x != EnvVars && Contains(vars.envVars, Key(x))
    ensures ReplaceInOrder(Raw(ps), EnvThen(x), vars) != Text(ps, vars)
  {
    var final := FillInOrder(PLACEHOLDERS, EnvThen(x), vars);
    OrderWorksHoleByHole(ps, PLACEHOLDERS, EnvThen(x), vars);
    EnvironmentIsRewritten(vars, x);
    forall y | y != EnvVars ensures final.At(y) == vars.At(y) {
      BraceFreeIsSettled(vars, y);
      FinalFill(EnvThen(x), vars, y);
    }
    FewerBracesInText(ps, final, vars, EnvVars);
  }

  /**
   With the other values brace-free, any two visiting orders agree on a template with an environment hole if and
   only if the environment text contains none of the other five placeholders. Then they agree on the simultaneous
   substitution; otherwise visiting the environment first and last differ.
   */
  lemma OrderFreeExactly(ps: seq<Piece>, vars: Values)
    requires Hygienic(ps) && Hole(EnvVars) in ps
    requires forall y :: y != EnvVars ==> Braces(vars.At(y)) == 0
    ensures OrdersAgree(ps, vars) <==> Settled(vars, EnvVars)
    ensures OrderFree(ps, vars) <==> Settled(vars, EnvVars)
  {
    if Settled(vars, EnvVars) {
      forall y ensures Settled(vars, y) {
        if y != EnvVars { BraceFreeIsSettled(vars, y); }
      }
      forall order | VisitOrder(order, ALL_VARS) { OrderDoesNotMatter(ps, order, vars); }
    } else {
      var x :| x != EnvVars && Contains(vars.At(EnvVars), Key(x));
      SomeOrderDiffers(ps, vars, x);
      EnvironmentLast(ps, ThenEnv(x), vars);
    }
  }
}
