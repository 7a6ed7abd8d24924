/** Go's strings: order, trimming, decimal rendering and sorting. */
module Strings {

  // ----- order: Go compares strings lexicographically -----

  predicate AtMost(a: string, b: string) {
    a == "" || (b != "" && (a[0] < b[0] || (a[0] == b[0] && AtMost(a[1..], b[1..]))))
  }

  predicate Below(a: string, b: string) {
    !AtMost(b, a)
  }

  lemma {:induction false} Total(a: string, b: string)
    ensures AtMost(a, b) || AtMost(b, a)
  {
    if a != "" && b != "" && a[0] == b[0] { Total(a[1..], b[1..]); }
  }

  lemma {:induction false} Antisymmetric(a: string, b: string)
    requires AtMost(a, b) && AtMost(b, a)
    ensures a == b
  {
    if a != "" {
      Antisymmetric(a[1..], b[1..]);
      assert a == [a[0]] + a[1..] && b == [b[0]] + b[1..];
    }
  }

  lemma {:induction false} Transitive(a: string, b: string, c: string)
    requires AtMost(a, b) && AtMost(b, c)
    ensures AtMost(a, c)
  {
    if a != "" && a[0] == b[0] == c[0] { Transitive(a[1..], b[1..], c[1..]); }
  }

  /** The strings agree before position i, where a has the smaller character. */
  ghost predicate LessAt(a: string, b: string, i: int) {
    0 <= i < |a| && i < |b| && a[..i] == b[..i] && a[i] < b[i]
  }

  lemma LessAtTail(a: string, b: string, i: int)
    requires a != "" && b != "" && a[0] == b[0]
    ensures LessAt(a, b, i) <==> LessAt(a[1..], b[1..], i - 1)
  {
    if 0 < i < |a| && i < |b| {
      assert a[..i] == [a[0]] + a[1..][..i - 1] && b[..i] == [b[0]] + b[1..][..i - 1];
      assert a[..i] == b[..i] ==> a[1..][..i - 1] == a[..i][1..] == b[..i][1..] == b[1..][..i - 1];
    }
  }

  /** A prefix comes first, and otherwise the first difference decides. */
  lemma {:induction false} Lexicographic(a: string, b: string)
    ensures AtMost(a, b) <==> a <= b || exists i :: LessAt(a, b, i)
  {
    if a != "" && b != "" {
      if a[0] == b[0] {
        Lexicographic(a[1..], b[1..]);
        assert a == [a[0]] + a[1..] && b == [b[0]] + b[1..];
        forall i ensures LessAt(a, b, i) <==> LessAt(a[1..], b[1..], i - 1) { LessAtTail(a, b, i); }
        if i :| LessAt(a[1..], b[1..], i) { assert LessAt(a, b, i + 1); }
      } else if a[0] < b[0] {
        assert LessAt(a, b, 0);
      } else {
        forall i ensures !LessAt(a, b, i) {
          if 0 < i < |a| && i < |b| { assert a[..i][0] != b[..i][0]; }
        }
      }
    }
  }

  // ----- sorting -----

  ghost predicate Sorted(s: seq<string>) {
    forall i, j :: 0 <= i <= j < |s| ==> AtMost(s[i], s[j])
  }

  lemma SameHead(a: seq<string>, b: seq<string>)
    requires a != [] && b != [] && Sorted(a) && Sorted(b) && multiset(a) == multiset(b)
    ensures a[0] == b[0]
  {
    assert a[0] in multiset(b) && b[0] in multiset(a);
    var i :| 0 <= i < |b| && b[i] == a[0];
    var j :| 0 <= j < |a| && a[j] == b[0];
    Antisymmetric(a[0], b[0]);
  }

  lemma SameTail(a: seq<string>, b: seq<string>)
    requires a != [] && b != [] && a[0] == b[0] && multiset(a) == multiset(b)
    ensures multiset(a[1..]) == multiset(b[1..])
  {
    assert a == [a[0]] + a[1..] && b == [b[0]] + b[1..];
    assert multiset(a[1..]) == multiset(a) - multiset{a[0]};
    assert multiset(b[1..]) == multiset(b) - multiset{b[0]};
  }

  /** A sorted arrangement is determined by its elements. */
  lemma {:induction false} SortedUnique(a: seq<string>, b: seq<string>)
    requires Sorted(a) && Sorted(b) && multiset(a) == multiset(b)
    ensures a == b
    decreases |a|
  {
    assert |multiset(a)| == |multiset(b)|;
    if a != [] {
      SameHead(a, b);
      SameTail(a, b);
      SortedUnique(a[1..], b[1..]);
      assert a == [a[0]] + a[1..] && b == [b[0]] + b[1..];
    }
  }

  /** The keys of a Go map in sorted order, whatever order `range` visits them in. */
  ghost function SortedElements(s: set<string>): (r: seq<string>)
    ensures Sorted(r) && multiset(r) == multiset(s)
  {
    if s == {} then []
    else
      var x :| x in s;
      assert multiset(s) == multiset{x} + multiset(s - {x});
      InsertInOrder(x, SortedElements(s - {x}))
  }

  /** The sorted arrangement of a list, as `sort.Strings` leaves it. */
  function SortedStrings(s: seq<string>): (r: seq<string>)
    ensures Sorted(r) && multiset(r) == multiset(s)
  {
    if s == [] then []
    else
      assert s == [s[0]] + s[1..];
      InsertInOrder(s[0], SortedStrings(s[1..]))
  }

  function InsertInOrder(x: string, s: seq<string>): (r: seq<string>)
    requires Sorted(s)
    ensures Sorted(r) && multiset(r) == multiset{x} + multiset(s)
  {
    if s == [] then Total(x, x); [x]
    else if AtMost(x, s[0]) then
      Total(x, x);
      assert forall i :: 0 <= i < |s| ==> AtMost(x, s[i]) by {
        forall i | 0 <= i < |s| ensures AtMost(x, s[i]) { Transitive(x, s[0], s[i]); }
      }
      [x] + s
    else
      Total(x, s[0]);
      assert s == [s[0]] + s[1..];
      var rest := InsertInOrder(x, s[1..]);
      assert forall y <- rest :: AtMost(s[0], y) by {
        forall y | y in rest ensures AtMost(s[0], y) {
          assert y in multiset(rest);
          assert y == x || y in s[1..];
        }
      }
      assert AtMost(s[0], s[0]);
      [s[0]] + rest
  }

  // ----- trimming and decimals -----

  /** unicode.IsSpace */
  predicate IsSpace(c: char) {
    '\t' <= c <= '\r' || c == ' ' || c == '\U{85}' || c == '\U{A0}' || c == '\U{1680}'
    || '\U{2000}' <= c <= '\U{200A}' || c == '\U{2028}' || c == '\U{2029}' || c == '\U{202F}'
    || c == '\U{205F}' || c == '\U{3000}'
  }

  function TrimLeft(s: string): string {
    if s != "" && IsSpace(s[0]) then TrimLeft(s[1..]) else s
  }

  function TrimRight(s: string): string {
    if s != "" && IsSpace(s[|s| - 1]) then TrimRight(s[..|s| - 1]) else s
  }

  /** strings.TrimSpace */
  function Trim(s: string): string {
    TrimRight(TrimLeft(s))
  }

  lemma {:induction false} TrimLeftHead(s: string)
    ensures TrimLeft(s) != "" ==> !IsSpace(TrimLeft(s)[0])
  {
    if s != "" && IsSpace(s[0]) { TrimLeftHead(s[1..]); }
  }

  lemma {:induction false} TrimRightEnds(s: string)
    ensures TrimRight(s) != "" ==> TrimRight(s)[0] == s[0] && !IsSpace(TrimRight(s)[|TrimRight(s)| - 1])
    decreases |s|
  {
    if s != "" && IsSpace(s[|s| - 1]) { TrimRightEnds(s[..|s| - 1]); }
  }

  lemma TrimTwice(s: string)
    ensures Trim(Trim(s)) == Trim(s)
  {
    TrimLeftHead(s);
    TrimRightEnds(TrimLeft(s));
  }

  ghost predicate AllSpace(s: string) {
    forall c <- s :: IsSpace(c)
  }

  lemma {:induction false} TrimLeftSplits(s: string) returns (l: string)
    ensures s == l + TrimLeft(s) && AllSpace(l)
  {
    if s != "" && IsSpace(s[0]) {
      l := TrimLeftSplits(s[1..]);
      l := [s[0]] + l;
    } else {
      l := "";
    }
  }

  lemma {:induction false} TrimRightSplits(s: string) returns (r: string)
    ensures s == TrimRight(s) + r && AllSpace(r)
    decreases |s|
  {
    if s != "" && IsSpace(s[|s| - 1]) {
      r := TrimRightSplits(s[..|s| - 1]);
      r := r + [s[|s| - 1]];
    } else {
      r := "";
    }
  }

  /** Trimming takes away white space at both ends and all of it. */
  lemma TrimExactly(s: string) returns (l: string, r: string)
    ensures s == l + Trim(s) + r && AllSpace(l) && AllSpace(r)
    ensures Trim(s) != "" ==> !IsSpace(Trim(s)[0]) && !IsSpace(Trim(s)[|Trim(s)| - 1])
  {
    l := TrimLeftSplits(s);
    r := TrimRightSplits(TrimLeft(s));
    TrimLeftHead(s);
    TrimRightEnds(TrimLeft(s));
  }

  function Digit(n: nat): char
    requires n < 10
  {
    ['0', '1', '2', '3', '4', '5', '6', '7', '8', '9'][n]
  }

  /** fmt's %d */
  function Decimal(n: int): (s: string)
    ensures s != "" && forall c <- s :: c == '-' || '0' <= c <= '9'
    decreases n < 0, if n < 0 then -n else n
  {
    if n < 0 then "-" + Decimal(-n)
    else if n < 10 then [Digit(n)]
    else Decimal(n / 10) + [Digit(n % 10)]
  }

  /** The number a string of digits stands for. */
  function ReadDigits(s: string): int {
    if s == "" then 0 else 10 * ReadDigits(s[..|s| - 1]) + (s[|s| - 1] as int - '0' as int)
  }

  lemma DigitValue(d: nat)
    requires d < 10
    ensures Digit(d) as int == '0' as int + d
  {
  }

  lemma {:induction false} DigitsReadBack(n: nat)
    ensures ReadDigits(Decimal(n)) == n && Decimal(n)[0] != '-' && (n > 0 ==> Decimal(n)[0] != '0')
  {
    DigitValue(n % 10);
    if n >= 10 {
      DigitsReadBack(n / 10);
      assert Decimal(n)[..|Decimal(n)| - 1] == Decimal(n / 10);
    }
  }

  /** The rendering reads back as the number, without a leading zero. */
  lemma DecimalReadsBack(n: int)
    ensures n >= 0 ==> ReadDigits(Decimal(n)) == n && (n > 0 ==> Decimal(n)[0] != '0')
    ensures n < 0 ==> Decimal(n)[0] == '-' && ReadDigits(Decimal(n)[1..]) == -n
  {
    DigitsReadBack(if n < 0 then -n else n);
  }
}
