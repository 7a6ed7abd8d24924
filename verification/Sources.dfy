/**
 Composing the collector's five sources out of the configured Providers (internal/provider/config.go,
 InfraSources).
 */
module Sources {
  import opened Common
  import opened Contract

  /** A configured entry, with what asking it for its capabilities yields now (None: it cannot be asked). */
  datatype Entry = Entry(kind: string, discovery: Option<seq<Cap>>)

  /** What fills one slot of the collector. Clients are named by the entry they were made for. */
  datatype Source = Nil | Fallback | Client(entry: nat) | Unimplemented

  const SLOTS := INFRA_CAPABILITIES

  predicate Infra(e: Entry) { e.kind == KIND_INFRA }

  predicate Reachable(e: Entry) { Infra(e) && e.discovery.Some? }

  predicate Unreachable(e: Entry) { Infra(e) && e.discovery.None? }

  predicate DeclaresCap(e: Entry, c: Cap) { Reachable(e) && c in e.discovery.value }

  /** i is the first entry satisfying p. */
  ghost predicate IsFirst(entries: seq<Entry>, p: Entry -> bool, i: int) {
    0 <= i < |entries| && p(entries[i]) && forall j :: 0 <= j < i ==> !p(entries[j])
  }

  ghost predicate NoneOf(entries: seq<Entry>, p: Entry -> bool) {
    forall i :: 0 <= i < |entries| ==> !p(entries[i])
  }

  function Declaring(c: Cap): Entry -> bool { e => DeclaresCap(e, c) }

  const DOWN: Entry -> bool := (e: Entry) => Unreachable(e)
  const ANY_INFRA: Entry -> bool := (e: Entry) => Infra(e)

  /**
   The ranking: the first reachable Provider declaring the capability, else the fallback, else the first
   unreachable Provider, else the stub if any infra Provider is configured, else nothing.
   */
  ghost predicate Ranked(entries: seq<Entry>, fallback: set<Cap>, c: Cap, s: Source) {
    match s
    case Client(i) =>
      || IsFirst(entries, Declaring(c), i)
      || (NoneOf(entries, Declaring(c)) && c !in fallback && IsFirst(entries, DOWN, i))
    case Fallback => NoneOf(entries, Declaring(c)) && c in fallback
    case Unimplemented =>
      && NoneOf(entries, Declaring(c)) && c !in fallback && NoneOf(entries, DOWN) && !NoneOf(entries, ANY_INFRA)
    case Nil => NoneOf(entries, ANY_INFRA) && c !in fallback
  }

  /** The ranking leaves no choice. */
  lemma RankedUnique(entries: seq<Entry>, fallback: set<Cap>, c: Cap, s: Source, t: Source)
    requires Ranked(entries, fallback, c, s) && Ranked(entries, fallback, c, t)
    ensures s == t
  {
    if NoneOf(entries, ANY_INFRA) { assert NoneOf(entries, Declaring(c)) && NoneOf(entries, DOWN); }
    if s.Client? && t.Client? {
      if IsFirst(entries, Declaring(c), s.entry) {
        assert IsFirst(entries, Declaring(c), t.entry);
      } else {
        assert IsFirst(entries, DOWN, s.entry) && IsFirst(entries, DOWN, t.entry);
      }
    }
  }

  /** An unreachable Provider never displaces one that declares the capability, nor the fallback. */
  lemma UnreachableRanksLast(entries: seq<Entry>, fallback: set<Cap>, c: Cap, s: Source)
    requires Ranked(entries, fallback, c, s)
    requires !NoneOf(entries, Declaring(c)) || c in fallback
    ensures s.Fallback? || (s.Client? && DeclaresCap(entries[s.entry], c))
  {
    if NoneOf(entries, ANY_INFRA) { assert NoneOf(entries, Declaring(c)); }
  }

  /** The first loop: who declares what, and who could not be asked. */
  ghost predicate Scanned(entries: seq<Entry>, configured: bool, byCapability: map<Cap, nat>, undiscovered: seq<nat>) {
    && (configured <==> !NoneOf(entries, ANY_INFRA))
    && (forall c :: c in byCapability ==> IsFirst(entries, Declaring(c), byCapability[c]))
    && (forall c :: c !in byCapability ==> NoneOf(entries, Declaring(c)))
    && (undiscovered == [] ==> NoneOf(entries, DOWN))
    && (undiscovered != [] ==> IsFirst(entries, DOWN, undiscovered[0]))
  }

  lemma ScanSkips(entries: seq<Entry>, e: Entry, configured: bool, taken: map<Cap, nat>, un: seq<nat>)
    requires Scanned(entries, configured, taken, un) && !Infra(e)
    ensures Scanned(entries + [e], configured, taken, un)
  {
    if configured {
      var i :| 0 <= i < |entries| && ANY_INFRA(entries[i]);
      assert ANY_INFRA((entries + [e])[i]);
    }
  }

  lemma ScanUnreachable(entries: seq<Entry>, e: Entry, configured: bool, taken: map<Cap, nat>, un: seq<nat>)
    requires Scanned(entries, configured, taken, un) && Unreachable(e)
    ensures Scanned(entries + [e], true, taken, un + [|entries|])
  {
    assert ANY_INFRA((entries + [e])[|entries|]);
  }

  lemma ScanDeclares(entries: seq<Entry>, e: Entry, configured: bool, taken: map<Cap, nat>, un: seq<nat>,
                     to: map<Cap, nat>)
    requires Scanned(entries, configured, taken, un) && Reachable(e)
    requires forall c :: c in to <==> c in taken || c in e.discovery.value
    requires forall c :: c in to ==> to[c] == if c in taken then taken[c] else |entries|
    ensures Scanned(entries + [e], true, to, un)
  {
    assert ANY_INFRA((entries + [e])[|entries|]);
    forall c | c in to ensures IsFirst(entries + [e], Declaring(c), to[c]) {
      if c !in taken { assert NoneOf(entries, Declaring(c)); }
    }
    forall c | c !in to ensures NoneOf(entries + [e], Declaring(c)) {
      assert NoneOf(entries, Declaring(c));
    }
  }

  /** Capabilities not yet taken go to this entry. */
  method Claim(taken: map<Cap, nat>, declared: seq<Cap>, i: nat) returns (to: map<Cap, nat>)
    ensures forall c :: c in to <==> c in taken || c in declared
    ensures forall c :: c in to ==> to[c] == if c in taken then taken[c] else i
  {
    to := taken;
    for n := 0 to |declared|
      invariant forall c :: c in to <==> c in taken || c in declared[..n]
      invariant forall c :: c in to ==> to[c] == if c in taken then taken[c] else i
    {
      assert declared[..n + 1] == declared[..n] + [declared[n]];
      if declared[n] !in to {
        to := to[declared[n] := i];
      }
    }
    assert declared[..|declared|] == declared;
  }

  method Scan(entries: seq<Entry>) returns (configured: bool, byCapability: map<Cap, nat>, undiscovered: seq<nat>)
    ensures Scanned(entries, configured, byCapability, undiscovered)
  {
    configured, byCapability, undiscovered := false, map[], [];
    for i := 0 to |entries|
      invariant Scanned(entries[..i], configured, byCapability, undiscovered)
    {
      var e := entries[i];
      assert entries[..i + 1] == entries[..i] + [e];
      if e.kind != KIND_INFRA {
        ScanSkips(entries[..i], e, configured, byCapability, undiscovered);
        continue;
      }
      if e.discovery.None? {
        ScanUnreachable(entries[..i], e, configured, byCapability, undiscovered);
        configured, undiscovered := true, undiscovered + [i];
        continue;
      }
      var claimed := Claim(byCapability, e.discovery.value, i);
      ScanDeclares(entries[..i], e, configured, byCapability, undiscovered, claimed);
      configured, byCapability := true, claimed;
    }
    assert entries[..|entries|] == entries;
  }

  /** InfraSources: one source per slot, by the ranking. */
  method InfraSources(entries: seq<Entry>, fallback: set<Cap>) returns (src: seq<Source>)
    ensures |src| == |SLOTS|
    ensures forall i :: 0 <= i < |SLOTS| ==> Ranked(entries, fallback, SLOTS[i], src[i])
  {
    var configured, byCapability, undiscovered := Scan(entries);
    src := [];
    for i := 0 to |SLOTS|
      invariant |src| == i && forall j :: 0 <= j < i ==> Ranked(entries, fallback, SLOTS[j], src[j])
    {
      var c := SLOTS[i];
      var s := Nil;
      if c in byCapability {
        s := Client(byCapability[c]);
      } else if c in fallback {
        s := Fallback;
      } else if |undiscovered| > 0 {
        s := Client(undiscovered[0]);
      } else if configured {
        s := Unimplemented;
      }
      src := src + [s];
    }
  }
}
