/**
 The collector's single-pass summaries (internal/infra/collect.go): the newest point per key, the largest
 series value, the backup streams and the uptime list. Each loop is proved against the group-by it stands for.
 */
module Summaries {
  import opened Common
  import opened Strings

  /** Nanoseconds since Go's zero time. */
  type Time = int

  datatype Series = Series(dims: map<string, string>, at: Time, value: real)

  datatype Object = Object(name: string, size: int, modified: Time)

  datatype Stream = Stream(prefix: string, count: nat, newest: Option<Time>)

  datatype Backups = Backups(bucket: string, objectCount: Option<nat>, sizeBytes: Option<int>, streams: seq<Stream>)

  datatype Uptime = Uptime(monitor: string, target: string, availability: real)

  /** A Go map read: a missing dimension is the empty string. */
  function Dim(s: Series, dim: string): string {
    if dim in s.dims then s.dims[dim] else ""
  }

  // ----- the newest point of each key -----

  /** i is the first series of key k with the greatest timestamp. */
  ghost predicate IsNewest<K>(series: seq<Series>, key: Series -> K, k: K, i: int) {
    && 0 <= i < |series| && key(series[i]) == k
    && (forall j :: 0 <= j < |series| && key(series[j]) == k ==> series[j].at <= series[i].at)
    && (forall j :: 0 <= j < i && key(series[j]) == k ==> series[j].at < series[i].at)
  }

  ghost predicate Absent<K>(series: seq<Series>, key: Series -> K, k: K) {
    forall i :: 0 <= i < |series| ==> key(series[i]) != k
  }

  /** `m` holds the newest series of every key that is wanted and present, and nothing else. */
  ghost predicate Newest<K(!new)>(series: seq<Series>, key: Series -> K, wanted: K -> bool, m: map<K, Series>) {
    && (forall k :: k in m ==> wanted(k) && exists i :: IsNewest(series, key, k, i) && m[k] == series[i])
    && (forall k :: wanted(k) && k !in m ==> Absent(series, key, k))
  }

  /** Whatever one such map holds, every other holds too. */
  lemma NewestIncluded<K(!new)>(series: seq<Series>, key: Series -> K, wanted: K -> bool,
                                m: map<K, Series>, n: map<K, Series>, k: K)
    requires Newest(series, key, wanted, m) && Newest(series, key, wanted, n) && k in m
    ensures k in n && m[k] == n[k]
  {
    var i :| IsNewest(series, key, k, i) && m[k] == series[i];
    assert !Absent(series, key, k);
    var j :| IsNewest(series, key, k, j) && n[k] == series[j];
    SameNewest(series, key, k, i, j);
  }

  lemma SameNewest<K>(series: seq<Series>, key: Series -> K, k: K, i: int, j: int)
    requires IsNewest(series, key, k, i) && IsNewest(series, key, k, j)
    ensures i == j
  {
  }

  lemma NewestUnique<K(!new)>(series: seq<Series>, key: Series -> K, wanted: K -> bool,
                              m: map<K, Series>, n: map<K, Series>)
    requires Newest(series, key, wanted, m) && Newest(series, key, wanted, n)
    ensures m == n
  {
    forall k | k in m ensures k in n && m[k] == n[k] { NewestIncluded(series, key, wanted, m, n, k); }
    forall k | k in n ensures k in m { NewestIncluded(series, key, wanted, n, m, k); }
  }

  lemma StillNewest<K(!new)>(series: seq<Series>, s: Series, key: Series -> K, k: K, i: int)
    requires IsNewest(series, key, k, i) && (key(s) != k || s.at <= series[i].at)
    ensures IsNewest(series + [s], key, k, i) && (series + [s])[i] == series[i]
  {
  }

  lemma NewestSkip<K(!new)>(series: seq<Series>, s: Series, key: Series -> K, wanted: K -> bool, m: map<K, Series>)
    requires Newest(series, key, wanted, m)
    requires !wanted(key(s)) || (key(s) in m && s.at <= m[key(s)].at)
    ensures Newest(series + [s], key, wanted, m)
  {
    forall x | x in m ensures exists i :: IsNewest(series + [s], key, x, i) && m[x] == (series + [s])[i] {
      var i :| IsNewest(series, key, x, i) && m[x] == series[i];
      StillNewest(series, s, key, x, i);
    }
  }

  lemma NewestTake<K(!new)>(series: seq<Series>, s: Series, key: Series -> K, wanted: K -> bool, m: map<K, Series>)
    requires Newest(series, key, wanted, m)
    requires wanted(key(s)) && (key(s) in m ==> m[key(s)].at < s.at)
    ensures Newest(series + [s], key, wanted, m[key(s) := s])
  {
    var k, more, n := key(s), series + [s], m[key(s) := s];
    assert IsNewest(more, key, k, |series|) by {
      if k in m {
        var i :| IsNewest(series, key, k, i) && m[k] == series[i];
      } else {
        assert Absent(series, key, k);
      }
    }
    forall x | x in n ensures wanted(x) && exists i :: IsNewest(more, key, x, i) && n[x] == more[i] {
      if x != k {
        var i :| IsNewest(series, key, x, i) && m[x] == series[i];
        StillNewest(series, s, key, x, i);
      }
    }
    forall x | wanted(x) && x !in n ensures Absent(more, key, x) {
      assert Absent(series, key, x);
    }
  }

  /** The loop shared by latestByDimension and summariseUptime: first seen wins ties, later points replace. */
  method NewestByKey<K(==, !new)>(series: seq<Series>, key: Series -> K, wanted: K -> bool) returns (m: map<K, Series>)
    ensures Newest(series, key, wanted, m)
  {
    m := map[];
    assert Newest(series[..0], key, wanted, m);
    for i := 0 to |series|
      invariant Newest(series[..i], key, wanted, m)
    {
      var s := series[i];
      assert series[..i + 1] == series[..i] + [s];
      var k := key(s);
      if !wanted(k) || (k in m && s.at <= m[k].at) {
        NewestSkip(series[..i], s, key, wanted, m);
        continue;
      }
      NewestTake(series[..i], s, key, wanted, m);
      m := m[k := s];
    }
    assert series[..|series|] == series;
  }

  function DimKey(dim: string): Series -> string { s => Dim(s, dim) }

  const NON_EMPTY: string -> bool := k => k != ""

  method LatestByDimension(series: seq<Series>, dim: string) returns (out: map<string, Series>)
    ensures Newest(series, DimKey(dim), NON_EMPTY, out)
  {
    out := NewestByKey(series, DimKey(dim), NON_EMPTY);
  }

  /** i is the first of the newest series that carry this label value. */
  ghost predicate LastWord(series: seq<Series>, dim: string, k: string, i: int) {
    && 0 <= i < |series| && Labelled(series[i], dim, k)
    && (forall j :: 0 <= j < |series| && Labelled(series[j], dim, k) ==> series[j].at <= series[i].at)
    && (forall j :: 0 <= j < i && Labelled(series[j], dim, k) ==> series[j].at < series[i].at)
  }

  predicate Labelled(s: Series, dim: string, k: string) {
    dim in s.dims && s.dims[dim] == k
  }

  lemma NewestIsLastWord(series: seq<Series>, dim: string, k: string, i: int)
    requires k != ""
    ensures IsNewest(series, DimKey(dim), k, i) <==> LastWord(series, dim, k, i)
  {
    assert forall j :: 0 <= j < |series| ==> (Labelled(series[j], dim, k) <==> DimKey(dim)(series[j]) == k);
  }

  /** The map in terms of the labels themselves: no empty label, no series without the label, newest series wins. */
  lemma LatestTells(series: seq<Series>, dim: string, m: map<string, Series>)
    requires Newest(series, DimKey(dim), NON_EMPTY, m)
    ensures forall k :: k in m ==> k != "" && exists i :: LastWord(series, dim, k, i) && m[k] == series[i]
    ensures forall k, i :: k != "" && 0 <= i < |series| && Labelled(series[i], dim, k) ==> k in m
  {
    forall k | k in m ensures k != "" && exists i :: LastWord(series, dim, k, i) && m[k] == series[i] {
      var i :| IsNewest(series, DimKey(dim), k, i) && m[k] == series[i];
      NewestIsLastWord(series, dim, k, i);
    }
    forall k, i | k != "" && 0 <= i < |series| && Labelled(series[i], dim, k) ensures k in m {
      assert DimKey(dim)(series[i]) == k;
      assert k !in m ==> Absent(series, DimKey(dim), k);
    }
  }

  // ----- uptime -----

  const MONITOR_KEY: Series -> (string, string) := s => (Dim(s, "monitor"), Dim(s, "target"))

  const HAS_MONITOR: ((string, string)) -> bool := (k: (string, string)) => k.0 != ""

  function UptimeOf(k: (string, string), s: Series): Uptime {
    Uptime(k.0, k.1, s.value)
  }

  ghost predicate ByMonitor(out: seq<Uptime>) {
    forall i, j :: 0 <= i <= j < |out| ==> AtMost(out[i].monitor, out[j].monitor)
  }

  /** One entry per monitor and target, each with the newest point, ordered by monitor. */
  ghost predicate IsUptime(series: seq<Series>, out: seq<Uptime>) {
    && ByMonitor(out)
    && exists m: map<(string, string), Series> ::
         Newest(series, MONITOR_KEY, HAS_MONITOR, m) && multiset(out) == multiset(UptimeSet(m))
  }

  function UptimeSet(m: map<(string, string), Series>): set<Uptime> {
    set k | k in m :: UptimeOf(k, m[k])
  }

  /** Two renderings of the same series differ only in the order of entries of one monitor. */
  lemma UptimeDetermined(series: seq<Series>, a: seq<Uptime>, b: seq<Uptime>)
    requires IsUptime(series, a) && IsUptime(series, b)
    ensures multiset(a) == multiset(b)
  {
    var m :| Newest(series, MONITOR_KEY, HAS_MONITOR, m) && multiset(a) == multiset(UptimeSet(m));
    var n :| Newest(series, MONITOR_KEY, HAS_MONITOR, n) && multiset(b) == multiset(UptimeSet(n));
    NewestUnique(series, MONITOR_KEY, HAS_MONITOR, m, n);
  }

  /** The series watches this monitor at this target, which may be missing. */
  predicate Watches(s: Series, monitor: string, target: string) {
    && "monitor" in s.dims && s.dims["monitor"] == monitor
    && (if "target" in s.dims then s.dims["target"] == target else target == "")
  }

  /** Series i has the last word on the monitor and target of u, and u shows its value. */
  ghost predicate Reports(series: seq<Series>, u: Uptime, i: int) {
    && 0 <= i < |series| && Watches(series[i], u.monitor, u.target) && u.availability == series[i].value
    && (forall j :: 0 <= j < |series| && Watches(series[j], u.monitor, u.target) ==> series[j].at <= series[i].at)
    && (forall j :: 0 <= j < i && Watches(series[j], u.monitor, u.target) ==> series[j].at < series[i].at)
  }

  lemma WatchedKey(s: Series, monitor: string, target: string)
    requires monitor != ""
    ensures Watches(s, monitor, target) <==> MONITOR_KEY(s) == (monitor, target)
  {
  }

  lemma EntryReports(series: seq<Series>, m: map<(string, string), Series>, k: (string, string))
    requires Newest(series, MONITOR_KEY, HAS_MONITOR, m) && k in m
    ensures k.0 != "" && exists i :: Reports(series, Uptime(k.0, k.1, m[k].value), i)
  {
    var i :| IsNewest(series, MONITOR_KEY, k, i) && m[k] == series[i];
    forall j | 0 <= j < |series| ensures Watches(series[j], k.0, k.1) <==> MONITOR_KEY(series[j]) == k {
      WatchedKey(series[j], k.0, k.1);
    }
    assert Reports(series, Uptime(k.0, k.1, m[k].value), i);
  }

  lemma InUptimeSet(m: map<(string, string), Series>, out: seq<Uptime>, u: Uptime)
    requires multiset(out) == multiset(UptimeSet(m))
    ensures u in out <==> (u.monitor, u.target) in m && u.availability == m[(u.monitor, u.target)].value
    ensures multiset(out)[u] <= 1
  {
    assert u in out <==> u in multiset(out);
    assert u in multiset(out) <==> u in UptimeSet(m);
    if u in UptimeSet(m) {
      var k :| k in m && UptimeOf(k, m[k]) == u;
    }
  }

  /**
   The list in terms of the labels: every entry shows the last word on its monitor and target, every monitored pair
   has an entry, and no pair has two.
   */
  lemma UptimeTells(series: seq<Series>, out: seq<Uptime>)
    requires IsUptime(series, out)
    ensures forall u <- out :: u.monitor != "" && exists i :: Reports(series, u, i)
    ensures forall i, monitor, target :: 0 <= i < |series| && monitor != "" && Watches(series[i], monitor, target) ==>
              exists u <- out :: u.monitor == monitor && u.target == target
    ensures forall u, v :: u in out && v in out && u.monitor == v.monitor && u.target == v.target ==> u == v
    ensures forall u :: multiset(out)[u] <= 1
  {
    var m: map<(string, string), Series> :|
      Newest(series, MONITOR_KEY, HAS_MONITOR, m) && multiset(out) == multiset(UptimeSet(m));
    forall u ensures multiset(out)[u] <= 1 { InUptimeSet(m, out, u); }
    forall u | u in out ensures u.monitor != "" && exists i :: Reports(series, u, i) {
      InUptimeSet(m, out, u);
      EntryReports(series, m, (u.monitor, u.target));
    }
    forall u, v | u in out && v in out && u.monitor == v.monitor && u.target == v.target ensures u == v {
      InUptimeSet(m, out, u);
      InUptimeSet(m, out, v);
    }
    forall i, monitor, target | 0 <= i < |series| && monitor != "" && Watches(series[i], monitor, target)
      ensures exists u <- out :: u.monitor == monitor && u.target == target
    {
      WatchedKey(series[i], monitor, target);
      assert (monitor, target) !in m ==> Absent(series, MONITOR_KEY, (monitor, target));
      var u := Uptime(monitor, target, m[(monitor, target)].value);
      InUptimeSet(m, out, u);
    }
  }

  ghost predicate Ordered<T>(r: seq<T>, name: T -> string) {
    forall i, j :: 0 <= i <= j < |r| ==> AtMost(name(r[i]), name(r[j]))
  }

  lemma InsertedOrdered<T>(s: seq<T>, at: nat, x: T, name: T -> string)
    requires Ordered(s, name) && at <= |s|
    requires forall i :: 0 <= i < at ==> AtMost(name(s[i]), name(x))
    requires forall i :: at <= i < |s| ==> AtMost(name(x), name(s[i]))
    ensures Ordered(s[..at] + [x] + s[at..], name)
  {
    Total(name(x), name(x));
  }

  lemma InsertedElements<T>(s: seq<T>, at: nat, x: T)
    requires at <= |s|
    ensures multiset(s[..at] + [x] + s[at..]) == multiset(s) + multiset{x}
  {
    assert s == s[..at] + s[at..];
  }

  method InsertByName<T>(s: seq<T>, x: T, name: T -> string) returns (r: seq<T>)
    requires Ordered(s, name)
    ensures Ordered(r, name) && multiset(r) == multiset(s) + multiset{x}
  {
    var at := 0;
    while at < |s| && AtMost(name(s[at]), name(x))
      invariant 0 <= at <= |s|
      invariant forall i :: 0 <= i < at ==> AtMost(name(s[i]), name(x))
    {
      at := at + 1;
    }
    forall j | at <= j < |s| ensures AtMost(name(x), name(s[j])) {
      Total(name(s[at]), name(x));
      Transitive(name(x), name(s[at]), name(s[j]));
    }
    InsertedOrdered(s, at, x, name);
    InsertedElements(s, at, x);
    r := s[..at] + [x] + s[at..];
  }

  /** sort.Slice by a string key: some permutation in key order. */
  method SortByName<T>(s: seq<T>, name: T -> string) returns (r: seq<T>)
    ensures multiset(r) == multiset(s) && Ordered(r, name)
  {
    r := [];
    for n := 0 to |s|
      invariant multiset(r) == multiset(s[..n]) && Ordered(r, name)
    {
      r := InsertByName(r, s[n], name);
      assert s[..n + 1] == s[..n] + [s[n]];
    }
    assert s[..|s|] == s;
  }

  lemma UptimeSetAdd(m: map<(string, string), Series>, k: (string, string), s: Series)
    requires k !in m
    ensures UptimeSet(m[k := s]) == UptimeSet(m) + {UptimeOf(k, s)} && UptimeOf(k, s) !in UptimeSet(m)
  {
    var n := m[k := s];
    forall u | u in UptimeSet(m) ensures u in UptimeSet(n) && u != UptimeOf(k, s) {
      var x :| x in m && u == UptimeOf(x, m[x]);
      assert n[x] == m[x] && x != k;
      assert x == (u.monitor, u.target);
    }
    assert n[k] == s;
    forall u | u in UptimeSet(n) ensures u in UptimeSet(m) || u == UptimeOf(k, s) {
      var x :| x in n && u == UptimeOf(x, n[x]);
      if x != k { assert m[x] == n[x]; }
    }
  }

  lemma OneMore<T>(s: seq<T>, xs: set<T>, x: T)
    requires multiset(s) == multiset(xs) && x !in xs
    ensures multiset(s + [x]) == multiset(xs + {x})
  {
  }

  lemma CollectOne(done: map<(string, string), Series>, k: (string, string), s: Series, entries: seq<Uptime>)
    requires k !in done && multiset(entries) == multiset(UptimeSet(done))
    ensures multiset(entries + [UptimeOf(k, s)]) == multiset(UptimeSet(done[k := s]))
  {
    UptimeSetAdd(done, k, s);
    OneMore(entries, UptimeSet(done), UptimeOf(k, s));
  }

  /** `for k, s := range newest`, in whatever order. */
  method CollectUptime(newest: map<(string, string), Series>) returns (entries: seq<Uptime>)
    ensures multiset(entries) == multiset(UptimeSet(newest))
  {
    entries := [];
    var todo := newest.Keys;
    ghost var done: map<(string, string), Series> := map[];
    while todo != {}
      invariant todo <= newest.Keys && done.Keys == newest.Keys - todo && forall k :: k in done ==> done[k] == newest[k]
      invariant multiset(entries) == multiset(UptimeSet(done))
      decreases |todo|
    {
      var k :| k in todo;
      CollectOne(done, k, newest[k], entries);
      todo, done := todo - {k}, done[k := newest[k]];
      entries := entries + [UptimeOf(k, newest[k])];
    }
    assert done == newest;
  }

  method SummariseUptime(series: seq<Series>) returns (out: seq<Uptime>)
    ensures IsUptime(series, out)
  {
    var newest := NewestByKey(series, MONITOR_KEY, HAS_MONITOR);
    var entries := CollectUptime(newest);
    var name := (u: Uptime) => u.monitor;
    out := SortByName(entries, name);
    assert forall i :: 0 <= i < |out| ==> name(out[i]) == out[i].monitor;
  }

  // ----- backends -----

  /** Go's int(x): truncation toward zero. */
  function Truncate(x: real): int {
    if x >= 0.0 then x.Floor else -((-x).Floor)
  }

  /** The whole number on the way to zero, less than one away. */
  lemma TruncateExactly(x: real)
    ensures x >= 0.0 ==> 0.0 <= Truncate(x) as real <= x < Truncate(x) as real + 1.0
    ensures x < 0.0 ==> Truncate(x) as real - 1.0 < x <= Truncate(x) as real <= 0.0
  {
  }

  ghost predicate IsGreatest(series: seq<Series>, best: real) {
    && (exists s <- series :: s.value == best)
    && (forall s <- series :: s.value <= best)
  }

  /** No series is unknown, not zero; otherwise the largest series value, rounded. */
  method MaxAcrossSeries(series: seq<Series>) returns (n: Option<int>)
    ensures series == [] <==> n.None?
    ensures n.Some? ==> exists best :: IsGreatest(series, best) && n.value == Truncate(best + 0.5)
  {
    if |series| == 0 {
      return None;
    }
    var best := series[0].value;
    for i := 1 to |series|
      invariant IsGreatest(series[..i], best)
    {
      assert series[..i + 1] == series[..i] + [series[i]];
      if series[i].value > best {
        best := series[i].value;
      }
      assert series[i] in series[..i + 1];
    }
    assert series[..|series|] == series;
    n := Some(Truncate(best + 0.5));
  }

  lemma GreatestUnique(series: seq<Series>, a: real, b: real)
    requires IsGreatest(series, a) && IsGreatest(series, b)
    ensures a == b
  {
  }

  // ----- backups -----

  function TrimSlash(p: string): string {
    if p != "" && p[|p| - 1] == '/' then p[..|p| - 1] else p
  }

  predicate InStream(p: string, o: Object) {
    TrimSlash(p) + "/" <= o.name
  }

  /** The stream an object counts in: the first configured prefix that matches. */
  function StreamOf(prefixes: seq<string>, o: Object): Option<string> {
    if prefixes == [] then None
    else if InStream(prefixes[0], o) then Some(prefixes[0])
    else StreamOf(prefixes[1..], o)
  }

  function CountIn(prefixes: seq<string>, objects: seq<Object>, p: Option<string>): nat {
    if objects == [] then 0
    else CountIn(prefixes, objects[..|objects| - 1], p)
         + if StreamOf(prefixes, objects[|objects| - 1]) == p then 1 else 0
  }

  function TotalSize(objects: seq<Object>): int {
    if objects == [] then 0 else TotalSize(objects[..|objects| - 1]) + objects[|objects| - 1].size
  }

  /** The newest modification in a stream; times not after Go's zero time do not count. */
  ghost predicate IsLatest(prefixes: seq<string>, objects: seq<Object>, p: string, t: Option<Time>) {
    match t
    case None => forall o <- objects :: StreamOf(prefixes, o) == Some(p) ==> o.modified <= 0
    case Some(latest) =>
      && latest > 0
      && (exists o <- objects :: StreamOf(prefixes, o) == Some(p) && o.modified == latest)
      && (forall o <- objects :: StreamOf(prefixes, o) == Some(p) ==> o.modified <= latest)
  }

  ghost predicate IsStream(prefixes: seq<string>, objects: seq<Object>, p: string, s: Stream) {
    s.prefix == p && s.count == CountIn(prefixes, objects, Some(p)) && IsLatest(prefixes, objects, p, s.newest)
  }

  ghost predicate IsBackups(bucket: string, prefixes: seq<string>, objects: seq<Object>, b: Backups) {
    && b.bucket == bucket
    && b.objectCount == Some(|objects|)
    && b.sizeBytes == Some(Wrap64(TotalSize(objects)))
    && |b.streams| == |prefixes|
    && forall i :: 0 <= i < |prefixes| ==> IsStream(prefixes, objects, prefixes[i], b.streams[i])
  }

  /** The inner loop: the index of the first matching prefix, or the number of prefixes. */
  method MatchStream(prefixes: seq<string>, o: Object) returns (i: nat)
    ensures i <= |prefixes|
    ensures StreamOf(prefixes, o) == (if i < |prefixes| then Some(prefixes[i]) else None)
  {
    i := 0;
    while i < |prefixes|
      invariant i <= |prefixes| && StreamOf(prefixes, o) == StreamOf(prefixes[i..], o)
    {
      if InStream(prefixes[i], o) {
        return;
      }
      i := i + 1;
    }
  }

  ghost predicate Tallied(prefixes: seq<string>, objects: seq<Object>, counts: map<string, nat>,
                          newest: map<string, Time>)
  {
    forall p :: (if p in counts then counts[p] else 0) == CountIn(prefixes, objects, Some(p))
             && IsLatest(prefixes, objects, p, if p in newest then Some(newest[p]) else None)
  }

  lemma TallyExtend(prefixes: seq<string>, objects: seq<Object>, o: Object, p: string, t: Option<Time>)
    requires IsLatest(prefixes, objects, p, t)
    ensures CountIn(prefixes, objects + [o], Some(p)) ==
            CountIn(prefixes, objects, Some(p)) + if StreamOf(prefixes, o) == Some(p) then 1 else 0
    ensures IsLatest(prefixes, objects + [o], p,
                     if StreamOf(prefixes, o) == Some(p) && o.modified > (if t.Some? then t.value else 0)
                     then Some(o.modified) else t)
  {
    assert (objects + [o])[..|objects|] == objects;
    assert forall x <- objects + [o] :: x in objects || x == o;
    assert o in objects + [o] && forall x <- objects :: x in objects + [o];
  }

  lemma SizeExtend(objects: seq<Object>, o: Object, size: int)
    requires size == Wrap64(TotalSize(objects))
    ensures Wrap64(size + o.size) == Wrap64(TotalSize(objects + [o]))
  {
    assert (objects + [o])[..|objects|] == objects;
    WrapStep(TotalSize(objects), o.size);
  }

  lemma WrapStep(a: int, b: int)
    ensures Wrap64(Wrap64(a) + b) == Wrap64(a + b)
  {
    var q := (a + INT64_HALF) / INT64_RANGE;
    assert Wrap64(a) == a - q * INT64_RANGE;
    assert (a + b + INT64_HALF - q * INT64_RANGE) % INT64_RANGE == (a + b + INT64_HALF) % INT64_RANGE;
  }

  /** One pass over the objects; both maps default to zero. */
  method Tally(prefixes: seq<string>, objects: seq<Object>)
    returns (total: nat, size: int, counts: map<string, nat>, newest: map<string, Time>)
    ensures total == |objects| && size == Wrap64(TotalSize(objects)) && Tallied(prefixes, objects, counts, newest)
  {
    total, size, counts, newest := 0, 0, map[], map[];
    for i := 0 to |objects|
      invariant total == i && size == Wrap64(TotalSize(objects[..i])) && Tallied(prefixes, objects[..i], counts, newest)
    {
      var o := objects[i];
      assert objects[..i + 1] == objects[..i] + [o];
      SizeExtend(objects[..i], o, size);
      total := total + 1;
      size := Wrap64(size + o.size);
      forall p { TallyExtend(prefixes, objects[..i], o, p, if p in newest then Some(newest[p]) else None); }
      var at := MatchStream(prefixes, o);
      if at < |prefixes| {
        var p := prefixes[at];
        counts := counts[p := (if p in counts then counts[p] else 0) + 1];
        if o.modified > (if p in newest then newest[p] else 0) {
          newest := newest[p := o.modified];
        }
      }
    }
    assert objects[..|objects|] == objects;
  }

  method SummariseBackups(bucket: string, prefixes: seq<string>, objects: seq<Object>) returns (b: Backups)
    ensures IsBackups(bucket, prefixes, objects, b)
  {
    var total, size, counts, newest := Tally(prefixes, objects);
    var streams: seq<Stream> := [];
    for i := 0 to |prefixes|
      invariant |streams| == i
      invariant forall j :: 0 <= j < i ==> IsStream(prefixes, objects, prefixes[j], streams[j])
    {
      var p := prefixes[i];
      streams := streams + [Stream(p, if p in counts then counts[p] else 0,
                                   if p in newest && newest[p] != 0 then Some(newest[p]) else None)];
    }
    b := Backups(bucket, Some(total), Some(size), streams);
  }

  // ----- conservation -----

  function SumCounts(streams: seq<Stream>): nat {
    if streams == [] then 0 else streams[0].count + SumCounts(streams[1..])
  }

  /** How many objects fall into one of the listed streams. */
  function CountAmong(prefixes: seq<string>, objects: seq<Object>, ps: seq<string>): nat {
    if ps == [] then 0 else CountIn(prefixes, objects, Some(ps[0])) + CountAmong(prefixes, objects, ps[1..])
  }

  lemma {:induction false} StreamIsConfigured(prefixes: seq<string>, o: Object)
    ensures StreamOf(prefixes, o).Some? ==> StreamOf(prefixes, o).value in prefixes
    decreases |prefixes|
  {
    if prefixes != [] { StreamIsConfigured(prefixes[1..], o); }
  }

  lemma {:induction false} CountAmongExtend(prefixes: seq<string>, objects: seq<Object>, o: Object, ps: seq<string>)
    requires forall i, j :: 0 <= i < j < |ps| ==> ps[i] != ps[j]
    ensures CountAmong(prefixes, objects + [o], ps) == CountAmong(prefixes, objects, ps)
              + if StreamOf(prefixes, o).Some? && StreamOf(prefixes, o).value in ps then 1 else 0
    decreases |ps|
  {
    assert (objects + [o])[..|objects|] == objects;
    if ps != [] {
      CountAmongExtend(prefixes, objects, o, ps[1..]);
      assert ps == [ps[0]] + ps[1..];
    }
  }

  /** Every object is counted in exactly one stream or is unmatched. */
  lemma {:induction false} CountsPartition(prefixes: seq<string>, objects: seq<Object>)
    requires forall i, j :: 0 <= i < j < |prefixes| ==> prefixes[i] != prefixes[j]
    ensures CountAmong(prefixes, objects, prefixes) + CountIn(prefixes, objects, None) == |objects|
    decreases |objects|
  {
    if objects == [] {
      NoObjects(prefixes, prefixes);
    } else {
      var init, o := objects[..|objects| - 1], objects[|objects| - 1];
      assert objects == init + [o];
      CountsPartition(prefixes, init);
      CountAmongExtend(prefixes, init, o, prefixes);
      StreamIsConfigured(prefixes, o);
    }
  }

  lemma {:induction false} NoObjects(prefixes: seq<string>, ps: seq<string>)
    ensures CountAmong(prefixes, [], ps) == 0
    decreases |ps|
  {
    if ps != [] { NoObjects(prefixes, ps[1..]); }
  }

  lemma {:induction false} SumIsCountAmong(prefixes: seq<string>, objects: seq<Object>, ps: seq<string>,
                                           streams: seq<Stream>)
    requires |ps| == |streams|
    requires forall i :: 0 <= i < |ps| ==> IsStream(prefixes, objects, ps[i], streams[i])
    ensures SumCounts(streams) == CountAmong(prefixes, objects, ps)
    decreases |ps|
  {
    if ps != [] { SumIsCountAmong(prefixes, objects, ps[1..], streams[1..]); }
  }

  /** With distinct prefixes the stream counts and the unmatched objects add up to the object count. */
  lemma StreamsConserveObjects(bucket: string, prefixes: seq<string>, objects: seq<Object>, b: Backups)
    requires IsBackups(bucket, prefixes, objects, b)
    requires forall i, j :: 0 <= i < j < |prefixes| ==> prefixes[i] != prefixes[j]
    ensures SumCounts(b.streams) + CountIn(prefixes, objects, None) == b.objectCount.value
  {
    SumIsCountAmong(prefixes, objects, prefixes, b.streams);
    CountsPartition(prefixes, objects);
  }

  /** The reported size is the true sum exactly when the true sum fits the 64-bit counter. */
  lemma SizeIsExact(bucket: string, prefixes: seq<string>, objects: seq<Object>, b: Backups)
    requires IsBackups(bucket, prefixes, objects, b)
    ensures b.sizeBytes == Some(TotalSize(objects)) <==> FitsInt64(TotalSize(objects))
  {
    var x := TotalSize(objects);
    if FitsInt64(x) { assert (x + INT64_HALF) % INT64_RANGE == x + INT64_HALF; }
  }

  // ----- streams, counts and sizes by themselves -----

  /** The object lies in the folder the prefix names, with or without its trailing slash. */
  predicate Under(prefix: string, name: string) {
    if prefix != "" && prefix[|prefix| - 1] == '/' then prefix <= name
    else |prefix| < |name| && prefix <= name && name[|prefix|] == '/'
  }

  lemma UnderIsInStream(p: string, o: Object)
    ensures InStream(p, o) <==> Under(p, o.name)
  {
    if p != "" && p[|p| - 1] == '/' {
      assert p[..|p| - 1] + "/" == p;
    } else if |p| < |o.name| {
      assert o.name[..|p| + 1] == o.name[..|p|] + [o.name[|p|]];
    }
  }

  /** Prefix i is the first the object lies under. */
  ghost predicate FirstUnder(prefixes: seq<string>, o: Object, i: int) {
    0 <= i < |prefixes| && Under(prefixes[i], o.name) && forall j :: 0 <= j < i ==> !Under(prefixes[j], o.name)
  }

  ghost predicate BelongsTo(prefixes: seq<string>, o: Object, p: string) {
    exists j :: FirstUnder(prefixes, o, j) && prefixes[j] == p
  }

  lemma {:induction false} StreamTells(prefixes: seq<string>, o: Object)
    ensures forall i :: FirstUnder(prefixes, o, i) ==> StreamOf(prefixes, o) == Some(prefixes[i])
    ensures StreamOf(prefixes, o).Some? ==> exists i :: FirstUnder(prefixes, o, i)
    decreases |prefixes|
  {
    if prefixes != [] {
      UnderIsInStream(prefixes[0], o);
      StreamTells(prefixes[1..], o);
      if InStream(prefixes[0], o) {
        assert FirstUnder(prefixes, o, 0);
      } else {
        forall i ensures FirstUnder(prefixes, o, i) <==> FirstUnder(prefixes[1..], o, i - 1) {
          assert forall j :: 0 < j < |prefixes| ==> prefixes[j] == prefixes[1..][j - 1];
        }
        if i :| FirstUnder(prefixes[1..], o, i) { assert FirstUnder(prefixes, o, i + 1); }
      }
    }
  }

  function Those(prefixes: seq<string>, objects: seq<Object>, p: Option<string>): set<int> {
    set i | 0 <= i < |objects| && StreamOf(prefixes, objects[i]) == p
  }

  lemma ThoseExtend(prefixes: seq<string>, objects: seq<Object>, p: Option<string>)
    requires objects != []
    ensures var n, init := |objects| - 1, objects[..|objects| - 1];
            |Those(prefixes, objects, p)| ==
              |Those(prefixes, init, p)| + if StreamOf(prefixes, objects[n]) == p then 1 else 0
  {
    var n, init := |objects| - 1, objects[..|objects| - 1];
    var rest: set<int> := if StreamOf(prefixes, objects[n]) == p then {n} else {};
    assert Those(prefixes, objects, p) == Those(prefixes, init, p) + rest;
    assert n !in Those(prefixes, init, p);
  }

  lemma {:induction false} CountIsSize(prefixes: seq<string>, objects: seq<Object>, p: Option<string>)
    ensures CountIn(prefixes, objects, p) == |Those(prefixes, objects, p)|
    decreases |objects|
  {
    if objects != [] {
      CountIsSize(prefixes, objects[..|objects| - 1], p);
      ThoseExtend(prefixes, objects, p);
    }
  }

  /** The total is a sum: it adds up over any cut of the list, and one object counts its own size. */
  lemma {:induction false} SizeAddsUp(a: seq<Object>, b: seq<Object>)
    ensures TotalSize(a + b) == TotalSize(a) + TotalSize(b)
    ensures forall o :: TotalSize([o]) == o.size
    decreases |b|
  {
    forall o: Object ensures TotalSize([o]) == o.size { assert [o][..0] == []; }
    if b == [] {
      assert a + b == a;
    } else {
      SizeAddsUp(a, b[..|b| - 1]);
      assert (a + b)[..|a + b| - 1] == a + b[..|b| - 1];
    }
  }

  /** Each stream counts the objects for which its prefix is the first they lie under, and dates the newest. */
  lemma StreamsTell(bucket: string, prefixes: seq<string>, objects: seq<Object>, b: Backups, i: nat)
    requires IsBackups(bucket, prefixes, objects, b) && i < |prefixes|
    ensures var s := b.streams[i];
            var mine := set n | 0 <= n < |objects| && BelongsTo(prefixes, objects[n], prefixes[i]);
            && s.prefix == prefixes[i] && s.count == |mine|
            && (s.newest.Some? ==> s.newest.value > 0 && exists n :: n in mine && objects[n].modified == s.newest.value)
            && (forall n :: n in mine ==> objects[n].modified <= if s.newest.Some? then s.newest.value else 0)
  {
    var mine := set n | 0 <= n < |objects| && BelongsTo(prefixes, objects[n], prefixes[i]);
    forall n | 0 <= n < |objects|
      ensures n in mine <==> StreamOf(prefixes, objects[n]) == Some(prefixes[i])
    {
      StreamTells(prefixes, objects[n]);
    }
    assert mine == Those(prefixes, objects, Some(prefixes[i]));
    CountIsSize(prefixes, objects, Some(prefixes[i]));
    assert IsStream(prefixes, objects, prefixes[i], b.streams[i]);
    assert forall n :: 0 <= n < |objects| ==> objects[n] in objects;
  }
}
