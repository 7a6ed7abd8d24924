/**
 Non-interference of failure in the collector (internal/infra/collect.go): a source that fails costs its own
 snapshot fields and adds its own warning; nothing else changes.
 */
module NonInterference {
  import opened Common
  import opened Strings
  import opened Summaries
  import opened Collector

  /** The same outcomes, except that source s fails. */
  function Break(outs: Outcomes, s: Source, err: string): Outcomes {
    t => if t == s then Failed(err) else outs(t)
  }

  function MapSeq<T, U>(f: T -> U, s: seq<T>): seq<U> {
    seq(|s|, i requires 0 <= i < |s| => f(s[i]))
  }

  const WITHOUT_CPU: Node -> Node := (n: Node) => n.(cpuPercent := None)
  const WITHOUT_MEMORY: Node -> Node := (n: Node) => n.(memoryPercent := None)

  // ----- what losing a source costs -----

  function LoseNodes(s: Source, nodes: seq<Node>): seq<Node> {
    match s
    case Instances => []
    case Cpu => MapSeq(WITHOUT_CPU, nodes)
    case Memory => MapSeq(WITHOUT_MEMORY, nodes)
    case _ => nodes
  }

  function LoseIngress(s: Source, e: Entrance): Entrance {
    match s
    case Ingress => e.(publicIp := "")
    case Healthy => e.(healthyBackends := None)
    case Unhealthy => e.(unhealthyBackends := None)
    case _ => e
  }

  function LoseCapacity(s: Source, c: Capacity): Capacity {
    match s
    case Instances => c.(ampereOcpuUsed := None, ampereMemoryGbUsed := None)
    case Backup => c.(objectStorageUsedBytes := None)
    case _ => c
  }

  /** b is a with source s lost, up to the order of equal names. */
  ghost predicate OnlyLoses(s: Source, warning: string, a: Snapshot, b: Snapshot) {
    && b.updatedAt == a.updatedAt && b.stale == a.stale
    && multiset(b.nodes) == multiset(LoseNodes(s, a.nodes))
    && multiset(b.alarms) == (if s.Alarms? then multiset{} else multiset(a.alarms))
    && b.ingress == LoseIngress(s, a.ingress)
    && b.backups == (if s.Backup? then Backups(a.backups.bucket, None, None, []) else a.backups)
    && multiset(b.uptime) == (if s.UptimeMetric? then multiset{} else multiset(a.uptime))
    && b.capacity == LoseCapacity(s, a.capacity)
    && multiset(b.warnings) == multiset(a.warnings) + multiset{warning}
  }

  // ----- a permutation stays one under a map -----

  lemma RemoveOne<T>(b: seq<T>, j: nat)
    requires j < |b|
    ensures multiset(b[..j] + b[j + 1..]) == multiset(b) - multiset{b[j]}
  {
    assert b == b[..j] + [b[j]] + b[j + 1..];
  }

  lemma MapRemoveOne<T, U>(f: T -> U, b: seq<T>, j: nat)
    requires j < |b|
    ensures multiset(MapSeq(f, b)) == multiset(MapSeq(f, b[..j] + b[j + 1..])) + multiset{f(b[j])}
  {
    var m := MapSeq(f, b);
    assert MapSeq(f, b[..j] + b[j + 1..]) == m[..j] + m[j + 1..];
    RemoveOne(m, j);
    assert m[j] in multiset(m);
  }

  lemma MapElementsStep<T, U>(f: T -> U, a: seq<T>, b: seq<T>, j: nat)
    requires a != [] && j < |b| && b[j] == a[0]
    requires multiset(MapSeq(f, a[1..])) == multiset(MapSeq(f, b[..j] + b[j + 1..]))
    ensures multiset(MapSeq(f, a)) == multiset(MapSeq(f, b))
  {
    assert a[..0] + a[1..] == a[1..];
    MapRemoveOne(f, a, 0);
    MapRemoveOne(f, b, j);
  }

  lemma {:induction false} MapElements<T, U>(f: T -> U, a: seq<T>, b: seq<T>)
    requires multiset(a) == multiset(b)
    ensures multiset(MapSeq(f, a)) == multiset(MapSeq(f, b))
    decreases |a|
  {
    assert |multiset(a)| == |multiset(b)|;
    if a != [] {
      assert a[0] in multiset(b);
      var j :| 0 <= j < |b| && b[j] == a[0];
      assert a[..0] + a[1..] == a[1..];
      RemoveOne(a, 0);
      RemoveOne(b, j);
      MapElements(f, a[1..], b[..j] + b[j + 1..]);
      MapElementsStep(f, a, b, j);
    }
  }

  // ----- the two records differ in one field -----

  lemma RecordsDiffer(outs: Outcomes, s: Source, err: string, order: seq<Source>, r: Record, q: Record, t: Source)
    requires IsResult(outs, r, order) && IsResult(Break(outs, s, err), q, order)
    ensures t != s ==> Field(q, t) == Field(r, t) && (t in q.ok <==> t in r.ok)
    ensures Field(q, s) == Blank(s) && s !in q.ok
  {
    assert Settled(outs, r, t) && Settled(Break(outs, s, err), q, t) && Settled(Break(outs, s, err), q, s);
  }

  lemma {:induction false} SameFailures(outs: Outcomes, s: Source, err: string, order: seq<Source>)
    requires s !in order
    ensures Failures(Break(outs, s, err), order) == Failures(outs, order)
    decreases |order|
  {
    if order != [] { SameFailures(outs, s, err, order[1..]); }
  }

  lemma {:induction false} OneMoreFailure(outs: Outcomes, s: Source, err: string, order: seq<Source>)
    requires outs(s).Answered? && s in order && forall i, j :: 0 <= i < j < |order| ==> order[i] != order[j]
    ensures multiset(Failures(Break(outs, s, err), order))
            == multiset(Failures(outs, order)) + multiset{Warning(s, err)}
    decreases |order|
  {
    if order[0] == s {
      SameFailures(outs, s, err, order[1..]);
    } else {
      assert s in order[1..];
      OneMoreFailure(outs, s, err, order[1..]);
    }
  }

  // ----- each part of the snapshot is determined by its own fields -----

  lemma NodesMapped(cfg: Config, s: Source, r: Record, q: Record, c: map<string, Series>, m: map<string, Series>,
                    d: map<string, Series>, n: map<string, Series>)
    requires q.instances == if s.Instances? then [] else r.instances
    requires !s.Cpu? ==> d == c && (Cpu in q.ok <==> Cpu in r.ok)
    requires !s.Memory? ==> n == m && (Memory in q.ok <==> Memory in r.ok)
    requires s !in q.ok
    ensures NodesOf(cfg, q, d, n) == LoseNodes(s, NodesOf(cfg, r, c, m))
  {
  }

  lemma NodesSame(cfg: Config, s: Source, r: Record, q: Record, c: map<string, Series>, m: map<string, Series>,
                  d: map<string, Series>, n: map<string, Series>)
    requires Newest(r.cpu, DimKey("instance"), NON_EMPTY, c) && Newest(r.memory, DimKey("instance"), NON_EMPTY, m)
    requires Newest(q.cpu, DimKey("instance"), NON_EMPTY, d) && Newest(q.memory, DimKey("instance"), NON_EMPTY, n)
    requires q.instances == if s.Instances? then [] else r.instances
    requires !s.Cpu? ==> q.cpu == r.cpu && (Cpu in q.ok <==> Cpu in r.ok)
    requires !s.Memory? ==> q.memory == r.memory && (Memory in q.ok <==> Memory in r.ok)
    requires s !in q.ok
    ensures NodesOf(cfg, q, d, n) == LoseNodes(s, NodesOf(cfg, r, c, m))
  {
    if !s.Cpu? { NewestUnique(r.cpu, DimKey("instance"), NON_EMPTY, c, d); }
    if !s.Memory? { NewestUnique(r.memory, DimKey("instance"), NON_EMPTY, m, n); }
    NodesMapped(cfg, s, r, q, c, m, d, n);
  }

  lemma LostElements(s: Source, x: seq<Node>, y: seq<Node>)
    requires multiset(x) == multiset(y)
    ensures multiset(LoseNodes(s, x)) == multiset(LoseNodes(s, y))
  {
    if s.Cpu? {
      MapElements(WITHOUT_CPU, x, y);
    } else if s.Memory? {
      MapElements(WITHOUT_MEMORY, x, y);
    }
  }

  lemma NodesLost(cfg: Config, s: Source, r: Record, q: Record, a: seq<Node>, b: seq<Node>)
    requires HasNodes(cfg, r, a) && HasNodes(cfg, q, b)
    requires q.instances == if s.Instances? then [] else r.instances
    requires !s.Cpu? ==> q.cpu == r.cpu && (Cpu in q.ok <==> Cpu in r.ok)
    requires !s.Memory? ==> q.memory == r.memory && (Memory in q.ok <==> Memory in r.ok)
    requires s !in q.ok
    ensures multiset(b) == multiset(LoseNodes(s, a))
  {
    var c, m :| Newest(r.cpu, DimKey("instance"), NON_EMPTY, c) && Newest(r.memory, DimKey("instance"), NON_EMPTY, m)
             && multiset(a) == multiset(NodesOf(cfg, r, c, m));
    var d, n :| Newest(q.cpu, DimKey("instance"), NON_EMPTY, d) && Newest(q.memory, DimKey("instance"), NON_EMPTY, n)
             && multiset(b) == multiset(NodesOf(cfg, q, d, n));
    NodesSame(cfg, s, r, q, c, m, d, n);
    LostElements(s, NodesOf(cfg, r, c, m), a);
  }

  lemma BackendCountUnique(ok: bool, series: seq<Series>, m: Option<int>, n: Option<int>)
    requires IsBackendCount(ok, series, m) && IsBackendCount(ok, series, n)
    ensures m == n
  {
    if ok && series != [] {
      var x :| IsGreatest(series, x) && m.value == Truncate(x + 0.5);
      var y :| IsGreatest(series, y) && n.value == Truncate(y + 0.5);
      GreatestUnique(series, x, y);
    }
  }

  lemma LatestUnique(prefixes: seq<string>, objects: seq<Object>, p: string, t: Option<Time>, u: Option<Time>)
    requires IsLatest(prefixes, objects, p, t) && IsLatest(prefixes, objects, p, u)
    ensures t == u
  {
  }

  lemma BackupsUnique(cfg: Config, r: Record, q: Record, b: Backups, c: Backups)
    requires HasBackups(cfg, r, b) && HasBackups(cfg, q, c)
    requires q.objects == r.objects && (Backup in q.ok <==> Backup in r.ok)
    ensures b == c
  {
    if Backup in r.ok {
      forall i | 0 <= i < |cfg.prefixes| ensures b.streams[i] == c.streams[i] {
        assert IsStream(cfg.prefixes, r.objects, cfg.prefixes[i], b.streams[i]);
        assert IsStream(cfg.prefixes, r.objects, cfg.prefixes[i], c.streams[i]);
        LatestUnique(cfg.prefixes, r.objects, cfg.prefixes[i], b.streams[i].newest, c.streams[i].newest);
      }
      assert b.streams == c.streams;
    }
  }

  lemma UptimeUnique(r: Record, q: Record, u: seq<Uptime>, v: seq<Uptime>)
    requires HasUptime(r, u) && HasUptime(q, v)
    requires q.uptime == r.uptime && (UptimeMetric in q.ok <==> UptimeMetric in r.ok)
    ensures multiset(u) == multiset(v)
  {
    if UptimeMetric in r.ok { UptimeDetermined(r.uptime, u, v); }
  }

  lemma IngressLost(s: Source, r: Record, q: Record, a: Entrance, b: Entrance)
    requires HasIngress(r, a) && HasIngress(q, b) && s !in q.ok
    requires q.publicIp == if s.Ingress? then "" else r.publicIp
    requires !s.Healthy? ==> q.healthy == r.healthy && (Healthy in q.ok <==> Healthy in r.ok)
    requires !s.Unhealthy? ==> q.unhealthy == r.unhealthy && (Unhealthy in q.ok <==> Unhealthy in r.ok)
    ensures b == LoseIngress(s, a)
  {
    if !s.Healthy? { BackendCountUnique(Healthy in r.ok, r.healthy, a.healthyBackends, b.healthyBackends); }
    if !s.Unhealthy? { BackendCountUnique(Unhealthy in r.ok, r.unhealthy, a.unhealthyBackends, b.unhealthyBackends); }
  }

  /** The fields of the two records, spelled out. */
  ghost predicate DifferOnly(s: Source, r: Record, q: Record) {
    && s !in q.ok
    && (forall t :: t != s ==> (t in q.ok <==> t in r.ok))
    && q.instances == (if s.Instances? then [] else r.instances)
    && q.alarms == (if s.Alarms? then [] else r.alarms)
    && q.publicIp == (if s.Ingress? then "" else r.publicIp)
    && q.objects == (if s.Backup? then [] else r.objects)
    && (!s.Cpu? ==> q.cpu == r.cpu) && (!s.Memory? ==> q.memory == r.memory)
    && (!s.Healthy? ==> q.healthy == r.healthy) && (!s.Unhealthy? ==> q.unhealthy == r.unhealthy)
    && (!s.UptimeMetric? ==> q.uptime == r.uptime)
  }

  lemma FieldsDiffer(s: Source, r: Record, q: Record)
    requires forall t :: Field(q, t) == if t == s then Blank(s) else Field(r, t)
    requires s !in q.ok && forall t :: t != s ==> (t in q.ok <==> t in r.ok)
    ensures DifferOnly(s, r, q)
  {
    assert Field(q, Instances) == InstanceList(q.instances) && Field(q, Alarms) == AlarmList(q.alarms);
    assert Field(q, Ingress) == Address(q.publicIp) && Field(q, Backup) == ObjectList(q.objects);
    assert Field(q, Cpu) == Points(q.cpu) && Field(q, Memory) == Points(q.memory);
    assert Field(q, Healthy) == Points(q.healthy) && Field(q, Unhealthy) == Points(q.unhealthy);
    assert Field(q, UptimeMetric) == Points(q.uptime);
  }

  lemma ResultsDifferOnly(outs: Outcomes, s: Source, err: string, order: seq<Source>, r: Record, q: Record)
    requires IsResult(outs, r, order) && IsResult(Break(outs, s, err), q, order)
    ensures DifferOnly(s, r, q)
  {
    forall t
      ensures Field(q, t) == (if t == s then Blank(s) else Field(r, t))
              && s !in q.ok && (t != s ==> (t in q.ok <==> t in r.ok))
    {
      RecordsDiffer(outs, s, err, order, r, q, t);
    }
    FieldsDiffer(s, r, q);
  }

  lemma AlarmsAndCapacityLost(cfg: Config, s: Source, r: Record, q: Record, a: Snapshot, b: Snapshot)
    requires DifferOnly(s, r, q)
    requires HasAlarms(r, a.alarms) && HasAlarms(q, b.alarms)
    requires HasCapacity(cfg, r, a.capacity) && HasCapacity(cfg, q, b.capacity)
    ensures multiset(b.alarms) == if s.Alarms? then multiset{} else multiset(a.alarms)
    ensures b.capacity == LoseCapacity(s, a.capacity)
  {
  }

  lemma NodesAndIngressLost(cfg: Config, s: Source, r: Record, q: Record, a: Snapshot, b: Snapshot)
    requires DifferOnly(s, r, q)
    requires HasNodes(cfg, r, a.nodes) && HasNodes(cfg, q, b.nodes)
    requires HasIngress(r, a.ingress) && HasIngress(q, b.ingress)
    ensures multiset(b.nodes) == multiset(LoseNodes(s, a.nodes)) && b.ingress == LoseIngress(s, a.ingress)
  {
    NodesLost(cfg, s, r, q, a.nodes, b.nodes);
    IngressLost(s, r, q, a.ingress, b.ingress);
  }

  lemma BackupsAndUptimeLost(cfg: Config, s: Source, r: Record, q: Record, a: Snapshot, b: Snapshot)
    requires DifferOnly(s, r, q)
    requires HasBackups(cfg, r, a.backups) && HasBackups(cfg, q, b.backups)
    requires HasUptime(r, a.uptime) && HasUptime(q, b.uptime)
    ensures b.backups == if s.Backup? then Backups(a.backups.bucket, None, None, []) else a.backups
    ensures multiset(b.uptime) == if s.UptimeMetric? then multiset{} else multiset(a.uptime)
  {
    if !s.Backup? { BackupsUnique(cfg, r, q, a.backups, b.backups); }
    if !s.UptimeMetric? { UptimeUnique(r, q, a.uptime, b.uptime); }
  }

  lemma WarningsGained(outs: Outcomes, s: Source, err: string, order: seq<Source>, r: Record, q: Record)
    requires Complete(order) && outs(s).Answered?
    requires IsResult(outs, r, order) && IsResult(Break(outs, s, err), q, order)
    ensures multiset(SortedStrings(q.warnings)) == multiset(SortedStrings(r.warnings)) + multiset{Warning(s, err)}
  {
    OneMoreFailure(outs, s, err, order);
  }

  /**
   Turning one source's answer into a failure changes only that source's own fields (to null or empty, never
   to a zero reading) and adds its warning, for every source and every snapshot the two runs can assemble.
   */
  lemma FailureCostsOnlyItsOwn(cfg: Config, now: Time, outs: Outcomes, s: Source, err: string, order: seq<Source>,
                               r: Record, q: Record, a: Snapshot, b: Snapshot)
    requires Complete(order) && outs(s).Answered?
    requires IsResult(outs, r, order) && IsResult(Break(outs, s, err), q, order)
    requires IsSnapshot(cfg, now, r, a) && IsSnapshot(cfg, now, q, b)
    ensures OnlyLoses(s, Warning(s, err), a, b)
  {
    ResultsDifferOnly(outs, s, err, order, r, q);
    NodesAndIngressLost(cfg, s, r, q, a, b);
    BackupsAndUptimeLost(cfg, s, r, q, a, b);
    AlarmsAndCapacityLost(cfg, s, r, q, a, b);
    WarningsGained(outs, s, err, order, r, q);
  }

  // ----- the whole collection -----

  /** Equal up to the order of equal names. */
  ghost predicate SameUpToTies(a: Snapshot, b: Snapshot) {
    && b.updatedAt == a.updatedAt && b.stale == a.stale
    && multiset(b.nodes) == multiset(a.nodes) && multiset(b.alarms) == multiset(a.alarms)
    && b.ingress == a.ingress && b.backups == a.backups
    && multiset(b.uptime) == multiset(a.uptime)
    && b.capacity == a.capacity && b.warnings == a.warnings
  }

  lemma NodesDetermined(cfg: Config, r: Record, a: seq<Node>, b: seq<Node>)
    requires HasNodes(cfg, r, a) && HasNodes(cfg, r, b)
    ensures multiset(a) == multiset(b)
  {
    var c, m :| Newest(r.cpu, DimKey("instance"), NON_EMPTY, c) && Newest(r.memory, DimKey("instance"), NON_EMPTY, m)
             && multiset(a) == multiset(NodesOf(cfg, r, c, m));
    var d, n :| Newest(r.cpu, DimKey("instance"), NON_EMPTY, d) && Newest(r.memory, DimKey("instance"), NON_EMPTY, n)
             && multiset(b) == multiset(NodesOf(cfg, r, d, n));
    NewestUnique(r.cpu, DimKey("instance"), NON_EMPTY, c, d);
    NewestUnique(r.memory, DimKey("instance"), NON_EMPTY, m, n);
  }

  /** The specification of `assemble` leaves no choice but the order of equal names. */
  lemma SnapshotDetermined(cfg: Config, now: Time, r: Record, a: Snapshot, b: Snapshot)
    requires IsSnapshot(cfg, now, r, a) && IsSnapshot(cfg, now, r, b)
    ensures SameUpToTies(a, b)
  {
    NodesDetermined(cfg, r, a.nodes, b.nodes);
    BackendCountUnique(Healthy in r.ok, r.healthy, a.ingress.healthyBackends, b.ingress.healthyBackends);
    BackendCountUnique(Unhealthy in r.ok, r.unhealthy, a.ingress.unhealthyBackends, b.ingress.unhealthyBackends);
    BackupsUnique(cfg, r, r, a.backups, b.backups);
    UptimeUnique(r, r, a.uptime, b.uptime);
  }

  lemma NodesIgnoreWarnings(cfg: Config, r: Record, warnings: seq<string>, nodes: seq<Node>)
    requires HasNodes(cfg, r, nodes)
    ensures HasNodes(cfg, r.(warnings := warnings), nodes)
  {
    var c, m :| Newest(r.cpu, DimKey("instance"), NON_EMPTY, c) && Newest(r.memory, DimKey("instance"), NON_EMPTY, m)
             && multiset(nodes) == multiset(NodesOf(cfg, r, c, m));
    assert NodesOf(cfg, r.(warnings := warnings), c, m) == NodesOf(cfg, r, c, m);
    NodesFound(cfg, r.(warnings := warnings), c, m, nodes);
  }

  lemma PartsIgnoreWarnings(cfg: Config, r: Record, warnings: seq<string>, a: Snapshot)
    requires HasAlarms(r, a.alarms) && HasIngress(r, a.ingress) && HasBackups(cfg, r, a.backups)
    requires HasUptime(r, a.uptime) && HasCapacity(cfg, r, a.capacity)
    ensures var q := r.(warnings := warnings);
            && HasAlarms(q, a.alarms) && HasIngress(q, a.ingress) && HasBackups(cfg, q, a.backups)
            && HasUptime(q, a.uptime) && HasCapacity(cfg, q, a.capacity)
  {
  }

  /** Sorting the warnings beforehand changes nothing. */
  lemma SortedFirst(cfg: Config, now: Time, r: Record, a: Snapshot)
    requires IsSnapshot(cfg, now, r, a)
    ensures IsSnapshot(cfg, now, r.(warnings := SortedStrings(r.warnings)), a)
  {
    var sorted := SortedStrings(r.warnings);
    SortedUnique(SortedStrings(sorted), sorted);
    NodesIgnoreWarnings(cfg, r, sorted, a.nodes);
    PartsIgnoreWarnings(cfg, r, sorted, a);
  }

  /** Collect as a whole: whatever the interleaving, the same outcomes give the same snapshot. */
  lemma CollectIsDeterministic(cfg: Config, now: Time, outs: Outcomes, x: seq<Source>, y: seq<Source>,
                               a: Snapshot, b: Snapshot)
    requires Typed(outs) && AllFinished(FanOut(outs, x)) && AllFinished(FanOut(outs, y))
    requires IsSnapshot(cfg, now, FanOut(outs, x).r, a) && IsSnapshot(cfg, now, FanOut(outs, y).r, b)
    ensures SameUpToTies(a, b)
  {
    var r, q := FanOut(outs, x).r, FanOut(outs, y).r;
    OrderIsComplete();
    FanOutIsDeterministic(outs, x, ORDER);
    FanOutIsDeterministic(outs, y, ORDER);
    ResultUnique(outs, r.(warnings := SortedStrings(r.warnings)), q.(warnings := SortedStrings(q.warnings)), ORDER);
    SortedFirst(cfg, now, r, a);
    SortedFirst(cfg, now, q, b);
    SnapshotDetermined(cfg, now, r.(warnings := SortedStrings(r.warnings)), a, b);
  }
}
