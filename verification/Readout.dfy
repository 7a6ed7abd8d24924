/**
 What a collected snapshot shows (internal/infra/collect.go), read off the outcomes of the nine sources alone: from
 the answers, through any interleaving of the fan-out and the assembly, to every field of the snapshot.
 */
module Readout {
  import opened Common
  import opened Strings
  import opened Summaries
  import opened Collector

  // ----- what each source answered -----

  function InstancesIn(o: Outcome): seq<Instance> {
    if o.Answered? && o.data.InstanceList? then o.data.instances else []
  }

  function AlarmsIn(o: Outcome): seq<Alarm> {
    if o.Answered? && o.data.AlarmList? then o.data.alarms else []
  }

  function AddressIn(o: Outcome): string {
    if o.Answered? && o.data.Address? then o.data.ip else ""
  }

  function ObjectsIn(o: Outcome): seq<Object> {
    if o.Answered? && o.data.ObjectList? then o.data.objects else []
  }

  function PointsIn(o: Outcome): seq<Series> {
    if o.Answered? && o.data.Points? then o.data.series else []
  }

  // ----- what the snapshot shows of it -----

  /** The newest point of the node of this name, or null if the source failed or has none. */
  ghost predicate ShowsReading(o: Outcome, name: string, r: Option<real>) {
    var series := PointsIn(o);
    match r
    case None => name != "" ==> forall j :: 0 <= j < |series| ==> !Labelled(series[j], "instance", name)
    case Some(v) => name != "" && exists j :: LastWord(series, "instance", name, j) && series[j].value == v
  }

  ghost predicate ShowsNode(cfg: Config, outs: Outcomes, i: Instance, n: Node) {
    && n.name == i.name && n.state == i.state && n.shape == i.shape && n.ocpus == i.ocpus && n.memoryGb == i.memoryGb
    && n.faultDomain == i.faultDomain && n.privateIp == i.privateIp && n.role == cfg.roleFor(i.name)
    && ShowsReading(outs(Cpu), i.name, n.cpuPercent) && ShowsReading(outs(Memory), i.name, n.memoryPercent)
  }

  /** One node per instance, in the order of their names. */
  ghost predicate ShowsNodes(cfg: Config, outs: Outcomes, nodes: seq<Node>) {
    var instances := InstancesIn(outs(Instances));
    && (forall i, j :: 0 <= i <= j < |nodes| ==> AtMost(nodes[i].name, nodes[j].name))
    && exists listed: seq<Node> :: multiset(listed) == multiset(nodes) && NodeByNode(cfg, outs, instances, listed)
  }

  ghost predicate NodeByNode(cfg: Config, outs: Outcomes, instances: seq<Instance>, listed: seq<Node>) {
    |listed| == |instances| && forall n :: 0 <= n < |listed| ==> ShowsNode(cfg, outs, instances[n], listed[n])
  }

  ghost predicate ShowsBackends(o: Outcome, n: Option<int>) {
    if PointsIn(o) == [] then n == None
    else n.Some? && exists best :: IsGreatest(PointsIn(o), best) && n.value == Truncate(best + 0.5)
  }

  ghost predicate ShowsCapacity(cfg: Config, outs: Outcomes, c: Capacity) {
    && c.ampereOcpuTotal == 2.0 && c.ampereMemoryGbTotal == 12.0 && c.objectStorageTotalBytes == 20 * 1024 * 1024 * 1024
    && (outs(Instances).Failed? ==> c.ampereOcpuUsed == None && c.ampereMemoryGbUsed == None)
    && (outs(Instances).Answered? ==>
          && c.ampereOcpuUsed == Some(AmpereOcpu(cfg, InstancesIn(outs(Instances))))
          && c.ampereMemoryGbUsed == Some(AmpereMemory(cfg, InstancesIn(outs(Instances)))))
    && c.objectStorageUsedBytes ==
         (if outs(Backup).Answered? then Some(Wrap64(TotalSize(ObjectsIn(outs(Backup))))) else None)
  }

  /** A failed source is null or empty and named in one warning; an answered one is shown and not warned about. */
  ghost predicate Shows(cfg: Config, now: Time, outs: Outcomes, s: Snapshot) {
    && s.updatedAt == now && !s.stale
    && ShowsNodes(cfg, outs, s.nodes)
    && multiset(s.alarms) == multiset(AlarmsIn(outs(Alarms)))
    && (forall i, j :: 0 <= i <= j < |s.alarms| ==> AtMost(s.alarms[i].name, s.alarms[j].name))
    && s.ingress.publicIp == AddressIn(outs(Ingress))
    && ShowsBackends(outs(Healthy), s.ingress.healthyBackends)
    && ShowsBackends(outs(Unhealthy), s.ingress.unhealthyBackends)
    && (if outs(Backup).Answered? then IsBackups(cfg.bucket, cfg.prefixes, ObjectsIn(outs(Backup)), s.backups)
        else s.backups == Backups(cfg.bucket, None, None, []))
    && (if outs(UptimeMetric).Answered? then IsUptime(PointsIn(outs(UptimeMetric)), s.uptime) else s.uptime == [])
    && ShowsCapacity(cfg, outs, s.capacity)
    && multiset(s.warnings) == multiset(Failures(outs, ORDER))
    && (forall x :: outs(x).Failed? ==> (Label(x) + ": " + outs(x).err) in s.warnings)
  }

  // ----- the proof, part by part -----

  lemma RecordTells(outs: Outcomes, r: Record)
    requires Typed(outs) && forall s :: Settled(outs, r, s)
    ensures r.instances == InstancesIn(outs(Instances)) && r.alarms == AlarmsIn(outs(Alarms))
    ensures r.publicIp == AddressIn(outs(Ingress))
    ensures r.objects == ObjectsIn(outs(Backup))
    ensures r.cpu == PointsIn(outs(Cpu)) && r.memory == PointsIn(outs(Memory))
    ensures r.healthy == PointsIn(outs(Healthy)) && r.unhealthy == PointsIn(outs(Unhealthy))
    ensures r.uptime == PointsIn(outs(UptimeMetric))
    ensures forall s :: s in r.ok <==> outs(s).Answered?
  {
    forall s
      ensures Field(r, s) == (if outs(s).Answered? then outs(s).data else Blank(s))
      ensures s in r.ok <==> outs(s).Answered?
    {
      assert Settled(outs, r, s);
    }
    assert Field(r, Instances) == InstanceList(r.instances) && Field(r, Alarms) == AlarmList(r.alarms);
    assert Field(r, Ingress) == Address(r.publicIp) && Field(r, Backup) == ObjectList(r.objects);
    assert Field(r, Cpu) == Points(r.cpu) && Field(r, Memory) == Points(r.memory);
    assert Field(r, Healthy) == Points(r.healthy) && Field(r, Unhealthy) == Points(r.unhealthy);
    assert Field(r, UptimeMetric) == Points(r.uptime);
  }

  lemma ReadingTells(o: Outcome, ok: bool, latest: map<string, Series>, name: string)
    requires ok == o.Answered? && Newest(PointsIn(o), DimKey("instance"), NON_EMPTY, latest)
    ensures ShowsReading(o, name, Reading(ok, latest, name))
  {
    LatestTells(PointsIn(o), "instance", latest);
  }

  lemma NodesTell(cfg: Config, outs: Outcomes, r: Record, nodes: seq<Node>)
    requires HasNodes(cfg, r, nodes) && r.instances == InstancesIn(outs(Instances))
    requires r.cpu == PointsIn(outs(Cpu)) && r.memory == PointsIn(outs(Memory))
    requires (Cpu in r.ok <==> outs(Cpu).Answered?) && (Memory in r.ok <==> outs(Memory).Answered?)
    ensures ShowsNodes(cfg, outs, nodes)
  {
    var cpu, memory :| Newest(r.cpu, DimKey("instance"), NON_EMPTY, cpu)
                    && Newest(r.memory, DimKey("instance"), NON_EMPTY, memory)
                    && multiset(nodes) == multiset(NodesOf(cfg, r, cpu, memory));
    var listed := NodesOf(cfg, r, cpu, memory);
    forall n | 0 <= n < |listed| ensures ShowsNode(cfg, outs, r.instances[n], listed[n]) {
      ReadingTells(outs(Cpu), Cpu in r.ok, cpu, r.instances[n].name);
      ReadingTells(outs(Memory), Memory in r.ok, memory, r.instances[n].name);
    }
    assert NodeByNode(cfg, outs, r.instances, listed);
    forall i, j | 0 <= i <= j < |nodes| ensures AtMost(nodes[i].name, nodes[j].name) {
      assert AtMost(NODE_NAME(nodes[i]), NODE_NAME(nodes[j]));
    }
  }

  lemma {:induction false} FailureIsNamed(outs: Outcomes, x: Source, order: seq<Source>)
    requires x in order && outs(x).Failed?
    ensures (Label(x) + ": " + outs(x).err) in Failures(outs, order)
    decreases |order|
  {
    if order[0] != x { FailureIsNamed(outs, x, order[1..]); }
  }

  lemma WarningsTell(outs: Outcomes, warnings: seq<string>)
    requires multiset(warnings) == multiset(Failures(outs, ORDER))
    ensures forall x :: outs(x).Failed? ==> (Label(x) + ": " + outs(x).err) in warnings
  {
    forall x | outs(x).Failed? ensures (Label(x) + ": " + outs(x).err) in warnings {
      InOrder(x);
      FailureIsNamed(outs, x, ORDER);
      assert (Label(x) + ": " + outs(x).err) in multiset(warnings);
    }
  }

  lemma PartsTell(cfg: Config, outs: Outcomes, r: Record, s: Snapshot)
    requires Typed(outs) && forall x :: Settled(outs, r, x)
    requires HasAlarms(r, s.alarms) && HasIngress(r, s.ingress) && HasBackups(cfg, r, s.backups)
    requires HasUptime(r, s.uptime) && HasCapacity(cfg, r, s.capacity)
    ensures multiset(s.alarms) == multiset(AlarmsIn(outs(Alarms)))
    ensures forall i, j :: 0 <= i <= j < |s.alarms| ==> AtMost(s.alarms[i].name, s.alarms[j].name)
    ensures ShowsBackends(outs(Healthy), s.ingress.healthyBackends)
    ensures ShowsBackends(outs(Unhealthy), s.ingress.unhealthyBackends)
    ensures ShowsCapacity(cfg, outs, s.capacity)
  {
    RecordTells(outs, r);
    forall i, j | 0 <= i <= j < |s.alarms| ensures AtMost(s.alarms[i].name, s.alarms[j].name) {
      assert AtMost(ALARM_NAME(s.alarms[i]), ALARM_NAME(s.alarms[j]));
    }
  }

  /**
   Collect from end to end: however the nine goroutines interleave, every field of the snapshot shows what its own
   sources answered and nothing else, and every failed source is null or empty and named in a warning.
   */
  lemma SnapshotTells(cfg: Config, now: Time, outs: Outcomes, schedule: seq<Source>, s: Snapshot)
    requires Typed(outs) && AllFinished(FanOut(outs, schedule))
    requires IsSnapshot(cfg, now, FanOut(outs, schedule).r, s)
    ensures Shows(cfg, now, outs, s)
  {
    var r := FanOut(outs, schedule).r;
    OrderIsComplete();
    FanOutIsDeterministic(outs, schedule, ORDER);
    RecordTells(outs, r);
    NodesTell(cfg, outs, r, s.nodes);
    PartsTell(cfg, outs, r, s);
    WarningsTell(outs, s.warnings);
  }

  /** The Ampere shares are sums over the instances of an Ampere shape: each counts its own, and cuts add up. */
  lemma {:induction false} AmpereAddsUp(cfg: Config, a: seq<Instance>, b: seq<Instance>)
    ensures AmpereOcpu(cfg, a + b) == AmpereOcpu(cfg, a) + AmpereOcpu(cfg, b)
    ensures AmpereMemory(cfg, a + b) == AmpereMemory(cfg, a) + AmpereMemory(cfg, b)
    ensures forall i :: AmpereOcpu(cfg, [i]) == if cfg.ampere(i.shape) then i.ocpus else 0.0
    ensures forall i :: AmpereMemory(cfg, [i]) == if cfg.ampere(i.shape) then i.memoryGb else 0.0
    decreases |b|
  {
    forall i: Instance
      ensures AmpereOcpu(cfg, [i]) == (if cfg.ampere(i.shape) then i.ocpus else 0.0)
      ensures AmpereMemory(cfg, [i]) == if cfg.ampere(i.shape) then i.memoryGb else 0.0
    {
      assert [i][..0] == [];
    }
    if b == [] {
      assert a + b == a;
    } else {
      AmpereAddsUp(cfg, a, b[..|b| - 1]);
      assert (a + b)[..|a + b| - 1] == a + b[..|b| - 1];
    }
  }
}
