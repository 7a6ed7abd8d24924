/**
 The snapshot collector (internal/infra/collect.go): nine concurrent reads into one locked record, then a pure
 assembly in which a failed source leaves null or empty, never zero.
 */
module Collector {
  import opened Common
  import opened Strings
  import opened Summaries

  datatype Source = Instances | Alarms | Ingress | Backup | Cpu | Memory | Healthy | Unhealthy | UptimeMetric

  /** The warning prefixes. */
  function Label(s: Source): string {
    match s
    case Instances => "instances"
    case Alarms => "alarms"
    case Ingress => "ingress"
    case Backup => "backups"
    case Cpu => "cpu-metrics"
    case Memory => "memory-metrics"
    case Healthy => "healthy-backends"
    case Unhealthy => "unhealthy-backends"
    case UptimeMetric => "uptime-metrics"
  }

  const ORDER := [Instances, Alarms, Ingress, Backup, Cpu, Memory, Healthy, Unhealthy, UptimeMetric]

  datatype Instance = Instance(id: string, name: string, state: string, shape: string, ocpus: real,
                               memoryGb: real, faultDomain: string, privateIp: string)

  datatype Alarm = Alarm(name: string, severity: string, status: string)

  /** What one source hands over. */
  datatype Data = NoData | InstanceList(instances: seq<Instance>) | AlarmList(alarms: seq<Alarm>)
                | Address(ip: string) | ObjectList(objects: seq<Object>) | Points(series: seq<Series>)

  /** The outcome of one read; a source that is not configured fails with that message. */
  datatype Outcome = Answered(data: Data) | Failed(err: string)

  type Outcomes = Source -> Outcome

  /** Answers come in the shape their source interface fixes. */
  ghost predicate Typed(outs: Outcomes) {
    forall s :: outs(s).Answered? ==> Shape(s, outs(s).data)
  }

  predicate Shape(s: Source, d: Data) {
    match s
    case Instances => d.InstanceList?
    case Alarms => d.AlarmList?
    case Ingress => d.Address?
    case Backup => d.ObjectList?
    case _ => d.Points?
  }

  /** The zero value a source's field starts from. */
  function Blank(s: Source): (d: Data)
    ensures Shape(s, d)
  {
    match s
    case Instances => InstanceList([])
    case Alarms => AlarmList([])
    case Ingress => Address("")
    case Backup => ObjectList([])
    case _ => Points([])
  }

  // ----- the locked record -----

  datatype Record = Record(
    instances: seq<Instance>, alarms: seq<Alarm>, publicIp: string, objects: seq<Object>,
    cpu: seq<Series>, memory: seq<Series>, healthy: seq<Series>, unhealthy: seq<Series>, uptime: seq<Series>,
    ok: set<Source>, warnings: seq<string>)

  const EMPTY := Record([], [], "", [], [], [], [], [], [], {}, [])

  function Field(r: Record, s: Source): Data {
    match s
    case Instances => InstanceList(r.instances)
    case Alarms => AlarmList(r.alarms)
    case Ingress => Address(r.publicIp)
    case Backup => ObjectList(r.objects)
    case Cpu => Points(r.cpu)
    case Memory => Points(r.memory)
    case Healthy => Points(r.healthy)
    case Unhealthy => Points(r.unhealthy)
    case UptimeMetric => Points(r.uptime)
  }

  function Write(r: Record, s: Source, d: Data): (w: Record)
    requires Shape(s, d)
    ensures Field(w, s) == d && w.ok == r.ok && w.warnings == r.warnings
    ensures forall t :: t != s ==> Field(w, t) == Field(r, t)
  {
    match s
    case Instances => r.(instances := d.instances)
    case Alarms => r.(alarms := d.alarms)
    case Ingress => r.(publicIp := d.ip)
    case Backup => r.(objects := d.objects)
    case Cpu => r.(cpu := d.series)
    case Memory => r.(memory := d.series)
    case Healthy => r.(healthy := d.series)
    case Unhealthy => r.(unhealthy := d.series)
    case UptimeMetric => r.(uptime := d.series)
  }

  // ----- the fan-out -----

  function Warning(s: Source, err: string): string {
    Label(s) + ": " + err
  }

  /** A goroutine: still calling, data written but not yet marked, or finished. */
  datatype Pc = Calling | Written | Finished

  datatype State = State(r: Record, pc: Source -> Pc)

  const START := State(EMPTY, s => Calling)

  function Move(pc: Source -> Pc, s: Source, p: Pc): Source -> Pc {
    t => if t == s then p else pc(t)
  }

  /** The next locked step of the goroutine of source s. */
  function Advance(outs: Outcomes, st: State, s: Source): State {
    match st.pc(s)
    case Calling =>
      if outs(s).Failed? then
        State(st.r.(warnings := st.r.warnings + [Warning(s, outs(s).err)]), Move(st.pc, s, Finished))
      else if Shape(s, outs(s).data) then
        State(Write(st.r, s, outs(s).data), Move(st.pc, s, Written))
      else st
    case Written =>
      State(st.r.(ok := st.r.ok + {s}), Move(st.pc, s, Finished))
    case Finished => st
  }

  /** The record after one interleaving of the nine goroutines' locked steps. */
  function FanOut(outs: Outcomes, schedule: seq<Source>): State {
    if schedule == [] then START
    else Advance(outs, FanOut(outs, schedule[..|schedule| - 1]), schedule[|schedule| - 1])
  }

  ghost predicate AllFinished(st: State) {
    forall s :: st.pc(s).Finished?
  }

  /** The warnings of the failed sources among `order` that have got that far. */
  function Reported(outs: Outcomes, pc: Source -> Pc, order: seq<Source>): seq<string> {
    if order == [] then []
    else (if pc(order[0]).Finished? && outs(order[0]).Failed? then [Warning(order[0], outs(order[0]).err)] else [])
         + Reported(outs, pc, order[1..])
  }

  ghost predicate Progress(outs: Outcomes, st: State, s: Source) {
    && Field(st.r, s) == (if st.pc(s).Calling? || outs(s).Failed? then Blank(s) else outs(s).data)
    && (s in st.r.ok <==> st.pc(s).Finished? && outs(s).Answered?)
    && (st.pc(s).Written? ==> outs(s).Answered?)
  }

  ghost predicate Complete(order: seq<Source>) {
    (forall s :: s in order) && forall i, j :: 0 <= i < j < |order| ==> order[i] != order[j]
  }

  ghost predicate Inv(outs: Outcomes, st: State, order: seq<Source>) {
    && (forall s :: Progress(outs, st, s))
    && multiset(st.r.warnings) == multiset(Reported(outs, st.pc, order))
  }

  lemma {:induction false} ReportedUnchanged(outs: Outcomes, pc: Source -> Pc, qc: Source -> Pc, order: seq<Source>)
    requires forall s <- order :: outs(s).Failed? ==> (pc(s).Finished? <==> qc(s).Finished?)
    ensures Reported(outs, pc, order) == Reported(outs, qc, order)
    decreases |order|
  {
    if order != [] {
      assert order[0] in order;
      ReportedUnchanged(outs, pc, qc, order[1..]);
    }
  }

  lemma {:induction false} ReportedGrows(outs: Outcomes, pc: Source -> Pc, s: Source, order: seq<Source>)
    requires s in order && outs(s).Failed? && !pc(s).Finished?
    requires forall i, j :: 0 <= i < j < |order| ==> order[i] != order[j]
    ensures multiset(Reported(outs, Move(pc, s, Finished), order)) ==
            multiset(Reported(outs, pc, order)) + multiset{Warning(s, outs(s).err)}
    decreases |order|
  {
    var qc := Move(pc, s, Finished);
    if order[0] == s {
      ReportedUnchanged(outs, pc, qc, order[1..]);
    } else {
      assert s in order[1..];
      ReportedGrows(outs, pc, s, order[1..]);
    }
  }

  lemma InOrder(s: Source)
    ensures s in ORDER
  {
    match s
    case Instances => assert ORDER[0] == s;
    case Alarms => assert ORDER[1] == s;
    case Ingress => assert ORDER[2] == s;
    case Backup => assert ORDER[3] == s;
    case Cpu => assert ORDER[4] == s;
    case Memory => assert ORDER[5] == s;
    case Healthy => assert ORDER[6] == s;
    case Unhealthy => assert ORDER[7] == s;
    case UptimeMetric => assert ORDER[8] == s;
  }

  lemma OrderIsComplete()
    ensures Complete(ORDER)
  {
    forall s ensures s in ORDER { InOrder(s); }
  }

  /** Warnings and ok marks leave the data alone. */
  lemma FieldsApart(r: Record, ok: set<Source>, warnings: seq<string>, s: Source)
    ensures Field(r.(ok := ok, warnings := warnings), s) == Field(r, s)
  {
  }

  lemma AdvanceEffect(outs: Outcomes, st: State, s: Source, u: Source)
    requires Typed(outs)
    ensures var t := Advance(outs, st, s);
            && Field(t.r, u) == (if u == s && st.pc(s).Calling? && outs(s).Answered? then outs(s).data
                                 else Field(st.r, u))
            && (u in t.r.ok <==> u in st.r.ok || (u == s && st.pc(s).Written?))
            && t.r.warnings == st.r.warnings +
                 (if st.pc(s).Calling? && outs(s).Failed? then [Warning(s, outs(s).err)] else [])
            && t.pc(u) == (if u != s then st.pc(u)
                           else if st.pc(s).Calling? && outs(s).Answered? then Written else Finished)
  {
    var t := Advance(outs, st, s);
    FieldsApart(st.r, t.r.ok, t.r.warnings, u);
    assert st.r.warnings + [] == st.r.warnings;
  }

  lemma ProgressKept(outs: Outcomes, st: State, s: Source, u: Source)
    requires Typed(outs) && Progress(outs, st, u) && Progress(outs, st, s)
    ensures Progress(outs, Advance(outs, st, s), u)
  {
    AdvanceEffect(outs, st, s, u);
  }

  lemma WarningsKept(outs: Outcomes, st: State, s: Source, order: seq<Source>)
    requires Typed(outs) && Complete(order) && Progress(outs, st, s)
    requires multiset(st.r.warnings) == multiset(Reported(outs, st.pc, order))
    ensures var t := Advance(outs, st, s); multiset(t.r.warnings) == multiset(Reported(outs, t.pc, order))
  {
    var t := Advance(outs, st, s);
    AdvanceEffect(outs, st, s, s);
    if st.pc(s).Calling? && outs(s).Failed? {
      ReportedGrows(outs, st.pc, s, order);
      ReportedUnchanged(outs, Move(st.pc, s, Finished), t.pc, order);
    } else {
      forall u { AdvanceEffect(outs, st, s, u); }
      ReportedUnchanged(outs, st.pc, t.pc, order);
    }
  }

  lemma AdvanceKeeps(outs: Outcomes, st: State, s: Source, order: seq<Source>)
    requires Typed(outs) && Complete(order) && Inv(outs, st, order)
    ensures Inv(outs, Advance(outs, st, s), order)
  {
    assert Progress(outs, st, s);
    WarningsKept(outs, st, s, order);
    forall u ensures Progress(outs, Advance(outs, st, s), u) {
      assert Progress(outs, st, u);
      ProgressKept(outs, st, s, u);
    }
  }

  lemma {:induction false} NothingReported(outs: Outcomes, order: seq<Source>)
    ensures Reported(outs, START.pc, order) == []
    decreases |order|
  {
    if order != [] { NothingReported(outs, order[1..]); }
  }

  lemma StartProgress(outs: Outcomes, s: Source)
    ensures Progress(outs, START, s)
  {
  }

  lemma {:induction false} FanOutKeeps(outs: Outcomes, schedule: seq<Source>, order: seq<Source>)
    requires Typed(outs) && Complete(order)
    ensures Inv(outs, FanOut(outs, schedule), order)
    decreases |schedule|
  {
    if schedule == [] {
      NothingReported(outs, order);
      forall s ensures Progress(outs, START, s) { StartProgress(outs, s); }
    } else {
      FanOutKeeps(outs, schedule[..|schedule| - 1], order);
      AdvanceKeeps(outs, FanOut(outs, schedule[..|schedule| - 1]), schedule[|schedule| - 1], order);
    }
  }

  function Occurrences(schedule: seq<Source>, s: Source): nat {
    if schedule == [] then 0
    else Occurrences(schedule[..|schedule| - 1], s) + if schedule[|schedule| - 1] == s then 1 else 0
  }

  /** A goroutine that has had its two steps is finished, so waiting for all nine comes to an end. */
  lemma {:induction false} TwoStepsFinish(outs: Outcomes, schedule: seq<Source>, s: Source)
    requires Typed(outs)
    ensures Occurrences(schedule, s) >= 2 ==> FanOut(outs, schedule).pc(s).Finished?
    ensures Occurrences(schedule, s) >= 1 ==> !FanOut(outs, schedule).pc(s).Calling?
    decreases |schedule|
  {
    if schedule != [] {
      TwoStepsFinish(outs, schedule[..|schedule| - 1], s);
      AdvanceEffect(outs, FanOut(outs, schedule[..|schedule| - 1]), schedule[|schedule| - 1], s);
    }
  }

  // ----- the result is a function of the outcomes alone -----

  function Failures(outs: Outcomes, order: seq<Source>): seq<string> {
    if order == [] then []
    else (if outs(order[0]).Failed? then [Warning(order[0], outs(order[0]).err)] else [])
         + Failures(outs, order[1..])
  }

  /** What the record holds once everything has finished, warnings in sorted order. */
  ghost predicate IsResult(outs: Outcomes, r: Record, order: seq<Source>) {
    && (forall s :: Settled(outs, r, s))
    && r.warnings == SortedStrings(Failures(outs, order))
  }

  ghost predicate Settled(outs: Outcomes, r: Record, s: Source) {
    && Field(r, s) == (if outs(s).Answered? then outs(s).data else Blank(s))
    && (s in r.ok <==> outs(s).Answered?)
  }

  lemma FieldsDetermine(a: Record, b: Record)
    requires (forall s :: Field(a, s) == Field(b, s)) && (forall s :: s in a.ok <==> s in b.ok)
    requires a.warnings == b.warnings
    ensures a == b
  {
    assert Field(a, Instances) == Field(b, Instances) && Field(a, Alarms) == Field(b, Alarms);
    assert Field(a, Ingress) == Field(b, Ingress) && Field(a, Backup) == Field(b, Backup);
    assert Field(a, Cpu) == Field(b, Cpu) && Field(a, Memory) == Field(b, Memory);
    assert Field(a, Healthy) == Field(b, Healthy) && Field(a, Unhealthy) == Field(b, Unhealthy);
    assert Field(a, UptimeMetric) == Field(b, UptimeMetric);
  }

  lemma {:induction false} AllReported(outs: Outcomes, pc: Source -> Pc, order: seq<Source>)
    requires forall s :: pc(s).Finished?
    ensures Reported(outs, pc, order) == Failures(outs, order)
    decreases |order|
  {
    if order != [] { AllReported(outs, pc, order[1..]); }
  }

  lemma FinishedIsSettled(outs: Outcomes, st: State, s: Source)
    requires Progress(outs, st, s) && st.pc(s).Finished?
    ensures Settled(outs, st.r, s)
    ensures Settled(outs, st.r.(warnings := SortedStrings(st.r.warnings)), s)
  {
    FieldsApart(st.r, st.r.ok, SortedStrings(st.r.warnings), s);
  }

  lemma FinishedWarnings(outs: Outcomes, schedule: seq<Source>, order: seq<Source>)
    requires Typed(outs) && Complete(order) && AllFinished(FanOut(outs, schedule))
    ensures multiset(FanOut(outs, schedule).r.warnings) == multiset(Failures(outs, order))
    ensures SortedStrings(FanOut(outs, schedule).r.warnings) == SortedStrings(Failures(outs, order))
  {
    var st := FanOut(outs, schedule);
    FanOutKeeps(outs, schedule, order);
    AllReported(outs, st.pc, order);
    SortedUnique(SortedStrings(st.r.warnings), SortedStrings(Failures(outs, order)));
  }

  /**
   Every interleaving that runs to the end leaves each source either marked ok or with exactly one warning,
   never both, and the same record once the warnings are sorted (`order` is any listing of the nine sources).
   */
  lemma FanOutIsDeterministic(outs: Outcomes, schedule: seq<Source>, order: seq<Source>)
    requires Typed(outs) && Complete(order) && AllFinished(FanOut(outs, schedule))
    ensures var r := FanOut(outs, schedule).r;
            && IsResult(outs, r.(warnings := SortedStrings(r.warnings)), order)
            && (forall s :: Settled(outs, r, s))
            && multiset(r.warnings) == multiset(Failures(outs, order))
  {
    FanOutKeeps(outs, schedule, order);
    FinishedWarnings(outs, schedule, order);
    var st := FanOut(outs, schedule);
    forall s
      ensures Settled(outs, st.r, s) && Settled(outs, st.r.(warnings := SortedStrings(st.r.warnings)), s)
    {
      assert Progress(outs, st, s);
      FinishedIsSettled(outs, st, s);
    }
  }

  lemma ResultUnique(outs: Outcomes, a: Record, b: Record, order: seq<Source>)
    requires IsResult(outs, a, order) && IsResult(outs, b, order)
    ensures a == b
  {
    forall s ensures Field(a, s) == Field(b, s) && (s in a.ok <==> s in b.ok) {
      assert Settled(outs, a, s) && Settled(outs, b, s);
    }
    FieldsDetermine(a, b);
  }

  // ----- the record as the goroutines see it -----

  /** The locked record; each method is one critical section. */
  class CollectResult {
    var instances: seq<Instance>
    var alarms: seq<Alarm>
    var publicIp: string
    var objects: seq<Object>
    var cpu: seq<Series>
    var memory: seq<Series>
    var healthy: seq<Series>
    var unhealthy: seq<Series>
    var uptime: seq<Series>
    var ok: set<Source>
    var warnings: seq<string>

    function View(): Record
      reads this
    {
      Record(instances, alarms, publicIp, objects, cpu, memory, healthy, unhealthy, uptime, ok, warnings)
    }

    constructor ()
      ensures View() == EMPTY
    {
      instances, alarms, publicIp, objects := [], [], "", [];
      cpu, memory, healthy, unhealthy, uptime := [], [], [], [], [];
      ok, warnings := {}, [];
    }

    method Store(s: Source, d: Data)
      requires Shape(s, d)
      modifies this
      ensures View() == Write(old(View()), s, d)
    {
      match s
      case Instances => instances := d.instances;
      case Alarms => alarms := d.alarms;
      case Ingress => publicIp := d.ip;
      case Backup => objects := d.objects;
      case Cpu => cpu := d.series;
      case Memory => memory := d.series;
      case Healthy => healthy := d.series;
      case Unhealthy => unhealthy := d.series;
      case UptimeMetric => uptime := d.series;
    }

    method Succeed(s: Source)
      modifies this
      ensures View() == old(View()).(ok := old(View()).ok + {s})
    {
      ok := ok + {s};
    }

    method Fail(s: Source, err: string)
      modifies this
      ensures View() == old(View()).(warnings := old(View()).warnings + [Warning(s, err)])
    {
      warnings := warnings + [Warning(s, err)];
    }

    /** One goroutine with nobody in between: the two steps the fan-out interleaves. */
    method Read(outs: Outcomes, s: Source, ghost pc: Source -> Pc)
      requires pc(s).Calling? && (outs(s).Answered? ==> Shape(s, outs(s).data))
      modifies this
      ensures View() == Advance(outs, Advance(outs, State(old(View()), pc), s), s).r
    {
      if outs(s).Failed? {
        Fail(s, outs(s).err);
        return;
      }
      Store(s, outs(s).data);
      Succeed(s);
    }
  }

  // ----- assembly -----

  datatype Node = Node(name: string, state: string, shape: string, ocpus: real, memoryGb: real,
                       faultDomain: string, privateIp: string,
                       cpuPercent: Option<real>, memoryPercent: Option<real>, role: string)

  datatype Entrance = Entrance(publicIp: string, healthyBackends: Option<int>, unhealthyBackends: Option<int>)

  datatype Capacity = Capacity(ampereOcpuUsed: Option<real>, ampereOcpuTotal: real,
                               ampereMemoryGbUsed: Option<real>, ampereMemoryGbTotal: real,
                               objectStorageUsedBytes: Option<int>, objectStorageTotalBytes: int)

  datatype Snapshot = Snapshot(updatedAt: Time, stale: bool, nodes: seq<Node>, alarms: seq<Alarm>,
                               ingress: Entrance, backups: Backups, uptime: seq<Uptime>,
                               capacity: Capacity, warnings: seq<string>)

  /** `roleFor` and `ampere` are the two name tests of the program, which only look at one instance. */
  datatype Config = Config(bucket: string, prefixes: seq<string>, roleFor: string -> string, ampere: string -> bool)

  const AMPERE_OCPU_TOTAL := 2.0
  const AMPERE_MEMORY_GB_TOTAL := 12.0
  const OBJECT_STORAGE_TOTAL_BYTES := 20 * 1024 * 1024 * 1024

  function Reading(ok: bool, latest: map<string, Series>, name: string): Option<real> {
    if ok && name in latest then Some(latest[name].value) else None
  }

  function NodeOf(cfg: Config, r: Record, cpu: map<string, Series>, memory: map<string, Series>, i: Instance): Node {
    Node(i.name, i.state, i.shape, i.ocpus, i.memoryGb, i.faultDomain, i.privateIp,
         Reading(Cpu in r.ok, cpu, i.name), Reading(Memory in r.ok, memory, i.name), cfg.roleFor(i.name))
  }

  function NodesOf(cfg: Config, r: Record, cpu: map<string, Series>, memory: map<string, Series>): seq<Node> {
    seq(|r.instances|, n requires 0 <= n < |r.instances| => NodeOf(cfg, r, cpu, memory, r.instances[n]))
  }

  /** The Ampere share of the first n instances, added up in list order. */
  function AmpereOcpu(cfg: Config, instances: seq<Instance>): real {
    if instances == [] then 0.0
    else
      var i := instances[|instances| - 1];
      AmpereOcpu(cfg, instances[..|instances| - 1]) + if cfg.ampere(i.shape) then i.ocpus else 0.0
  }

  function AmpereMemory(cfg: Config, instances: seq<Instance>): real {
    if instances == [] then 0.0
    else
      var i := instances[|instances| - 1];
      AmpereMemory(cfg, instances[..|instances| - 1]) + if cfg.ampere(i.shape) then i.memoryGb else 0.0
  }

  ghost predicate IsBackendCount(ok: bool, series: seq<Series>, n: Option<int>) {
    if !ok || series == [] then n == None
    else n.Some? && exists best :: IsGreatest(series, best) && n.value == Truncate(best + 0.5)
  }

  const NODE_NAME: Node -> string := (n: Node) => n.name
  const ALARM_NAME: Alarm -> string := (a: Alarm) => a.name

  ghost predicate HasNodes(cfg: Config, r: Record, nodes: seq<Node>) {
    && Ordered(nodes, NODE_NAME)
    && exists cpu, memory ::
         && Newest(r.cpu, DimKey("instance"), NON_EMPTY, cpu) && Newest(r.memory, DimKey("instance"), NON_EMPTY, memory)
         && multiset(nodes) == multiset(NodesOf(cfg, r, cpu, memory))
  }

  ghost predicate HasCapacity(cfg: Config, r: Record, c: Capacity) {
    && c.ampereOcpuTotal == AMPERE_OCPU_TOTAL && c.ampereMemoryGbTotal == AMPERE_MEMORY_GB_TOTAL
    && c.objectStorageTotalBytes == OBJECT_STORAGE_TOTAL_BYTES
    && c.ampereOcpuUsed == (if Instances in r.ok then Some(AmpereOcpu(cfg, r.instances)) else None)
    && c.ampereMemoryGbUsed == (if Instances in r.ok then Some(AmpereMemory(cfg, r.instances)) else None)
    && c.objectStorageUsedBytes == (if Backup in r.ok then Some(Wrap64(TotalSize(r.objects))) else None)
  }

  ghost predicate HasBackups(cfg: Config, r: Record, b: Backups) {
    if Backup in r.ok then IsBackups(cfg.bucket, cfg.prefixes, r.objects, b)
    else b == Backups(cfg.bucket, None, None, [])
  }

  ghost predicate HasAlarms(r: Record, alarms: seq<Alarm>) {
    multiset(alarms) == multiset(r.alarms) && Ordered(alarms, ALARM_NAME)
  }

  ghost predicate HasIngress(r: Record, e: Entrance) {
    && e.publicIp == r.publicIp
    && IsBackendCount(Healthy in r.ok, r.healthy, e.healthyBackends)
    && IsBackendCount(Unhealthy in r.ok, r.unhealthy, e.unhealthyBackends)
  }

  ghost predicate HasUptime(r: Record, uptime: seq<Uptime>) {
    if UptimeMetric in r.ok then IsUptime(r.uptime, uptime) else uptime == []
  }

  /** What `assemble` makes of a record, up to the order of equal names. */
  ghost predicate IsSnapshot(cfg: Config, now: Time, r: Record, s: Snapshot) {
    && s.updatedAt == now && !s.stale
    && HasNodes(cfg, r, s.nodes)
    && HasAlarms(r, s.alarms)
    && HasIngress(r, s.ingress)
    && HasBackups(cfg, r, s.backups)
    && HasUptime(r, s.uptime)
    && HasCapacity(cfg, r, s.capacity)
    && s.warnings == SortedStrings(r.warnings)
  }

  /** The loop over the instances, before sorting. */
  method ListNodes(cfg: Config, r: Record, cpu: map<string, Series>, memory: map<string, Series>)
    returns (nodes: seq<Node>, ocpu: real, memoryGb: real)
    ensures nodes == NodesOf(cfg, r, cpu, memory)
    ensures ocpu == AmpereOcpu(cfg, r.instances) && memoryGb == AmpereMemory(cfg, r.instances)
  {
    nodes, ocpu, memoryGb := [], 0.0, 0.0;
    for n := 0 to |r.instances|
      invariant |nodes| == n && forall m :: 0 <= m < n ==> nodes[m] == NodeOf(cfg, r, cpu, memory, r.instances[m])
      invariant ocpu == AmpereOcpu(cfg, r.instances[..n]) && memoryGb == AmpereMemory(cfg, r.instances[..n])
    {
      var i := r.instances[n];
      assert r.instances[..n + 1][..n] == r.instances[..n];
      nodes := nodes + [NodeOf(cfg, r, cpu, memory, i)];
      if cfg.ampere(i.shape) {
        ocpu := ocpu + i.ocpus;
        memoryGb := memoryGb + i.memoryGb;
      }
    }
    assert r.instances[..|r.instances|] == r.instances;
  }

  lemma NodesFound(cfg: Config, r: Record, cpu: map<string, Series>, memory: map<string, Series>, nodes: seq<Node>)
    requires Ordered(nodes, NODE_NAME)
    requires Newest(r.cpu, DimKey("instance"), NON_EMPTY, cpu)
    requires Newest(r.memory, DimKey("instance"), NON_EMPTY, memory)
    requires multiset(nodes) == multiset(NodesOf(cfg, r, cpu, memory))
    ensures HasNodes(cfg, r, nodes)
  {
  }

  method AssembleNodes(cfg: Config, r: Record) returns (nodes: seq<Node>, ocpu: real, memoryGb: real)
    ensures HasNodes(cfg, r, nodes)
    ensures ocpu == AmpereOcpu(cfg, r.instances) && memoryGb == AmpereMemory(cfg, r.instances)
  {
    var cpuByNode := LatestByDimension(r.cpu, "instance");
    var memByNode := LatestByDimension(r.memory, "instance");
    nodes, ocpu, memoryGb := ListNodes(cfg, r, cpuByNode, memByNode);
    nodes := SortByName(nodes, NODE_NAME);
    NodesFound(cfg, r, cpuByNode, memByNode, nodes);
  }

  method AssembleIngress(r: Record) returns (e: Entrance)
    ensures HasIngress(r, e)
  {
    e := Entrance(r.publicIp, None, None);
    if Healthy in r.ok {
      var n := MaxAcrossSeries(r.healthy);
      e := e.(healthyBackends := n);
    }
    if Unhealthy in r.ok {
      var n := MaxAcrossSeries(r.unhealthy);
      e := e.(unhealthyBackends := n);
    }
  }

  method SortWarnings(warnings: seq<string>) returns (sorted: seq<string>)
    ensures sorted == SortedStrings(warnings)
  {
    var name := (w: string) => w;
    sorted := SortByName(warnings, name);
    assert forall i :: 0 <= i < |sorted| ==> name(sorted[i]) == sorted[i];
    SortedUnique(sorted, SortedStrings(warnings));
  }

  method Assemble(cfg: Config, now: Time, r: Record) returns (snap: Snapshot)
    ensures IsSnapshot(cfg, now, r, snap)
  {
    var capacity := Capacity(None, AMPERE_OCPU_TOTAL, None, AMPERE_MEMORY_GB_TOTAL, None, OBJECT_STORAGE_TOTAL_BYTES);
    var nodes, ocpu, memoryGb := AssembleNodes(cfg, r);
    if Instances in r.ok {
      capacity := capacity.(ampereOcpuUsed := Some(ocpu), ampereMemoryGbUsed := Some(memoryGb));
    }
    var alarms := SortByName(r.alarms, ALARM_NAME);
    var ingress := AssembleIngress(r);
    var backups := Backups(cfg.bucket, None, None, []);
    if Backup in r.ok {
      backups := SummariseBackups(cfg.bucket, cfg.prefixes, r.objects);
      capacity := capacity.(objectStorageUsedBytes := Some(backups.sizeBytes.value));
    }
    var uptime: seq<Uptime> := [];
    if UptimeMetric in r.ok {
      uptime := SummariseUptime(r.uptime);
    }
    var warnings := SortWarnings(r.warnings);
    snap := Snapshot(now, false, nodes, alarms, ingress, backups, uptime, capacity, warnings);
  }
}
