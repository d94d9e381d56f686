/**
 * The one-shot snapshot scraper: it joins the request/limit values of each
 * pod with the cluster API's container lists and the raw counters of one
 * cAdvisor scrape, one row per container of every pod that has
 * request/limit values.
 */
module SnapshotV7 {
  import opened Wrappers
  import opened Labels
  import opened OrderedDict
  import opened Usage
  import opened Cluster
  import opened PodMetrics
  import opened Correlate

  /** A hit of the cAdvisor CPU or memory pattern: namespace, pod, container and value. */
  datatype SeriesMatch = SeriesMatch(namespace: string, pod: string, container: string, value: string)

  /** What the two cAdvisor patterns find on one line; both are tried on every line. */
  datatype CounterLine = CounterLine(cpu: Option<SeriesMatch>, memory: Option<SeriesMatch>)

  /** A hit of one of the four request/limit patterns: its metric, namespace, pod and value. */
  datatype RequestMatch = RequestMatch(metric: PodMetric, namespace: string, pod: string, value: string)

  /** `container_usage[(ns, pod, container)]`: the raw CPU counter and the memory in MiB. */
  datatype ContainerUsage = ContainerUsage(cpu: Option<real>, memoryMiB: Option<real>)

  type UsageByContainer = map<Key, ContainerUsage>

  const NoUsage := ContainerUsage(None, None)

  function SeriesKey(s: SeriesMatch): Key {
    Key(s.namespace, s.pod, s.container)
  }

  function UsageAt(usage: UsageByContainer, k: Key): ContainerUsage {
    if k in usage then usage[k] else NoUsage
  }

  /** The CPU hit of a line sets only "cpu"; then its memory hit sets only "memory". */
  function CounterStep(usage: UsageByContainer, line: CounterLine, parse: FloatParser): Result<UsageByContainer, ScrapeError> {
    var afterCpu :=
      match line.cpu
      case None => Ok(usage)
      case Some(c) =>
        match parse(c.value)
        case None => Err(NotANumber(c.value))
        case Some(v) => Ok(usage[SeriesKey(c) := UsageAt(usage, SeriesKey(c)).(cpu := Some(v))]);
    match afterCpu
    case Err(e) => Err(e)
    case Ok(u) =>
      match line.memory
      case None => Ok(u)
      case Some(m) =>
        match parse(m.value)
        case None => Err(NotANumber(m.value))
        case Some(v) => Ok(u[SeriesKey(m) := UsageAt(u, SeriesKey(m)).(memoryMiB := Some(v / BytesPerMiB))])
  }

  /** `container_usage` after the scrape's lines, in order. */
  function CounterUsage(lines: seq<CounterLine>, parse: FloatParser): Result<UsageByContainer, ScrapeError> {
    if lines == [] then Ok(map[])
    else
      match CounterUsage(lines[..|lines| - 1], parse)
      case Err(e) => Err(e)
      case Ok(u) => CounterStep(u, lines[|lines| - 1], parse)
  }

  /** The last CPU value matched for `k`, if any. */
  function LastCpu(lines: seq<CounterLine>, k: Key, parse: FloatParser): Option<real> {
    if lines == [] then None
    else
      var line := lines[|lines| - 1];
      if line.cpu.Some? && SeriesKey(line.cpu.value) == k then parse(line.cpu.value.value)
      else LastCpu(lines[..|lines| - 1], k, parse)
  }

  /**
   * Unlike the other scrapers, a CPU hit here keeps the memory already
   * stored: each key holds the last CPU value matched for it, as reported.
   */
  lemma {:induction false} CounterUsageLastCpu(lines: seq<CounterLine>, parse: FloatParser, k: Key)
    requires CounterUsage(lines, parse).Ok?
    ensures UsageAt(CounterUsage(lines, parse).value, k).cpu == LastCpu(lines, k, parse)
  {
    if lines != [] {
      CounterUsageLastCpu(lines[..|lines| - 1], parse, k);
    }
  }

  /** The last memory value matched for `k`, in MiB, if any. */
  function LastMemory(lines: seq<CounterLine>, k: Key, parse: FloatParser): Option<real> {
    if lines == [] then None
    else
      var line := lines[|lines| - 1];
      if line.memory.Some? && SeriesKey(line.memory.value) == k then
        match parse(line.memory.value.value)
        case None => None
        case Some(v) => Some(v / BytesPerMiB)
      else LastMemory(lines[..|lines| - 1], k, parse)
  }

  /** Each key holds, in MiB, the last memory value matched for it; a CPU hit leaves it alone. */
  lemma {:induction false} CounterUsageLastMemory(lines: seq<CounterLine>, parse: FloatParser, k: Key)
    requires CounterUsage(lines, parse).Ok?
    ensures UsageAt(CounterUsage(lines, parse).value, k).memoryMiB == LastMemory(lines, k, parse)
  {
    if lines != [] {
      CounterUsageLastMemory(lines[..|lines| - 1], parse, k);
    }
  }

  lemma {:induction false} CounterUsageErrorSticks(lines: seq<CounterLine>, n: nat, parse: FloatParser)
    requires n <= |lines| && CounterUsage(lines[..n], parse).Err?
    ensures CounterUsage(lines, parse) == CounterUsage(lines[..n], parse)
    decreases |lines| - n
  {
    if n < |lines| {
      assert lines[..n + 1][..n] == lines[..n];
      CounterUsageErrorSticks(lines, n + 1, parse);
    } else {
      assert lines[..n] == lines;
    }
  }

  /** The cAdvisor loop: both patterns on every line; a value `float()` rejects raises. */
  method CollectCounters(lines: seq<CounterLine>, parse: FloatParser) returns (r: Result<UsageByContainer, ScrapeError>)
    ensures r == CounterUsage(lines, parse)
  {
    var usage: UsageByContainer := map[];
    for i := 0 to |lines|
      invariant CounterUsage(lines[..i], parse) == Ok(usage)
    {
      assert lines[..i + 1][..i] == lines[..i];
      var line := lines[i];
      if line.cpu.Some? {
        var c := line.cpu.value;
        var v := parse(c.value);
        if v.None? {
          CounterUsageErrorSticks(lines, i + 1, parse);
          return Err(NotANumber(c.value));
        }
        usage := usage[SeriesKey(c) := UsageAt(usage, SeriesKey(c)).(cpu := Some(v.value))];
      }
      if line.memory.Some? {
        var m := line.memory.value;
        var v := parse(m.value);
        if v.None? {
          CounterUsageErrorSticks(lines, i + 1, parse);
          return Err(NotANumber(m.value));
        }
        usage := usage[SeriesKey(m) := UsageAt(usage, SeriesKey(m)).(memoryMiB := Some(v.value / BytesPerMiB))];
      }
    }
    assert lines[..|lines|] == lines;
    r := Ok(usage);
  }

  /** Request and limit values per (namespace, pod), in the order pods were first matched. */
  type PodResources = Dict<PodKey, map<PodMetric, real>>

  function RequestKey(m: RequestMatch): PodKey {
    PodKey(m.namespace, m.pod)
  }

  /**
   * The request/limit values keyed by (namespace, pod), which is how the row
   * loop reads them; values are stored as reported, without a MiB conversion.
   */
  function PodResourcesOf(matches: seq<RequestMatch>, parse: FloatParser): Result<PodResources, ScrapeError> {
    if matches == [] then Ok(Empty())
    else
      match PodResourcesOf(matches[..|matches| - 1], parse)
      case Err(e) => Err(e)
      case Ok(d) =>
        var m := matches[|matches| - 1];
        match parse(m.value)
        case None => Err(NotANumber(m.value))
        case Some(v) => Ok(d.Set(RequestKey(m), d.Get(RequestKey(m), map[])[m.metric := v]))
  }

  /** The value of the last match for `pk` and `metric`, if any. */
  function LastRequest(matches: seq<RequestMatch>, pk: PodKey, metric: PodMetric, parse: FloatParser): Option<real> {
    if matches == [] then None
    else
      var m := matches[|matches| - 1];
      if RequestKey(m) == pk && m.metric == metric then parse(m.value)
      else LastRequest(matches[..|matches| - 1], pk, metric, parse)
  }

  /**
   * The dictionary stays well formed; a pod has a value for a metric
   * exactly when some match names both, and that value is the raw value of
   * the last such match.
   */
  lemma {:induction false} PodResourcesValid(matches: seq<RequestMatch>, parse: FloatParser)
    requires PodResourcesOf(matches, parse).Ok?
    ensures PodResourcesOf(matches, parse).value.Valid()
  {
    if matches != [] {
      PodResourcesValid(matches[..|matches| - 1], parse);
    }
  }

  lemma {:induction false} PodResourcesLastWins(matches: seq<RequestMatch>, parse: FloatParser, pk: PodKey, metric: PodMetric)
    requires PodResourcesOf(matches, parse).Ok?
    ensures metric in PodResourcesOf(matches, parse).value.Get(pk, map[]) <==> LastRequest(matches, pk, metric, parse).Some?
    ensures metric in PodResourcesOf(matches, parse).value.Get(pk, map[]) ==>
              PodResourcesOf(matches, parse).value.Get(pk, map[])[metric] == LastRequest(matches, pk, metric, parse).value
  {
    if matches != [] {
      var init := matches[..|matches| - 1];
      var m := matches[|matches| - 1];
      PodResourcesLastWins(init, parse, pk, metric);
      var d := PodResourcesOf(init, parse).value;
      var v := parse(m.value).value;
      var d' := d.Set(RequestKey(m), d.Get(RequestKey(m), map[])[m.metric := v]);
      assert PodResourcesOf(matches, parse).value == d';
      if RequestKey(m) != pk {
        assert d'.Get(pk, map[]) == d.Get(pk, map[]);
      } else {
        assert d'.Get(pk, map[]) == d.Get(pk, map[])[m.metric := v];
      }
    }
  }

  lemma {:induction false} PodResourcesErrorSticks(matches: seq<RequestMatch>, n: nat, parse: FloatParser)
    requires n <= |matches| && PodResourcesOf(matches[..n], parse).Err?
    ensures PodResourcesOf(matches, parse) == PodResourcesOf(matches[..n], parse)
    decreases |matches| - n
  {
    if n < |matches| {
      assert matches[..n + 1][..n] == matches[..n];
      PodResourcesErrorSticks(matches, n + 1, parse);
    } else {
      assert matches[..n] == matches;
    }
  }

  /** The request/limit loop, with the values keyed by (namespace, pod). */
  method CollectPodResources(matches: seq<RequestMatch>, parse: FloatParser) returns (r: Result<PodResources, ScrapeError>)
    ensures r == PodResourcesOf(matches, parse)
    ensures r.Ok? ==> r.value.Valid()
  {
    var resources: PodResources := Empty();
    for i := 0 to |matches|
      invariant PodResourcesOf(matches[..i], parse) == Ok(resources)
      invariant resources.Valid()
    {
      assert matches[..i + 1][..i] == matches[..i];
      var m := matches[i];
      var v := parse(m.value);
      if v.None? {
        PodResourcesErrorSticks(matches, i + 1, parse);
        return Err(NotANumber(m.value));
      }
      var key := RequestKey(m);
      var metrics := resources.Get(key, map[]);
      resources := resources.Set(key, metrics[m.metric := v.value]);
    }
    assert matches[..|matches|] == matches;
    r := Ok(resources);
  }

  /** Why the loop as written stops. */
  datatype UnpackError = ValueError(namespace: string)

  /**
   * The row loop as written iterates over a dictionary keyed by namespace
   * and unpacks each namespace string into `(ns, pod)`: the unpacking takes
   * the string's two characters, and any other length raises.
   */
  function UnpackAsWritten(namespaces: seq<string>): (r: Result<seq<PodKey>, UnpackError>)
    ensures r.Ok? <==> forall i :: 0 <= i < |namespaces| ==> |namespaces[i]| == 2
    ensures r.Ok? ==> |r.value| == |namespaces|
    ensures r.Ok? ==> forall i :: 0 <= i < |namespaces| ==> r.value[i] == PodKey([namespaces[i][0]], [namespaces[i][1]])
  {
    if namespaces == [] then Ok([])
    else
      match UnpackAsWritten(namespaces[..|namespaces| - 1])
      case Err(e) => Err(e)
      case Ok(keys) =>
        var ns := namespaces[|namespaces| - 1];
        if |ns| == 2 then Ok(keys + [PodKey([ns[0]], [ns[1]])]) else Err(ValueError(ns))
  }

  /** The namespaces of the nested `resource_data`, in the order they were first matched. */
  function NamespacesOf(matches: seq<RequestMatch>): seq<string> {
    if matches == [] then []
    else
      var ns := NamespacesOf(matches[..|matches| - 1]);
      var n := matches[|matches| - 1].namespace;
      if n in ns then ns else ns + [n]
  }

  /**
   * One request in namespace "default" for pod "web" already makes the
   * loop as written raise, so nothing is posted and the port-forwards are
   * never terminated; the corrected keying yields that pod.
   */
  lemma UnpackFailsOnRealNamespace(parse: FloatParser)
    requires parse("0.5") == Some(0.5)
    ensures UnpackAsWritten(NamespacesOf([RequestMatch(CpuRequest, "default", "web", "0.5")])) == Err(ValueError("default"))
    ensures PodResourcesOf([RequestMatch(CpuRequest, "default", "web", "0.5")], parse).Ok?
    ensures PodResourcesOf([RequestMatch(CpuRequest, "default", "web", "0.5")], parse).value.order == [PodKey("default", "web")]
  {
    var ms := [RequestMatch(CpuRequest, "default", "web", "0.5")];
    assert ms[..0] == [];
    assert NamespacesOf(ms) == ["default"];
    assert UnpackAsWritten(["default"][..0]) == Ok([]);
  }

  /** One row of the ingest records. */
  datatype SnapshotRow = SnapshotRow(
    cluster: string, node: Option<string>, namespace: string, pod: string, container: string, kind: string,
    cpuRequest: real, cpuLimit: real, memRequest: real, memLimit: real,
    cpuUsageSec: real, memUsageBytes: int)

  /** The container used for a pod the cluster API did not list. */
  const NoContainer := "-"

  /** `container_info.get((ns, pod), ["-"])` */
  function ContainersOf(info: ClusterInfo, pk: PodKey): (cs: seq<string>)
    ensures pk !in info.containers ==> cs == [NoContainer]
    ensures pk in info.containers ==> cs == info.containers[pk]
  {
    if pk in info.containers then info.containers[pk] else [NoContainer]
  }

  /**
   * The row of one container of a pod: node and owner kind from the cluster
   * API ("unknown" for a pod it did not list), request/limit values (0.0 when
   * absent), the raw CPU counter (0.0 when absent, no rate) and the memory in
   * bytes (0 when absent).
   */
  function SnapshotRowFor(pk: PodKey, container: string, metrics: map<PodMetric, real>, info: ClusterInfo, usage: UsageByContainer)
    : (row: SnapshotRow)
    ensures row.cluster == ClusterName && row.namespace == pk.namespace && row.pod == pk.pod && row.container == container
    ensures pk !in info.node ==> row.node == Some(Unknown)
    ensures pk in info.node ==> row.node == info.node[pk]
    ensures pk !in info.owner ==> row.kind == Unknown
    ensures pk in info.owner ==> row.kind == info.owner[pk]
    ensures row.cpuRequest == MetricOr(metrics, CpuRequest) && row.cpuLimit == MetricOr(metrics, CpuLimit)
    ensures row.memRequest == MetricOr(metrics, MemoryRequest) && row.memLimit == MetricOr(metrics, MemoryLimit)
    ensures row.cpuUsageSec == UsageAt(usage, Key(pk.namespace, pk.pod, container)).cpu.GetOr(0.0)
    ensures row.memUsageBytes == MiBToBytes(UsageAt(usage, Key(pk.namespace, pk.pod, container)).memoryMiB.GetOr(0.0))
  {
    var u := UsageAt(usage, Key(pk.namespace, pk.pod, container));
    SnapshotRow(ClusterName, if pk in info.node then info.node[pk] else Some(Unknown), pk.namespace, pk.pod, container,
                if pk in info.owner then info.owner[pk] else Unknown,
                MetricOr(metrics, CpuRequest), MetricOr(metrics, CpuLimit),
                MetricOr(metrics, MemoryRequest), MetricOr(metrics, MemoryLimit),
                u.cpu.GetOr(0.0), MiBToBytes(u.memoryMiB.GetOr(0.0)))
  }

  /**
   * For a listing with each pod once: a listed pod's rows are its own
   * containers, or the one container "-" when it has none; its kind is its
   * first owner's kind, or "Unknown" when it has no owner reference, while a
   * pod missing from the listing gets the kind "unknown".
   */
  lemma ListedPodRows(pods: seq<ClusterPod>, i: int)
    requires DistinctPods(pods) && 0 <= i < |pods|
    ensures ContainersOf(Collected(pods, UnknownKind), PodKeyOf(pods[i])) ==
            (if pods[i].containers == [] then [NoContainer] else pods[i].containers)
    ensures PodKeyOf(pods[i]) in Collected(pods, UnknownKind).owner
    ensures Collected(pods, UnknownKind).owner[PodKeyOf(pods[i])] == OwnerKindOf(pods[i], UnknownKind)
  {
    CollectedContainers(pods, UnknownKind);
    assert LastPod(pods, i);
    CollectedLastWins(pods, UnknownKind);
  }

  /** The rows of the pods `keys`, pod by pod and container by container. */
  function SnapshotRows(keys: seq<PodKey>, resources: PodResources, info: ClusterInfo, usage: UsageByContainer)
    : seq<SnapshotRow>
  {
    if keys == [] then []
    else
      SnapshotRows(keys[..|keys| - 1], resources, info, usage) + PodRows(keys[|keys| - 1], resources, info, usage)
  }

  /** The rows of one pod, one per container. */
  function PodRows(pk: PodKey, resources: PodResources, info: ClusterInfo, usage: UsageByContainer): seq<SnapshotRow> {
    var cs := ContainersOf(info, pk);
    seq(|cs|, j requires 0 <= j < |cs| => SnapshotRowFor(pk, cs[j], resources.Get(pk, map[]), info, usage))
  }

  /** Every row belongs to one of `keys`. */
  lemma {:induction false} SnapshotRowsFromKeys(keys: seq<PodKey>, resources: PodResources, info: ClusterInfo, usage: UsageByContainer)
    ensures forall row :: row in SnapshotRows(keys, resources, info, usage) ==> PodKey(row.namespace, row.pod) in keys
  {
    if keys != [] {
      var init := keys[..|keys| - 1];
      SnapshotRowsFromKeys(init, resources, info, usage);
      forall row | row in SnapshotRows(keys, resources, info, usage) ensures PodKey(row.namespace, row.pod) in keys {
        if row in SnapshotRows(init, resources, info, usage) {
          assert PodKey(row.namespace, row.pod) in init;
        }
      }
    }
  }

  /** A pod contributes one row per listed container, or one row for "-" when it was not listed. */
  lemma {:induction false} SnapshotRowsCount(keys: seq<PodKey>, resources: PodResources, info: ClusterInfo, usage: UsageByContainer)
    ensures |SnapshotRows(keys, resources, info, usage)| == RowCount(keys, info)
    ensures (forall i :: 0 <= i < |keys| ==> keys[i] !in info.containers) ==> |SnapshotRows(keys, resources, info, usage)| == |keys|
  {
    if keys != [] {
      SnapshotRowsCount(keys[..|keys| - 1], resources, info, usage);
    }
  }

  function RowCount(keys: seq<PodKey>, info: ClusterInfo): nat {
    if keys == [] then 0 else RowCount(keys[..|keys| - 1], info) + |ContainersOf(info, keys[|keys| - 1])|
  }

  /**
   * The row loop, iterating over (namespace, pod) keys: one row per
   * container of every pod with request/limit values, in the order the pods
   * were first matched.
   */
  method BuildSnapshotRows(resources: PodResources, info: ClusterInfo, usage: UsageByContainer)
    returns (rows: seq<SnapshotRow>)
    ensures rows == SnapshotRows(resources.order, resources, info, usage)
  {
    rows := [];
    for i := 0 to |resources.order|
      invariant rows == SnapshotRows(resources.order[..i], resources, info, usage)
    {
      assert resources.order[..i + 1][..i] == resources.order[..i];
      var podRows := BuildPodRows(resources.order[i], resources, info, usage);
      rows := rows + podRows;
    }
    assert resources.order[..|resources.order|] == resources.order;
  }

  /** The inner loop over one pod's containers. */
  method BuildPodRows(pk: PodKey, resources: PodResources, info: ClusterInfo, usage: UsageByContainer)
    returns (rows: seq<SnapshotRow>)
    ensures rows == PodRows(pk, resources, info, usage)
  {
    var metrics := resources.Get(pk, map[]);
    var containers := ContainersOf(info, pk);
    rows := [];
    for j := 0 to |containers|
      invariant rows == seq(j, l requires 0 <= l < j => SnapshotRowFor(pk, containers[l], metrics, info, usage))
    {
      rows := rows + [SnapshotRowFor(pk, containers[j], metrics, info, usage)];
    }
  }
}
