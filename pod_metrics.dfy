/**
 * The payload variant of the scraper: `parse_ksm_metrics` keeps the last
 * request/limit of each pod and sums them per node, and each cycle builds
 * one container record per key with CPU in both snapshots (in scrape order)
 * and one node record per node.
 */
module PodMetrics {
  import opened Wrappers
  import opened Labels
  import opened OrderedDict
  import opened Usage
  import opened Cluster
  import opened Correlate

  /** The four patterns, in the order they are tried on each line. */
  datatype PodMetric = MemoryRequest | MemoryLimit | CpuRequest | CpuLimit

  predicate IsMemory(m: PodMetric) {
    m == MemoryRequest || m == MemoryLimit
  }

  /** One hit of a pattern: its metric and the groups namespace, pod, node and value. */
  datatype KsmMatch = KsmMatch(metric: PodMetric, namespace: string, pod: string, node: string, value: string)

  /** `resource_data[ns][pod][metric]` */
  type ResourceData = map<string, map<string, map<PodMetric, real>>>

  /** `node_totals[node][metric]`, in the order nodes were first seen. */
  type NodeTotals = Dict<string, map<PodMetric, real>>

  /** What `node_totals` creates for a node it has not seen. */
  const ZeroTotals: map<PodMetric, real> := map[MemoryRequest := 0.0, MemoryLimit := 0.0, CpuRequest := 0.0, CpuLimit := 0.0]

  datatype KsmSummary = KsmSummary(resourceData: ResourceData, nodeTotals: NodeTotals)

  /** The stored value: memory in MiB, CPU as reported. */
  function Scaled(metric: PodMetric, v: real): real {
    if IsMemory(metric) then v / BytesPerMiB else v
  }

  function MetricOr(metrics: map<PodMetric, real>, metric: PodMetric): real {
    if metric in metrics then metrics[metric] else 0.0
  }

  /** `resource_data[ns][pod][metric] = val` */
  function StoreValue(rd: ResourceData, m: KsmMatch, val: real): ResourceData {
    var pods := if m.namespace in rd then rd[m.namespace] else map[];
    var metrics := if m.pod in pods then pods[m.pod] else map[];
    rd[m.namespace := pods[m.pod := metrics[m.metric := val]]]
  }

  /** `node_totals[node][metric] += val` */
  function AddToTotal(nt: NodeTotals, m: KsmMatch, val: real): NodeTotals {
    var totals := nt.Get(m.node, ZeroTotals);
    nt.Set(m.node, totals[m.metric := MetricOr(totals, m.metric) + val])
  }

  /** One match recorded: the pod's metric overwritten, the node's total increased. */
  function Record(s: KsmSummary, m: KsmMatch, v: real): KsmSummary {
    KsmSummary(StoreValue(s.resourceData, m, Scaled(m.metric, v)), AddToTotal(s.nodeTotals, m, Scaled(m.metric, v)))
  }

  lemma RecordTotals(s: KsmSummary, m: KsmMatch, v: real)
    ensures var totals := s.nodeTotals.Get(m.node, ZeroTotals);
            Record(s, m, v).nodeTotals.items == s.nodeTotals.items[m.node := totals[m.metric := MetricOr(totals, m.metric) + Scaled(m.metric, v)]]
    ensures s.nodeTotals.Valid() ==> Record(s, m, v).nodeTotals.Valid()
  {
  }

  lemma RecordNodes(s: KsmSummary, m: KsmMatch, v: real)
    ensures Record(s, m, v).nodeTotals.items.Keys == s.nodeTotals.items.Keys + {m.node}
  {
  }

  /** `parse_ksm_metrics` over the matches, line by line and pattern by pattern. */
  function Summarise(matches: seq<KsmMatch>, parse: FloatParser): Result<KsmSummary, ScrapeError> {
    if matches == [] then Ok(KsmSummary(map[], Empty()))
    else
      match Summarise(matches[..|matches| - 1], parse)
      case Err(e) => Err(e)
      case Ok(s) =>
        var m := matches[|matches| - 1];
        match parse(m.value)
        case None => Err(NotANumber(m.value))
        case Some(v) => Ok(Record(s, m, v))
  }

  /** The sum of every value matched for `node` and `metric`. */
  function SumFor(matches: seq<KsmMatch>, node: string, metric: PodMetric, parse: FloatParser): real {
    if matches == [] then 0.0
    else
      var m := matches[|matches| - 1];
      SumFor(matches[..|matches| - 1], node, metric, parse)
        + (if m.node == node && m.metric == metric then Scaled(metric, parse(m.value).GetOr(0.0)) else 0.0)
  }

  /** The value of the last match for (`ns`, `pod`, `metric`), if any. */
  function LastValue(matches: seq<KsmMatch>, ns: string, pod: string, metric: PodMetric, parse: FloatParser): Option<real> {
    if matches == [] then None
    else
      var m := matches[|matches| - 1];
      if m.namespace == ns && m.pod == pod && m.metric == metric then Some(Scaled(metric, parse(m.value).GetOr(0.0)))
      else LastValue(matches[..|matches| - 1], ns, pod, metric, parse)
  }

  /** `resource_data.get(ns, {}).get(pod, {})` */
  function PodMetricsOf(rd: ResourceData, ns: string, pod: string): map<PodMetric, real> {
    if ns in rd && pod in rd[ns] then rd[ns][pod] else map[]
  }

  lemma {:induction false} SumForAbsent(matches: seq<KsmMatch>, node: string, metric: PodMetric, parse: FloatParser)
    requires forall i :: 0 <= i < |matches| ==> matches[i].node != node
    ensures SumFor(matches, node, metric, parse) == 0.0
  {
    if matches != [] {
      SumForAbsent(matches[..|matches| - 1], node, metric, parse);
    }
  }

  /** The node totals stay a well-formed dictionary. */
  lemma {:induction false} SummariseValid(matches: seq<KsmMatch>, parse: FloatParser)
    requires Summarise(matches, parse).Ok?
    ensures Summarise(matches, parse).value.nodeTotals.Valid()
  {
    if matches != [] {
      var n := |matches| - 1;
      assert matches[..n + 1] == matches;
      SummariseValid(matches[..n], parse);
      SummariseStep(matches, n, parse);
      RecordTotals(Summarise(matches[..n], parse).value, matches[n], parse(matches[n].value).value);
    }
  }

  /** A node with totals was named by some match. */
  lemma {:induction false} SummariseNodeSource(matches: seq<KsmMatch>, parse: FloatParser, node: string) returns (i: nat)
    requires Summarise(matches, parse).Ok?
    requires node in Summarise(matches, parse).value.nodeTotals.items
    ensures i < |matches| && matches[i].node == node
  {
    var n := |matches| - 1;
    assert matches[..n + 1] == matches;
    var s := Summarise(matches[..n], parse).value;
    SummariseStep(matches, n, parse);
    RecordTotals(s, matches[n], parse(matches[n].value).value);
    if node in s.nodeTotals.items {
      i := SummariseNodeSource(matches[..n], parse, node);
    } else {
      i := n;
    }
  }

  /** Every node some match names has totals. */
  lemma {:induction false} SummariseNodeHas(matches: seq<KsmMatch>, parse: FloatParser, i: nat)
    requires Summarise(matches, parse).Ok? && i < |matches|
    ensures matches[i].node in Summarise(matches, parse).value.nodeTotals.items
  {
    var n := |matches| - 1;
    assert matches[..n + 1] == matches;
    var s := Summarise(matches[..n], parse).value;
    SummariseStep(matches, n, parse);
    RecordNodes(s, matches[n], parse(matches[n].value).value);
    if i < n {
      SummariseNodeHas(matches[..n], parse, i);
    }
  }

  /** Each of a node's four totals is present and is the sum of the values matched for it. */
  lemma {:induction false} SummariseTotals(matches: seq<KsmMatch>, parse: FloatParser, node: string, metric: PodMetric)
    requires Summarise(matches, parse).Ok?
    requires node in Summarise(matches, parse).value.nodeTotals.items
    ensures metric in Summarise(matches, parse).value.nodeTotals.items[node]
    ensures Summarise(matches, parse).value.nodeTotals.items[node][metric] == SumFor(matches, node, metric, parse)
  {
    var n := |matches| - 1;
    var init := matches[..n];
    var m := matches[n];
    var s := Summarise(init, parse).value;
    var v := parse(m.value).value;
    assert matches[..n + 1] == matches;
    SummariseStep(matches, n, parse);
    RecordTotals(s, m, v);
    var old_ := SumFor(init, node, metric, parse);
    assert SumFor(matches, node, metric, parse) == old_ + (if m.node == node && m.metric == metric then Scaled(metric, v) else 0.0);
    if node in s.nodeTotals.items {
      SummariseTotals(init, parse, node, metric);
    } else {
      assert node == m.node;
      forall j | 0 <= j < n ensures init[j].node != node {
        if init[j].node == node {
          SummariseNodeHas(init, parse, j);
        }
      }
      SumForAbsent(init, node, metric, parse);
      assert s.nodeTotals.Get(m.node, ZeroTotals) == ZeroTotals;
      assert metric in ZeroTotals && ZeroTotals[metric] == 0.0;
    }
  }

  /**
   * `resource_data` holds, for each pod and metric, the value of the last
   * match for them, across all of the pod's containers, and nothing for a
   * metric never matched.
   */
  lemma {:induction false} SummariseLastWins(matches: seq<KsmMatch>, parse: FloatParser, ns: string, pod: string, metric: PodMetric)
    requires Summarise(matches, parse).Ok?
    ensures var metrics := PodMetricsOf(Summarise(matches, parse).value.resourceData, ns, pod);
            && (metric in metrics <==> LastValue(matches, ns, pod, metric, parse).Some?)
            && (metric in metrics ==> metrics[metric] == LastValue(matches, ns, pod, metric, parse).value)
  {
    if matches != [] {
      var n := |matches| - 1;
      var m := matches[n];
      assert matches[..n + 1] == matches;
      SummariseLastWins(matches[..n], parse, ns, pod, metric);
      SummariseStep(matches, n, parse);
      var s := Summarise(matches[..n], parse).value;
      var v := parse(m.value).value;
      StoreValueMetrics(s.resourceData, m, Scaled(m.metric, v), ns, pod);
    }
  }

  /** Storing a value touches only its own pod's metrics. */
  lemma StoreValueMetrics(rd: ResourceData, m: KsmMatch, val: real, ns: string, pod: string)
    ensures PodMetricsOf(StoreValue(rd, m, val), ns, pod) ==
            if m.namespace == ns && m.pod == pod then PodMetricsOf(rd, ns, pod)[m.metric := val] else PodMetricsOf(rd, ns, pod)
  {
  }

  lemma SummariseStep(matches: seq<KsmMatch>, i: nat, parse: FloatParser)
    requires i < |matches| && Summarise(matches[..i], parse).Ok? && parse(matches[i].value).Some?
    ensures Summarise(matches[..i + 1], parse) == Ok(Record(Summarise(matches[..i], parse).value, matches[i], parse(matches[i].value).value))
  {
    assert matches[..i + 1][..i] == matches[..i];
  }

  lemma {:induction false} SummariseErrorSticks(matches: seq<KsmMatch>, n: nat, parse: FloatParser)
    requires n <= |matches| && Summarise(matches[..n], parse).Err?
    ensures Summarise(matches, parse) == Summarise(matches[..n], parse)
    decreases |matches| - n
  {
    if n < |matches| {
      assert matches[..n + 1][..n] == matches[..n];
      SummariseErrorSticks(matches, n + 1, parse);
    } else {
      assert matches[..n] == matches;
    }
  }

  /** The body of the pattern loop for one hit, once its value is scaled. */
  method Accumulate(rd: ResourceData, nt: NodeTotals, m: KsmMatch, val: real) returns (rd': ResourceData, nt': NodeTotals)
    ensures rd' == StoreValue(rd, m, val) && nt' == AddToTotal(nt, m, val)
  {
    var pods := if m.namespace in rd then rd[m.namespace] else map[];
    var metrics := if m.pod in pods then pods[m.pod] else map[];
    rd' := rd[m.namespace := pods[m.pod := metrics[m.metric := val]]];
    var totals := nt.Get(m.node, ZeroTotals);
    nt' := nt.Set(m.node, totals[m.metric := MetricOr(totals, m.metric) + val]);
  }

  /**
   * `parse_ksm_metrics`: a value `float()` rejects raises; otherwise the
   * per-pod values and per-node totals of all matches.
   */
  method ParseKsmMetrics(matches: seq<KsmMatch>, parse: FloatParser) returns (r: Result<KsmSummary, ScrapeError>)
    ensures r == Summarise(matches, parse)
    ensures r.Ok? ==> r.value.nodeTotals.Valid()
  {
    var resourceData: ResourceData := map[];
    var nodeTotals: NodeTotals := Empty();
    for i := 0 to |matches|
      invariant Summarise(matches[..i], parse) == Ok(KsmSummary(resourceData, nodeTotals))
    {
      var m := matches[i];
      var parsed := parse(m.value);
      if parsed.None? {
        assert matches[..i + 1][..i] == matches[..i];
        SummariseErrorSticks(matches, i + 1, parse);
        return Err(NotANumber(m.value));
      }
      SummariseStep(matches, i, parse);
      var val := parsed.value;
      if IsMemory(m.metric) {
        val := val / BytesPerMiB;
      }
      resourceData, nodeTotals := Accumulate(resourceData, nodeTotals, m, val);
    }
    assert matches[..|matches|] == matches;
    SummariseValid(matches, parse);
    r := Ok(KsmSummary(resourceData, nodeTotals));
  }

  /** One entry of `payload["containers"]`; `node` is absent when the pod has no node. */
  datatype ContainerRecord = ContainerRecord(
    namespace: string, pod: string, node: Option<string>, container: string, kind: string,
    cpuUsage: real, memoryUsage: real,
    cpuRequest: real, cpuLimit: real, memoryRequest: real, memoryLimit: real)

  /** One entry of `payload["nodes"]`. */
  datatype NodeRecord = NodeRecord(node: string, cpuRequest: real, cpuLimit: real, memoryRequest: real, memoryLimit: real)

  datatype Payload = Payload(timestamp: string, containers: seq<ContainerRecord>, nodes: seq<NodeRecord>)

  const UnknownKind := "Unknown"

  /**
   * The record of a qualifying key: the CPU rate, the memory in MiB (0.0 when
   * none was seen), the pod's owner kind and node from the cluster API
   * ("Unknown" and "unknown" for a pod it did not list) and the pod's
   * requests and limits (0.0 for each one never matched).
   */
  function ContainerRecordFor(k: Key, curr: Snapshot, prev: Snapshot, info: ClusterInfo, rd: ResourceData): (r: ContainerRecord)
    requires Qualifies(curr, prev, k)
    ensures Key(r.namespace, r.pod, r.container) == k
    ensures r.cpuUsage == Rate(curr.items[k].cpu.value, prev.items[k].cpu.value)
    ensures r.memoryUsage == curr.items[k].memoryMiB.GetOr(0.0)
    ensures PodKey(k.namespace, k.pod) !in info.owner ==> r.kind == UnknownKind
    ensures PodKey(k.namespace, k.pod) in info.owner ==> r.kind == info.owner[PodKey(k.namespace, k.pod)]
    ensures PodKey(k.namespace, k.pod) !in info.node ==> r.node == Some(Unknown)
    ensures PodKey(k.namespace, k.pod) in info.node ==> r.node == info.node[PodKey(k.namespace, k.pod)]
    ensures r.cpuRequest == MetricOr(PodMetricsOf(rd, k.namespace, k.pod), CpuRequest)
    ensures r.cpuLimit == MetricOr(PodMetricsOf(rd, k.namespace, k.pod), CpuLimit)
    ensures r.memoryRequest == MetricOr(PodMetricsOf(rd, k.namespace, k.pod), MemoryRequest)
    ensures r.memoryLimit == MetricOr(PodMetricsOf(rd, k.namespace, k.pod), MemoryLimit)
  {
    var pk := PodKey(k.namespace, k.pod);
    var metrics := PodMetricsOf(rd, k.namespace, k.pod);
    ContainerRecord(
      k.namespace, k.pod, if pk in info.node then info.node[pk] else Some(Unknown), k.container,
      if pk in info.owner then info.owner[pk] else UnknownKind,
      Rate(curr.items[k].cpu.value, prev.items[k].cpu.value), curr.items[k].memoryMiB.GetOr(0.0),
      MetricOr(metrics, CpuRequest), MetricOr(metrics, CpuLimit),
      MetricOr(metrics, MemoryRequest), MetricOr(metrics, MemoryLimit))
  }

  function NodeRecordOf(node: string, totals: map<PodMetric, real>): NodeRecord {
    NodeRecord(node, MetricOr(totals, CpuRequest), MetricOr(totals, CpuLimit),
               MetricOr(totals, MemoryRequest), MetricOr(totals, MemoryLimit))
  }

  /** The payload of one cycle, as the records it lists. */
  function PayloadOf(now: string, curr: Snapshot, prev: Snapshot, info: ClusterInfo, summary: KsmSummary): Payload {
    var keys := QualifyingKeys(curr.order, curr, prev);
    var nodes := summary.nodeTotals.order;
    Payload(now,
            seq(|keys|, i requires 0 <= i < |keys| => ContainerRecordFor(keys[i], curr, prev, info, summary.resourceData)),
            seq(|nodes|, i requires 0 <= i < |nodes| => NodeRecordOf(nodes[i], summary.nodeTotals.Get(nodes[i], map[]))))
  }

  /**
   * One cycle's payload: a container record per qualifying key in the order
   * the keys were scraped (not sorted), then a node record per node in the
   * order the nodes were first matched.
   */
  method BuildPayload(now: string, curr: Snapshot, prev: Snapshot, info: ClusterInfo, summary: KsmSummary)
    returns (p: Payload)
    ensures p == PayloadOf(now, curr, prev, info, summary)
    ensures p.timestamp == now
    ensures |p.containers| == |QualifyingKeys(curr.order, curr, prev)|
    ensures forall i :: 0 <= i < |p.containers| ==>
              p.containers[i] == ContainerRecordFor(QualifyingKeys(curr.order, curr, prev)[i], curr, prev, info, summary.resourceData)
    ensures |p.nodes| == |summary.nodeTotals.order|
    ensures forall i :: 0 <= i < |p.nodes| ==>
              p.nodes[i] == NodeRecordOf(summary.nodeTotals.order[i], summary.nodeTotals.Get(summary.nodeTotals.order[i], map[]))
  {
    var containers: seq<ContainerRecord> := [];
    for i := 0 to |curr.order|
      invariant |containers| == |QualifyingKeys(curr.order[..i], curr, prev)|
      invariant forall j :: 0 <= j < |containers| ==>
                  containers[j] == ContainerRecordFor(QualifyingKeys(curr.order[..i], curr, prev)[j], curr, prev, info, summary.resourceData)
    {
      assert curr.order[..i + 1][..i] == curr.order[..i];
      var key := curr.order[i];
      if key in curr.items && key in prev.items && curr.items[key].cpu.Some? && prev.items[key].cpu.Some? {
        containers := containers + [ContainerRecordFor(key, curr, prev, info, summary.resourceData)];
      }
    }
    assert curr.order[..|curr.order|] == curr.order;
    var nodes: seq<NodeRecord> := [];
    for i := 0 to |summary.nodeTotals.order|
      invariant |nodes| == i
      invariant forall j :: 0 <= j < i ==>
                  nodes[j] == NodeRecordOf(summary.nodeTotals.order[j], summary.nodeTotals.Get(summary.nodeTotals.order[j], map[]))
    {
      var node := summary.nodeTotals.order[i];
      nodes := nodes + [NodeRecordOf(node, summary.nodeTotals.Get(node, map[]))];
    }
    p := Payload(now, containers, nodes);
    assert p == PayloadOf(now, curr, prev, info, summary);
  }

  /** The key a container record reports. */
  function RecordKey(r: ContainerRecord): Key {
    Key(r.namespace, r.pod, r.container)
  }

  /**
   * The container records follow the scrape order, unsorted: the i-th record
   * reports the key at position `idx[i]` of the current snapshot, the
   * positions increase, every qualifying key has its record, and no key is
   * reported twice.
   */
  lemma PayloadInScrapeOrder(now: string, curr: Snapshot, prev: Snapshot, info: ClusterInfo, summary: KsmSummary)
    returns (idx: seq<nat>)
    ensures var c := PayloadOf(now, curr, prev, info, summary).containers;
            && |idx| == |c|
            && (forall i :: 0 <= i < |c| ==> idx[i] < |curr.order| && RecordKey(c[i]) == curr.order[idx[i]])
            && (forall i, j :: 0 <= i < j < |c| ==> idx[i] < idx[j])
            && (forall j :: 0 <= j < |curr.order| && Qualifies(curr, prev, curr.order[j]) ==> j in idx)
    ensures curr.Valid() ==>
              var c := PayloadOf(now, curr, prev, info, summary).containers;
              forall i, j :: 0 <= i < j < |c| ==> RecordKey(c[i]) != RecordKey(c[j])
  {
    var keys := QualifyingKeys(curr.order, curr, prev);
    var c := PayloadOf(now, curr, prev, info, summary).containers;
    idx := QualifyingKeysInOrder(curr.order, curr, prev);
    assert forall i :: 0 <= i < |c| ==> RecordKey(c[i]) == keys[i];
    if curr.Valid() {
      QualifyingKeysDistinct(curr.order, curr, prev);
    }
  }

  /**
   * A node record reports, for each of the four metrics, the sum of the
   * values matched on that node.
   */
  lemma NodeRecordIsSum(matches: seq<KsmMatch>, parse: FloatParser, node: string)
    requires Summarise(matches, parse).Ok?
    requires node in Summarise(matches, parse).value.nodeTotals.items
    ensures var r := NodeRecordOf(node, Summarise(matches, parse).value.nodeTotals.Get(node, map[]));
            && r.cpuRequest == SumFor(matches, node, CpuRequest, parse)
            && r.cpuLimit == SumFor(matches, node, CpuLimit, parse)
            && r.memoryRequest == SumFor(matches, node, MemoryRequest, parse)
            && r.memoryLimit == SumFor(matches, node, MemoryLimit, parse)
  {
    SummariseTotals(matches, parse, node, CpuRequest);
    SummariseTotals(matches, parse, node, CpuLimit);
    SummariseTotals(matches, parse, node, MemoryRequest);
    SummariseTotals(matches, parse, node, MemoryLimit);
  }
}
