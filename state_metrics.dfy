/**
 * The kube-state-metrics side of the scrape (`fetch_ksm`, identical in
 * metric-scraper/scraper.py, scraper-v2.py and scraper-v3.py): three passes
 * over the already-matched lines build one policy dictionary per
 * (namespace, pod, container).
 */
module StateMetrics {
  import opened Wrappers
  import opened Labels
  import opened Usage

  datatype Kind = Requests | Limits
  datatype Resource = Cpu | Memory

  function KindName(k: Kind): string {
    match k
    case Requests => "requests"
    case Limits => "limits"
  }

  function ResourceName(r: Resource): string {
    match r
    case Cpu => "cpu"
    case Memory => "memory"
  }

  /** f"{resource}_{kind}": "cpu_requests", "cpu_limits", "memory_requests", "memory_limits". */
  function FieldName(r: Resource, k: Kind): string {
    ResourceName(r) + "_" + KindName(k)
  }

  /** The groups of one `kube_pod_container_resource_(requests|limits)` match. */
  datatype ResourceMatch = ResourceMatch(
    kind: Kind, namespace: string, pod: string, container: string,
    node: string, resource: Resource, value: string)

  /**
   * One line of the state exporter, as the three patterns see it. The
   * patterns are anchored at the start of the line and begin with different
   * metric names, so a line matches at most one of them.
   */
  datatype StateLine =
    | ResourceLine(m: ResourceMatch)
    | PodInfoLine(namespace: string, pod: string, node: string)
    | OwnerLine(namespace: string, pod: string, ownerKind: string)
    | UnmatchedLine

  /** `data[key]`: the request and limit amounts by field name, and "node" and "owner". */
  datatype Policy = Policy(amounts: map<string, real>, node: Option<string>, owner: Option<string>)

  type PolicyData = map<Key, Policy>

  const NoPolicy := Policy(map[], None, None)

  function KeyOf(m: ResourceMatch): Key {
    Key(m.namespace, m.pod, m.container)
  }

  /** The stored amount: memory is converted from bytes to MiB, CPU is kept in cores. */
  function Amount(m: ResourceMatch, v: real): real {
    if m.resource == Memory then v / BytesPerMiB else v
  }

  function ResourceStep(data: PolicyData, line: StateLine, parse: FloatParser): Result<PolicyData, ScrapeError> {
    match line
    case ResourceLine(m) =>
      (match parse(m.value)
       case None => Err(NotANumber(m.value))
       case Some(v) =>
         var p := if KeyOf(m) in data then data[KeyOf(m)] else NoPolicy;
         Ok(data[KeyOf(m) := p.(amounts := p.amounts[FieldName(m.resource, m.kind) := Amount(m, v)],
                                 node := Some(m.node))]))
    case _ => Ok(data)
  }

  /** First pass: every resource line sets its amount and its node. */
  function ResourcePass(data: PolicyData, lines: seq<StateLine>, parse: FloatParser): Result<PolicyData, ScrapeError> {
    if lines == [] then Ok(data)
    else
      match ResourcePass(data, lines[..|lines| - 1], parse)
      case Err(e) => Err(e)
      case Ok(d) => ResourceStep(d, lines[|lines| - 1], parse)
  }

  /** `for key in data: if key[0] == ns and key[1] == pod and "node" not in data[key]: ...` */
  function FillNode(data: PolicyData, ns: string, pod: string, node: string): PolicyData {
    map k | k in data :: if k.namespace == ns && k.pod == pod && data[k].node.None? then data[k].(node := Some(node)) else data[k]
  }

  /** Second pass: `kube_pod_info` supplies the node of entries that have none. */
  function PodInfoPass(data: PolicyData, lines: seq<StateLine>): PolicyData {
    if lines == [] then data
    else
      var d := PodInfoPass(data, lines[..|lines| - 1]);
      match lines[|lines| - 1]
      case PodInfoLine(ns, pod, node) => FillNode(d, ns, pod, node)
      case _ => d
  }

  /** `for key in data: if key[0] == ns and key[1] == pod: data[key]["owner"] = owner_kind` */
  function SetOwner(data: PolicyData, ns: string, pod: string, owner: string): PolicyData {
    map k | k in data :: if k.namespace == ns && k.pod == pod then data[k].(owner := Some(owner)) else data[k]
  }

  /** Third pass: `kube_pod_owner` sets the owner kind on every container entry of the pod. */
  function OwnerPass(data: PolicyData, lines: seq<StateLine>): PolicyData {
    if lines == [] then data
    else
      var d := OwnerPass(data, lines[..|lines| - 1]);
      match lines[|lines| - 1]
      case OwnerLine(ns, pod, owner) => SetOwner(d, ns, pod, owner)
      case _ => d
  }

  function StateData(lines: seq<StateLine>, parse: FloatParser): Result<PolicyData, ScrapeError> {
    match ResourcePass(map[], lines, parse)
    case Err(e) => Err(e)
    case Ok(d) => Ok(OwnerPass(PodInfoPass(d, lines), lines))
  }

  ghost predicate AllHaveNode(data: PolicyData) {
    forall k :: k in data ==> data[k].node.Some?
  }

  lemma {:induction false} ResourcePassGivesNodes(data: PolicyData, lines: seq<StateLine>, parse: FloatParser)
    requires AllHaveNode(data)
    ensures ResourcePass(data, lines, parse).Ok? ==> AllHaveNode(ResourcePass(data, lines, parse).value)
  {
    if lines != [] {
      ResourcePassGivesNodes(data, lines[..|lines| - 1], parse);
    }
  }

  /** The `kube_pod_info` pass changes nothing once every entry has a node. */
  lemma {:induction false} PodInfoPassNoOp(data: PolicyData, lines: seq<StateLine>)
    requires AllHaveNode(data)
    ensures PodInfoPass(data, lines) == data
  {
    if lines != [] {
      PodInfoPassNoOp(data, lines[..|lines| - 1]);
      match lines[|lines| - 1]
      case PodInfoLine(ns, pod, node) =>
        assert FillNode(data, ns, pod, node) == data;
      case _ =>
    }
  }

  /**
   * Every entry gets its node in the resource pass, so the pod-info pass of
   * `fetch_ksm` never has an effect: the result is the resource pass followed
   * by the owner pass.
   */
  lemma PodInfoPassIsDead(lines: seq<StateLine>, parse: FloatParser)
    ensures ResourcePass(map[], lines, parse).Err? ==> StateData(lines, parse) == ResourcePass(map[], lines, parse)
    ensures ResourcePass(map[], lines, parse).Ok? ==>
              StateData(lines, parse) == Ok(OwnerPass(ResourcePass(map[], lines, parse).value, lines))
  {
    ResourcePassGivesNodes(map[], lines, parse);
    if ResourcePass(map[], lines, parse).Ok? {
      PodInfoPassNoOp(ResourcePass(map[], lines, parse).value, lines);
    }
  }

  /** The owner kind of the last `kube_pod_owner` line for the pod, if any. */
  function LastOwner(lines: seq<StateLine>, ns: string, pod: string): Option<string> {
    if lines == [] then None
    else
      match lines[|lines| - 1]
      case OwnerLine(n, p, o) =>
        if n == ns && p == pod then Some(o) else LastOwner(lines[..|lines| - 1], ns, pod)
      case _ => LastOwner(lines[..|lines| - 1], ns, pod)
  }

  /**
   * The owner pass creates no entry and sets on every entry the owner kind of
   * the last owner line of its pod, leaving it as it was when there is none.
   */
  lemma {:induction false} OwnerPassLastWins(data: PolicyData, lines: seq<StateLine>, k: Key)
    ensures OwnerPass(data, lines).Keys == data.Keys
    ensures k in data ==>
      && OwnerPass(data, lines)[k].owner == (if LastOwner(lines, k.namespace, k.pod).Some? then LastOwner(lines, k.namespace, k.pod) else data[k].owner)
      && OwnerPass(data, lines)[k].amounts == data[k].amounts
      && OwnerPass(data, lines)[k].node == data[k].node
  {
    if lines != [] {
      OwnerPassLastWins(data, lines[..|lines| - 1], k);
    }
  }

  /** The amount the last resource line for `key` and `field` stores, if any. */
  function LastAmount(lines: seq<StateLine>, key: Key, field: string, parse: FloatParser): Option<real> {
    if lines == [] then None
    else
      match lines[|lines| - 1]
      case ResourceLine(m) =>
        if KeyOf(m) == key && FieldName(m.resource, m.kind) == field
        then Some(Amount(m, parse(m.value).GetOr(0.0)))
        else LastAmount(lines[..|lines| - 1], key, field, parse)
      case _ => LastAmount(lines[..|lines| - 1], key, field, parse)
  }

  /**
   * After the resource pass, an amount is stored exactly when some resource
   * line supplied it, and it is the value of the last such line (memory in MiB).
   */
  lemma {:induction false} ResourcePassLastWins(data: PolicyData, lines: seq<StateLine>, parse: FloatParser, k: Key, f: string)
    requires ResourcePass(data, lines, parse).Ok?
    ensures var d := ResourcePass(data, lines, parse).value;
            var last := LastAmount(lines, k, f, parse);
            && (last.Some? ==> k in d && f in d[k].amounts && d[k].amounts[f] == last.value)
            && (last.None? ==> ((k in d && f in d[k].amounts) <==> (k in data && f in data[k].amounts)))
            && (last.None? && k in data && f in data[k].amounts ==> d[k].amounts[f] == data[k].amounts[f])
  {
    if lines != [] {
      var init := lines[..|lines| - 1];
      ResourcePassLastWins(data, init, parse, k, f);
    }
  }

  /** The node of the last resource line for `key`, if any. */
  function LastNode(lines: seq<StateLine>, key: Key): Option<string> {
    if lines == [] then None
    else
      match lines[|lines| - 1]
      case ResourceLine(m) => if KeyOf(m) == key then Some(m.node) else LastNode(lines[..|lines| - 1], key)
      case _ => LastNode(lines[..|lines| - 1], key)
  }

  /**
   * The resource pass creates an entry for `key` exactly when a resource
   * line names it, and gives it the node of the last such line.
   */
  lemma {:induction false} ResourcePassLastNode(data: PolicyData, lines: seq<StateLine>, parse: FloatParser, k: Key)
    requires ResourcePass(data, lines, parse).Ok?
    ensures var d := ResourcePass(data, lines, parse).value;
            && (LastNode(lines, k).Some? ==> k in d && d[k].node == LastNode(lines, k))
            && (LastNode(lines, k).None? ==> (k in d <==> k in data) && (k in data ==> d[k].node == data[k].node))
  {
    if lines != [] {
      ResourcePassLastNode(data, lines[..|lines| - 1], parse, k);
    }
  }

  /**
   * `fetch_ksm` holds an entry for a key exactly when some resource line
   * names it, and that entry's node is the node of the last such line.
   */
  lemma FetchKsmNode(lines: seq<StateLine>, parse: FloatParser, k: Key)
    requires StateData(lines, parse).Ok?
    ensures k in StateData(lines, parse).value <==> LastNode(lines, k).Some?
    ensures k in StateData(lines, parse).value ==> StateData(lines, parse).value[k].node == LastNode(lines, k)
  {
    PodInfoPassIsDead(lines, parse);
    var d := ResourcePass(map[], lines, parse).value;
    OwnerPassLastWins(d, lines, k);
    ResourcePassLastNode(map[], lines, parse, k);
  }

  /** `for key in data` with the node fill-in of the pod-info pass. */
  method FillNodeWhere(data: PolicyData, ns: string, pod: string, node: string) returns (r: PolicyData)
    ensures r == FillNode(data, ns, pod, node)
  {
    r := data;
    var todo := data.Keys;
    while todo != {}
      invariant todo <= data.Keys && r.Keys == data.Keys
      invariant forall k :: k in data && k !in todo ==> r[k] == FillNode(data, ns, pod, node)[k]
      invariant forall k :: k in todo ==> r[k] == data[k]
      decreases todo
    {
      var k :| k in todo;
      if k.namespace == ns && k.pod == pod && r[k].node.None? {
        r := r[k := r[k].(node := Some(node))];
      }
      todo := todo - {k};
    }
  }

  /** `for key in data` with the owner update of the owner pass. */
  method SetOwnerWhere(data: PolicyData, ns: string, pod: string, owner: string) returns (r: PolicyData)
    ensures r == SetOwner(data, ns, pod, owner)
  {
    r := data;
    var todo := data.Keys;
    while todo != {}
      invariant todo <= data.Keys && r.Keys == data.Keys
      invariant forall k :: k in data && k !in todo ==> r[k] == SetOwner(data, ns, pod, owner)[k]
      invariant forall k :: k in todo ==> r[k] == data[k]
      decreases todo
    {
      var k :| k in todo;
      if k.namespace == ns && k.pod == pod {
        r := r[k := r[k].(owner := Some(owner))];
      }
      todo := todo - {k};
    }
  }

  /**
   * `fetch_ksm` on the matched lines: a value `float()` rejects raises, and
   * otherwise every entry has a node and the owner kind of its pod's last
   * owner line.
   */
  method FetchKsm(lines: seq<StateLine>, parse: FloatParser) returns (r: Result<PolicyData, ScrapeError>)
    ensures r == StateData(lines, parse)
    ensures r.Ok? ==> AllHaveNode(r.value)
  {
    var afterResources := RecordResources(lines, parse);
    if afterResources.Err? {
      return afterResources;
    }
    var afterPodInfo := FillNodes(afterResources.value, lines);
    var data := SetOwners(afterPodInfo, lines);
    r := Ok(data);
    ResourcePassGivesNodes(map[], lines, parse);
    PodInfoPassNoOp(afterResources.value, lines);
    forall k | k in data ensures data[k].node.Some? {
      OwnerPassLastWins(afterPodInfo, lines, k);
    }
  }

  /** The first loop of `fetch_ksm`: requests and limits by container. */
  method RecordResources(lines: seq<StateLine>, parse: FloatParser) returns (r: Result<PolicyData, ScrapeError>)
    ensures r == ResourcePass(map[], lines, parse)
  {
    var data: PolicyData := map[];
    for i := 0 to |lines|
      invariant ResourcePass(map[], lines[..i], parse) == Ok(data)
    {
      assert lines[..i + 1][..i] == lines[..i];
      match lines[i]
      case ResourceLine(m) =>
        var v := parse(m.value);
        if v.None? {
          ResourcePassErrorSticks(lines, i + 1, parse);
          assert lines[..|lines|] == lines;
          return Err(NotANumber(m.value));
        }
        var val := if m.resource == Memory then v.value / BytesPerMiB else v.value;
        var key := Key(m.namespace, m.pod, m.container);
        var p := if key in data then data[key] else NoPolicy;
        data := data[key := p.(amounts := p.amounts[ResourceName(m.resource) + "_" + KindName(m.kind) := val],
                               node := Some(m.node))];
      case _ =>
    }
    assert lines[..|lines|] == lines;
    r := Ok(data);
  }

  /** The second loop of `fetch_ksm`: nodes from `kube_pod_info`. */
  method FillNodes(data: PolicyData, lines: seq<StateLine>) returns (r: PolicyData)
    ensures r == PodInfoPass(data, lines)
  {
    r := data;
    for i := 0 to |lines|
      invariant r == PodInfoPass(data, lines[..i])
    {
      assert lines[..i + 1][..i] == lines[..i];
      match lines[i]
      case PodInfoLine(ns, pod, node) =>
        r := FillNodeWhere(r, ns, pod, node);
      case _ =>
    }
    assert lines[..|lines|] == lines;
  }

  /** The third loop of `fetch_ksm`: owner kinds from `kube_pod_owner`. */
  method SetOwners(data: PolicyData, lines: seq<StateLine>) returns (r: PolicyData)
    ensures r == OwnerPass(data, lines)
  {
    r := data;
    for i := 0 to |lines|
      invariant r == OwnerPass(data, lines[..i])
    {
      assert lines[..i + 1][..i] == lines[..i];
      match lines[i]
      case OwnerLine(ns, pod, owner) =>
        r := SetOwnerWhere(r, ns, pod, owner);
      case _ =>
    }
    assert lines[..|lines|] == lines;
  }

  lemma {:induction false} ResourcePassErrorSticks(lines: seq<StateLine>, n: nat, parse: FloatParser)
    requires n <= |lines| && ResourcePass(map[], lines[..n], parse).Err?
    ensures ResourcePass(map[], lines, parse) == ResourcePass(map[], lines[..n], parse)
    decreases |lines| - n
  {
    if n < |lines| {
      assert lines[..n + 1][..n] == lines[..n];
      ResourcePassErrorSticks(lines, n + 1, parse);
    } else {
      assert lines[..n] == lines;
    }
  }
}
