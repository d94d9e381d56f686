/**
 * Label blocks of the Prometheus text exposition format, as the scrapers
 * read them (`parse_labels`), and the identity a usage series is filed
 * under (namespace, pod, container), with the alternate cAdvisor label
 * names as fallbacks.
 */
module Labels {
  import opened Text

  /** The label name of one `key=value` part: the text before its first `=`, stripped of white space. */
  function LabelKey(part: string): string
    requires '=' in part
  {
    Strip(SplitFirst(part, '=').0, IsSpace)
  }

  /** The label value of one `key=value` part: the text after its first `=`, stripped of `"`. */
  function LabelValue(part: string): string
    requires '=' in part
  {
    Strip(SplitFirst(part, '=').1, IsQuote)
  }

  /** Part `p` assigns label `k`. */
  predicate Defines(p: string, k: string) {
    '=' in p && LabelKey(p) == k
  }

  /** Part `i` assigns label `k` and no later part does. */
  predicate DefinesLast(parts: seq<string>, i: int, k: string) {
    && 0 <= i < |parts| && Defines(parts[i], k)
    && forall j :: i < j < |parts| ==> !Defines(parts[j], k)
  }

  /** The labels the parts give when they are stored left to right into a dictionary. */
  function LabelsOf(parts: seq<string>): map<string, string> {
    if parts == [] then map[]
    else
      var m := LabelsOf(parts[..|parts| - 1]);
      var p := parts[|parts| - 1];
      if '=' in p then m[LabelKey(p) := LabelValue(p)] else m
  }

  /** Every stored label comes from some part that assigns it. */
  lemma {:induction false} LabelsOfSource(parts: seq<string>, k: string) returns (i: int)
    requires k in LabelsOf(parts)
    ensures 0 <= i < |parts| && Defines(parts[i], k)
  {
    var init, p := parts[..|parts| - 1], parts[|parts| - 1];
    if '=' in p && LabelKey(p) == k {
      i := |parts| - 1;
    } else {
      i := LabelsOfSource(init, k);
      assert parts[i] == init[i];
    }
  }

  /** Every part that assigns a label leaves it present; parts without `=` assign nothing. */
  lemma {:induction false} LabelsOfHas(parts: seq<string>, i: int, k: string)
    requires 0 <= i < |parts| && Defines(parts[i], k)
    ensures k in LabelsOf(parts)
  {
    var init := parts[..|parts| - 1];
    if i < |parts| - 1 {
      assert init[i] == parts[i];
      LabelsOfHas(init, i, k);
    }
  }

  /** A label's value comes from the last part that assigns it. */
  lemma {:induction false} LabelsOfLastWins(parts: seq<string>, i: int, k: string)
    requires DefinesLast(parts, i, k)
    ensures k in LabelsOf(parts) && LabelsOf(parts)[k] == LabelValue(parts[i])
  {
    var init := parts[..|parts| - 1];
    if i < |parts| - 1 {
      assert DefinesLast(init, i, k);
      LabelsOfLastWins(init, i, k);
      assert !Defines(parts[|parts| - 1], k);
    }
  }

  /**
   * `parse_labels`: splits the block on every comma and stores each part that
   * holds an `=` under its key, so that a later duplicate key wins.
   */
  method ParseLabels(labelStr: string) returns (labels: map<string, string>)
    ensures labels == LabelsOf(SplitOn(labelStr, ','))
    ensures var parts := SplitOn(labelStr, ',');
            && (forall k :: k in labels ==> exists i :: 0 <= i < |parts| && Defines(parts[i], k))
            && (forall i, k :: 0 <= i < |parts| && Defines(parts[i], k) ==> k in labels)
            && (forall i, k :: DefinesLast(parts, i, k) ==> k in labels && labels[k] == LabelValue(parts[i]))
  {
    var parts := SplitOn(labelStr, ',');
    labels := map[];
    for n := 0 to |parts|
      invariant labels == LabelsOf(parts[..n])
    {
      var part := parts[n];
      if '=' in part {
        var kv := SplitFirst(part, '=');
        labels := labels[Strip(kv.0, IsSpace) := Strip(kv.1, IsQuote)];
      }
      assert parts[..n + 1][..n] == parts[..n];
    }
    assert parts[..|parts|] == parts;
    forall k | k in labels ensures exists i :: 0 <= i < |parts| && Defines(parts[i], k) {
      var i := LabelsOfSource(parts, k);
    }
    forall i, k | 0 <= i < |parts| && Defines(parts[i], k) ensures k in labels {
      LabelsOfHas(parts, i, k);
    }
    forall i, k | DefinesLast(parts, i, k) ensures k in labels && labels[k] == LabelValue(parts[i]) {
      LabelsOfLastWins(parts, i, k);
    }
  }

  /** The identity key that usage and policy series are joined on. */
  datatype Key = Key(namespace: string, pod: string, container: string)

  /** The pod-level identity that owner, node and per-pod request data are keyed on. */
  datatype PodKey = PodKey(namespace: string, pod: string)

  const NamespaceLabel := "namespace"
  const PodLabel := "pod"
  const ContainerLabel := "container"
  const NamespaceFallback := "container_label_io_kubernetes_pod_namespace"
  const PodFallback := "container_label_io_kubernetes_pod_name"
  const ContainerFallback := "container_label_io_kubernetes_container_name"

  /**
   * `labels.get(canonical, labels.get(fallback, ""))`: the canonical label when it
   * is present (even with an empty value), else the fallback label, else "".
   */
  function Resolve(labels: map<string, string>, canonical: string, fallback: string): (v: string)
    ensures canonical in labels ==> v == labels[canonical]
    ensures canonical !in labels && fallback in labels ==> v == labels[fallback]
    ensures canonical !in labels && fallback !in labels ==> v == ""
  {
    if canonical in labels then labels[canonical]
    else if fallback in labels then labels[fallback]
    else ""
  }

  function ResolveKey(labels: map<string, string>): Key {
    Key(Resolve(labels, NamespaceLabel, NamespaceFallback),
        Resolve(labels, PodLabel, PodFallback),
        Resolve(labels, ContainerLabel, ContainerFallback))
  }

  /** `not container or container in ("POD", "")`: the pause container and unnamed series. */
  predicate IsSkippedContainer(container: string) {
    container == "" || container == "POD"
  }
}
