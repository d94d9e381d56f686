/**
 * The tunnel side: the cAdvisor pods are laid out on a grid of local ports
 * (`assign_ports_to_pods`), one `kubectl port-forward` process is started
 * per assignment (`start_port_forwards`) and the processes are terminated
 * when the run ends.
 */
module Tunnels {
  import opened OrderedDict

  /** The cAdvisor port every tunnel forwards to. */
  const CadvisorPort := 8080

  /** `{'port': port, 'row': row, 'column': col}` */
  datatype Assignment = Assignment(port: int, row: int, column: int)

  /**
   * The grid cell of the `i`-th pod: row `i div columns` and column
   * `i mod columns`; with no positive column count every pod gets a row of
   * its own in column 0.
   */
  function GridRow(i: nat, columns: int): int {
    if columns >= 1 then i / columns else i
  }

  function GridColumn(i: nat, columns: int): int {
    if columns >= 1 then i % columns else 0
  }

  lemma {:induction false} MulAtLeast(a: int, c: int)
    requires a >= 1 && c >= 1
    ensures a * c >= c
    decreases a
  {
    if a > 1 {
      MulAtLeast(a - 1, c);
      assert a * c == (a - 1) * c + c;
    }
  }

  /** Euclidean division has one quotient and remainder. */
  lemma DivModUnique(n: int, c: int, q: int, r: int)
    requires c >= 1 && n == q * c + r && 0 <= r < c
    ensures n / c == q && n % c == r
  {
    var q', r' := n / c, n % c;
    assert n == q' * c + r';
    assert (q - q') * c == r' - r;
    if q > q' {
      MulAtLeast(q - q', c);
      assert false;
    } else if q < q' {
      MulAtLeast(q' - q, c);
      assert false;
    }
  }

  /** One step of the `col += 1; if col >= columns: ...` counter. */
  lemma GridStep(i: nat, columns: int)
    ensures GridColumn(i, columns) + 1 >= columns ==>
              GridRow(i + 1, columns) == GridRow(i, columns) + 1 && GridColumn(i + 1, columns) == 0
    ensures GridColumn(i, columns) + 1 < columns ==>
              GridRow(i + 1, columns) == GridRow(i, columns) && GridColumn(i + 1, columns) == GridColumn(i, columns) + 1
  {
    if columns >= 1 {
      var q, r := i / columns, i % columns;
      assert i == q * columns + r;
      if r + 1 >= columns {
        DivModUnique(i + 1, columns, q + 1, 0);
      } else {
        DivModUnique(i + 1, columns, q, r + 1);
      }
    }
  }

  /** Each name once, in the order of its first occurrence (the key order of a dict filled from `s`). */
  function FirstOccurrences(s: seq<string>): seq<string> {
    if s == [] then []
    else
      var f := FirstOccurrences(s[..|s| - 1]);
      if s[|s| - 1] in s[..|s| - 1] then f else f + [s[|s| - 1]]
  }

  /** Entry `i` is the last occurrence of its value among the first `n` entries. */
  predicate LastBefore(s: seq<string>, i: int, n: int) {
    0 <= i < n <= |s| && forall l :: i < l < n ==> s[l] != s[i]
  }

  /** What `assign_ports_to_pods` gives the `i`-th pod name. */
  function Planned(columns: int, freePorts: seq<int>, i: nat): Assignment
    requires i < |freePorts|
  {
    Assignment(freePorts[i], GridRow(i, columns), GridColumn(i, columns))
  }

  /** The dictionary `assign_ports_to_pods` builds from the first `|podNames|` ports. */
  function Layout(podNames: seq<string>, columns: int, freePorts: seq<int>): Dict<string, Assignment>
    requires |freePorts| >= |podNames|
  {
    if podNames == [] then Empty()
    else
      var n := |podNames| - 1;
      Layout(podNames[..n], columns, freePorts).Set(podNames[n], Planned(columns, freePorts, n))
  }

  /** The layout is a well-formed dictionary whose keys come in the order the names first occur. */
  lemma {:induction false} LayoutOrder(podNames: seq<string>, columns: int, freePorts: seq<int>)
    requires |freePorts| >= |podNames|
    ensures Layout(podNames, columns, freePorts).Valid()
    ensures Layout(podNames, columns, freePorts).order == FirstOccurrences(podNames)
    ensures forall p :: p in Layout(podNames, columns, freePorts).items <==> p in podNames
  {
    if podNames != [] {
      var n := |podNames| - 1;
      var init := podNames[..n];
      LayoutOrder(init, columns, freePorts);
      assert podNames == init + [podNames[n]];
    }
  }

  /** Every name holds what its last occurrence was planned to get. */
  lemma {:induction false} LayoutLastWins(podNames: seq<string>, columns: int, freePorts: seq<int>)
    requires |freePorts| >= |podNames|
    ensures forall i :: LastBefore(podNames, i, |podNames|) ==>
              && podNames[i] in Layout(podNames, columns, freePorts).items
              && Layout(podNames, columns, freePorts).items[podNames[i]] == Planned(columns, freePorts, i)
  {
    if podNames != [] {
      var n := |podNames| - 1;
      var init := podNames[..n];
      LayoutLastWins(init, columns, freePorts);
      var before := Layout(init, columns, freePorts).items;
      var items := Layout(podNames, columns, freePorts).items;
      assert items == before[podNames[n] := Planned(columns, freePorts, n)];
      forall i | LastBefore(podNames, i, |podNames|)
        ensures podNames[i] in items && items[podNames[i]] == Planned(columns, freePorts, i)
      {
        if i < n {
          assert podNames[i] == init[i] && podNames[i] != podNames[n];
          assert LastBefore(init, i, n);
        }
      }
    }
  }

  /**
   * `assign_ports_to_pods`: the `i`-th pod name gets the `i`-th port that
   * `find_free_port` hands out and the grid cell (`i div columns`,
   * `i mod columns`) counted by the loop's `row`/`col` variables.
   */
  method AssignPortsToPods(podNames: seq<string>, columns: int, freePorts: seq<int>)
    returns (layout: Dict<string, Assignment>)
    requires |freePorts| >= |podNames|
    ensures layout == Layout(podNames, columns, freePorts)
  {
    layout := Empty();
    var row, col := 0, 0;
    for i := 0 to |podNames|
      invariant row == GridRow(i, columns) && col == GridColumn(i, columns)
      invariant layout == Layout(podNames[..i], columns, freePorts)
    {
      assert podNames[..i + 1][..i] == podNames[..i];
      var port := freePorts[i];
      layout := layout.Set(podNames[i], Assignment(port, row, col));
      GridStep(i, columns);
      col := col + 1;
      if col >= columns {
        col := 0;
        row := row + 1;
      }
    }
    assert podNames[..|podNames|] == podNames;
  }

  /** `{pod: info['port'] for pod, info in assignments.items()}` */
  function PodPorts(assignments: Dict<string, Assignment>): (ports: Dict<string, int>)
    ensures ports.order == assignments.order
    ensures ports.items.Keys == assignments.items.Keys
    ensures forall p :: p in assignments.items ==> ports.items[p] == assignments.items[p].port
    ensures assignments.Valid() ==> ports.Valid()
  {
    Dict(assignments.order, map p | p in assignments.items :: assignments.items[p].port)
  }

  /**
   * One `kubectl port-forward pod/<pod> <localPort>:8080 -n <namespace>`
   * process, from `Popen` to `terminate()`.
   */
  class PortForward {
    const pod: string
    const localPort: int
    const remotePort: int
    const namespace: string
    var running: bool

    constructor (pod: string, localPort: int, namespace: string)
      ensures this.pod == pod && this.localPort == localPort && this.namespace == namespace
      ensures remotePort == CadvisorPort && running
    {
      this.pod := pod;
      this.localPort := localPort;
      this.remotePort := CadvisorPort;
      this.namespace := namespace;
      running := true;
    }

    method Terminate()
      modifies this
      ensures !running
    {
      running := false;
    }
  }

  predicate Forwards(proc: PortForward, pod: string, a: Assignment, namespace: string) {
    proc.pod == pod && proc.localPort == a.port && proc.remotePort == CadvisorPort && proc.namespace == namespace
  }

  /**
   * `start_port_forwards`: exactly one new, running process per assignment,
   * in the dictionary's order, each forwarding its pod's layout local port
   * to port 8080.
   */
  method StartPortForwards(namespace: string, assignments: Dict<string, Assignment>)
    returns (procs: seq<PortForward>)
    requires assignments.Valid()
    ensures |procs| == |assignments.order|
    ensures forall i :: 0 <= i < |procs| ==>
              && Forwards(procs[i], assignments.order[i], assignments.items[assignments.order[i]], namespace)
              && fresh(procs[i]) && procs[i].running
    ensures forall i, j :: 0 <= i < j < |procs| ==> procs[i] != procs[j]
  {
    procs := [];
    for i := 0 to |assignments.order|
      invariant |procs| == i
      invariant forall j :: 0 <= j < i ==>
                  && Forwards(procs[j], assignments.order[j], assignments.items[assignments.order[j]], namespace)
                  && fresh(procs[j]) && procs[j].running
      invariant forall j, l :: 0 <= j < l < i ==> procs[j] != procs[l]
    {
      var pod := assignments.order[i];
      var proc := new PortForward(pod, assignments.items[pod].port, namespace);
      procs := procs + [proc];
    }
  }

  /** `for _, proc in procs: proc.terminate()` */
  method TerminateAll(procs: seq<PortForward>)
    modifies set i | 0 <= i < |procs| :: procs[i]
    ensures forall i :: 0 <= i < |procs| ==> !procs[i].running
  {
    for i := 0 to |procs|
      invariant forall j :: 0 <= j < i ==> !procs[j].running
    {
      procs[i].Terminate();
    }
  }
}
