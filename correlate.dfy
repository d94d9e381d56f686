/**
 * The rate/row step shared by the scrapers' main loops: two usage
 * snapshots, taken one scrape interval apart, are joined key by key into
 * rows carrying the CPU rate, the memory in use and the kube-state-metrics
 * policy of the container.
 */
module Correlate {
  import opened Wrappers
  import opened Labels
  import opened Usage
  import opened StateMetrics
  import opened KeyOrder

  /** `delta_cpu / delta_time if delta_time > 0 else 0.0` */
  function Rate(curr: CpuSample, prev: CpuSample): (r: real)
    ensures curr.timestamp - prev.timestamp > 0.0 ==> r * (curr.timestamp - prev.timestamp) == curr.seconds - prev.seconds
    ensures curr.timestamp - prev.timestamp <= 0.0 ==> r == 0.0
    ensures curr.timestamp - prev.timestamp > 0.0 ==> (r < 0.0 <==> curr.seconds < prev.seconds)
  {
    var dt := curr.timestamp - prev.timestamp;
    if dt > 0.0 then (curr.seconds - prev.seconds) / dt else 0.0
  }

  /** The key is in both snapshots and both entries carry a CPU sample. */
  predicate Qualifies(curr: Snapshot, prev: Snapshot, k: Key) {
    k in curr.items && k in prev.items && curr.items[k].cpu.Some? && prev.items[k].cpu.Some?
  }

  /** The qualifying keys among `keys`, in the order of `keys`. */
  function QualifyingKeys(keys: seq<Key>, curr: Snapshot, prev: Snapshot): (q: seq<Key>)
    ensures forall k :: k in q ==> k in keys && Qualifies(curr, prev, k)
    ensures |q| <= |keys|
  {
    if keys == [] then []
    else
      var q := QualifyingKeys(keys[..|keys| - 1], curr, prev);
      var k := keys[|keys| - 1];
      assert forall x :: x in keys[..|keys| - 1] ==> x in keys;
      if Qualifies(curr, prev, k) then q + [k] else q
  }

  /** No qualifying key is left out. */
  lemma {:induction false} QualifyingKeysComplete(keys: seq<Key>, curr: Snapshot, prev: Snapshot)
    ensures forall k :: k in keys && Qualifies(curr, prev, k) ==> k in QualifyingKeys(keys, curr, prev)
  {
    if keys != [] {
      QualifyingKeysComplete(keys[..|keys| - 1], curr, prev);
      assert keys == keys[..|keys| - 1] + [keys[|keys| - 1]];
    }
  }

  /**
   * The qualifying keys are `keys` with the others left out: the i-th of them
   * is `keys[idx[i]]`, the positions `idx` increase, and every position of a
   * qualifying key is among them.
   */
  lemma {:induction false} QualifyingKeysInOrder(keys: seq<Key>, curr: Snapshot, prev: Snapshot) returns (idx: seq<nat>)
    ensures |idx| == |QualifyingKeys(keys, curr, prev)|
    ensures forall i :: 0 <= i < |idx| ==> idx[i] < |keys| && QualifyingKeys(keys, curr, prev)[i] == keys[idx[i]]
    ensures forall i, j :: 0 <= i < j < |idx| ==> idx[i] < idx[j]
    ensures forall j :: 0 <= j < |keys| && Qualifies(curr, prev, keys[j]) ==> j in idx
  {
    if keys == [] {
      idx := [];
    } else {
      var n := |keys| - 1;
      var front := keys[..n];
      var before := QualifyingKeysInOrder(front, curr, prev);
      assert forall i :: 0 <= i < |before| ==> front[before[i]] == keys[before[i]];
      if Qualifies(curr, prev, keys[n]) {
        idx := before + [n];
      } else {
        idx := before;
      }
    }
  }

  /** Keys listed once each give qualifying keys listed once each. */
  lemma QualifyingKeysDistinct(keys: seq<Key>, curr: Snapshot, prev: Snapshot)
    requires Distinct(keys)
    ensures Distinct(QualifyingKeys(keys, curr, prev))
  {
    var idx := QualifyingKeysInOrder(keys, curr, prev);
  }

  /** One printed line of the live table. */
  datatype UsageRow = UsageRow(
    key: Key, node: string, owner: string, cpuRate: real, memoryMiB: real,
    cpuRequest: real, cpuLimit: real, memoryRequest: real, memoryLimit: real)

  const Unknown := "unknown"

  /** `ksm.get(field, 0.0)`: the stored amount, or 0.0 when there is none. */
  function AmountOr(p: Policy, field: string): (v: real)
    ensures field in p.amounts ==> v == p.amounts[field]
    ensures field !in p.amounts ==> v == 0.0
  {
    if field in p.amounts then p.amounts[field] else 0.0
  }

  /**
   * The row of a qualifying key: the rate between the two samples, the
   * current memory (0.0 when none was seen), and the policy of the key, with
   * "unknown" and 0.0 standing in for whatever kube-state-metrics lacks.
   */
  function RowFor(k: Key, curr: Snapshot, prev: Snapshot, ksm: PolicyData): (row: UsageRow)
    requires Qualifies(curr, prev, k)
    ensures row.key == k
    ensures row.cpuRate == Rate(curr.items[k].cpu.value, prev.items[k].cpu.value)
    ensures row.memoryMiB == curr.items[k].memoryMiB.GetOr(0.0)
    ensures k !in ksm ==> row.node == Unknown && row.owner == Unknown
    ensures k !in ksm ==> row.cpuRequest == 0.0 && row.cpuLimit == 0.0 && row.memoryRequest == 0.0 && row.memoryLimit == 0.0
    ensures k in ksm && ksm[k].node.Some? ==> row.node == ksm[k].node.value
    ensures k in ksm && ksm[k].owner.Some? ==> row.owner == ksm[k].owner.value
    ensures k in ksm && ksm[k].node.None? ==> row.node == Unknown
    ensures k in ksm && ksm[k].owner.None? ==> row.owner == Unknown
    ensures k in ksm ==> row.cpuRequest == AmountOr(ksm[k], FieldName(Cpu, Requests))
    ensures k in ksm ==> row.cpuLimit == AmountOr(ksm[k], FieldName(Cpu, Limits))
    ensures k in ksm ==> row.memoryRequest == AmountOr(ksm[k], FieldName(Memory, Requests))
    ensures k in ksm ==> row.memoryLimit == AmountOr(ksm[k], FieldName(Memory, Limits))
  {
    var p := if k in ksm then ksm[k] else NoPolicy;
    UsageRow(k, p.node.GetOr(Unknown), p.owner.GetOr(Unknown),
             Rate(curr.items[k].cpu.value, prev.items[k].cpu.value),
             curr.items[k].memoryMiB.GetOr(0.0),
             AmountOr(p, FieldName(Cpu, Requests)), AmountOr(p, FieldName(Cpu, Limits)),
             AmountOr(p, FieldName(Memory, Requests)), AmountOr(p, FieldName(Memory, Limits)))
  }

  /** The rows of the qualifying keys among `keys`, in the order of `keys`. */
  function Rows(keys: seq<Key>, curr: Snapshot, prev: Snapshot, ksm: PolicyData): seq<UsageRow> {
    if keys == [] then []
    else
      var rows := Rows(keys[..|keys| - 1], curr, prev, ksm);
      var k := keys[|keys| - 1];
      if Qualifies(curr, prev, k) then rows + [RowFor(k, curr, prev, ksm)] else rows
  }

  function RowKeys(rows: seq<UsageRow>): (keys: seq<Key>)
    ensures |keys| == |rows| && forall i :: 0 <= i < |rows| ==> keys[i] == rows[i].key
  {
    seq(|rows|, i requires 0 <= i < |rows| => rows[i].key)
  }

  /**
   * Walking ascending keys gives exactly one row per qualifying key, in
   * ascending order, each row being the row of its key.
   */
  lemma {:induction false} RowsFacts(keys: seq<Key>, curr: Snapshot, prev: Snapshot, ksm: PolicyData)
    requires StrictlySorted(keys)
    ensures StrictlySorted(RowKeys(Rows(keys, curr, prev, ksm)))
    ensures forall k :: k in RowKeys(Rows(keys, curr, prev, ksm)) <==> k in keys && Qualifies(curr, prev, k)
    ensures forall row :: row in Rows(keys, curr, prev, ksm) ==>
              Qualifies(curr, prev, row.key) && row == RowFor(row.key, curr, prev, ksm)
    ensures forall row :: row in Rows(keys, curr, prev, ksm) ==> row.key in keys
  {
    if keys != [] {
      var n := |keys| - 1;
      var init := keys[..n];
      assert StrictlySorted(init);
      RowsFacts(init, curr, prev, ksm);
      assert keys == init + [keys[n]];
      var rows := Rows(init, curr, prev, ksm);
      if Qualifies(curr, prev, keys[n]) {
        var all := Rows(keys, curr, prev, ksm);
        assert all == rows + [RowFor(keys[n], curr, prev, ksm)];
        assert RowKeys(all) == RowKeys(rows) + [keys[n]];
        forall i | 0 <= i < |rows| ensures KeyLess(RowKeys(rows)[i], keys[n]) {
          assert rows[i] in rows;
          var j :| 0 <= j < n && init[j] == rows[i].key;
        }
      }
    }
  }

  /**
   * The per-cycle loop `for key in sorted(curr_metrics)`: one row per key
   * present with CPU in both snapshots, in ascending (namespace, pod,
   * container) order.
   */
  method CorrelateSorted(curr: Snapshot, prev: Snapshot, ksm: PolicyData) returns (rows: seq<UsageRow>)
    requires curr.Valid()
    ensures rows == Table(curr, prev, ksm)
    ensures StrictlySorted(RowKeys(rows))
    ensures forall k :: k in RowKeys(rows) <==> Qualifies(curr, prev, k)
    ensures forall i :: 0 <= i < |rows| ==> Qualifies(curr, prev, rows[i].key) && rows[i] == RowFor(rows[i].key, curr, prev, ksm)
  {
    var keys := Sort(curr.order);
    assert forall i :: 0 <= i < |keys| ==> keys[i] in keys;
    rows := CorrelateKeys(keys, curr, prev, ksm);
    TableShows(curr, prev, ksm);
    forall i | 0 <= i < |rows| ensures Qualifies(curr, prev, rows[i].key) {
      assert RowKeys(rows)[i] == rows[i].key;
    }
  }

  /** The loop body over the keys in the given order: a row for each key present with CPU in both snapshots. */
  method CorrelateKeys(keys: seq<Key>, curr: Snapshot, prev: Snapshot, ksm: PolicyData) returns (rows: seq<UsageRow>)
    requires forall i :: 0 <= i < |keys| ==> keys[i] in curr.items
    ensures rows == Rows(keys, curr, prev, ksm)
  {
    rows := [];
    for i := 0 to |keys|
      invariant rows == Rows(keys[..i], curr, prev, ksm)
    {
      assert keys[..i + 1][..i] == keys[..i];
      var key := keys[i];
      if key !in prev.items || curr.items[key].cpu.None? || prev.items[key].cpu.None? {
        continue;
      }
      rows := rows + [RowFor(key, curr, prev, ksm)];
    }
    assert keys[..|keys|] == keys;
  }

  /** In an ascending key sequence every key but the first comes after it. */
  lemma HeadIsLeast(a: seq<Key>, k: Key)
    requires StrictlySorted(a) && k in a
    ensures k == a[0] || (k in a[1..] && KeyLess(a[0], k))
  {
    var l :| 0 <= l < |a| && a[l] == k;
    if l > 0 {
      assert a[1..][l - 1] == k;
    }
  }

  /** The rows of one cycle: `Rows` over the snapshot's keys in ascending order. */
  function Table(curr: Snapshot, prev: Snapshot, ksm: PolicyData): seq<UsageRow>
    requires curr.Valid()
  {
    Rows(Sort(curr.order), curr, prev, ksm)
  }

  /** A cycle's table has one row per qualifying key, ascending, each the row of its key. */
  lemma TableShows(curr: Snapshot, prev: Snapshot, ksm: PolicyData)
    requires curr.Valid()
    ensures Shows(Table(curr, prev, ksm), curr, prev, ksm)
  {
    var keys := Sort(curr.order);
    RowsFacts(keys, curr, prev, ksm);
    var rows := Table(curr, prev, ksm);
    forall i | 0 <= i < |rows| ensures rows[i] == RowFor(rows[i].key, curr, prev, ksm) {
      assert rows[i] in rows;
    }
  }

  /** Two ascending key sequences with the same keys are the same sequence. */
  lemma {:induction false} SortedUnique(a: seq<Key>, b: seq<Key>)
    requires StrictlySorted(a) && StrictlySorted(b)
    requires forall k :: k in a <==> k in b
    ensures a == b
  {
    if a != [] {
      assert a[0] in b;
    }
    if b != [] {
      assert b[0] in a;
    }
    if a != [] && b != [] {
      HeadIsLeast(a, b[0]);
      HeadIsLeast(b, a[0]);
      KeyLessStrictTotal(a[0], b[0], a[0]);
      assert a[0] == b[0];
      forall k ensures k in a[1..] <==> k in b[1..] {
        if k in a[1..] {
          KeyLessStrictTotal(a[0], k, k);
          HeadIsLeast(b, k);
        }
        if k in b[1..] {
          KeyLessStrictTotal(b[0], k, k);
          HeadIsLeast(a, k);
        }
      }
      SortedUnique(a[1..], b[1..]);
      assert a == [a[0]] + a[1..] && b == [b[0]] + b[1..];
    }
  }

  /** What one cycle prints: the rows of `CorrelateSorted`. */
  ghost predicate Shows(rows: seq<UsageRow>, curr: Snapshot, prev: Snapshot, ksm: PolicyData) {
    && StrictlySorted(RowKeys(rows))
    && (forall k :: k in RowKeys(rows) <==> Qualifies(curr, prev, k))
    && forall i :: 0 <= i < |rows| ==> rows[i] == RowFor(rows[i].key, curr, prev, ksm)
  }

  /** The contract of `CorrelateSorted` leaves exactly one table possible. */
  lemma ShowsUnique(a: seq<UsageRow>, b: seq<UsageRow>, curr: Snapshot, prev: Snapshot, ksm: PolicyData)
    requires Shows(a, curr, prev, ksm) && Shows(b, curr, prev, ksm)
    ensures a == b
  {
    SortedUnique(RowKeys(a), RowKeys(b));
    forall i | 0 <= i < |a| ensures a[i] == b[i] {
      assert RowKeys(a)[i] == RowKeys(b)[i];
    }
  }

  /** `int(x)`: the integer part, rounding toward zero. */
  function Truncate(x: real): (n: int)
    ensures x >= 0.0 ==> n as real <= x < n as real + 1.0
    ensures x < 0.0 ==> n as real - 1.0 < x <= n as real
  {
    if x >= 0.0 then x.Floor else -((-x).Floor)
  }

  /** `int(mem * 1024 * 1024)` */
  function MiBToBytes(mib: real): int {
    Truncate(mib * BytesPerMiB)
  }

  /** Converting a whole byte count to MiB and back gives it back exactly. */
  lemma BytesRoundTrip(bytes: int)
    ensures MiBToBytes(bytes as real / BytesPerMiB) == bytes
  {
    assert bytes as real / BytesPerMiB * BytesPerMiB == bytes as real;
  }

  /** One record of the ingest payload. */
  datatype IngestRow = IngestRow(
    cluster: string, node: string, namespace: string, pod: string, container: string,
    cpuUsageSec: real, memUsageBytes: int)

  const ClusterName := "my-cluster"

  /** The ingest record of a row: its node and identity, its rate and its memory in bytes. */
  function IngestRowOf(row: UsageRow): (r: IngestRow)
    ensures r.cluster == ClusterName && r.node == row.node
    ensures Key(r.namespace, r.pod, r.container) == row.key
    ensures r.cpuUsageSec == row.cpuRate
    ensures row.memoryMiB >= 0.0 ==> r.memUsageBytes as real <= row.memoryMiB * BytesPerMiB < r.memUsageBytes as real + 1.0
  {
    IngestRow(ClusterName, row.node, row.key.namespace, row.key.pod, row.key.container,
              row.cpuRate, MiBToBytes(row.memoryMiB))
  }
}
