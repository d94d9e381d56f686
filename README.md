# Kubernetes usage/policy correlation scrapers, modelled in Dafny

The repository holds five variants of one Python scraper. Each reads
cAdvisor's Prometheus text. From the counter and gauge lines
(`container_cpu_usage_seconds_total{…}`, `container_memory_usage_bytes{…}`) it builds a usage
dictionary keyed by (namespace, pod, container).

It then joins that dictionary with the requests, limits, node and owner
kind that kube-state-metrics or the cluster API report. The CPU rate is
computed against the previous scrape. The result is printed as a live
table, sent as ingest records, or posted as a JSON payload. The tunnelled
variants open one `kubectl port-forward` per cAdvisor pod, on a grid of
local ports, and terminate those processes when the run stops.

The five variants are:

- **metric-scraper/scraper.py**: tunnels, one baseline, one report sent for ingestion, `finally` teardown.
- **scraper-v3.py**: tunnels, then the live table until an interrupt.
- **scraper-v2.py**: the same live table over one local endpoint.
- **scraper.py**: cluster API metadata, `parse_ksm_metrics`, per-cycle payloads with node totals.
- **scraper-v7.py**: a one-shot snapshot over kube-state-metrics requests and the first tunnel's counters.

The model follows the code line by line, including its edge cases:

- the pause container `POD` and empty container names are skipped;
- the value token is the second-to-last whitespace token when a line has more than two (as when a timestamp follows the value), otherwise the last; scraper.py always takes the last. A label value containing a space therefore shifts the chosen token, and `float()` then raises;
- a value `float()` rejects raises, because only the HTTP request is guarded;
- a rate over elapsed time zero or less is 0.0;
- dictionaries keep insertion order, and `sorted` is the tuple order;
- later lines overwrite earlier ones;
- each `"unknown"`, `"Unknown"` and `"None"` default sits where the code puts it;
- each variant's teardown behaves as its code does.

Behaviour of the code worth noting:

- a malformed numeric tail raises and aborts the scrape; it is not skipped;
- port-forwards are not terminated after every cycle: scraper-v3.py terminates them only on an interrupt, and metric-scraper/scraper.py only when its baseline scrape succeeded. scraper-v7.py terminates them only when it reaches its end, which as written it does only when every namespace with request/limit values is two characters long (see Findings);
- a tunnel that never becomes ready does not stop the run: scraper-v3.py only prints a warning, and the other tunnelled variants ignore the probe's result.

Modules:

- `Wrappers` and `OrderedDict`: Python's insertion-ordered dict, as a map plus its key order.
- `Text`: `split`, `strip`, whitespace tokens.
- `Labels`: `parse_labels` and the canonical/fallback label resolution.
- `KeyOrder`: tuple ordering and `sorted`.
- `Usage`: the cAdvisor scanner.
- `StateMetrics`: `fetch_ksm`.
- `Correlate`: the joined rows.
- `Cluster`: the cluster API pass.
- `PodMetrics`: `parse_ksm_metrics` and the payload.
- `Tunnels`: port layout and port-forward processes.
- `SnapshotV7`: scraper-v7.py's rows.
- `Sessions`: the main programs.

## Model

| member | source | states |
|---|---|---|
| OrderedDict.Empty | metric-scraper/scraper.py:105 | a new dict has no keys and an empty key order |
| OrderedDict.Dict.Set | metric-scraper/scraper.py:125 | assignment maps the key to the value; an existing key keeps its position and a new key goes last; the order stays duplicate-free and covers exactly the keys |
| Text.SplitOn | metric-scraper/scraper.py:50 | `str.split(c)`: at least one part, no part contains the separator, and joining the parts with the separator gives back the string |
| Text.SplitFirst | metric-scraper/scraper.py:52 | `split(c, 1)` on a string containing `c`: the head has no `c`, and head, `c`, tail reassemble the string |
| Text.BeforeFirst | metric-scraper/scraper.py:116 | `split(c, 1)[0]`: the longest prefix without `c`, ending the string or followed by `c` |
| Text.TrimStart | metric-scraper/scraper.py:53 | the result is a suffix of the input; every dropped character is strippable and the result does not start with one |
| Text.TrimEnd | metric-scraper/scraper.py:53 | the result is a prefix of the input; every dropped character is strippable and the result does not end with one |
| Text.Strip | metric-scraper/scraper.py:53 | `strip(chars)`: a contiguous slice of the input with only strippable characters cut from either side, and neither end of the result strippable |
| Text.Tokens | metric-scraper/scraper.py:123 | `str.split()`: non-empty tokens without whitespace whose concatenation is the string minus its whitespace; a string not starting with whitespace starts with its first token |
| Text.TokensLayout | metric-scraper/scraper.py:123 | the tokens are the maximal non-space runs: the string is the tokens interleaved with whitespace runs, every run between two tokens non-empty, which fixes the token count |
| Text.NonSpaceAppend | metric-scraper/scraper.py:123 | removing whitespace distributes over concatenation |
| Labels.LabelsOfSource | metric-scraper/scraper.py:48-54 | every key in `parse_labels`' result comes from some part containing `=` whose stripped left side is that key |
| Labels.LabelsOfHas | metric-scraper/scraper.py:48-54 | every part containing `=` puts its key in the result |
| Labels.LabelsOfLastWins | metric-scraper/scraper.py:48-54 | a key holds the value, with quotes stripped, of the last part that defines it |
| Labels.ParseLabels | metric-scraper/scraper.py:48-54 | the loop over `split(',')` builds exactly the label map: keys come only from parts with `=`, all such keys are present, and the last definition wins |
| Labels.Resolve | metric-scraper/scraper.py:118-120 | `labels.get(canonical, labels.get(fallback, ""))`: the canonical label if present, else the fallback, else the empty string |
| KeyOrder.KeyLessStrictTotal | metric-scraper/scraper.py:213 | lexicographic order on (namespace, pod, container) tuples is irreflexive, transitive and total |
| KeyOrder.Sort | metric-scraper/scraper.py:213 | `sorted(keys)` of a dict's distinct keys: strictly ascending and a permutation of them |
| KeyOrder.StrictlySortedDistinct | metric-scraper/scraper.py:213 | a strictly ascending key sequence has no duplicates |
| Usage.SeriesOf | metric-scraper/scraper.py:115-127 | a line is a CPU series exactly when it starts with `container_cpu_usage_seconds_total{`, and a memory series exactly when it does not but starts with `container_memory_usage_bytes{`; a series line contains `{` and a token |
| Usage.ValueToken | metric-scraper/scraper.py:123 | the value is the second-to-last token when the line has more than two tokens, else the last; under the scraper.py rule (scraper.py:32) always the last |
| Usage.ScanLineSkips | metric-scraper/scraper.py:121-122 | a series for the `POD` container or an empty container leaves the dictionary unchanged |
| Usage.ScanLineRejects | metric-scraper/scraper.py:123 | a value `float()` rejects raises, carrying that token |
| Usage.ScanLineCpu | metric-scraper/scraper.py:123-125 | a CPU line replaces its key's entry with the counter and the scrape timestamp, dropping any memory stored earlier |
| Usage.ScanLineMemory | metric-scraper/scraper.py:135-139 | a memory line sets only the memory in MiB (bytes / 1024²), keeping the CPU sample and creating the entry when the key is new |
| Usage.ScanLineWellFormed | metric-scraper/scraper.py:106-139 | one line keeps the usage dictionary well formed: no skipped container, and every CPU sample carries the scrape's one timestamp |
| Usage.ScanLinesWellFormed | metric-scraper/scraper.py:114-139 | a whole response keeps the dictionary well formed |
| Usage.ScanResponsesWellFormed | metric-scraper/scraper.py:104-140 | all endpoints' responses keep the dictionary well formed |
| Usage.ScanLinesKeepsOrder | metric-scraper/scraper.py:114-139 | scanning never removes a key, and keys keep their first-insertion positions |
| Usage.ScanLinesErrorSticks | metric-scraper/scraper.py:123 | once a line raises, the rest of the response is not read |
| Usage.ScanOne | metric-scraper/scraper.py:115-139 | the per-line body computes the line semantics above |
| Usage.ScanInto | metric-scraper/scraper.py:114-139 | the line loop computes the response semantics, stopping at the first line that raises |
| Usage.FetchCadvisorMetrics | scraper-v2.py:21-53 | the single-endpoint fetch builds the well-formed dictionary of its lines, or raises. The last-token rule of scraper.py:18-49 is the same method with the other rule |
| Usage.FetchCadvisorMetricsMultiple | metric-scraper/scraper.py:104-140 | the endpoints are scanned in order under one timestamp; a failed request contributes nothing; the result is well formed or the first rejected value |
| Usage.ScanResponsesErrorSticks | metric-scraper/scraper.py:107-139 | once an endpoint raises, later endpoints are not read |
| Usage.SingleEndpointIsMultiple | scraper-v2.py:21-53 | the single-endpoint fetch equals the multi-endpoint fetch of one successful response |
| StateMetrics.ResourcePassGivesNodes | metric-scraper/scraper.py:154-163 | every entry the resource pass creates has a node |
| StateMetrics.PodInfoPassNoOp | metric-scraper/scraper.py:164-170 | the `kube_pod_info` pass changes nothing once every entry has a node |
| StateMetrics.PodInfoPassIsDead | metric-scraper/scraper.py:142-178 | `fetch_ksm` equals the resource pass followed by the owner pass; the pod-info pass never has an effect |
| StateMetrics.OwnerPassLastWins | metric-scraper/scraper.py:171-177 | the owner pass creates no key, sets each entry's owner to its pod's last owner line (otherwise unchanged), and leaves amounts and node alone |
| StateMetrics.ResourcePassLastWins | metric-scraper/scraper.py:154-163 | a `{resource}_{kind}` amount is present exactly when some resource line supplied it; its value, with memory in MiB, is the last such line's |
| StateMetrics.ResourcePassLastNode | metric-scraper/scraper.py:161-163 | the resource pass creates an entry for a key exactly when a resource line names it, with the node of the last such line |
| StateMetrics.FetchKsmNode | metric-scraper/scraper.py:142-178 | `fetch_ksm` holds an entry exactly for the keys some resource line names, and its node is the last such line's node |
| StateMetrics.ResourcePassErrorSticks | metric-scraper/scraper.py:158 | a rejected value aborts the resource pass |
| StateMetrics.FillNodeWhere | metric-scraper/scraper.py:168-170 | the loop over keys fills the node of the pod's entries that lack one |
| StateMetrics.SetOwnerWhere | metric-scraper/scraper.py:175-177 | the loop over keys sets the owner of every entry of the pod |
| StateMetrics.RecordResources | metric-scraper/scraper.py:154-163 | the first loop computes the resource pass |
| StateMetrics.FillNodes | metric-scraper/scraper.py:164-170 | the second loop computes the pod-info pass |
| StateMetrics.SetOwners | metric-scraper/scraper.py:171-177 | the third loop computes the owner pass |
| StateMetrics.FetchKsm | metric-scraper/scraper.py:142-178 | `fetch_ksm` computes its three passes, and every entry of its result has a node |
| Correlate.Rate | metric-scraper/scraper.py:218-220 | rate × elapsed time = counter delta when time advanced, otherwise exactly 0.0; negative exactly when the counter went back |
| Correlate.QualifyingKeys | metric-scraper/scraper.py:214-215 | keeps only keys with CPU in both snapshots, never adding any |
| Correlate.QualifyingKeysComplete | metric-scraper/scraper.py:214-215 | no qualifying key is dropped |
| Correlate.QualifyingKeysInOrder | scraper.py:111-112 | the qualifying keys are the input keys with the others left out, in the same order: the i-th is the key at an increasing position, and every qualifying position is taken |
| Correlate.QualifyingKeysDistinct | scraper.py:111-112 | keys listed once each give qualifying keys listed once each |
| Correlate.AmountOr | metric-scraper/scraper.py:226-229 | `ksm.get(field, 0.0)` |
| Correlate.RowFor | metric-scraper/scraper.py:217-229 | a row's rate, memory (0.0 when missing), node and owner (the entry's, or `"unknown"` when there is no entry or the entry lacks them), and four amounts (0.0 when missing) |
| Correlate.RowKeys | metric-scraper/scraper.py:217 | the i-th key is the i-th row's key |
| Correlate.RowsFacts | metric-scraper/scraper.py:213-240 | over sorted keys the rows are strictly ascending, exist exactly for the qualifying keys, and each row is its key's row |
| Correlate.CorrelateKeys | metric-scraper/scraper.py:213-229 | the row loop computes the rows of its keys, skipping non-qualifying keys |
| Correlate.CorrelateSorted | metric-scraper/scraper.py:213-229 | the table of a cycle is strictly ascending and holds one row per qualifying key, each its key's row |
| Correlate.TableShows | scraper-v3.py:188-206 | the table satisfies the printed-table specification |
| Correlate.SortedUnique | metric-scraper/scraper.py:213 | two strictly ascending sequences with the same members are equal |
| Correlate.ShowsUnique | scraper-v3.py:188-206 | only one row sequence meets the printed-table specification |
| Correlate.Truncate | metric-scraper/scraper.py:239 | `int()` truncates toward zero |
| Correlate.BytesRoundTrip | metric-scraper/scraper.py:239 | converting a whole byte count to MiB and back with `int(mem * 1024 * 1024)` gives it back |
| Correlate.IngestRowOf | metric-scraper/scraper.py:231-240 | an ingest record carries cluster `my-cluster`, the row's node and key, its rate, and its memory in whole bytes, truncated down for non-negative memory |
| Cluster.AppendedStep | scraper.py:93-94 | appending one more container extends the pod's list by it |
| Cluster.CollectedKeys | scraper.py:87-92 | owner and node hold exactly the listed pods' keys |
| Cluster.CollectedContainerKeys | scraper.py:93-94 | only pods listed with at least one container get a container list |
| Cluster.CollectedLastWins | scraper.py:87-92 | a pod's owner kind is its last listing's first owner reference or the no-owner word, and its node is that listing's node |
| Cluster.CollectedContainers | scraper.py:93-94 | with pods listed once, a pod's container list is its containers in order |
| Cluster.CollectPods | scraper.py:83-94 | the listing loop computes the cluster info |
| PodMetrics.RecordTotals | scraper.py:74 | a match adds its value to its node's total, starting from zero for a new node |
| PodMetrics.RecordNodes | scraper.py:74 | a match adds its node to the node totals |
| PodMetrics.SumForAbsent | scraper.py:74 | a node with no match totals zero |
| PodMetrics.SummariseValid | scraper.py:56-74 | the node-totals dictionary stays well formed |
| PodMetrics.SummariseNodeSource | scraper.py:74 | every node in the totals comes from some match |
| PodMetrics.SummariseNodeHas | scraper.py:74 | every match's node is in the totals |
| PodMetrics.SummariseTotals | scraper.py:65-74 | a node's total for a metric is the sum of that metric's matched values on that node, memory in MiB |
| PodMetrics.SummariseLastWins | scraper.py:65-73 | a pod has a metric exactly when some match supplied it, holding the last match's value across its containers |
| PodMetrics.StoreValueMetrics | scraper.py:73 | storing updates only the matched pod's metrics |
| PodMetrics.SummariseStep | scraper.py:65-74 | one more match records its parsed value |
| PodMetrics.SummariseErrorSticks | scraper.py:70 | a rejected value aborts `parse_ksm_metrics` |
| PodMetrics.Accumulate | scraper.py:73-74 | the loop body stores the value and adds it to the node's total |
| PodMetrics.ParseKsmMetrics | scraper.py:54-76 | the match loop computes the summary, and its node totals are well formed |
| PodMetrics.ContainerRecordFor | scraper.py:113-135 | a container record's rate and memory, its kind (`"Unknown"` for an unlisted pod), its node (`"unknown"`), and its four metrics (0.0 when missing) |
| PodMetrics.BuildPayload | scraper.py:105-144 | one container record per qualifying key in scrape order, and one node record per node in first-seen order, stamped with the cycle's time |
| PodMetrics.PayloadInScrapeOrder | scraper.py:111-112 | the container records follow `curr_metrics` iteration order, unsorted: each reports the key at an increasing position of the scrape, every qualifying key has a record, and no key has two |
| PodMetrics.NodeRecordIsSum | scraper.py:137-144 | a node record's four values are the sums of the matched values on that node |
| Tunnels.GridStep | metric-scraper/scraper.py:74-77 | the `col += 1; if col >= columns` counter advances the cell (i div columns, i mod columns) |
| Tunnels.LayoutOrder | metric-scraper/scraper.py:67-78 | the assignment dict is well formed, lists each pod name once in first-occurrence order, and has exactly the given names |
| Tunnels.LayoutLastWins | metric-scraper/scraper.py:71-73 | a repeated name keeps the port and cell of its last occurrence |
| Tunnels.AssignPortsToPods | metric-scraper/scraper.py:67-78 | the loop gives the i-th name the i-th free port and grid cell (i div columns, i mod columns) |
| Tunnels.PodPorts | metric-scraper/scraper.py:199 | the pod-to-port dict has the assignments' keys, order and ports |
| Tunnels.PortForward.constructor | metric-scraper/scraper.py:84-90 | a new running process forwards the pod's local port to 8080 in the namespace |
| Tunnels.PortForward.Terminate | metric-scraper/scraper.py:246 | the process stops running |
| Tunnels.StartPortForwards | metric-scraper/scraper.py:80-92 | one new, distinct, running process per assignment, in dict order, each forwarding that pod's port |
| Tunnels.TerminateAll | metric-scraper/scraper.py:245-246 | every process stops running |
| SnapshotV7.CounterUsageLastCpu | scraper-v7.py:138-141 | a container's CPU is its last CPU match's value |
| SnapshotV7.CounterUsageLastMemory | scraper-v7.py:142-144 | a container's memory is its last memory match's value / 1024², untouched by CPU matches |
| SnapshotV7.CounterUsageErrorSticks | scraper-v7.py:141-144 | a rejected value aborts the pass |
| SnapshotV7.CollectCounters | scraper-v7.py:136-144 | the counter loop computes the usage-by-container dictionary |
| SnapshotV7.PodResourcesValid | scraper-v7.py:122-134 | the corrected resource dictionary is well formed |
| SnapshotV7.PodResourcesLastWins | scraper-v7.py:129-134 | a pod has a request or limit exactly when some match supplied it, holding the last one's unconverted `float` value |
| SnapshotV7.PodResourcesErrorSticks | scraper-v7.py:134 | a rejected value aborts the pass |
| SnapshotV7.CollectPodResources | scraper-v7.py:129-134 | the match loop computes the (corrected) pod resources |
| SnapshotV7.UnpackAsWritten | scraper-v7.py:148 | unpacking `(ns, pod)` from a namespace string succeeds exactly when every namespace has two characters, splitting them into one-character strings |
| SnapshotV7.UnpackFailsOnRealNamespace | scraper-v7.py:122-148 | one request for namespace `default` and pod `web` makes the row loop as written raise `ValueError`, while the corrected dictionary lists that pod |
| SnapshotV7.ContainersOf | scraper-v7.py:149 | a pod's listed containers, or `["-"]` when unlisted |
| SnapshotV7.SnapshotRowFor | scraper-v7.py:151-166 | a snapshot row's identity, node (`"unknown"`), kind (`"unknown"`), four metrics (0.0 when missing), CPU counter and memory bytes |
| SnapshotV7.ListedPodRows | scraper-v7.py:111-149 | a listed pod uses its own containers, or `["-"]` when it has none, and its kind is its first owner reference or `"Unknown"` |
| SnapshotV7.SnapshotRowsFromKeys | scraper-v7.py:148-166 | every row belongs to a pod of the resource dictionary |
| SnapshotV7.SnapshotRowsCount | scraper-v7.py:148-150 | there is one row per container of each pod, and one per pod when no pod is listed |
| SnapshotV7.BuildPodRows | scraper-v7.py:150-166 | the inner loop computes one pod's rows |
| SnapshotV7.BuildSnapshotRows | scraper-v7.py:147-166 | the outer loop computes all rows in resource-dictionary order |
| Sessions.CycleOutcomeFacts | scraper-v3.py:180-206 | a cycle raises exactly when its scrape or its kube-state-metrics pass raises, scrape first; otherwise it shows the specified table against the previous snapshot, and no row names the `POD` or an empty container |
| Sessions.RunDone | scraper-v3.py:178-209 | each completed cycle is measured against the snapshot of the cycle before it, or the baseline for the first |
| Sessions.RunEnding | scraper-v3.py:178-215 | a run is interrupted exactly when all cycles completed; otherwise it ends with the first failing cycle's error |
| Sessions.RunStep | scraper-v3.py:178-209 | one cycle either raises or hands its snapshot to the rest of the run |
| Sessions.ShowCycle | scraper-v3.py:180-206 | the loop body computes one cycle's outcome |
| Sessions.WatchCycles | scraper-v3.py:178-209 | the live loop computes the run, with `prev_metrics = curr_metrics` |
| Sessions.OpenTunnels | scraper-v3.py:163-167 | a three-column layout, with one running port-forward per distinct pod matching it |
| Sessions.WatchWithTunnels | scraper-v3.py:160-215 | the baseline outside the `try`, then the live run; the port-forwards stop exactly when the run ends with an interrupt |
| Sessions.WatchLocal | scraper-v2.py:104-137 | the same live run over one local endpoint's scrapes |
| Sessions.ReportOnce | metric-scraper/scraper.py:193-246 | a baseline that raises leaves the port-forwards running; otherwise `finally` stops them all; records are the ingest form of the one cycle's table, sent only on success |
| Sessions.BuildCycle | scraper.py:100-135 | one payload cycle scrapes with the last-token rule, summarises the matches and builds the payload against the previous snapshot |
| Sessions.PayloadCycles | scraper.py:99-153 | the payload loop computes the run, each payload against the previous cycle's snapshot |
| Sessions.PushPayloads | scraper.py:79-153 | the cluster info is read once with `"None"` for unowned pods; a baseline that raises ends the run, otherwise the payload loop runs from it |
| Sessions.SnapshotRun | scraper-v7.py:94-177 | with the corrected row loop: no cAdvisor pod ends in `IndexError`; the run completes exactly when both passes parse (resources first); rows are the corrected rows, posted only when non-empty; the port-forwards stop exactly when it completes |
| Labels.LabelsOf | metric-scraper/scraper.py:48-54 | definition: the parts with `=` stored left to right, key stripped of whitespace, value stripped of `"` |
| Labels.IsSkippedContainer | metric-scraper/scraper.py:121 | definition: `not container or container in ("POD", "")` |
| Usage.LabelPart | metric-scraper/scraper.py:116 | definition: `line.split('{', 1)[1].split('}', 1)[0]` |
| Usage.LineKey | metric-scraper/scraper.py:116-124 | definition: the (namespace, pod, container) key the parsed and resolved labels give |
| Usage.ScanLine | metric-scraper/scraper.py:115-139 | definition: one line of the scan: skip, raise on the value, replace the CPU entry or set the memory |
| Usage.ScanLines | metric-scraper/scraper.py:114-139 | definition: the lines of one response in order, the first raise aborting |
| Usage.ScanResponses | metric-scraper/scraper.py:107-139 | definition: the endpoints' responses in order, a failed request skipped |
| StateMetrics.ResourcePass | metric-scraper/scraper.py:154-163 | definition: the first pass of `fetch_ksm` |
| StateMetrics.PodInfoPass | metric-scraper/scraper.py:164-170 | definition: the second pass of `fetch_ksm` |
| StateMetrics.OwnerPass | metric-scraper/scraper.py:171-177 | definition: the third pass of `fetch_ksm` |
| StateMetrics.StateData | metric-scraper/scraper.py:142-178 | definition: `fetch_ksm`, the three passes in order |
| Correlate.Table | metric-scraper/scraper.py:213-240 | definition: the rows of the sorted current keys against the previous snapshot |
| Correlate.Shows | scraper-v3.py:188-206 | definition: the printed-table specification (strictly ascending, exactly the qualifying keys, each its key's row) |
| Correlate.MiBToBytes | metric-scraper/scraper.py:239 | definition: `int(mem * 1024 * 1024)` |
| Cluster.Collected | scraper.py:83-94 | definition: owner kind, node and container lists gathered from the pod listing |
| PodMetrics.Summarise | scraper.py:54-76 | definition: `parse_ksm_metrics` over the matches in order |
| PodMetrics.PayloadOf | scraper.py:105-144 | definition: the payload with container records in scrape order and node records in first-seen order |
| Tunnels.GridRow | metric-scraper/scraper.py:69-77 | definition: the row the counter reaches for the i-th pod |
| Tunnels.GridColumn | metric-scraper/scraper.py:69-77 | definition: the column the counter reaches for the i-th pod |
| Tunnels.Layout | metric-scraper/scraper.py:67-78 | definition: the assignment dict built pod by pod |
| SnapshotV7.CounterUsage | scraper-v7.py:136-144 | definition: `container_usage` after the cAdvisor lines |
| SnapshotV7.PodResourcesOf | scraper-v7.py:122-134 | definition: the request/limit values keyed by the (namespace, pod) pair in the order each pair was first matched (not grouped by namespace), the corrected form of `resource_data` |
| SnapshotV7.SnapshotRows | scraper-v7.py:147-166 | definition: the rows of each pod's containers, pod by pod |
| Sessions.CycleOutcome | scraper-v3.py:180-206 | definition: one live cycle against the previous snapshot |
| Sessions.Run | scraper-v3.py:178-209 | definition: a `while True` loop over cycles, each measured against the one before |
| Sessions.Push | scraper.py:99-153 | definition: the payload loop |

## Left out

- HTTP, the JWT login, `send_to_ingest` and the payload post are left out; responses are inputs, and a failed request is `None` (multi-endpoint fetch only).
- A failed HTTP request in the single-endpoint fetches of scraper-v2.py and scraper.py is not modelled.
- `time.time()`, `datetime.now()` and `time.sleep` are left out; timestamps and the ISO time are inputs. The per-row `ts` field is not modelled.
- `float()` is an oracle parameter (`FloatParser`) returning `None` where Python raises. Floating point is modelled as exact reals, so rounding is not modelled.
- The kube-state-metrics and scraper.py/scraper-v7.py regular expressions are not interpreted; their matches are inputs, as tuples of the captured groups in line order. The cAdvisor prefix/label scanner is modelled in full.
- The Kubernetes client (`get_running_cadvisor_pods`, `list_pod_for_all_namespaces`) is left out; its results are inputs.
- `find_free_port` is left out; the ports it returns are an input.
- `wait_for_port` is left out, and so is the readiness warning of scraper-v3.py.
- `subprocess.Popen` of `kubectl` becomes the `PortForward` class, which tracks only whether the process is running.
- `print` output is left out: the live table is the row sequence each cycle shows.
- A `KeyboardInterrupt` is modelled only after the last cycle of a finite sequence, not inside a cycle.
- The unused `prev_metrics` of scraper-v7.py is left out.
- Sessions.SnapshotRun: models scraper-v7.py with the corrected row loop of the Findings table. As written, line 148 raises `ValueError` for a namespace that is not two characters long; the run then posts nothing and leaves the port-forwards running (`SnapshotV7.UnpackAsWritten` gives when that happens).
- metric-pusher-chart/app.py and python-app.py are not part of this model.

## Findings

| source | as written | input that shows it | evidently intended | confidence | as-written member | corrected member |
|---|---|---|---|---|---|---|
| scraper-v7.py:148 (with 122, 134) | `resource_data` is nested namespace → pod → metric, but the row loop unpacks `(ns, pod)` from each top-level key, which is a namespace string | one request match for namespace `default`, pod `web`: unpacking `"default"` into two names raises `ValueError` and no row is built | key `resource_data` by the `(ns, pod)` pair the loop unpacks, so rows come pod by pod in the order each pair was first matched; a nested loop over namespaces and then their pods would instead group the pods by namespace (matches (a,p1), (b,p2), (a,p3) give p1, p2, p3 here and p1, p3, p2 there), and the tuple unpacking points to the flat dict | not executed | SnapshotV7.UnpackFailsOnRealNamespace | SnapshotV7.PodResourcesLastWins |
