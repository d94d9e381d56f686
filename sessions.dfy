/**
 * The main programs: how each scraper sequences its scrapes, what baseline
 * each cycle is measured against, what it reports and whether the
 * port-forward processes are terminated when it stops.
 */
module Sessions {
  import opened Wrappers
  import opened Labels
  import opened OrderedDict
  import opened Usage
  import opened KeyOrder
  import opened StateMetrics
  import opened Correlate
  import opened Cluster
  import opened PodMetrics
  import opened Tunnels
  import SnapshotV7

  /** The grid width every tunnelled scraper lays its cAdvisor pods out on. */
  const GridColumns := 3

  /** The owner kind the payload scraper records for a pod without owner references. */
  const NoOwnerKind := "None"

  /**
   * One scrape of the port-forwarded cAdvisor endpoints: each endpoint's
   * lines (None when its request failed) and the timestamp taken before
   * the first request.
   */
  datatype Scrape = Scrape(responses: seq<Option<seq<string>>>, ts: real)

  /** What one cycle of the live table reads: a scrape and the matched kube-state-metrics lines. */
  datatype Cycle = Cycle(scrape: Scrape, stateLines: seq<StateLine>)

  /** How a run stops. */
  datatype Ending =
    | Interrupted                 // KeyboardInterrupt after the last cycle
    | Completed                   // a one-shot run reached its end
    | Raised(error: ScrapeError)  // a value `float()` rejects
    | NoCadvisorPod               // `list(pod_ports.values())[0]` on no pods

  function Scraped(s: Scrape, parse: FloatParser): Result<Snapshot, ScrapeError> {
    ScanResponses(Empty(), s.responses, s.ts, parse)
  }

  /** The exception a cycle raises, if any: the scrape is parsed before the kube-state-metrics lines. */
  function CycleError(c: Cycle, parse: FloatParser): Option<ScrapeError> {
    if Scraped(c.scrape, parse).Err? then Some(Scraped(c.scrape, parse).error)
    else if StateData(c.stateLines, parse).Err? then Some(StateData(c.stateLines, parse).error)
    else None
  }

  /** What a cycle of the live table leaves behind: its snapshot and the rows it printed. */
  datatype Shown = Shown(snapshot: Snapshot, table: seq<UsageRow>)

  /** What each cycle a run got through left behind, in order, and how the run stopped. */
  datatype RunLog<R> = RunLog(done: seq<R>, ending: Ending)

  type WatchLog = RunLog<Shown>

  /** One cycle measured against `prev`: the exception it raises, or its snapshot and rows. */
  function CycleOutcome(c: Cycle, prev: Snapshot, parse: FloatParser): Result<Shown, ScrapeError> {
    match Scraped(c.scrape, parse)
    case Err(e) => Err(e)
    case Ok(curr) =>
      match StateData(c.stateLines, parse)
      case Err(e) => Err(e)
      case Ok(ksm) =>
        ScanResponsesWellFormed(Empty(), c.scrape.responses, c.scrape.ts, parse);
        Ok(Shown(curr, Table(curr, prev, ksm)))
  }

  /**
   * A cycle raises exactly when its scrape or its kube-state-metrics lines
   * raise; otherwise it prints one row per key with CPU in its snapshot and
   * in `prev`, ascending, each the row of its key, and no row names the
   * pause container or an empty container.
   */
  lemma CycleOutcomeFacts(c: Cycle, prev: Snapshot, parse: FloatParser)
    ensures CycleOutcome(c, prev, parse).Ok? <==> CycleError(c, parse).None?
    ensures CycleOutcome(c, prev, parse).Err? ==> CycleOutcome(c, prev, parse).error == CycleError(c, parse).value
    ensures CycleOutcome(c, prev, parse).Ok? ==>
              && Scraped(c.scrape, parse) == Ok(CycleOutcome(c, prev, parse).value.snapshot)
              && Shows(CycleOutcome(c, prev, parse).value.table, CycleOutcome(c, prev, parse).value.snapshot, prev,
                       StateData(c.stateLines, parse).value)
    ensures CycleOutcome(c, prev, parse).Ok? ==>
              forall i :: 0 <= i < |CycleOutcome(c, prev, parse).value.table| ==>
                !IsSkippedContainer(CycleOutcome(c, prev, parse).value.table[i].key.container)
  {
    if CycleOutcome(c, prev, parse).Ok? {
      var curr := Scraped(c.scrape, parse).value;
      ScanResponsesWellFormed(Empty(), c.scrape.responses, c.scrape.ts, parse);
      var table := CycleOutcome(c, prev, parse).value.table;
      TableShows(curr, prev, StateData(c.stateLines, parse).value);
      forall i | 0 <= i < |table|
        ensures !IsSkippedContainer(table[i].key.container)
      {
        assert RowKeys(table)[i] == table[i].key;
        assert Qualifies(curr, prev, table[i].key);
      }
    }
  }

  /**
   * A `while True` loop from baseline `prev`: each cycle is measured by
   * `step` against the snapshot before it, which then makes way for its
   * own (`snapshotOf` of what the cycle left behind); the first cycle that
   * raises stops the loop, and an interrupt stops it after the last cycle.
   */
  function Run<C, R>(step: (C, Snapshot) -> Result<R, ScrapeError>, snapshotOf: R -> Snapshot, prev: Snapshot, cycles: seq<C>)
    : RunLog<R>
    decreases |cycles|
  {
    if cycles == [] then RunLog([], Interrupted)
    else
      match step(cycles[0], prev)
      case Err(e) => RunLog([], Raised(e))
      case Ok(r) =>
        var rest := Run(step, snapshotOf, snapshotOf(r), cycles[1..]);
        RunLog([r] + rest.done, rest.ending)
  }

  /** The baseline of cycle `j`: `prev` for the first cycle, the previous cycle's snapshot afterwards. */
  function BaselineOf<R>(snapshotOf: R -> Snapshot, prev: Snapshot, done: seq<R>, j: nat): Snapshot
    requires j <= |done|
  {
    if j == 0 then prev else snapshotOf(done[j - 1])
  }

  /**
   * Cycle by cycle: what every cycle the loop got through left behind is
   * that cycle's outcome against the previous cycle's snapshot.
   */
  lemma {:induction false} RunDone<C, R>(step: (C, Snapshot) -> Result<R, ScrapeError>, snapshotOf: R -> Snapshot,
                                         prev: Snapshot, cycles: seq<C>)
    ensures |Run(step, snapshotOf, prev, cycles).done| <= |cycles|
    ensures forall j :: 0 <= j < |Run(step, snapshotOf, prev, cycles).done| ==>
              step(cycles[j], BaselineOf(snapshotOf, prev, Run(step, snapshotOf, prev, cycles).done, j)) ==
              Ok(Run(step, snapshotOf, prev, cycles).done[j])
    decreases |cycles|
  {
    if cycles != [] && step(cycles[0], prev).Ok? {
      var r := step(cycles[0], prev).value;
      var tail := cycles[1..];
      RunDone(step, snapshotOf, snapshotOf(r), tail);
      var rest := Run(step, snapshotOf, snapshotOf(r), tail).done;
      var done := Run(step, snapshotOf, prev, cycles).done;
      assert done == [r] + rest;
      forall j | 0 <= j < |done|
        ensures step(cycles[j], BaselineOf(snapshotOf, prev, done, j)) == Ok(done[j])
      {
        if j > 0 {
          assert cycles[j] == tail[j - 1] && done[j] == rest[j - 1];
          assert BaselineOf(snapshotOf, prev, done, j) == BaselineOf(snapshotOf, snapshotOf(r), rest, j - 1);
        }
      }
    }
  }

  /**
   * The loop ends by interrupt exactly when it got through all cycles, and
   * otherwise with the exception of the first cycle it did not get through.
   */
  lemma {:induction false} RunEnding<C, R>(step: (C, Snapshot) -> Result<R, ScrapeError>, snapshotOf: R -> Snapshot,
                                           prev: Snapshot, cycles: seq<C>)
    ensures Run(step, snapshotOf, prev, cycles).ending == Interrupted <==> |Run(step, snapshotOf, prev, cycles).done| == |cycles|
    ensures |Run(step, snapshotOf, prev, cycles).done| < |cycles| ==>
              var n := |Run(step, snapshotOf, prev, cycles).done|;
              && step(cycles[n], BaselineOf(snapshotOf, prev, Run(step, snapshotOf, prev, cycles).done, n)).Err?
              && Run(step, snapshotOf, prev, cycles).ending ==
                 Raised(step(cycles[n], BaselineOf(snapshotOf, prev, Run(step, snapshotOf, prev, cycles).done, n)).error)
    decreases |cycles|
  {
    if cycles != [] && step(cycles[0], prev).Ok? {
      var r := step(cycles[0], prev).value;
      var tail := cycles[1..];
      RunEnding(step, snapshotOf, snapshotOf(r), tail);
      var rest := Run(step, snapshotOf, snapshotOf(r), tail).done;
      var done := Run(step, snapshotOf, prev, cycles).done;
      assert done == [r] + rest;
      var n := |done|;
      if n < |cycles| {
        assert cycles[n] == tail[n - 1];
        assert BaselineOf(snapshotOf, prev, done, n) == BaselineOf(snapshotOf, snapshotOf(r), rest, n - 1);
      }
    }
  }

  /** The cycles `done` already, followed by the rest of the run. */
  function AfterDone<R>(done: seq<R>, rest: RunLog<R>): RunLog<R> {
    RunLog(done + rest.done, rest.ending)
  }

  /** One step of the loop, given the outcome `r` of its first cycle. */
  lemma RunStep<C, R>(step: (C, Snapshot) -> Result<R, ScrapeError>, snapshotOf: R -> Snapshot, prev: Snapshot, cycles: seq<C>,
                      r: Result<R, ScrapeError>)
    requires cycles != [] && r == step(cycles[0], prev)
    ensures r.Err? ==> Run(step, snapshotOf, prev, cycles) == RunLog([], Raised(r.error))
    ensures r.Ok? ==> Run(step, snapshotOf, prev, cycles) == AfterDone([r.value], Run(step, snapshotOf, snapshotOf(r.value), cycles[1..]))
  {
  }

  function ShownSnapshot(s: Shown): Snapshot {
    s.snapshot
  }

  /** A cycle of the live table as a step of the loop. */
  function LiveStep(parse: FloatParser): (Cycle, Snapshot) -> Result<Shown, ScrapeError> {
    (c, prev) => CycleOutcome(c, prev, parse)
  }

  /** The live table from baseline `prev`. */
  function Watch(prev: Snapshot, cycles: seq<Cycle>, parse: FloatParser): WatchLog {
    Run(LiveStep(parse), ShownSnapshot, prev, cycles)
  }

  /** One cycle of the live table: scrape, read the kube-state-metrics lines, print the rows against `prev`. */
  method ShowCycle(c: Cycle, prev: Snapshot, parse: FloatParser) returns (r: Result<Shown, ScrapeError>)
    ensures r == CycleOutcome(c, prev, parse)
  {
    var curr := FetchCadvisorMetricsMultiple(c.scrape.responses, c.scrape.ts, parse);
    if curr.Err? {
      return Err(curr.error);
    }
    var ksm := FetchKsm(c.stateLines, parse);
    if ksm.Err? {
      return Err(ksm.error);
    }
    var rows := CorrelateSorted(curr.value, prev, ksm.value);
    r := Ok(Shown(curr.value, rows));
  }

  /** The live-table loop itself, cycle after cycle until one raises or the cycles run out. */
  method WatchCycles(baseline: Snapshot, cycles: seq<Cycle>, parse: FloatParser) returns (log: WatchLog)
    ensures log == Watch(baseline, cycles, parse)
  {
    var shown: seq<Shown> := [];
    var prev := baseline;
    for i := 0 to |cycles|
      invariant Watch(baseline, cycles, parse) == AfterDone(shown, Watch(prev, cycles[i..], parse))
    {
      var r := ShowCycle(cycles[i], prev, parse);
      assert cycles[i..][0] == cycles[i] && r == LiveStep(parse)(cycles[i], prev);
      RunStep(LiveStep(parse), ShownSnapshot, prev, cycles[i..], r);
      if r.Err? {
        return RunLog(shown, Raised(r.error));
      }
      assert cycles[i..][1..] == cycles[i + 1..];
      ghost var rest := Watch(r.value.snapshot, cycles[i + 1..], parse);
      assert shown + ([r.value] + rest.done) == (shown + [r.value]) + rest.done;
      shown := shown + [r.value];
      prev := r.value.snapshot;
    }
    assert cycles[|cycles|..] == [];
    log := RunLog(shown, Interrupted);
  }

  /** The port-forwards match the layout of the cAdvisor pods, one per distinct pod in first-seen order. */
  predicate Tunnelled(procs: seq<PortForward>, namespace: string, podNames: seq<string>, freePorts: seq<int>)
    requires |freePorts| >= |podNames|
  {
    var layout := Layout(podNames, GridColumns, freePorts);
    && |procs| == |layout.order|
    && forall i :: 0 <= i < |procs| ==>
         layout.order[i] in layout.items && Forwards(procs[i], layout.order[i], layout.items[layout.order[i]], namespace)
  }

  /** Lay the cAdvisor pods out on three columns and start one port-forward per pod. */
  method OpenTunnels(namespace: string, podNames: seq<string>, freePorts: seq<int>) returns (procs: seq<PortForward>)
    requires |freePorts| >= |podNames|
    ensures Tunnelled(procs, namespace, podNames, freePorts)
    ensures |procs| == |FirstOccurrences(podNames)|
    ensures forall i :: 0 <= i < |procs| ==> fresh(procs[i]) && procs[i].running
  {
    var assignments := AssignPortsToPods(podNames, GridColumns, freePorts);
    LayoutOrder(podNames, GridColumns, freePorts);
    LayoutLastWins(podNames, GridColumns, freePorts);
    procs := StartPortForwards(namespace, assignments);
  }

  /**
   * scraper-v3.py: tunnels, a baseline scrape, then the live table until
   * an interrupt. Only the interrupt terminates the port-forwards; a
   * scrape that raises, the baseline included, leaves them running.
   */
  method WatchWithTunnels(namespace: string, podNames: seq<string>, freePorts: seq<int>, baseline: Scrape,
                          cycles: seq<Cycle>, parse: FloatParser)
    returns (procs: seq<PortForward>, log: WatchLog)
    requires |freePorts| >= |podNames|
    ensures Tunnelled(procs, namespace, podNames, freePorts)
    ensures forall i :: 0 <= i < |procs| ==> fresh(procs[i])
    ensures Scraped(baseline, parse).Err? ==> log == RunLog([], Raised(Scraped(baseline, parse).error))
    ensures Scraped(baseline, parse).Ok? ==> log == Watch(Scraped(baseline, parse).value, cycles, parse)
    ensures forall i :: 0 <= i < |procs| ==> (procs[i].running <==> log.ending != Interrupted)
  {
    procs := OpenTunnels(namespace, podNames, freePorts);
    var prev := FetchCadvisorMetricsMultiple(baseline.responses, baseline.ts, parse);
    if prev.Err? {
      return procs, RunLog([], Raised(prev.error));
    }
    log := WatchCycles(prev.value, cycles, parse);
    if log.ending == Interrupted {
      TerminateAll(procs);
    }
  }

  /** One cycle of scraper-v2.py: its single cAdvisor endpoint's lines, the scrape time and the kube-state-metrics lines. */
  datatype LocalCycle = LocalCycle(lines: seq<string>, ts: real, stateLines: seq<StateLine>)

  function AsCycle(c: LocalCycle): Cycle {
    Cycle(Scrape([Some(c.lines)], c.ts), c.stateLines)
  }

  /**
   * scraper-v2.py: the same live table over one local endpoint and no
   * tunnels; a single-endpoint scrape is the multi-endpoint scrape of its
   * one response.
   */
  method WatchLocal(baselineLines: seq<string>, baselineTs: real, cycles: seq<LocalCycle>, parse: FloatParser)
    returns (log: WatchLog)
    ensures ScanLines(Empty(), baselineLines, baselineTs, SecondToLastWhenTimestamped, parse).Err? ==>
              log == RunLog([], Raised(ScanLines(Empty(), baselineLines, baselineTs, SecondToLastWhenTimestamped, parse).error))
    ensures ScanLines(Empty(), baselineLines, baselineTs, SecondToLastWhenTimestamped, parse).Ok? ==>
              log == Watch(ScanLines(Empty(), baselineLines, baselineTs, SecondToLastWhenTimestamped, parse).value,
                           seq(|cycles|, i requires 0 <= i < |cycles| => AsCycle(cycles[i])), parse)
  {
    var prev := FetchCadvisorMetrics(baselineLines, baselineTs, SecondToLastWhenTimestamped, parse);
    if prev.Err? {
      return RunLog([], Raised(prev.error));
    }
    log := WatchCycles(prev.value, seq(|cycles|, i requires 0 <= i < |cycles| => AsCycle(cycles[i])), parse);
  }

  /**
   * metric-scraper/scraper.py: tunnels, a baseline scrape outside the
   * `try`, then one cycle whose rows are sent for ingestion. The `finally`
   * terminates the port-forwards whether or not that cycle raises; a
   * baseline that raises never reaches it.
   */
  method ReportOnce(namespace: string, podNames: seq<string>, freePorts: seq<int>, baseline: Scrape, current: Cycle,
                    parse: FloatParser)
    returns (procs: seq<PortForward>, table: seq<UsageRow>, records: seq<IngestRow>, ending: Ending)
    requires |freePorts| >= |podNames|
    ensures Tunnelled(procs, namespace, podNames, freePorts)
    ensures forall i :: 0 <= i < |procs| ==> fresh(procs[i])
    ensures Scraped(baseline, parse).Err? ==>
              ending == Raised(Scraped(baseline, parse).error) && forall i :: 0 <= i < |procs| ==> procs[i].running
    ensures Scraped(baseline, parse).Ok? ==> forall i :: 0 <= i < |procs| ==> !procs[i].running
    ensures Scraped(baseline, parse).Ok? && CycleOutcome(current, Scraped(baseline, parse).value, parse).Err? ==>
              ending == Raised(CycleOutcome(current, Scraped(baseline, parse).value, parse).error)
    ensures Scraped(baseline, parse).Ok? && CycleOutcome(current, Scraped(baseline, parse).value, parse).Ok? ==>
              ending == Completed && table == CycleOutcome(current, Scraped(baseline, parse).value, parse).value.table
    ensures |records| == |table| && forall i :: 0 <= i < |table| ==> records[i] == IngestRowOf(table[i])
    ensures records != [] ==> ending == Completed
  {
    procs := OpenTunnels(namespace, podNames, freePorts);
    var prev := FetchCadvisorMetricsMultiple(baseline.responses, baseline.ts, parse);
    if prev.Err? {
      return procs, [], [], Raised(prev.error);
    }
    table, records := [], [];
    var r := ShowCycle(current, prev.value, parse);
    if r.Err? {
      ending := Raised(r.error);
    } else {
      table := r.value.table;
      records := seq(|table|, i requires 0 <= i < |table| => IngestRowOf(table[i]));
      ending := Completed;
    }
    TerminateAll(procs);
  }

  /** One cycle of the payload scraper: the ISO time, the local endpoint's lines, the scrape time and the request/limit matches. */
  datatype PayloadCycle = PayloadCycle(now: string, lines: seq<string>, ts: real, matches: seq<KsmMatch>)

  /** What a payload cycle leaves behind: its snapshot and the payload it built. */
  datatype Built = Built(snapshot: Snapshot, payload: Payload)

  type PushLog = RunLog<Built>

  /** One payload cycle measured against `prev`: the exception it raises, or its snapshot and payload. */
  function PayloadOutcome(info: ClusterInfo, c: PayloadCycle, prev: Snapshot, parse: FloatParser): Result<Built, ScrapeError> {
    match ScanLines(Empty(), c.lines, c.ts, LastToken, parse)
    case Err(e) => Err(e)
    case Ok(curr) =>
      match Summarise(c.matches, parse)
      case Err(e) => Err(e)
      case Ok(summary) => Ok(Built(curr, PayloadOf(c.now, curr, prev, info, summary)))
  }

  function BuiltSnapshot(b: Built): Snapshot {
    b.snapshot
  }

  /** A cycle of the payload scraper as a step of the loop. */
  function PayloadStep(info: ClusterInfo, parse: FloatParser): (PayloadCycle, Snapshot) -> Result<Built, ScrapeError> {
    (c, prev) => PayloadOutcome(info, c, prev, parse)
  }

  /**
   * The `while True` loop of the payload scraper from baseline `prev`: each
   * payload is built against the snapshot before it, whether or not that
   * cycle's delivery succeeded (a failed post is caught).
   */
  function Push(info: ClusterInfo, prev: Snapshot, cycles: seq<PayloadCycle>, parse: FloatParser): PushLog {
    Run(PayloadStep(info, parse), BuiltSnapshot, prev, cycles)
  }

  /** One cycle of the payload scraper: scrape, summarise the matches, build the payload against `prev`. */
  method BuildCycle(info: ClusterInfo, c: PayloadCycle, prev: Snapshot, parse: FloatParser) returns (r: Result<Built, ScrapeError>)
    ensures r == PayloadOutcome(info, c, prev, parse)
  {
    var curr := FetchCadvisorMetrics(c.lines, c.ts, LastToken, parse);
    if curr.Err? {
      return Err(curr.error);
    }
    var summary := ParseKsmMetrics(c.matches, parse);
    if summary.Err? {
      return Err(summary.error);
    }
    var payload := BuildPayload(c.now, curr.value, prev, info, summary.value);
    r := Ok(Built(curr.value, payload));
  }

  /** The payload loop itself, cycle after cycle until one raises or the cycles run out. */
  method PayloadCycles(info: ClusterInfo, baseline: Snapshot, cycles: seq<PayloadCycle>, parse: FloatParser) returns (log: PushLog)
    ensures log == Push(info, baseline, cycles, parse)
  {
    var built: seq<Built> := [];
    var prev := baseline;
    for i := 0 to |cycles|
      invariant Push(info, baseline, cycles, parse) == AfterDone(built, Push(info, prev, cycles[i..], parse))
    {
      var r := BuildCycle(info, cycles[i], prev, parse);
      assert cycles[i..][0] == cycles[i] && r == PayloadStep(info, parse)(cycles[i], prev);
      RunStep(PayloadStep(info, parse), BuiltSnapshot, prev, cycles[i..], r);
      if r.Err? {
        return RunLog(built, Raised(r.error));
      }
      assert cycles[i..][1..] == cycles[i + 1..];
      ghost var rest := Push(info, r.value.snapshot, cycles[i + 1..], parse);
      assert built + ([r.value] + rest.done) == (built + [r.value]) + rest.done;
      built := built + [r.value];
      prev := r.value.snapshot;
    }
    assert cycles[|cycles|..] == [];
    log := RunLog(built, Interrupted);
  }

  /**
   * scraper.py: the cluster API is read once, with "None" for pods without
   * owner references, then a baseline scrape and the payload loop.
   */
  method PushPayloads(pods: seq<ClusterPod>, baselineLines: seq<string>, baselineTs: real, cycles: seq<PayloadCycle>,
                      parse: FloatParser)
    returns (info: ClusterInfo, log: PushLog)
    ensures info == Collected(pods, NoOwnerKind)
    ensures ScanLines(Empty(), baselineLines, baselineTs, LastToken, parse).Err? ==>
              log == RunLog([], Raised(ScanLines(Empty(), baselineLines, baselineTs, LastToken, parse).error))
    ensures ScanLines(Empty(), baselineLines, baselineTs, LastToken, parse).Ok? ==>
              log == Push(info, ScanLines(Empty(), baselineLines, baselineTs, LastToken, parse).value, cycles, parse)
  {
    info := CollectPods(pods, NoOwnerKind);
    var base := FetchCadvisorMetrics(baselineLines, baselineTs, LastToken, parse);
    if base.Err? {
      return info, RunLog([], Raised(base.error));
    }
    log := PayloadCycles(info, base.value, cycles, parse);
  }

  /**
   * scraper-v7.py: tunnels, scrapes from the first pod's port (IndexError
   * without cAdvisor pods), then the rows, posted only when there are any.
   * Nothing is inside a `try`: only a run that reaches the end terminates
   * the port-forwards.
   */
  method SnapshotRun(namespace: string, podNames: seq<string>, freePorts: seq<int>, pods: seq<ClusterPod>,
                     requests: seq<SnapshotV7.RequestMatch>, counters: seq<SnapshotV7.CounterLine>, parse: FloatParser)
    returns (procs: seq<PortForward>, rows: seq<SnapshotV7.SnapshotRow>, posted: bool, ending: Ending)
    requires |freePorts| >= |podNames|
    ensures Tunnelled(procs, namespace, podNames, freePorts)
    ensures forall i :: 0 <= i < |procs| ==> fresh(procs[i])
    ensures podNames == [] ==> ending == NoCadvisorPod
    ensures posted <==> ending == Completed && rows != []
    ensures ending == Completed <==>
              podNames != [] && SnapshotV7.PodResourcesOf(requests, parse).Ok? && SnapshotV7.CounterUsage(counters, parse).Ok?
    ensures ending.Raised? ==>
              ending.error == if SnapshotV7.PodResourcesOf(requests, parse).Err? then SnapshotV7.PodResourcesOf(requests, parse).error
                              else SnapshotV7.CounterUsage(counters, parse).error
    ensures ending == Completed ==>
              rows == SnapshotV7.SnapshotRows(SnapshotV7.PodResourcesOf(requests, parse).value.order,
                                              SnapshotV7.PodResourcesOf(requests, parse).value,
                                              Collected(pods, UnknownKind), SnapshotV7.CounterUsage(counters, parse).value)
    ensures forall i :: 0 <= i < |procs| ==> (procs[i].running <==> ending != Completed)
  {
    procs := OpenTunnels(namespace, podNames, freePorts);
    rows, posted := [], false;
    if podNames == [] {
      return procs, rows, posted, NoCadvisorPod;
    }
    var info := CollectPods(pods, UnknownKind);
    var resources := SnapshotV7.CollectPodResources(requests, parse);
    if resources.Err? {
      return procs, rows, posted, Raised(resources.error);
    }
    var usage := SnapshotV7.CollectCounters(counters, parse);
    if usage.Err? {
      return procs, rows, posted, Raised(usage.error);
    }
    rows := SnapshotV7.BuildSnapshotRows(resources.value, info, usage.value);
    posted := rows != [];
    TerminateAll(procs);
    ending := Completed;
  }
}
