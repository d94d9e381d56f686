/**
 * The cAdvisor side of the scrape: every exposition line that starts a
 * CPU-counter or memory-gauge series is reduced to an identity key and a
 * value and merged into the usage snapshot (`fetch_cadvisor_metrics` and
 * `fetch_cadvisor_metrics_multiple`).
 */
module Usage {
  import opened Wrappers
  import opened Text
  import opened Labels
  import opened OrderedDict

  const CpuPrefix := "container_cpu_usage_seconds_total{"
  const MemoryPrefix := "container_memory_usage_bytes{"

  /** 1024 ** 2: memory values are kept in MiB. */
  const BytesPerMiB: real := 1048576.0

  /** The `{"cpu": ..., "timestamp": ...}` half of an entry: the counter and when the scrape started. */
  datatype CpuSample = CpuSample(seconds: real, timestamp: real)

  /** One value of the usage dictionary; either half may be missing. */
  datatype Entry = Entry(cpu: Option<CpuSample>, memoryMiB: Option<real>)

  /** The usage dictionary, keyed by (namespace, pod, container) in insertion order. */
  type Snapshot = Dict<Key, Entry>

  /**
   * Which whitespace token holds the value: the second-to-last one when the
   * line has more than two (an explicit timestamp follows the value), or
   * always the last one (the variant in scraper.py).
   */
  datatype ValueRule = SecondToLastWhenTimestamped | LastToken

  /** `float(token)` raised: only the HTTP request is guarded, so the whole scrape fails. */
  datatype ScrapeError = NotANumber(token: string)

  /** Python's `float()` on one token; `None` where it raises ValueError. */
  type FloatParser = string -> Option<real>

  datatype Series = CpuSeries | MemorySeries | OtherSeries

  function SeriesOf(line: string): (s: Series)
    ensures s == CpuSeries <==> StartsWith(line, CpuPrefix)
    ensures s == MemorySeries <==> !StartsWith(line, CpuPrefix) && StartsWith(line, MemoryPrefix)
    ensures s != OtherSeries ==> '{' in line && Tokens(line) != []
  {
    if StartsWith(line, CpuPrefix) then
      assert line[..|CpuPrefix|][0] == line[0] && CpuPrefix[0] == 'c';
      assert line[|CpuPrefix| - 1] == '{';
      CpuSeries
    else if StartsWith(line, MemoryPrefix) then
      assert line[..|MemoryPrefix|][0] == line[0] && MemoryPrefix[0] == 'c';
      assert line[|MemoryPrefix| - 1] == '{';
      MemorySeries
    else OtherSeries
  }

  /** `line.split('{', 1)[1].split('}', 1)[0]`: the label block. */
  function LabelPart(line: string): string
    requires '{' in line
  {
    BeforeFirst(SplitFirst(line, '{').1, '}')
  }

  /** `line.split()[-2] if len(line.split()) > 2 else line.split()[-1]`, or always `line.split()[-1]`. */
  function ValueToken(line: string, rule: ValueRule): (tok: string)
    requires Tokens(line) != []
    ensures tok in Tokens(line)
    ensures rule == LastToken || |Tokens(line)| <= 2 ==> tok == Tokens(line)[|Tokens(line)| - 1]
    ensures rule == SecondToLastWhenTimestamped && |Tokens(line)| > 2 ==> tok == Tokens(line)[|Tokens(line)| - 2]
  {
    var toks := Tokens(line);
    match rule
    case SecondToLastWhenTimestamped => if |toks| > 2 then toks[|toks| - 2] else toks[|toks| - 1]
    case LastToken => toks[|toks| - 1]
  }

  /** The key a counter line resolves to. */
  function LineKey(line: string): Key
    requires '{' in line
  {
    ResolveKey(LabelsOf(SplitOn(LabelPart(line), ',')))
  }

  /** The effect of one line on the usage dictionary. */
  function ScanLine(usage: Snapshot, line: string, ts: real, rule: ValueRule, parse: FloatParser)
    : Result<Snapshot, ScrapeError>
  {
    var series := SeriesOf(line);
    if series == OtherSeries then Ok(usage)
    else
      var key := LineKey(line);
      if IsSkippedContainer(key.container) then Ok(usage)
      else
        var tok := ValueToken(line, rule);
        match parse(tok)
        case None => Err(NotANumber(tok))
        case Some(v) =>
          if series == CpuSeries then Ok(usage.Set(key, Entry(Some(CpuSample(v, ts)), None)))
          else Ok(usage.Set(key, Entry(usage.Get(key, Entry(None, None)).cpu, Some(v / BytesPerMiB))))
  }

  /** The lines of one response, scanned in order; the first unparsable value aborts. */
  function ScanLines(usage: Snapshot, lines: seq<string>, ts: real, rule: ValueRule, parse: FloatParser)
    : Result<Snapshot, ScrapeError>
  {
    if lines == [] then Ok(usage)
    else
      match ScanLines(usage, lines[..|lines| - 1], ts, rule, parse)
      case Err(e) => Err(e)
      case Ok(u) => ScanLine(u, lines[|lines| - 1], ts, rule, parse)
  }

  /** The responses of all endpoints in order; an endpoint whose request failed (`None`) is skipped. */
  function ScanResponses(usage: Snapshot, responses: seq<Option<seq<string>>>, ts: real, parse: FloatParser)
    : Result<Snapshot, ScrapeError>
  {
    if responses == [] then Ok(usage)
    else
      match ScanResponses(usage, responses[..|responses| - 1], ts, parse)
      case Err(e) => Err(e)
      case Ok(u) =>
        match responses[|responses| - 1]
        case None => Ok(u)
        case Some(lines) => ScanLines(u, lines, ts, SecondToLastWhenTimestamped, parse)
  }

  /**
   * What every snapshot the scanner builds satisfies: no key names the pause
   * container or an empty container, and every CPU sample carries the single
   * timestamp taken when the scrape started.
   */
  ghost predicate WellFormed(u: Snapshot, ts: real) {
    && u.Valid()
    && forall k :: k in u.items ==>
         && !IsSkippedContainer(k.container)
         && (u.items[k].cpu.Some? ==> u.items[k].cpu.value.timestamp == ts)
  }

  lemma ScanLineWellFormed(u: Snapshot, line: string, ts: real, rule: ValueRule, parse: FloatParser)
    requires WellFormed(u, ts)
    ensures ScanLine(u, line, ts, rule, parse).Ok? ==> WellFormed(ScanLine(u, line, ts, rule, parse).value, ts)
  {
  }

  lemma {:induction false} ScanLinesWellFormed(u: Snapshot, lines: seq<string>, ts: real, rule: ValueRule, parse: FloatParser)
    requires WellFormed(u, ts)
    ensures ScanLines(u, lines, ts, rule, parse).Ok? ==> WellFormed(ScanLines(u, lines, ts, rule, parse).value, ts)
  {
    if lines != [] {
      ScanLinesWellFormed(u, lines[..|lines| - 1], ts, rule, parse);
      var r := ScanLines(u, lines[..|lines| - 1], ts, rule, parse);
      if r.Ok? {
        ScanLineWellFormed(r.value, lines[|lines| - 1], ts, rule, parse);
      }
    }
  }

  lemma {:induction false} ScanResponsesWellFormed(u: Snapshot, responses: seq<Option<seq<string>>>, ts: real, parse: FloatParser)
    requires WellFormed(u, ts)
    ensures ScanResponses(u, responses, ts, parse).Ok? ==> WellFormed(ScanResponses(u, responses, ts, parse).value, ts)
  {
    if responses != [] {
      ScanResponsesWellFormed(u, responses[..|responses| - 1], ts, parse);
      var r := ScanResponses(u, responses[..|responses| - 1], ts, parse);
      if r.Ok? && responses[|responses| - 1].Some? {
        ScanLinesWellFormed(r.value, responses[|responses| - 1].value, ts, SecondToLastWhenTimestamped, parse);
      }
    }
  }

  /** A series of the pause container or of no container leaves the dictionary as it was. */
  lemma ScanLineSkips(u: Snapshot, line: string, ts: real, rule: ValueRule, parse: FloatParser)
    requires SeriesOf(line) != OtherSeries && IsSkippedContainer(LineKey(line).container)
    ensures ScanLine(u, line, ts, rule, parse) == Ok(u)
  {
  }

  /** A value `float()` rejects raises instead of being skipped. */
  lemma ScanLineRejects(u: Snapshot, line: string, ts: real, rule: ValueRule, parse: FloatParser)
    requires SeriesOf(line) != OtherSeries && !IsSkippedContainer(LineKey(line).container)
    requires parse(ValueToken(line, rule)).None?
    ensures ScanLine(u, line, ts, rule, parse) == Err(NotANumber(ValueToken(line, rule)))
  {
  }

  /**
   * A CPU line replaces the whole entry of its key with the sample and the
   * scrape's timestamp, so memory stored earlier for that key is lost.
   */
  lemma ScanLineCpu(u: Snapshot, line: string, ts: real, rule: ValueRule, parse: FloatParser)
    requires SeriesOf(line) == CpuSeries && !IsSkippedContainer(LineKey(line).container)
    requires parse(ValueToken(line, rule)).Some?
    ensures ScanLine(u, line, ts, rule, parse).Ok?
    ensures ScanLine(u, line, ts, rule, parse).value.items ==
              u.items[LineKey(line) := Entry(Some(CpuSample(parse(ValueToken(line, rule)).value, ts)), None)]
  {
  }

  /**
   * A memory line sets only the memory of its key, in MiB, keeping its CPU
   * sample and creating the entry when the key is new.
   */
  lemma ScanLineMemory(u: Snapshot, line: string, ts: real, rule: ValueRule, parse: FloatParser)
    requires SeriesOf(line) == MemorySeries && !IsSkippedContainer(LineKey(line).container)
    requires parse(ValueToken(line, rule)).Some?
    ensures ScanLine(u, line, ts, rule, parse).Ok?
    ensures ScanLine(u, line, ts, rule, parse).value.items ==
              u.items[LineKey(line) := Entry(if LineKey(line) in u.items then u.items[LineKey(line)].cpu else None,
                                             Some(parse(ValueToken(line, rule)).value / BytesPerMiB))]
  {
  }

  /** Keys keep the position of their first insertion; new keys go to the end. */
  lemma {:induction false} ScanLinesKeepsOrder(u: Snapshot, lines: seq<string>, ts: real, rule: ValueRule, parse: FloatParser)
    ensures var r := ScanLines(u, lines, ts, rule, parse);
            r.Ok? ==> StartsWithSeq(r.value.order, u.order) && u.items.Keys <= r.value.items.Keys
  {
    if lines != [] {
      var init := lines[..|lines| - 1];
      ScanLinesKeepsOrder(u, init, ts, rule, parse);
      var r := ScanLines(u, init, ts, rule, parse);
      if r.Ok? {
        ScanLineKeepsOrder(r.value, lines[|lines| - 1], ts, rule, parse);
        var r' := ScanLine(r.value, lines[|lines| - 1], ts, rule, parse);
        if r'.Ok? {
          assert r'.value.order[..|r.value.order|][..|u.order|] == r'.value.order[..|u.order|];
        }
      }
    }
  }

  lemma ScanLineKeepsOrder(u: Snapshot, line: string, ts: real, rule: ValueRule, parse: FloatParser)
    ensures var r := ScanLine(u, line, ts, rule, parse);
            r.Ok? ==> StartsWithSeq(r.value.order, u.order) && u.items.Keys <= r.value.items.Keys
  {
    var series := SeriesOf(line);
    if series != OtherSeries {
      var key := LineKey(line);
      if !IsSkippedContainer(key.container) && parse(ValueToken(line, rule)).Some? {
        var v := parse(ValueToken(line, rule)).value;
        var e := if series == CpuSeries then Entry(Some(CpuSample(v, ts)), None)
                 else Entry(u.Get(key, Entry(None, None)).cpu, Some(v / BytesPerMiB));
        assert ScanLine(u, line, ts, rule, parse) == Ok(u.Set(key, e));
        SetKeepsOrder(u, key, e);
      }
    }
  }

  lemma SetKeepsOrder(u: Snapshot, key: Key, e: Entry)
    ensures StartsWithSeq(u.Set(key, e).order, u.order) && u.items.Keys <= u.Set(key, e).items.Keys
  {
  }

  predicate StartsWithSeq<T(==)>(s: seq<T>, prefix: seq<T>) {
    |prefix| <= |s| && s[..|prefix|] == prefix
  }

  /**
   * The body of the line loop of `fetch_cadvisor_metrics`, with the label
   * block parsed by `ParseLabels`.
   */
  method ScanOne(u: Snapshot, line: string, ts: real, rule: ValueRule, parse: FloatParser)
    returns (r: Result<Snapshot, ScrapeError>)
    ensures r == ScanLine(u, line, ts, rule, parse)
  {
    var series := SeriesOf(line);
    if series == OtherSeries {
      return Ok(u);
    }
    var labels := ParseLabels(LabelPart(line));
    var key := ResolveKey(labels);
    if IsSkippedContainer(key.container) {
      return Ok(u);
    }
    var tok := ValueToken(line, rule);
    var value := parse(tok);
    if value.None? {
      return Err(NotANumber(tok));
    }
    if series == CpuSeries {
      r := Ok(u.Set(key, Entry(Some(CpuSample(value.value, ts)), None)));
    } else {
      var cpu := if key in u.items then u.items[key].cpu else None;
      r := Ok(u.Set(key, Entry(cpu, Some(value.value / BytesPerMiB))));
    }
  }

  /** The line loop of `fetch_cadvisor_metrics`: each line in turn; the first unparsable value raises. */
  method ScanInto(usage: Snapshot, lines: seq<string>, ts: real, rule: ValueRule, parse: FloatParser)
    returns (r: Result<Snapshot, ScrapeError>)
    ensures r == ScanLines(usage, lines, ts, rule, parse)
  {
    var u := usage;
    for i := 0 to |lines|
      invariant ScanLines(usage, lines[..i], ts, rule, parse) == Ok(u)
    {
      assert lines[..i + 1][..i] == lines[..i];
      var next := ScanOne(u, lines[i], ts, rule, parse);
      if next.Err? {
        ScanLinesErrorSticks(usage, lines, i + 1, ts, rule, parse);
        assert lines[..|lines|] == lines;
        return next;
      }
      u := next.value;
    }
    assert lines[..|lines|] == lines;
    r := Ok(u);
  }

  /** Once a prefix of the lines fails, the whole scan fails with the same error. */
  lemma {:induction false} ScanLinesErrorSticks(usage: Snapshot, lines: seq<string>, n: nat, ts: real, rule: ValueRule, parse: FloatParser)
    requires n <= |lines| && ScanLines(usage, lines[..n], ts, rule, parse).Err?
    ensures ScanLines(usage, lines, ts, rule, parse) == ScanLines(usage, lines[..n], ts, rule, parse)
    decreases |lines| - n
  {
    if n < |lines| {
      assert lines[..n + 1][..n] == lines[..n];
      ScanLinesErrorSticks(usage, lines, n + 1, ts, rule, parse);
    } else {
      assert lines[..n] == lines;
    }
  }

  /**
   * `fetch_cadvisor_metrics` (scraper-v2.py with the second-to-last rule,
   * scraper.py with the last-token rule): one response, one timestamp.
   */
  method FetchCadvisorMetrics(lines: seq<string>, ts: real, rule: ValueRule, parse: FloatParser)
    returns (r: Result<Snapshot, ScrapeError>)
    ensures r == ScanLines(Empty(), lines, ts, rule, parse)
    ensures r.Ok? ==> WellFormed(r.value, ts)
  {
    r := ScanInto(Empty(), lines, ts, rule, parse);
    ScanLinesWellFormed(Empty(), lines, ts, rule, parse);
  }

  /**
   * `fetch_cadvisor_metrics_multiple`: the responses of the port-forwarded
   * endpoints in order, all under the one timestamp taken before the first
   * request; an endpoint whose request failed contributes nothing.
   */
  method FetchCadvisorMetricsMultiple(responses: seq<Option<seq<string>>>, ts: real, parse: FloatParser)
    returns (r: Result<Snapshot, ScrapeError>)
    ensures r == ScanResponses(Empty(), responses, ts, parse)
    ensures r.Ok? ==> WellFormed(r.value, ts)
  {
    var u := Empty();
    for i := 0 to |responses|
      invariant ScanResponses(Empty(), responses[..i], ts, parse) == Ok(u)
    {
      assert responses[..i + 1][..i] == responses[..i];
      if responses[i].Some? {
        var s := ScanInto(u, responses[i].value, ts, SecondToLastWhenTimestamped, parse);
        if s.Err? {
          ScanResponsesErrorSticks(responses, i + 1, ts, parse);
          assert responses[..|responses|] == responses;
          return s;
        }
        u := s.value;
      }
    }
    assert responses[..|responses|] == responses;
    r := Ok(u);
    ScanResponsesWellFormed(Empty(), responses, ts, parse);
  }

  lemma {:induction false} ScanResponsesErrorSticks(responses: seq<Option<seq<string>>>, n: nat, ts: real, parse: FloatParser)
    requires n <= |responses| && ScanResponses(Empty(), responses[..n], ts, parse).Err?
    ensures ScanResponses(Empty(), responses, ts, parse) == ScanResponses(Empty(), responses[..n], ts, parse)
    decreases |responses| - n
  {
    if n < |responses| {
      assert responses[..n + 1][..n] == responses[..n];
      ScanResponsesErrorSticks(responses, n + 1, ts, parse);
    } else {
      assert responses[..n] == responses;
    }
  }

  /**
   * scraper-v2.py's single-endpoint fetch computes what the multi-endpoint
   * fetch of scraper-v3.py computes for one successful response.
   */
  lemma SingleEndpointIsMultiple(lines: seq<string>, ts: real, parse: FloatParser)
    ensures ScanResponses(Empty(), [Some(lines)], ts, parse) == ScanLines(Empty(), lines, ts, SecondToLastWhenTimestamped, parse)
  {
    assert [Some(lines)][..0] == [];
  }
}
