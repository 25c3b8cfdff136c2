/** The in-memory tool counters of internal/dashboard/dashboard.go and their seeding from the audit log. */
module Metrics {
  import opened Seqs
  import opened AuditStore
  import opened Bufio

  /** What the readers decode of a line; `arguments` is kept as its JSON text. */
  datatype AuditLine = AuditLine(timestamp: string, tool: string, arguments: string, durationMs: int,
                                 success: bool, error: string)

  /** What audit.Record writes: the caller's name goes to the log but no reader looks at it. */
  datatype Entry = Entry(line: AuditLine, caller: string)

  /** What the readers can see of some entries. */
  function Visible(es: seq<Entry>): (ls: seq<AuditLine>)
    ensures |ls| == |es|
    ensures forall i :: 0 <= i < |es| ==> ls[i] == es[i].line
  {
    seq(|es|, i requires 0 <= i < |es| => es[i].line)
  }

  datatype ToolMetrics = ToolMetrics(count: nat, totalMs: int)

  type Counters = map<string, ToolMetrics>

  function Bump(m: Counters, tool: string, ms: int): Counters {
    var old' := if tool in m then m[tool] else ToolMetrics(0, 0);
    m[tool := ToolMetrics(old'.count + 1, old'.totalMs + ms)]
  }

  /** The counters after recording `calls` one by one. */
  function Tally(m: Counters, calls: seq<AuditLine>): Counters {
    if calls == [] then m
    else
      var c := calls[|calls| - 1];
      Bump(Tally(m, calls[..|calls| - 1]), c.tool, c.durationMs)
  }

  // ----- what the counters mean, without reference to any order of recording

  /** The number of calls of `tool`. */
  function CountOf(calls: seq<AuditLine>, tool: string): nat {
    if calls == [] then 0
    else CountOf(calls[..|calls| - 1], tool) + if calls[|calls| - 1].tool == tool then 1 else 0
  }

  /** The summed milliseconds of the calls of `tool`. */
  function MsOf(calls: seq<AuditLine>, tool: string): int {
    if calls == [] then 0
    else
      var c := calls[|calls| - 1];
      MsOf(calls[..|calls| - 1], tool) + if c.tool == tool then c.durationMs else 0
  }

  /** The counters hold exactly the tools of `calls`, each with its number of calls and summed milliseconds. */
  ghost predicate Counts(m: Counters, calls: seq<AuditLine>) {
    forall t ::
      && (t in m <==> CountOf(calls, t) > 0)
      && (t in m ==> m[t] == ToolMetrics(CountOf(calls, t), MsOf(calls, t)))
  }

  lemma {:induction false} NoCallsNoMs(calls: seq<AuditLine>, tool: string)
    requires CountOf(calls, tool) == 0
    ensures MsOf(calls, tool) == 0
  {
    if calls != [] {
      NoCallsNoMs(calls[..|calls| - 1], tool);
    }
  }

  /** Recording calls one by one counts them and sums their durations, per tool. */
  lemma {:induction false} TallyCounts(calls: seq<AuditLine>)
    ensures Counts(Tally(map[], calls), calls)
  {
    if calls != [] {
      var p, c := calls[..|calls| - 1], calls[|calls| - 1];
      TallyCounts(p);
      if CountOf(p, c.tool) == 0 {
        NoCallsNoMs(p, c.tool);
      }
    }
  }

  lemma {:induction false} CountOfAppend(a: seq<AuditLine>, b: seq<AuditLine>, tool: string)
    ensures CountOf(a + b, tool) == CountOf(a, tool) + CountOf(b, tool)
    ensures MsOf(a + b, tool) == MsOf(a, tool) + MsOf(b, tool)
    decreases |b|
  {
    if b == [] {
      assert a + b == a;
    } else {
      assert (a + b)[..|a + b| - 1] == a + b[..|b| - 1];
      CountOfAppend(a, b[..|b| - 1], tool);
    }
  }

  lemma RemoveFromBag<T>(a: seq<T>, x: T, l: seq<T>, r: seq<T>)
    requires multiset(a + [x]) == multiset(l + [x] + r)
    ensures multiset(a) == multiset(l + r)
  {
    assert multiset(a) == multiset(a + [x]) - multiset{x};
    assert multiset(l + r) == multiset(l + [x] + r) - multiset{x};
  }

  /** The order in which calls were recorded does not show in the counters. */
  lemma {:induction false} SameBagSameCounts(a: seq<AuditLine>, b: seq<AuditLine>, tool: string)
    requires multiset(a) == multiset(b)
    ensures CountOf(a, tool) == CountOf(b, tool) && MsOf(a, tool) == MsOf(b, tool)
    decreases |a|
  {
    if a == [] {
      assert |multiset(b)| == |b|;
    } else {
      var x := a[|a| - 1];
      var a' := a[..|a| - 1];
      assert a == a' + [x];
      assert x in multiset(b);
      var i :| 0 <= i < |b| && b[i] == x;
      var l, r := b[..i], b[i + 1..];
      assert b == l + [x] + r;
      RemoveFromBag(a', x, l, r);
      SameBagSameCounts(a', l + r, tool);
      CountOfAppend(l, [x], tool);
      CountOfAppend(l + [x], r, tool);
      CountOfAppend(l, r, tool);
      CountOfAppend(a', [x], tool);
    }
  }

  lemma SameBagSameTally(a: seq<AuditLine>, b: seq<AuditLine>)
    requires multiset(a) == multiset(b)
    ensures Tally(map[], a) == Tally(map[], b)
  {
    TallyCounts(a);
    TallyCounts(b);
    var ma, mb := Tally(map[], a), Tally(map[], b);
    forall t
      ensures (t in ma <==> t in mb) && (t in ma ==> ma[t] == mb[t])
    {
      SameBagSameCounts(a, b, t);
    }
    assert ma == mb;
  }

  lemma {:induction false} TallyAppend(m: Counters, a: seq<AuditLine>, b: seq<AuditLine>)
    ensures Tally(m, a + b) == Tally(Tally(m, a), b)
    decreases |b|
  {
    if b == [] {
      assert a + b == a;
    } else {
      assert (a + b)[..|a + b| - 1] == a + b[..|b| - 1];
      TallyAppend(m, a, b[..|b| - 1]);
    }
  }

  /** The number of calls behind a set of counters. */
  lemma {:induction false} TallyDetermines(a: seq<AuditLine>, b: seq<AuditLine>, tool: string)
    requires Tally(map[], a) == Tally(map[], b)
    ensures CountOf(a, tool) == CountOf(b, tool) && MsOf(a, tool) == MsOf(b, tool)
  {
    TallyCounts(a);
    TallyCounts(b);
    if CountOf(a, tool) == 0 {
      NoCallsNoMs(a, tool);
      NoCallsNoMs(b, tool);
    }
  }

  // ----- the store

  class MetricsStore {
    var counters: Counters

    constructor ()
      ensures counters == map[]
    {
      counters := map[];
    }

    method RecordMetric(tool: string, ms: int)
      modifies this
      ensures counters == Bump(old(counters), tool, ms)
    {
      if tool !in counters {
        counters := counters[tool := ToolMetrics(0, 0)];
      }
      counters := counters[tool := counters[tool].(count := counters[tool].count + 1)];
      counters := counters[tool := counters[tool].(totalMs := counters[tool].totalMs + ms)];
    }

    /** Count and average duration per tool. */
    method GetMetrics() returns (res: map<string, (nat, real)>)
      ensures res.Keys == counters.Keys
      ensures forall t :: t in res ==>
        && res[t].0 == counters[t].count
        && res[t].1 * counters[t].count as real == if counters[t].count > 0 then counters[t].totalMs as real else 0.0
    {
      res := map t | t in counters ::
        (counters[t].count,
         if counters[t].count > 0 then counters[t].totalMs as real / counters[t].count as real else 0.0);
    }

    /** Folds every line of the current log file that parses into the counters. */
    method SeedMetricsFromLog(file: Option<seq<Byte>>, parse: seq<Byte> -> Option<AuditLine>)
      modifies this
      ensures counters == match file
                          case None => old(counters)
                          case Some(data) => Tally(old(counters), ReadLines(data, parse))
    {
      if file == None {
        return;
      }
      var scanner := new Scanner(file.value, MAX_SCAN_TOKEN_SIZE);
      ghost var goal := Tally(counters, ReadLines(file.value, parse));
      var ok, token := scanner.Scan();
      while ok
        invariant scanner.Valid() && fresh(scanner)
        invariant Tally(counters, FilterMap(parse, Pending(ok, token, scanner))) == goal
        decreases |scanner.Remaining()|, ok
      {
        TallyNextToken(counters, parse, token, scanner.Remaining());
        var line := parse(token);
        if line.Some? {
          RecordMetric(line.value.tool, line.value.durationMs);
        }
        ok, token := scanner.Scan();
      }
    }

    static ghost function Pending(ok: bool, token: seq<Byte>, scanner: Scanner): seq<seq<Byte>>
      requires scanner.Valid()
      reads scanner
    {
      if ok then [token] + scanner.Remaining() else []
    }
  }

  lemma TallyNextToken(m: Counters, parse: seq<Byte> -> Option<AuditLine>, token: seq<Byte>, rest: seq<seq<Byte>>)
    ensures var m' := match parse(token) case None => m case Some(l) => Bump(m, l.tool, l.durationMs);
            Tally(m, FilterMap(parse, [token] + rest)) == Tally(m', FilterMap(parse, rest))
  {
    FilterMapAppend(parse, [token], rest);
    assert [token][..0] == [];
    assert FilterMap(parse, [token][..0]) == [];
    var first := FilterMap(parse, [token]);
    TallyAppend(m, first, FilterMap(parse, rest));
    if first != [] {
      assert first[..0] == [];
    }
  }

  /** The audit lines a reader gets from the bytes of a file. */
  function ReadLines(data: seq<Byte>, parse: seq<Byte> -> Option<AuditLine>): seq<AuditLine> {
    FilterMap(parse, ScanLines(data, MAX_SCAN_TOKEN_SIZE))
  }

  // ----- audit entries as bytes

  /** How audit.Record encodes an entry, and how the readers decode a line. */
  datatype Codec = Codec(encode: Entry -> seq<Byte>, parse: seq<Byte> -> Option<AuditLine>) {
    /** Encoding is one JSON object on one line, and decoding inverts it but for the caller. */
    ghost predicate Sound() {
      forall e :: Faithful(e)
    }

    predicate Faithful(e: Entry) {
      && parse(encode(e)) == Some(e.line)
      && encode(e) != []
      && encode(e)[|encode(e)| - 1] != CARRIAGE_RETURN
      && forall k :: 0 <= k < |encode(e)| ==> encode(e)[k] != NEWLINE
    }

    function LineOf(e: Entry): Line {
      encode(e) + [NEWLINE]
    }

    function Lines(es: seq<Entry>): seq<Line> {
      Map(LineOf, es)
    }
  }

  lemma LineOfWhole(codec: Codec, e: Entry)
    requires codec.Sound()
    ensures WholeLine(codec.LineOf(e)) && codec.parse(Text(codec.LineOf(e))) == Some(e.line)
  {
    assert codec.Faithful(e);
    var line := codec.LineOf(e);
    assert line[..|line| - 1] == codec.encode(e);
  }

  lemma LinesWhole(codec: Codec, es: seq<Entry>)
    requires codec.Sound()
    ensures AllWhole(codec.Lines(es))
  {
    forall i | 0 <= i < |es| ensures WholeLine(codec.Lines(es)[i]) {
      LineOfWhole(codec, es[i]);
    }
  }

  /** Recorded lines read back one by one. */
  ghost predicate Parses(codec: Codec, lines: seq<Line>, es: seq<Entry>) {
    && |lines| == |es| && AllWhole(lines)
    && forall i :: 0 <= i < |es| ==> codec.parse(Text(lines[i])) == Some(es[i].line)
  }

  lemma LinesParse(codec: Codec, es: seq<Entry>)
    requires codec.Sound()
    ensures Parses(codec, codec.Lines(es), es)
  {
    LinesWhole(codec, es);
    forall i | 0 <= i < |es|
      ensures codec.parse(Text(codec.Lines(es)[i])) == Some(es[i].line)
    {
      LineOfWhole(codec, es[i]);
    }
  }

  lemma {:induction false} ParseTexts(codec: Codec, lines: seq<Line>, es: seq<Entry>)
    requires Parses(codec, lines, es)
    ensures FilterMap(codec.parse, Texts(lines)) == Visible(es)
  {
    if es != [] {
      var p := |es| - 1;
      ParseTexts(codec, lines[..p], es[..p]);
      assert Texts(lines)[..p] == Texts(lines[..p]);
      assert Visible(es) == Visible(es[..p]) + [es[p].line];
    }
  }

  /** Reading a file of recorded entries gives their visible part, up to the first that overflows the scanner. */
  lemma ReadRecorded(codec: Codec, es: seq<Entry>)
    requires codec.Sound()
    ensures var n := FittingPrefix(codec.Lines(es), MAX_SCAN_TOKEN_SIZE);
            ReadLines(Flatten(codec.Lines(es)), codec.parse) == Visible(es)[..n]
  {
    LinesParse(codec, es);
    var lines := codec.Lines(es);
    ScanWholeLines(lines, MAX_SCAN_TOKEN_SIZE);
    var n := FittingPrefix(lines, MAX_SCAN_TOKEN_SIZE);
    ParseTexts(codec, lines[..n], es[..n]);
    assert Visible(es[..n]) == Visible(es)[..n];
  }
}
