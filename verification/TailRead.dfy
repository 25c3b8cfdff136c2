/** The dashboard's view of recent calls: the tail of the current log file, newest first. */
module TailRead {
  import opened Seqs
  import opened AuditStore
  import opened Bufio
  import opened Metrics
  import opened Strings
  import Timestamp

  const TAIL_SIZE: nat := 64 * 1024

  function SeekPos(size: nat): nat {
    if size - TAIL_SIZE < 0 then 0 else size - TAIL_SIZE
  }

  // ----- the stable descending sort

  /** No entry is followed by a newer one. */
  ghost predicate NewestFirst(s: seq<AuditLine>) {
    forall i, j :: 0 <= i < j < |s| ==> !Less(s[i].timestamp, s[j].timestamp)
  }

  /** The entries of one timestamp, in order. */
  function At(s: seq<AuditLine>, ts: string): seq<AuditLine> {
    if s == [] then []
    else At(s[..|s| - 1], ts) + if s[|s| - 1].timestamp == ts then [s[|s| - 1]] else []
  }

  /** `r` is `s` sorted newest first, entries of equal timestamp in their old order. */
  ghost predicate StablySorted(r: seq<AuditLine>, s: seq<AuditLine>) {
    NewestFirst(r) && multiset(r) == multiset(s) && forall ts :: At(r, ts) == At(s, ts)
  }

  lemma {:induction false} AtAppend(a: seq<AuditLine>, b: seq<AuditLine>, ts: string)
    ensures At(a + b, ts) == At(a, ts) + At(b, ts)
    decreases |b|
  {
    if b == [] {
      assert a + b == a;
    } else {
      assert (a + b)[..|a + b| - 1] == a + b[..|b| - 1];
      AtAppend(a, b[..|b| - 1], ts);
      Assoc(At(a, ts), At(b[..|b| - 1], ts), At([b[|b| - 1]], ts));
      assert [b[|b| - 1]][..0] == [];
    }
  }

  /** Puts `x` after every entry that is not older. */
  function Insert(s: seq<AuditLine>, x: AuditLine): (r: seq<AuditLine>)
    ensures |r| == |s| + 1
  {
    if s == [] || !Less(s[|s| - 1].timestamp, x.timestamp) then s + [x]
    else Insert(s[..|s| - 1], x) + [s[|s| - 1]]
  }

  function StableSort(s: seq<AuditLine>): (r: seq<AuditLine>)
    ensures |r| == |s|
  {
    if s == [] then [] else Insert(StableSort(s[..|s| - 1]), s[|s| - 1])
  }

  lemma {:induction false} InsertMembers(s: seq<AuditLine>, x: AuditLine)
    ensures multiset(Insert(s, x)) == multiset(s) + multiset{x}
    ensures forall i :: 0 <= i < |Insert(s, x)| ==> Insert(s, x)[i] in s || Insert(s, x)[i] == x
  {
    if s != [] {
      assert s == s[..|s| - 1] + [s[|s| - 1]];
      InsertMembers(s[..|s| - 1], x);
    }
  }

  lemma {:induction false} InsertAt(s: seq<AuditLine>, x: AuditLine, ts: string)
    ensures At(Insert(s, x), ts) == At(s, ts) + if x.timestamp == ts then [x] else []
  {
    if s == [] || !Less(s[|s| - 1].timestamp, x.timestamp) {
      assert (s + [x])[..|s|] == s;
    } else {
      var p, y := s[..|s| - 1], s[|s| - 1];
      InsertAt(p, x, ts);
      Trichotomy(y.timestamp, x.timestamp);
      assert (Insert(p, x) + [y])[..|Insert(p, x)|] == Insert(p, x);
    }
  }

  lemma {:induction false} InsertKeepsOrder(s: seq<AuditLine>, x: AuditLine)
    requires NewestFirst(s)
    ensures NewestFirst(Insert(s, x))
  {
    if s == [] {
    } else if !Less(s[|s| - 1].timestamp, x.timestamp) {
      forall i | 0 <= i < |s| - 1
        ensures !Less(s[i].timestamp, x.timestamp)
      {
        NotLessTransitive(s[i].timestamp, s[|s| - 1].timestamp, x.timestamp);
      }
    } else {
      var p, y := s[..|s| - 1], s[|s| - 1];
      InsertKeepsOrder(p, x);
      InsertMembers(p, x);
      Trichotomy(y.timestamp, x.timestamp);
    }
  }

  /** The sort meets its specification. */
  lemma {:induction false} StableSortSorts(s: seq<AuditLine>)
    ensures StablySorted(StableSort(s), s)
  {
    if s != [] {
      var p, x := s[..|s| - 1], s[|s| - 1];
      StableSortSorts(p);
      var r := StableSort(p);
      assert s == p + [x];
      InsertMembers(r, x);
      InsertKeepsOrder(r, x);
      forall ts
        ensures At(Insert(r, x), ts) == At(s, ts)
      {
        InsertAt(r, x, ts);
      }
    }
  }

  /** The stable sort has one result, so any library sort that is stable gives it. */
  lemma {:induction false} StableSortUnique(a: seq<AuditLine>, b: seq<AuditLine>)
    requires NewestFirst(a) && NewestFirst(b) && forall ts :: At(a, ts) == At(b, ts)
    ensures a == b
    decreases |a|
  {
    if a != [] {
      assert At(a, a[|a| - 1].timestamp) == At(b, a[|a| - 1].timestamp);
    }
    if b != [] {
      assert At(a, b[|b| - 1].timestamp) == At(b, b[|b| - 1].timestamp);
    }
    if a != [] && b != [] {
      var x, y := a[|a| - 1], b[|b| - 1];
      var a', b' := a[..|a| - 1], b[..|b| - 1];
      LastIsOldest(a, b);
      LastIsOldest(b, a);
      Trichotomy(x.timestamp, y.timestamp);
      assert At(a, x.timestamp) == At(b, x.timestamp);
      assert x == At(a, x.timestamp)[|At(a, x.timestamp)| - 1];
      assert y == At(b, y.timestamp)[|At(b, y.timestamp)| - 1];
      forall ts
        ensures At(a', ts) == At(b', ts)
      {
        assert At(a, ts) == At(b, ts);
        DropLast(a, ts);
        DropLast(b, ts);
      }
      StableSortUnique(a', b');
      assert a == a' + [x] && b == b' + [y];
    }
  }

  lemma DropLast(s: seq<AuditLine>, ts: string)
    requires s != []
    ensures At(s[..|s| - 1], ts) == if s[|s| - 1].timestamp == ts then At(s, ts)[..|At(s, ts)| - 1] else At(s, ts)
  {
  }

  lemma {:induction false} AtFinds(s: seq<AuditLine>, ts: string) returns (i: nat)
    requires At(s, ts) != []
    ensures i < |s| && s[i].timestamp == ts
  {
    if s[|s| - 1].timestamp == ts {
      i := |s| - 1;
    } else {
      i := AtFinds(s[..|s| - 1], ts);
    }
  }

  lemma LastIsOldest(a: seq<AuditLine>, b: seq<AuditLine>)
    requires a != [] && b != [] && NewestFirst(b) && forall ts :: At(a, ts) == At(b, ts)
    ensures !Less(a[|a| - 1].timestamp, b[|b| - 1].timestamp)
  {
    var ts := a[|a| - 1].timestamp;
    assert At(a, ts) == At(b, ts);
    var i := AtFinds(b, ts);
    Trichotomy(ts, ts);
  }

  // ----- reading

  /** The tokens that remain after the partial first line is skipped. */
  function TailTokens(data: seq<Byte>): seq<seq<Byte>> {
    var pos := SeekPos(|data|);
    var tokens := ScanLines(data[pos..], MAX_SCAN_TOKEN_SIZE);
    if pos > 0 && tokens != [] then tokens[1..] else tokens
  }

  function Min(a: nat, b: nat): nat {
    if a < b then a else b
  }

  /** What the dashboard shows of the bytes of a log file. */
  function RecentLogs(data: seq<Byte>, limit: nat, parse: seq<Byte> -> Option<AuditLine>): seq<AuditLine> {
    var sorted := StableSort(FilterMap(parse, TailTokens(data)));
    sorted[..Min(limit, |sorted|)]
  }

  /** The tokens still to parse when `token` has been scanned but not looked at. */
  function Pending(ok: bool, token: seq<Byte>, rest: seq<seq<Byte>>, skip: bool): seq<seq<Byte>> {
    if !ok then [] else if skip then rest else [token] + rest
  }

  method GetAuditLogs(file: Option<seq<Byte>>, limit: nat, parse: seq<Byte> -> Option<AuditLine>)
    returns (logs: seq<AuditLine>)
    ensures logs == if file.Some? then RecentLogs(file.value, limit, parse) else []
  {
    if file == None {
      return [];
    }
    var data := file.value;
    var seekPos := |data| - TAIL_SIZE;
    if seekPos < 0 {
      seekPos := 0;
    }
    var lines := ReadTail(data[seekPos..], seekPos > 0, parse);
    logs := StableSort(lines);
    if |logs| > limit {
      logs := logs[..limit];
    }
  }

  /** Scans the rest of the file from the seek position, skipping a partial first line. */
  method ReadTail(tail: seq<Byte>, partial: bool, parse: seq<Byte> -> Option<AuditLine>) returns (lines: seq<AuditLine>)
    ensures var tokens := ScanLines(tail, MAX_SCAN_TOKEN_SIZE);
            lines == FilterMap(parse, if partial && tokens != [] then tokens[1..] else tokens)
  {
    lines := [];
    var firstLine := true;
    var scanner := new Scanner(tail, MAX_SCAN_TOKEN_SIZE);
    ghost var tokens := scanner.Remaining();
    ghost var want := FilterMap(parse, if partial && tokens != [] then tokens[1..] else tokens);
    var ok, token := scanner.Scan();
    assert Pending(ok, token, scanner.Remaining(), partial) == if partial && tokens != [] then tokens[1..] else tokens;
    while ok
      invariant scanner.Valid() && fresh(scanner)
      invariant lines + FilterMap(parse, Pending(ok, token, scanner.Remaining(), partial && firstLine)) == want
      decreases |scanner.Remaining()|, ok
    {
      ghost var rest := scanner.Remaining();
      if partial && firstLine {
        firstLine := false;
      } else {
        firstLine := false;
        ParseNext(parse, lines, token, rest);
        var line := parse(token);
        if line.Some? {
          lines := lines + [line.value];
        }
      }
      assert lines + FilterMap(parse, rest) == want;
      ok, token := scanner.Scan();
      assert Pending(ok, token, scanner.Remaining(), false) == rest;
    }
  }

  lemma ParseNext(parse: seq<Byte> -> Option<AuditLine>, lines: seq<AuditLine>, token: seq<Byte>, rest: seq<seq<Byte>>)
    ensures lines + FilterMap(parse, [token] + rest)
         == (match parse(token) case None => lines case Some(l) => lines + [l]) + FilterMap(parse, rest)
  {
    FilterMapAppend(parse, [token], rest);
    assert [token][..0] == [];
    Assoc(lines, FilterMap(parse, [token]), FilterMap(parse, rest));
  }

  // ----- what the tail is, in terms of the lines of the file

  /** The lines that start strictly after `pos`, when the first one starts at `start`. */
  function StartingAfter(lines: seq<Line>, start: nat, pos: nat): seq<Line> {
    if lines == [] then []
    else (if start > pos then [lines[0]] else []) + StartingAfter(lines[1..], start + |lines[0]|, pos)
  }

  /** The whole lines of the tail: all of a short file, else those starting strictly after the seek position. */
  function TailLines(lines: seq<Line>): seq<Line> {
    var pos := SeekPos(|Flatten(lines)|);
    if pos == 0 then lines else StartingAfter(lines, 0, pos)
  }

  lemma {:induction false} AllStartAfter(lines: seq<Line>, start: nat, pos: nat)
    requires start > pos
    ensures StartingAfter(lines, start, pos) == lines
  {
    if lines != [] {
      AllStartAfter(lines[1..], start + |lines[0]|, pos);
    }
  }

  lemma {:induction false} FlattenLength<T>(lines: seq<seq<T>>, i: nat)
    requires i < |lines|
    ensures |lines[i]| <= |Flatten(lines)|
  {
    if i < |lines| - 1 {
      FlattenLength(lines[..|lines| - 1], i);
    }
  }

  /** Short enough whole lines are all scanned. */
  lemma ScanShort(lines: seq<Line>)
    requires AllWhole(lines) && |Flatten(lines)| <= MAX_SCAN_TOKEN_SIZE
    ensures ScanLines(Flatten(lines), MAX_SCAN_TOKEN_SIZE) == Texts(lines)
  {
    ScanWholeLines(lines, MAX_SCAN_TOKEN_SIZE);
    var n := FittingPrefix(lines, MAX_SCAN_TOKEN_SIZE);
    if n < |lines| {
      FlattenLength(lines, n);
    } else {
      assert lines[..n] == lines;
    }
  }

  /** Scanning from `cut` gives one token for the cut line, then one for each line of `after`. */
  ghost predicate CutThenLines(data: seq<Byte>, cut: nat, after: seq<Line>)
    requires cut <= |data|
  {
    && AllWhole(after)
    && var tokens := ScanLines(data[cut..], MAX_SCAN_TOKEN_SIZE);
       tokens != [] && tokens[1..] == Texts(after)
  }

  lemma StartsInFirst(line: Line, rest: seq<Line>, start: nat, pos: nat)
    requires start <= pos < start + |line|
    ensures StartingAfter([line] + rest, start, pos) == rest
  {
    assert ([line] + rest)[1..] == rest;
    AllStartAfter(rest, start + |line|, pos);
  }

  lemma StartsLater(line: Line, rest: seq<Line>, start: nat, pos: nat)
    requires start <= pos
    ensures StartingAfter([line] + rest, start, pos) == StartingAfter(rest, start + |line|, pos)
  {
    assert ([line] + rest)[1..] == rest;
  }

  lemma CutInFirst(line: Line, rest: seq<Line>, cut: nat)
    requires WholeLine(line) && AllWhole(rest) && cut < |line|
    requires |line| + |Flatten(rest)| - cut <= MAX_SCAN_TOKEN_SIZE
    ensures CutThenLines(line + Flatten(rest), cut, rest)
  {
    var tail := line[cut..];
    assert (line + Flatten(rest))[cut..] == tail + Flatten(rest);
    ScanOneLine(tail, Flatten(rest), MAX_SCAN_TOKEN_SIZE);
    ScanShort(rest);
  }

  lemma CutLater(line: Line, data: seq<Byte>, cut: nat, after: seq<Line>)
    requires |line| <= cut <= |line| + |data| && CutThenLines(data, cut - |line|, after)
    ensures CutThenLines(line + data, cut, after)
  {
    assert (line + data)[cut..] == data[cut - |line|..];
  }

  lemma InsideFirst(line: Line, rest: seq<Line>, start: nat, pos: nat)
    requires WholeLine(line) && AllWhole(rest) && start <= pos < start + |line|
    requires |line| + |Flatten(rest)| - (pos - start) <= MAX_SCAN_TOKEN_SIZE
    ensures CutThenLines(line + Flatten(rest), pos - start, StartingAfter([line] + rest, start, pos))
  {
    StartsInFirst(line, rest, start, pos);
    CutInFirst(line, rest, pos - start);
  }

  /** Scanning from inside a file gives one token for the cut line, then the lines starting later. */
  lemma {:induction false} ScanFromInside(lines: seq<Line>, start: nat, pos: nat)
    requires AllWhole(lines) && start <= pos < start + |Flatten(lines)|
    requires |Flatten(lines)| - (pos - start) <= MAX_SCAN_TOKEN_SIZE
    ensures CutThenLines(Flatten(lines), pos - start, StartingAfter(lines, start, pos))
  {
    var line, rest := lines[0], lines[1..];
    assert lines == [line] + rest;
    FlattenCons(line, rest);
    if pos - start < |line| {
      InsideFirst(line, rest, start, pos);
    } else {
      ScanFromInside(rest, start + |line|, pos);
      StartsLater(line, rest, start, pos);
      CutLater(line, Flatten(rest), pos - start, StartingAfter(rest, start + |line|, pos));
    }
  }

  lemma TailOfShort(data: seq<Byte>)
    requires SeekPos(|data|) == 0
    ensures TailTokens(data) == ScanLines(data, MAX_SCAN_TOKEN_SIZE)
  {
    assert data[0..] == data;
  }

  lemma TailOfLong(data: seq<Byte>, after: seq<Line>)
    requires SeekPos(|data|) > 0 && CutThenLines(data, SeekPos(|data|), after)
    ensures TailTokens(data) == Texts(after)
  {
  }

  /** The tokens looked at are exactly the whole lines of the tail. */
  lemma TailIsWholeLines(lines: seq<Line>)
    requires AllWhole(lines)
    ensures AllWhole(TailLines(lines)) && TailTokens(Flatten(lines)) == Texts(TailLines(lines))
  {
    if SeekPos(|Flatten(lines)|) == 0 {
      TailOfShort(Flatten(lines));
      ScanShort(lines);
    } else {
      ScanFromInside(lines, 0, SeekPos(|Flatten(lines)|));
      TailOfLong(Flatten(lines), TailLines(lines));
    }
  }

  /**
   Of a log file of whole lines, the dashboard shows the first `limit` parsed entries of the tail in stable
   newest-first order; none it leaves out is newer than one it shows.
   */
  lemma ShowsNewest(lines: seq<Line>, limit: nat, parse: seq<Byte> -> Option<AuditLine>)
    requires AllWhole(lines)
    ensures AllWhole(TailLines(lines))
    ensures var read := FilterMap(parse, Texts(TailLines(lines)));
            var sorted := StableSort(read);
            var shown := RecentLogs(Flatten(lines), limit, parse);
            && StablySorted(sorted, read) && |sorted| == |read|
            && shown == sorted[..Min(limit, |sorted|)]
            && forall i, j :: 0 <= i < |shown| <= j < |sorted| ==> !Less(shown[i].timestamp, sorted[j].timestamp)
  {
    TailIsWholeLines(lines);
    var read := FilterMap(parse, Texts(TailLines(lines)));
    StableSortSorts(read);
  }

  /** `time` gives the moment each entry's timestamp denotes. */
  ghost predicate Dated(es: seq<AuditLine>, time: AuditLine -> Timestamp.Time) {
    forall i :: 0 <= i < |es| ==> Timestamp.Valid(time(es[i])) && es[i].timestamp == Timestamp.Format(time(es[i]))
  }

  lemma DatedBag(a: seq<AuditLine>, b: seq<AuditLine>, time: AuditLine -> Timestamp.Time)
    requires multiset(a) == multiset(b) && Dated(a, time)
    ensures Dated(b, time)
  {
    forall i | 0 <= i < |b|
      ensures Timestamp.Valid(time(b[i])) && b[i].timestamp == Timestamp.Format(time(b[i]))
    {
      assert b[i] in multiset(a);
    }
  }

  /** With genuine timestamps, no entry left out was recorded later than an entry shown. */
  lemma ShowsNewestInTime(lines: seq<Line>, limit: nat, parse: seq<Byte> -> Option<AuditLine>,
                          time: AuditLine -> Timestamp.Time)
    requires AllWhole(lines) && AllWhole(TailLines(lines))
    requires Dated(FilterMap(parse, Texts(TailLines(lines))), time)
    ensures var sorted := StableSort(FilterMap(parse, Texts(TailLines(lines))));
            var shown := RecentLogs(Flatten(lines), limit, parse);
            && Dated(sorted, time) && Dated(shown, time)
            && forall i, j :: 0 <= i < |shown| <= j < |sorted| ==>
                 Timestamp.Seconds(time(shown[i])) >= Timestamp.Seconds(time(sorted[j]))
  {
    ShowsNewest(lines, limit, parse);
    var read := FilterMap(parse, Texts(TailLines(lines)));
    var sorted := StableSort(read);
    var shown := RecentLogs(Flatten(lines), limit, parse);
    DatedBag(read, sorted, time);
    assert forall i :: 0 <= i < |shown| ==> shown[i] == sorted[i];
    forall i, j | 0 <= i < |shown| <= j < |sorted|
      ensures Timestamp.Seconds(time(shown[i])) >= Timestamp.Seconds(time(sorted[j]))
    {
      Timestamp.StringOrderIsTimeOrder(time(shown[i]), time(sorted[j]));
    }
  }

  // ----- when the dashboard shows nothing

  lemma {:induction false} NoneStartAfterIff(lines: seq<Line>, last: Line, start: nat, pos: nat)
    ensures StartingAfter(lines + [last], start, pos) == [] <==> start + |Flatten(lines)| <= pos
  {
    if lines == [] {
      assert lines + [last] == [last];
    } else {
      assert lines == [lines[0]] + lines[1..];
      FlattenCons(lines[0], lines[1..]);
      assert (lines + [last])[1..] == lines[1..] + [last];
      NoneStartAfterIff(lines[1..], last, start + |lines[0]|, pos);
    }
  }

  /** The tail holds no whole line exactly when the file exceeds 64 KiB and its last line has 64 KiB or more. */
  lemma NoTailIff(lines: seq<Line>, last: Line)
    ensures TailLines(lines + [last]) == []
            <==> |Flatten(lines + [last])| > TAIL_SIZE && |last| >= TAIL_SIZE
  {
    FlattenSnoc(lines, last);
    NoneStartAfterIff(lines, last, 0, SeekPos(|Flatten(lines + [last])|));
  }

  lemma {:induction false} StartingAfterIsSuffix(lines: seq<Line>, start: nat, pos: nat) returns (k: nat)
    ensures k <= |lines| && StartingAfter(lines, start, pos) == lines[k..]
  {
    if lines == [] {
      k := 0;
    } else if start > pos {
      AllStartAfter(lines, start, pos);
      k := 0;
    } else {
      k := StartingAfterIsSuffix(lines[1..], start + |lines[0]|, pos);
      k := k + 1;
    }
  }

  lemma TailIsSuffix(lines: seq<Line>) returns (k: nat)
    ensures k <= |lines| && TailLines(lines) == lines[k..]
  {
    if SeekPos(|Flatten(lines)|) == 0 {
      k := 0;
    } else {
      k := StartingAfterIsSuffix(lines, 0, SeekPos(|Flatten(lines)|));
    }
  }

  /** Of recorded entries the dashboard reads the last ones, sorts their visible part and shows the first `limit`. */
  lemma ShownOfRecorded(codec: Codec, es: seq<Entry>, limit: nat) returns (k: nat)
    requires codec.Sound()
    ensures k <= |es| && TailLines(codec.Lines(es)) == codec.Lines(es)[k..]
    ensures RecentLogs(Flatten(codec.Lines(es)), limit, codec.parse)
            == StableSort(Visible(es[k..]))[..Min(limit, |es| - k)]
  {
    var lines := codec.Lines(es);
    k := TailIsSuffix(lines);
    LinesParse(codec, es);
    ParseTexts(codec, lines[k..], es[k..]);
    TailIsWholeLines(lines);
  }

  /**
   Asked for some entries, the dashboard shows none exactly when none was recorded in the file, or when the file
   exceeds 64 KiB and its last line has 64 KiB or more.
   */
  lemma ShowsNothingIff(codec: Codec, es: seq<Entry>, limit: nat)
    requires codec.Sound() && limit > 0
    ensures RecentLogs(Flatten(codec.Lines(es)), limit, codec.parse) == []
            <==> es == [] || (|Flatten(codec.Lines(es))| > TAIL_SIZE && |codec.LineOf(es[|es| - 1])| >= TAIL_SIZE)
  {
    var k := ShownOfRecorded(codec, es, limit);
    assert TailLines(codec.Lines(es)) == [] <==> k == |es|;
    if es != [] {
      NoTailOfRecordedIff(codec, es);
    }
  }

  lemma NoTailOfRecordedIff(codec: Codec, es: seq<Entry>)
    requires es != []
    ensures TailLines(codec.Lines(es)) == []
            <==> |Flatten(codec.Lines(es))| > TAIL_SIZE && |codec.LineOf(es[|es| - 1])| >= TAIL_SIZE
  {
    var lines, last := codec.Lines(es), codec.LineOf(es[|es| - 1]);
    assert lines == lines[..|es| - 1] + [last];
    NoTailIff(lines[..|es| - 1], last);
  }
}
