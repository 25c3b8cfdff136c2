/** The line scanner of Go's bufio package, as the audit readers and the stdio server use it. */
module Bufio {
  import opened Seqs
  import opened AuditStore

  const NEWLINE: Byte := 10
  const CARRIAGE_RETURN: Byte := 13
  /** The default token limit, which the audit readers keep. */
  const MAX_SCAN_TOKEN_SIZE: nat := 64 * 1024

  /** The position of the first newline, or the length if there is none. */
  function NextNewline(data: seq<Byte>): (i: nat)
    ensures i <= |data|
    ensures forall k :: 0 <= k < i ==> data[k] != NEWLINE
    ensures i < |data| ==> data[i] == NEWLINE
  {
    if data == [] || data[0] == NEWLINE then 0 else 1 + NextNewline(data[1..])
  }

  function DropCR(token: seq<Byte>): seq<Byte> {
    if token != [] && token[|token| - 1] == CARRIAGE_RETURN then token[..|token| - 1] else token
  }

  /**
   The tokens scanned from `data` with a buffer of `max` bytes: one per line, a last line without
   newline included, up to the first line whose text does not fit in max - 1 bytes.
   */
  function ScanLines(data: seq<Byte>, max: nat): seq<seq<Byte>> {
    var i := NextNewline(data);
    if data == [] || i >= max then []
    else if i == |data| then [DropCR(data)]
    else [DropCR(data[..i])] + ScanLines(data[i + 1..], max)
  }

  /** The scan from `pos` when the next newline is at `end`, or there is none and `end` is the end of the data. */
  lemma ScanFrom(data: seq<Byte>, pos: nat, end: nat, max: nat)
    requires pos <= end <= |data| && pos < |data| && NextNewline(data[pos..]) == end - pos
    ensures ScanLines(data[pos..], max)
            == if end - pos >= max then []
               else [DropCR(data[pos..end])] + if end == |data| then [] else ScanLines(data[end + 1..], max)
  {
    assert data[pos..][..end - pos] == data[pos..end];
    if end == |data| {
      assert data[pos..] == data[pos..end];
    } else {
      assert data[pos..][end - pos + 1..] == data[end + 1..];
    }
  }

  class Scanner {
    const data: seq<Byte>
    const max: nat
    var pos: nat
    var stopped: bool

    ghost predicate Valid()
      reads this
    {
      pos <= |data|
    }

    /** The tokens still to come. */
    ghost function Remaining(): seq<seq<Byte>>
      requires Valid()
      reads this
    {
      if stopped then [] else ScanLines(data[pos..], max)
    }

    constructor (data: seq<Byte>, max: nat)
      ensures Valid() && Remaining() == ScanLines(data, max)
    {
      this.data, this.max := data, max;
      pos, stopped := 0, false;
    }

    /** The position of the next newline, or the end of the data. */
    method FindNewline() returns (end: nat)
      requires Valid()
      ensures pos <= end <= |data| && NextNewline(data[pos..]) == end - pos
    {
      end := pos;
      while end < |data| && data[end] != NEWLINE
        invariant pos <= end <= |data|
        invariant NextNewline(data[pos..]) == end - pos + NextNewline(data[end..])
      {
        assert data[end..][1..] == data[end + 1..];
        end := end + 1;
      }
    }

    method Scan() returns (ok: bool, token: seq<Byte>)
      requires Valid()
      modifies this
      ensures Valid()
      ensures ok <==> old(Remaining()) != []
      ensures ok ==> old(Remaining()) == [token] + Remaining()
      ensures !ok ==> Remaining() == []
    {
      token := [];
      if stopped || pos == |data| {
        ok := false;
        return;
      }
      var end := FindNewline();
      ScanFrom(data, pos, end, max);
      if end - pos >= max {
        stopped, ok := true, false;
        return;
      }
      ok := true;
      token := DropCR(data[pos..end]);
      pos := if end == |data| then end else end + 1;
    }
  }

  // ----- scanning a file of whole lines

  /** A line as the audit log writes it: text without a newline, then a newline. */
  predicate WholeLine(line: Line) {
    && line != []
    && line[|line| - 1] == NEWLINE
    && (forall k :: 0 <= k < |line| - 1 ==> line[k] != NEWLINE)
  }

  function Text(line: Line): seq<Byte>
    requires line != []
  {
    DropCR(line[..|line| - 1])
  }

  /** The text of a line is what stands before its newline, or before a carriage return and newline. */
  lemma TextOfLine(text: seq<Byte>)
    requires NEWLINE !in text && (text == [] || text[|text| - 1] != CARRIAGE_RETURN)
    ensures WholeLine(text + [10]) && Text(text + [10]) == text
    ensures WholeLine(text + [13, 10]) && Text(text + [13, 10]) == text
  {
    assert (text + [10])[..|text|] == text;
    assert (text + [13, 10])[..|text| + 1] == text + [13];
    assert (text + [13])[..|text|] == text;
  }

  predicate AllWhole(lines: seq<Line>) {
    forall i :: 0 <= i < |lines| ==> WholeLine(lines[i])
  }

  /** The number of leading lines that fit in the buffer. */
  function FittingPrefix(lines: seq<Line>, max: nat): (n: nat)
    ensures n <= |lines|
    ensures forall i :: 0 <= i < n ==> |lines[i]| <= max
    ensures n < |lines| ==> |lines[n]| > max
  {
    if lines == [] || |lines[0]| > max then 0 else 1 + FittingPrefix(lines[1..], max)
  }

  function Texts(lines: seq<Line>): (t: seq<seq<Byte>>)
    requires AllWhole(lines)
    ensures |t| == |lines|
    ensures forall i :: 0 <= i < |lines| ==> t[i] == Text(lines[i])
  {
    seq(|lines|, i requires 0 <= i < |lines| => Text(lines[i]))
  }

  lemma NextNewlineOfLine(line: Line, rest: seq<Byte>)
    requires WholeLine(line)
    ensures NextNewline(line + rest) == |line| - 1
  {
    var all := line + rest;
    assert all[|line| - 1] == NEWLINE;
    assert forall k :: 0 <= k < |line| - 1 ==> all[k] == line[k];
  }

  lemma ScanOneLine(line: Line, rest: seq<Byte>, max: nat)
    requires WholeLine(line)
    ensures ScanLines(line + rest, max) == if |line| > max then [] else [Text(line)] + ScanLines(rest, max)
  {
    NextNewlineOfLine(line, rest);
    assert (line + rest)[..|line| - 1] == line[..|line| - 1];
    assert (line + rest)[|line|..] == rest;
  }

  lemma TextsCons(line: Line, rest: seq<Line>)
    requires WholeLine(line) && AllWhole(rest)
    ensures AllWhole([line] + rest) && Texts([line] + rest) == [Text(line)] + Texts(rest)
  {
  }

  lemma FittingPrefixCons(line: Line, rest: seq<Line>, max: nat)
    ensures FittingPrefix([line] + rest, max) == if |line| > max then 0 else 1 + FittingPrefix(rest, max)
  {
    assert ([line] + rest)[1..] == rest;
  }

  lemma PrefixTextsCons(line: Line, rest: seq<Line>, n: nat)
    requires WholeLine(line) && AllWhole(rest) && n <= |rest|
    ensures AllWhole([line] + rest) && Texts(([line] + rest)[..n + 1]) == [Text(line)] + Texts(rest[..n])
  {
    assert ([line] + rest)[..n + 1] == [line] + rest[..n];
    TextsCons(line, rest[..n]);
  }

  /** Scanning whole lines gives their texts, stopping before the first line longer than the buffer. */
  lemma {:induction false} ScanWholeLines(lines: seq<Line>, max: nat)
    requires AllWhole(lines)
    ensures ScanLines(Flatten(lines), max) == Texts(lines[..FittingPrefix(lines, max)])
  {
    if lines == [] {
    } else {
      var line, rest := lines[0], lines[1..];
      assert lines == [line] + rest;
      FlattenCons(line, rest);
      FittingPrefixCons(line, rest, max);
      ScanOneLine(line, Flatten(rest), max);
      if |line| <= max {
        ScanWholeLines(rest, max);
        PrefixTextsCons(line, rest, FittingPrefix(rest, max));
      }
    }
  }

  lemma ScanRest(rest: seq<Byte>, max: nat)
    requires rest != [] && NEWLINE !in rest && rest[|rest| - 1] != CARRIAGE_RETURN
    ensures ScanLines(rest, max) == if |rest| < max then [rest] else []
  {
    assert NextNewline(rest) == |rest|;
  }

  /** A last line without a newline is scanned too, if it is shorter than the buffer. */
  lemma {:induction false} ScanUnfinished(lines: seq<Line>, rest: seq<Byte>, max: nat, last: seq<seq<Byte>>)
    requires AllWhole(lines) && (forall i :: 0 <= i < |lines| ==> |lines[i]| <= max)
    requires rest != [] && NEWLINE !in rest && rest[|rest| - 1] != CARRIAGE_RETURN
    requires last == if |rest| < max then [rest] else []
    ensures ScanLines(Flatten(lines) + rest, max) == Texts(lines) + last
  {
    if lines == [] {
      assert Flatten(lines) + rest == rest;
      ScanRest(rest, max);
    } else {
      var line, more := lines[0], lines[1..];
      assert lines == [line] + more;
      ScanUnfinished(more, rest, max, last);
      assert ScanLines(line + (Flatten(more) + rest), max) == [Text(line)] + (Texts(more) + last) by {
        ScanOneLine(line, Flatten(more) + rest, max);
      }
      assert Flatten(lines) + rest == line + (Flatten(more) + rest) by {
        FlattenCons(line, more);
        Assoc(line, Flatten(more), rest);
      }
      assert Texts(lines) + last == [Text(line)] + (Texts(more) + last) by {
        TextsCons(line, more);
        Assoc([Text(line)], Texts(more), last);
      }
    }
  }
}
