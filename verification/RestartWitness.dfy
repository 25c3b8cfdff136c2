/**
 Runs on which the counters do not survive a restart. Every list of entries is recorded by some run, so the exact
 condition of `Dispatch.MetricsSurviveWhileShort` can be met and can be missed, for each of its two reasons.
 */
module RestartWitness {
  import opened Seqs
  import opened AuditStore
  import opened Bufio
  import opened Metrics
  import opened Restart
  import Json
  import Server
  import D = Dispatch

  // ----- any entries can be recorded

  ghost predicate Callable(env: D.Env, es: seq<Entry>) {
    && env.cfg.maxFiles >= 1 && (env.capacity.Some? ==> env.capacity.value >= 1)
    && forall i :: 0 <= i < |es| ==> es[i].line.tool in env.tools
  }

  /** One more call, running alone, records the entry. */
  lemma RecordOne(env: D.Env, d: D.State, e: Entry) returns (steps: seq<D.Step>, last: D.State)
    requires Callable(env, [e]) && d.tokens == 0 && FaultFree(d.events)
    ensures D.Execute(env, d, steps) == Some(last)
    ensures last.tokens == 0 && FaultFree(last.events) && last.all == d.all + [e]
  {
    assert [e][0].line.tool in env.tools;
    var params := Some(Server.Params(e.line.tool, map[], []));
    var behaviour := Server.Returns(Json.Null, e.line.durationMs);
    var a := Server.Audit(e.line.timestamp, e.caller, e.line.arguments, e.line.success, e.line.error, NO_FAULTS);
    steps := Server.CallSteps(env, |d.calls|, params, true, behaviour, a);
    last := Server.CallAlone(env, d, params, true, behaviour, a);
  }

  lemma {:induction false} RecordAll(env: D.Env, es: seq<Entry>) returns (steps: seq<D.Step>, last: D.State)
    requires Callable(env, es)
    ensures D.Execute(env, D.INITIAL, steps) == Some(last)
    ensures last.tokens == 0 && FaultFree(last.events) && last.all == es
  {
    if es == [] {
      steps, last := [], D.INITIAL;
    } else {
      var init, e := es[..|es| - 1], es[|es| - 1];
      var before, d := RecordAll(env, init);
      var more;
      more, last := RecordOne(env, d, e);
      D.ExecuteAppend(env, D.INITIAL, before, d, more);
      steps := before + more;
    }
  }

  /**
   For any entries there is a run that records exactly them and then restarts. Its counters are those of the entries
   if and only if the lines are short and, but for the last, stay below the limit.
   */
  lemma RecordedThenRestarted(env: D.Env, es: seq<Entry>) returns (states: seq<D.State>, steps: seq<D.Step>)
    requires Callable(env, es) && env.codec.Sound()
    ensures D.IsRun(env, states, steps)
    ensures var s := states[|steps|];
            && s.all == es && D.Quiet(s) && FaultFree(s.events)
            && (s.counters == Tally(map[], Visible(s.all)) <==> StaysReadable(env.codec.Lines(es), env.cfg.limit))
  {
    var last;
    steps, last := RecordAll(env, es);
    steps, last := D.Then(env, D.INITIAL, steps, last, D.Restart);
    states := D.ExecuteIsRun(env, steps, last);
    D.MetricsSurviveWhileShort(env, states, steps, |steps|);
    assert D.Before(last) == es;
  }

  // ----- the two ways to lose calls

  /** The last state of a run without log failures, with no call in between, whose counters miss a recorded call. */
  ghost predicate LosesCalls(env: D.Env, states: seq<D.State>, steps: seq<D.Step>) {
    && env.cfg.maxFiles >= 1 && D.IsRun(env, states, steps)
    && D.Quiet(states[|steps|]) && FaultFree(states[|steps|].events)
    && states[|steps|].counters != Tally(map[], Visible(states[|steps|].all))
  }

  lemma {:induction false} SizeAtLeastCount(lines: seq<Line>)
    requires forall i :: 0 <= i < |lines| ==> lines[i] != []
    ensures Size(lines) >= |lines|
  {
    if lines != [] {
      SizeAtLeastCount(lines[..|lines| - 1]);
    }
  }

  /** The same short call often enough makes the log rotate, and the calls in the rotated file are lost. */
  lemma RotationLosesCalls(env: D.Env, e: Entry) returns (states: seq<D.State>, steps: seq<D.Step>)
    requires Callable(env, [e]) && env.codec.Sound() && |env.codec.LineOf(e)| <= MAX_SCAN_TOKEN_SIZE
    ensures LosesCalls(env, states, steps) && AllFit(env.codec.Lines(states[|steps|].all))
  {
    assert [e][0].line.tool in env.tools;
    var n: nat := if env.cfg.limit < 1 then 2 else env.cfg.limit + 1;
    var es := seq(n, _ => e);
    var lines := env.codec.Lines(es);
    SizeAtLeastCount(lines[..n - 1]);
    states, steps := RecordedThenRestarted(env, es);
  }

  /** A single call whose audit line is longer than the scanner's buffer is lost. */
  lemma LongLineLosesCalls(env: D.Env, e: Entry) returns (states: seq<D.State>, steps: seq<D.Step>)
    requires Callable(env, [e]) && env.codec.Sound() && |env.codec.LineOf(e)| > MAX_SCAN_TOKEN_SIZE
    ensures LosesCalls(env, states, steps) && states[|steps|].all == [e]
  {
    states, steps := RecordedThenRestarted(env, [e]);
    assert env.codec.Lines([e])[0] == env.codec.LineOf(e);
  }

  // ----- an encoding for which both happen

  const TICK: Byte := 65
  const STOP: Byte := 66

  ghost predicate Plain(s: seq<Byte>) {
    s != [] && forall k :: 0 <= k < |s| ==> s[k] == TICK || s[k] == STOP
  }

  function NumCode(n: nat): (s: seq<Byte>)
    ensures Plain(s) && |s| == n + 1
  {
    if n == 0 then [STOP] else [TICK] + NumCode(n - 1)
  }

  lemma {:induction false} NumCodeSplits(m: nat, n: nat, x: seq<Byte>, y: seq<Byte>)
    requires NumCode(m) + x == NumCode(n) + y
    ensures m == n && x == y
  {
    assert (NumCode(m) + x)[0] == NumCode(m)[0] && (NumCode(n) + y)[0] == NumCode(n)[0];
    assert (NumCode(m) + x)[1..] == NumCode(m)[1..] + x && (NumCode(n) + y)[1..] == NumCode(n)[1..] + y;
    if m > 0 && n > 0 {
      NumCodeSplits(m - 1, n - 1, x, y);
    }
  }

  function TextCode(s: string): (c: seq<Byte>)
    ensures Plain(c) && |c| > |s|
  {
    if s == [] then NumCode(0) else NumCode(s[0] as nat + 1) + TextCode(s[1..])
  }

  lemma {:induction false} TextCodeSplits(s: string, t: string, x: seq<Byte>, y: seq<Byte>)
    requires TextCode(s) + x == TextCode(t) + y
    ensures s == t && x == y
  {
    var m, n := if s == [] then 0 else s[0] as nat + 1, if t == [] then 0 else t[0] as nat + 1;
    var a, b := if s == [] then x else TextCode(s[1..]) + x, if t == [] then y else TextCode(t[1..]) + y;
    assert TextCode(s) + x == NumCode(m) + a && TextCode(t) + y == NumCode(n) + b;
    NumCodeSplits(m, n, a, b);
    if s != [] && t != [] {
      TextCodeSplits(s[1..], t[1..], x, y);
      assert s == [s[0]] + s[1..] && t == [t[0]] + t[1..];
    }
  }

  function IntCode(i: int): (s: seq<Byte>)
    ensures Plain(s)
  {
    NumCode(if i < 0 then -2 * i - 1 else 2 * i)
  }

  lemma IntCodeSplits(i: int, j: int, x: seq<Byte>, y: seq<Byte>)
    requires IntCode(i) + x == IntCode(j) + y
    ensures i == j && x == y
  {
    NumCodeSplits(if i < 0 then -2 * i - 1 else 2 * i, if j < 0 then -2 * j - 1 else 2 * j, x, y);
  }

  function ResultCode(e: Entry): (s: seq<Byte>)
    ensures Plain(s)
  {
    IntCode(e.line.durationMs) + (IntCode(if e.line.success then 1 else 0)
      + (TextCode(e.line.error) + TextCode(e.caller)))
  }

  lemma ResultCodeSplits(a: Entry, b: Entry)
    requires ResultCode(a) == ResultCode(b)
    ensures a.line.durationMs == b.line.durationMs && a.line.success == b.line.success && a.line.error == b.line.error
  {
    var x, y := TextCode(a.line.error) + TextCode(a.caller), TextCode(b.line.error) + TextCode(b.caller);
    var i, j := if a.line.success then 1 else 0, if b.line.success then 1 else 0;
    IntCodeSplits(a.line.durationMs, b.line.durationMs, IntCode(i) + x, IntCode(j) + y);
    IntCodeSplits(i, j, x, y);
    TextCodeSplits(a.line.error, b.line.error, TextCode(a.caller), TextCode(b.caller));
  }

  function Encode(e: Entry): (s: seq<Byte>)
    ensures Plain(s)
  {
    TextCode(e.line.timestamp) + (TextCode(e.line.tool) + (TextCode(e.line.arguments) + ResultCode(e)))
  }

  lemma EncodeInjective(a: Entry, b: Entry)
    requires Encode(a) == Encode(b)
    ensures a.line == b.line
  {
    var x, y := TextCode(a.line.arguments) + ResultCode(a), TextCode(b.line.arguments) + ResultCode(b);
    TextCodeSplits(a.line.timestamp, b.line.timestamp, TextCode(a.line.tool) + x, TextCode(b.line.tool) + y);
    TextCodeSplits(a.line.tool, b.line.tool, x, y);
    TextCodeSplits(a.line.arguments, b.line.arguments, ResultCode(a), ResultCode(b));
    ResultCodeSplits(a, b);
  }

  /** The line whose encoding this is, if there is one. */
  ghost function Decode(bytes: seq<Byte>): Option<AuditLine> {
    if exists e :: Encode(e) == bytes then
      var e :| Encode(e) == bytes;
      Some(e.line)
    else None
  }

  lemma DecodeEncode(e: Entry)
    ensures Decode(Encode(e)) == Some(e.line)
  {
    var d :| Encode(d) == Encode(e) && Decode(Encode(e)) == Some(d.line);
    EncodeInjective(d, e);
  }

  ghost function Unary(): Codec {
    Codec(Encode, Decode)
  }

  lemma UnarySound()
    ensures Unary().Sound()
  {
    forall e
      ensures Unary().Faithful(e)
    {
      assert Unary().encode(e) == Encode(e) && Plain(Encode(e));
      DecodeEncode(e);
    }
  }

  function CallOf(arguments: string): Entry {
    Entry(AuditLine("", "t", arguments, 0, true, ""), "")
  }

  /** With any log settings there are runs on which each of the two reasons loses calls. */
  lemma CountersCanBeLost(cfg: Config)
    returns (env: D.Env, rotated: seq<D.State>, steps: seq<D.Step>, long: seq<D.State>, steps': seq<D.Step>)
    requires cfg.maxFiles >= 1
    ensures env.cfg == cfg && env.codec.Sound()
    ensures LosesCalls(env, rotated, steps) && AllFit(env.codec.Lines(rotated[|steps|].all))
    ensures LosesCalls(env, long, steps') && |long[|steps'|].all| == 1
  {
    env := D.Env(None, {"t"}, cfg, Unary());
    UnarySound();
    ShortEntryFits();
    rotated, steps := RotationLosesCalls(env, CallOf(""));
    var arguments := seq(MAX_SCAN_TOKEN_SIZE, _ => 'x');
    LongEntry(arguments);
    long, steps' := LongLineLosesCalls(env, CallOf(arguments));
  }

  lemma ShortEntryFits()
    ensures |Unary().LineOf(CallOf(""))| <= MAX_SCAN_TOKEN_SIZE
  {
    assert |TextCode("")| == 1;
    assert "t"[1..] == "";
    assert |TextCode("t")| <= 200;
  }

  lemma LongEntry(arguments: string)
    requires |arguments| >= MAX_SCAN_TOKEN_SIZE
    ensures |Unary().LineOf(CallOf(arguments))| > MAX_SCAN_TOKEN_SIZE
  {
  }
}
