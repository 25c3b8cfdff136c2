/**
 The stdio server of cmd/jig-mcp/main.go as interleaved steps: one goroutine per scanned line, each writing its
 response to stdout byte by byte while it holds the output mutex.
 */
module Stdio {
  import opened Seqs
  import opened AuditStore
  import opened Bufio
  import opened Json
  import opened ToolLoading
  import opened Protocol

  const MAX_LINE: nat := 0x10_0000

  /** The input, how a line decodes, how a response encodes (if it does), and what the server reports. */
  datatype Env = Env(stdin: seq<Byte>, parse: seq<Byte> -> Option<Request>, marshal: Response -> Option<seq<Byte>>,
                     version: string, listing: seq<ToolDef>)
  {
    function Lines(): seq<seq<Byte>> {
      ScanLines(stdin, MAX_LINE)
    }

    /** Encoded responses are single lines. */
    ghost predicate Sound() {
      forall r :: marshal(r).Some? ==> WholeLine(marshal(r).value + [NEWLINE])
    }
  }

  /** Where a line's goroutine is; `Ready` and later phases carry the response and its encoding. */
  datatype Worker =
    | Spawned
    | Ready(resp: Response, out: seq<Byte>)
    | Writing(resp: Response, out: seq<Byte>, sent: nat)
    | Silent
    | Answered(resp: Response, out: seq<Byte>)

  /** `workers[i]` serves line i; `written` lists the workers whose line is complete, in order of completion. */
  datatype State = State(workers: seq<Worker>, stdout: seq<Byte>, holder: Option<nat>, written: seq<nat>)

  datatype Step =
    | Scan
    | Drop(i: nat)
    | Process(i: nat, toolValue: Json)
    | Lock(i: nat)
    | PutByte(i: nat)
    | Unlock(i: nat)

  const INITIAL := State([], [], None, [])

  predicate Wanted(env: Env, line: seq<Byte>) {
    env.parse(line).Some? && WantsResponse(env.parse(line).value)
  }

  predicate Enabled(env: Env, s: State, step: Step) {
    match step
    case Scan => |s.workers| < |env.Lines()|
    case Drop(i) => i < |s.workers| && i < |env.Lines()| && s.workers[i].Spawned? && !Wanted(env, env.Lines()[i])
    case Process(i, _) => i < |s.workers| && i < |env.Lines()| && s.workers[i].Spawned? && Wanted(env, env.Lines()[i])
    case Lock(i) => i < |s.workers| && s.workers[i].Ready? && s.holder == None
    case PutByte(i) => i < |s.workers| && s.workers[i].Writing? && s.workers[i].sent < |s.workers[i].out| + 1
    case Unlock(i) => i < |s.workers| && s.workers[i].Writing? && s.workers[i].sent == |s.workers[i].out| + 1
  }

  function Respond(env: Env, line: seq<Byte>, toolValue: Json): Worker
    requires Wanted(env, line)
  {
    var resp := ProcessRequest(env.parse(line).value, env.version, env.listing, toolValue);
    match env.marshal(resp) case None => Silent case Some(out) => Ready(resp, out)
  }

  function Next(env: Env, s: State, step: Step): State
    requires Enabled(env, s, step)
  {
    match step
    case Scan => s.(workers := s.workers + [Spawned])
    case Drop(i) => s.(workers := s.workers[i := Silent])
    case Process(i, v) => s.(workers := s.workers[i := Respond(env, env.Lines()[i], v)])
    case Lock(i) => s.(workers := s.workers[i := Writing(s.workers[i].resp, s.workers[i].out, 0)], holder := Some(i))
    case PutByte(i) =>
      var w := s.workers[i];
      s.(workers := s.workers[i := w.(sent := w.sent + 1)], stdout := s.stdout + [(w.out + [NEWLINE])[w.sent]])
    case Unlock(i) =>
      var w := Worker.Answered(s.workers[i].resp, s.workers[i].out);
      s.(workers := s.workers[i := w], holder := None, written := s.written + [i])
  }

  /** State k + 1 follows from state k by step k. */
  predicate Follows(env: Env, states: seq<State>, steps: seq<Step>, k: nat)
    requires k < |steps| && |states| == |steps| + 1
  {
    Enabled(env, states[k], steps[k]) && states[k + 1] == Next(env, states[k], steps[k])
  }

  ghost predicate IsRun(env: Env, states: seq<State>, steps: seq<Step>) {
    && |states| == |steps| + 1
    && states[0] == INITIAL
    && forall k :: 0 <= k < |steps| ==> Follows(env, states, steps, k)
  }

  /** A run can be continued with any step that is enabled at its end. */
  lemma Continue(env: Env, states: seq<State>, steps: seq<Step>, step: Step, s': State)
    requires IsRun(env, states, steps)
    requires Enabled(env, states[|steps|], step) && s' == Next(env, states[|steps|], step)
    ensures IsRun(env, states + [s'], steps + [step])
  {
    forall k | 0 <= k < |steps| + 1
      ensures Follows(env, states + [s'], steps + [step], k)
    {
      if k < |steps| {
        assert Follows(env, states, steps, k);
      }
    }
  }

  // ----- what a worker may hold

  /** A worker with a response got it by processing its own line. */
  ghost predicate WorkerOk(env: Env, line: seq<Byte>, w: Worker) {
    match w
    case Spawned => true
    case Silent => !Wanted(env, line) || exists v :: Respond(env, line, v) == Silent
    case _ => Wanted(env, line) && exists v :: Respond(env, line, v) == Ready(w.resp, w.out)
  }

  ghost predicate WorkersOk(env: Env, s: State) {
    && |s.workers| <= |env.Lines()|
    && forall i :: 0 <= i < |s.workers| ==> WorkerOk(env, env.Lines()[i], s.workers[i])
  }

  // ----- what stdout may hold

  function OutLine(w: Worker): seq<Byte> {
    if w.Ready? || w.Writing? || w.Answered? then w.out + [NEWLINE] else []
  }

  /** The complete lines of stdout, in order of completion. */
  function WrittenLines(workers: seq<Worker>, written: seq<nat>): seq<Line>
    requires forall k :: 0 <= k < |written| ==> written[k] < |workers|
  {
    seq(|written|, k requires 0 <= k < |written| => OutLine(workers[written[k]]))
  }

  predicate WrittenOk(s: State) {
    && (forall k :: 0 <= k < |s.written| ==> s.written[k] < |s.workers| && s.workers[s.written[k]].Answered?)
    && (forall j, k :: 0 <= j < k < |s.written| ==> s.written[j] != s.written[k])
    && (forall i :: 0 <= i < |s.workers| && s.workers[i].Answered? ==> i in s.written)
  }

  /** The mutex holder is the one worker that is writing. */
  predicate MutexOk(s: State) {
    && (s.holder.Some? ==> s.holder.value < |s.workers| && s.workers[s.holder.value].Writing?
                           && s.workers[s.holder.value].sent <= |s.workers[s.holder.value].out| + 1)
    && (forall i :: 0 <= i < |s.workers| && s.workers[i].Writing? ==> s.holder == Some(i))
  }

  /** What the holder has written of its line. */
  function Partial(s: State): seq<Byte>
    requires MutexOk(s)
  {
    if s.holder == None then [] else OutLine(s.workers[s.holder.value])[..s.workers[s.holder.value].sent]
  }

  ghost predicate OutputOk(s: State) {
    && WrittenOk(s)
    && MutexOk(s)
    && s.stdout == Flatten(WrittenLines(s.workers, s.written)) + Partial(s)
  }

  lemma SameWritten(s: State, i: nat, w: Worker)
    requires WrittenOk(s) && i < |s.workers| && !s.workers[i].Answered?
    ensures WrittenLines(s.workers[i := w], s.written) == WrittenLines(s.workers, s.written)
  {
  }

  lemma PutByteOk(env: Env, s: State, step: Step)
    requires OutputOk(s) && Enabled(env, s, step) && step.PutByte?
    ensures OutputOk(Next(env, s, step))
  {
    var i := step.i;
    var s' := Next(env, s, step);
    SameWritten(s, i, s'.workers[i]);
    var line := OutLine(s.workers[i]);
    var n := s.workers[i].sent;
    assert line[..n + 1] == line[..n] + [line[n]];
    Assoc(Flatten(WrittenLines(s.workers, s.written)), line[..n], [line[n]]);
  }

  lemma WrittenSnoc(workers: seq<Worker>, written: seq<nat>, i: nat)
    requires i < |workers| && forall k :: 0 <= k < |written| ==> written[k] < |workers|
    ensures Flatten(WrittenLines(workers, written + [i]))
            == Flatten(WrittenLines(workers, written)) + OutLine(workers[i])
  {
    assert WrittenLines(workers, written + [i]) == WrittenLines(workers, written) + [OutLine(workers[i])];
    FlattenSnoc(WrittenLines(workers, written), OutLine(workers[i]));
  }

  lemma UnlockOk(env: Env, s: State, step: Step)
    requires OutputOk(s) && Enabled(env, s, step) && step.Unlock?
    ensures OutputOk(Next(env, s, step))
  {
    var i := step.i;
    var s' := Next(env, s, step);
    assert WrittenOk(s') && MutexOk(s');
    SameWritten(s, i, s'.workers[i]);
    var line := OutLine(s.workers[i]);
    assert Partial(s) == line[..|line|] == line;
    WrittenSnoc(s'.workers, s.written, i);
  }

  /** A worker goes silent or gets its response ready. */
  lemma ReadyOk(env: Env, s: State, i: nat, w: Worker)
    requires OutputOk(s) && i < |s.workers| && s.workers[i].Spawned? && (w.Silent? || w.Ready?)
    ensures OutputOk(s.(workers := s.workers[i := w]))
  {
    var s' := s.(workers := s.workers[i := w]);
    SameWritten(s, i, w);
    assert MutexOk(s');
    assert Partial(s') == Partial(s);
  }

  lemma LockOk(env: Env, s: State, step: Step)
    requires OutputOk(s) && Enabled(env, s, step) && step.Lock?
    ensures OutputOk(Next(env, s, step))
  {
    var s' := Next(env, s, step);
    SameWritten(s, step.i, s'.workers[step.i]);
    assert MutexOk(s');
    assert Partial(s') == [] == Partial(s);
  }

  lemma ScanOk(env: Env, s: State)
    requires OutputOk(s) && Enabled(env, s, Scan)
    ensures OutputOk(Next(env, s, Scan))
  {
    var s' := Next(env, s, Scan);
    assert WrittenLines(s'.workers, s.written) == WrittenLines(s.workers, s.written);
  }

  lemma OutputStep(env: Env, s: State, step: Step)
    requires OutputOk(s) && Enabled(env, s, step)
    ensures OutputOk(Next(env, s, step))
  {
    match step
    case Scan => ScanOk(env, s);
    case PutByte(_) => PutByteOk(env, s, step);
    case Unlock(_) => UnlockOk(env, s, step);
    case Lock(_) => LockOk(env, s, step);
    case _ => ReadyOk(env, s, step.i, Next(env, s, step).workers[step.i]);
  }

  lemma WorkersStep(env: Env, s: State, step: Step)
    requires WorkersOk(env, s) && Enabled(env, s, step)
    ensures WorkersOk(env, Next(env, s, step))
  {
    if !step.Scan? {
      var i := step.i;
      assert WorkerOk(env, env.Lines()[i], s.workers[i]);
      if step.Process? {
        var w := Respond(env, env.Lines()[i], step.toolValue);
        assert WorkerOk(env, env.Lines()[i], w);
      }
    }
  }

  lemma {:induction false} StdioSafe(env: Env, states: seq<State>, steps: seq<Step>, k: nat)
    requires IsRun(env, states, steps) && k < |states|
    ensures OutputOk(states[k]) && WorkersOk(env, states[k])
  {
    if k == 0 {
      assert WrittenLines([], []) == [];
    } else {
      StdioSafe(env, states, steps, k - 1);
      assert Follows(env, states, steps, k - 1);
      OutputStep(env, states[k - 1], steps[k - 1]);
      WorkersStep(env, states[k - 1], steps[k - 1]);
    }
  }

  /** Every input line has been scanned and every goroutine has returned: the wait group is at zero. */
  predicate Settled(env: Env, s: State) {
    && |s.workers| == |env.Lines()|
    && forall i :: 0 <= i < |s.workers| ==> s.workers[i].Silent? || s.workers[i].Answered?
  }

  /** A line that decodes to a request with an id other than null, of whatever JSON type. */
  ghost predicate HasId(env: Env, line: seq<Byte>) {
    var r := env.parse(line);
    r.Some? && r.value.id.Some? && r.value.id.value != Null
  }

  /**
   A line is answered with the response to its own request and that request's id, unless it has no id or no response
   could be encoded.
   */
  ghost predicate AnswersLine(env: Env, line: seq<Byte>, w: Worker) {
    match w
    case Answered(resp, out) =>
      && HasId(env, line) && env.marshal(resp) == Some(out) && resp.id == env.parse(line).value.id.value
      && exists v :: resp == ProcessRequest(env.parse(line).value, env.version, env.listing, v)
    case Silent =>
      !HasId(env, line)
      || exists v :: env.marshal(ProcessRequest(env.parse(line).value, env.version, env.listing, v)) == None
    case _ => false
  }

  lemma WorkerAnswers(env: Env, line: seq<Byte>, w: Worker)
    requires WorkerOk(env, line, w) && (w.Silent? || w.Answered?)
    ensures AnswersLine(env, line, w)
  {
    if w.Silent? && Wanted(env, line) {
      var v :| Respond(env, line, v) == Silent;
      assert env.marshal(ProcessRequest(env.parse(line).value, env.version, env.listing, v)) == None;
    } else if w.Answered? {
      var v :| Respond(env, line, v) == Ready(w.resp, w.out);
      assert w.resp == ProcessRequest(env.parse(line).value, env.version, env.listing, v);
    }
  }

  /**
   For every interleaving, when all goroutines are done stdout is a sequence of whole lines, one for each answered
   input line and in some order of completion; answered are exactly the lines that parse with a non-null id and
   whose response encodes, each echoing its id, and the other lines produce nothing.
   */
  lemma ExactlyOnce(env: Env, states: seq<State>, steps: seq<Step>, k: nat)
    requires env.Sound() && IsRun(env, states, steps) && k < |states| && Settled(env, states[k])
    ensures WrittenOk(states[k])
    ensures var s := states[k];
            var lines := WrittenLines(s.workers, s.written);
            && s.stdout == Flatten(lines) && AllWhole(lines)
            && (forall i, j :: 0 <= i < j < |s.written| ==> s.written[i] != s.written[j])
            && (forall i :: 0 <= i < |env.Lines()| ==> AnswersLine(env, env.Lines()[i], s.workers[i]))
            && (forall i :: 0 <= i < |env.Lines()| ==> (i in s.written <==> s.workers[i].Answered?))
  {
    StdioSafe(env, states, steps, k);
    var s := states[k];
    assert s.holder == None;
    var lines := WrittenLines(s.workers, s.written);
    assert Flatten(lines) + [] == Flatten(lines);
    forall i | 0 <= i < |env.Lines()|
      ensures AnswersLine(env, env.Lines()[i], s.workers[i])
    {
      assert WorkerOk(env, env.Lines()[i], s.workers[i]);
      WorkerAnswers(env, env.Lines()[i], s.workers[i]);
    }
    forall j | 0 <= j < |lines|
      ensures WholeLine(lines[j])
    {
      var i := s.written[j];
      assert AnswersLine(env, env.Lines()[i], s.workers[i]);
    }
  }

  /** When every response encodes, exactly the requests with an id other than null get one. */
  lemma AllWantedAnswered(env: Env, states: seq<State>, steps: seq<Step>, k: nat, i: nat)
    requires env.Sound() && IsRun(env, states, steps) && k < |states| && Settled(env, states[k])
    requires (forall r :: env.marshal(r).Some?) && i < |env.Lines()|
    ensures i in states[k].written <==>
              var r := env.parse(env.Lines()[i]);
              r.Some? && r.value.id.Some? && r.value.id.value != Null
  {
    ExactlyOnce(env, states, steps, k);
    assert AnswersLine(env, env.Lines()[i], states[k].workers[i]);
  }

  /** Of whole input lines the server reads those before the first that is longer than 1 MiB, and no other. */
  lemma ReadsUntilLongLine(env: Env, lines: seq<Line>, n: nat)
    requires AllWhole(lines) && env.stdin == Flatten(lines) && n <= |lines|
    requires forall i :: 0 <= i < n ==> |lines[i]| <= 1024 * 1024
    requires n < |lines| ==> |lines[n]| > 1024 * 1024
    ensures env.Lines() == Texts(lines[..n])
  {
    ScanWholeLines(lines, MAX_LINE);
    var m := FittingPrefix(lines, MAX_LINE);
    assert m < |lines| ==> |lines[m]| > 1024 * 1024;
    assert m == n;
  }
}
