/** The read loop of runStdioServer in cmd/jig-mcp/main.go, with the goroutines it spawns running in between. */
module StdioServer {
  import opened Seqs
  import opened AuditStore
  import opened Bufio
  import opened Stdio

  class Server {
    const env: Env
    /** The goroutines spawned so far, the output mutex and stdout. */
    var s: State
    /** The line each goroutine was started with. */
    var handed: seq<seq<Byte>>
    ghost var states: seq<State>
    ghost var steps: seq<Step>

    ghost predicate Valid()
      reads this
    {
      && IsRun(env, states, steps) && states[|states| - 1] == s
      && |s.workers| <= |env.Lines()| && handed == env.Lines()[..|s.workers|]
    }

    constructor (env: Env)
      ensures Valid() && this.env == env && s == INITIAL
    {
      this.env, s, states, steps, handed := env, INITIAL, [INITIAL], [], [];
    }

    /** Starts a goroutine on the line just scanned. */
    method Spawn(line: seq<Byte>)
      requires Valid() && |s.workers| < |env.Lines()| && line == env.Lines()[|s.workers|]
      modifies this
      ensures Valid() && s == Next(env, old(s), Scan) && handed == old(handed) + [line]
    {
      Continue(env, states, steps, Scan, Next(env, s, Scan));
      s, handed := Next(env, s, Scan), handed + [line];
      states, steps := states + [s], steps + [Scan];
    }

    /** One step of a goroutine. */
    method Do(step: Step)
      requires Valid() && Enabled(env, s, step) && !step.Scan?
      modifies this
      ensures Valid() && s == Next(env, old(s), step) && handed == old(handed)
    {
      Continue(env, states, steps, step, Next(env, s, step));
      s := Next(env, s, step);
      states, steps := states + [s], steps + [step];
    }

    /** Goroutines run; only the read loop scans. */
    method RunWorkers(schedule: seq<Step>)
      requires Valid()
      modifies this
      ensures Valid() && handed == old(handed)
    {
      for n := 0 to |schedule|
        invariant Valid() && handed == old(handed)
      {
        if !schedule[n].Scan? && Enabled(env, s, schedule[n]) {
          Do(schedule[n]);
        }
      }
    }

    /** One goroutine is spawned for each line the scanner yields, and goroutine i is started on line i. */
    method RunStdioServer(schedule: nat -> seq<Step>)
      requires Valid() && s == INITIAL
      modifies this
      ensures Valid() && handed == env.Lines() && |s.workers| == |env.Lines()|
    {
      ghost var lines := env.Lines();
      var scanner := new Scanner(env.stdin, MAX_LINE);
      var n := 0;
      var ok, line := scanner.Scan();
      while ok
        invariant Valid() && scanner.Valid() && fresh(scanner)
        invariant n == |s.workers| <= |lines|
        invariant ToServe(ok, line, scanner.Remaining(), lines[n..])
        decreases |lines| - n, ok
      {
        NextLine(line, scanner.Remaining(), lines, n);
        Spawn(line);
        RunWorkers(schedule(n));
        n := n + 1;
        ok, line := scanner.Scan();
      }
    }

    /** The lines no goroutine has yet: the one just scanned and those the scanner still holds. */
    static predicate ToServe(ok: bool, line: seq<Byte>, rest: seq<seq<Byte>>, lines: seq<seq<Byte>>) {
      lines == if ok then [line] + rest else []
    }

    static lemma NextLine(line: seq<Byte>, rest: seq<seq<Byte>>, lines: seq<seq<Byte>>, n: nat)
      requires n <= |lines| && ToServe(true, line, rest, lines[n..])
      ensures n < |lines| && line == lines[n] && rest == lines[n + 1..]
    {
      assert lines[n..] == [lines[n]] + lines[n + 1..];
    }

    /** Once every spawned goroutine has returned, stdout is what `Stdio.ExactlyOnce` says. */
    lemma Served()
      requires Valid() && env.Sound() && Settled(env, s)
      ensures WrittenOk(s) && s.stdout == Flatten(WrittenLines(s.workers, s.written))
      ensures AllWhole(WrittenLines(s.workers, s.written))
      ensures forall i :: 0 <= i < |env.Lines()| ==> AnswersLine(env, env.Lines()[i], s.workers[i])
    {
      ExactlyOnce(env, states, steps, |states| - 1);
    }
  }
}
