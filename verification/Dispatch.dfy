/**
 Tool calls as interleaved steps: lookup, acquire or time out, run or panic, audit, metric, release.
 Each call is one goroutine of internal/server/request.go; the steps of different calls interleave freely.
 A process may die at any point and be restarted on the same log directory.
 */
module Dispatch {
  import opened Seqs
  import opened AuditStore
  import AuditRetention
  import opened Metrics
  import opened Restart

  /** The fixed surroundings: semaphore capacity, if there is a semaphore, registered tools and log settings. */
  datatype Env = Env(capacity: Option<nat>, tools: set<string>, cfg: Config, codec: Codec)

  datatype Outcome = InvalidParams | UnknownTool | Busy | Answered(entry: AuditLine) | PanicRecovered

  datatype Phase =
    | Received
    | Waiting                     // at the semaphore
    | Running                     // in the tool's handler
    | Ran(ms: int)                // handler returned
    | Audited(entry: AuditLine)   // audit.Record returned
    | Metered(entry: AuditLine)   // OnToolCall returned, deferred release pending
    | Unwinding                   // panicking, deferred release pending
    | Finished(outcome: Outcome)

  /** A call, whether its parameters decode, and how often it took a token, gave one back, and started its tool. */
  datatype Call = Call(tool: string, decoded: bool, phase: Phase, acquires: nat, releases: nat, runs: nat)

  /**
   `recorded` and `metered` list the audit and metric updates of this process in the order they happened,
   `seeded` what it read at its start, `all` every entry handed to the audit log by any process, and `start`
   how many audit operations preceded this process.
   */
  datatype State = State(calls: seq<Call>, tokens: nat, counters: Counters,
                         seeded: seq<AuditLine>, recorded: seq<AuditLine>, metered: seq<AuditLine>,
                         all: seq<Entry>, events: seq<Event>, start: nat)

  datatype Step =
    | Arrive(tool: string, decoded: bool)
    | RejectParams(i: nat)
    | LookupMiss(i: nat)
    | LookupHit(i: nat)
    | Acquire(i: nat)
    | TimeOut(i: nat)
    | Return(i: nat, ms: int)
    | Panic(i: nat)
    | Record(i: nat, timestamp: string, caller: string, arguments: string, success: bool, error: string, faults: Faults)
    | Meter(i: nat)
    | Release(i: nat)
    | CloseLog
    | Restart

  const INITIAL := State([], 0, map[], [], [], [], [], [], 0)

  predicate Enabled(env: Env, s: State, step: Step) {
    match step
    case Arrive(_, _) => true
    case RejectParams(i) => i < |s.calls| && s.calls[i].phase.Received? && !s.calls[i].decoded
    case LookupMiss(i) =>
      && i < |s.calls| && s.calls[i].phase.Received? && s.calls[i].decoded
      && s.calls[i].tool !in env.tools
    case LookupHit(i) =>
      && i < |s.calls| && s.calls[i].phase.Received? && s.calls[i].decoded
      && s.calls[i].tool in env.tools
    case Acquire(i) => i < |s.calls| && s.calls[i].phase.Waiting? && env.capacity.Some? && s.tokens < env.capacity.value
    case TimeOut(i) => i < |s.calls| && s.calls[i].phase.Waiting?
    case Return(i, _) => i < |s.calls| && s.calls[i].phase.Running?
    case Panic(i) => i < |s.calls| && (s.calls[i].phase.Running? || s.calls[i].phase.Ran?)
    case Record(i, _, _, _, _, _, _) => i < |s.calls| && s.calls[i].phase.Ran?
    case Meter(i) => i < |s.calls| && s.calls[i].phase.Audited?
    case Release(i) => i < |s.calls| && (s.calls[i].phase.Metered? || s.calls[i].phase.Unwinding?)
    case CloseLog => true
    case Restart => true
  }

  function Move(s: State, i: nat, phase: Phase): State
    requires i < |s.calls|
  {
    s.(calls := s.calls[i := s.calls[i].(phase := phase)])
  }

  function Start(c: Call): Call {
    c.(phase := Running, runs := c.runs + 1)
  }

  function Next(env: Env, s: State, step: Step): State
    requires env.cfg.maxFiles >= 1 && Enabled(env, s, step)
  {
    match step
    case Arrive(tool, decoded) => s.(calls := s.calls + [Call(tool, decoded, Received, 0, 0, 0)])
    case RejectParams(i) => Move(s, i, Finished(InvalidParams))
    case LookupMiss(i) => Move(s, i, Finished(UnknownTool))
    case LookupHit(i) =>
      if env.capacity == None then s.(calls := s.calls[i := Start(s.calls[i])]) else Move(s, i, Waiting)
    case Acquire(i) =>
      s.(calls := s.calls[i := Start(s.calls[i]).(acquires := s.calls[i].acquires + 1)], tokens := s.tokens + 1)
    case TimeOut(i) => Move(s, i, Finished(Busy))
    case Return(i, ms) => Move(s, i, Ran(ms))
    case Panic(i) => Move(s, i, Unwinding)
    case Record(i, timestamp, caller, arguments, success, error, faults) =>
      var e := AuditLine(timestamp, s.calls[i].tool, arguments, s.calls[i].phase.ms, success, error);
      Move(s, i, Audited(e)).(recorded := s.recorded + [e], all := s.all + [Entry(e, caller)],
                              events := s.events + [Write(env.codec.LineOf(Entry(e, caller)), faults)])
    case Meter(i) =>
      var e := s.calls[i].phase.entry;
      Move(s, i, Metered(e)).(counters := Bump(s.counters, e.tool, e.durationMs), metered := s.metered + [e])
    case Release(i) =>
      var c := s.calls[i];
      var c' := c.(phase := Finished(if c.phase.Metered? then Answered(c.phase.entry) else PanicRecovered));
      if env.capacity == None then s.(calls := s.calls[i := c'])
      else
        s.(calls := s.calls[i := c'.(releases := c.releases + 1)],
           tokens := if s.tokens == 0 then 0 else s.tokens - 1)
    case CloseLog => s.(events := s.events + [Close])
    case Restart =>
      var events := s.events + [Init(false)];
      var seeded := Seed(Run(events, env.cfg).slots, env.codec);
      State([], 0, Tally(map[], seeded), seeded, [], seeded, s.all, events, |events|)
  }

  /** The state after some steps, if each is enabled in turn. */
  function Execute(env: Env, s: State, steps: seq<Step>): Option<State>
    requires env.cfg.maxFiles >= 1
  {
    if steps == [] then Some(s)
    else match Execute(env, s, steps[..|steps| - 1])
      case None => None
      case Some(t) => if Enabled(env, t, steps[|steps| - 1]) then Some(Next(env, t, steps[|steps| - 1])) else None
  }

  lemma Then(env: Env, s: State, steps: seq<Step>, t: State, step: Step) returns (steps': seq<Step>, t': State)
    requires env.cfg.maxFiles >= 1 && Execute(env, s, steps) == Some(t) && Enabled(env, t, step)
    ensures steps' == steps + [step] && t' == Next(env, t, step) && Execute(env, s, steps') == Some(t')
  {
    steps', t' := steps + [step], Next(env, t, step);
    assert steps'[..|steps|] == steps;
  }

  lemma {:induction false} ExecuteAppend(env: Env, s: State, a: seq<Step>, t: State, b: seq<Step>)
    requires env.cfg.maxFiles >= 1 && Execute(env, s, a) == Some(t)
    ensures Execute(env, s, a + b) == Execute(env, t, b)
    decreases |b|
  {
    if b == [] {
      assert a + b == a;
    } else {
      assert (a + b)[..|a + b| - 1] == a + b[..|b| - 1];
      ExecuteAppend(env, s, a, t, b[..|b| - 1]);
    }
  }

  /** State k + 1 follows from state k by step k. */
  predicate Follows(env: Env, states: seq<State>, steps: seq<Step>, k: nat)
    requires env.cfg.maxFiles >= 1 && k < |steps| && |states| == |steps| + 1
  {
    Enabled(env, states[k], steps[k]) && states[k + 1] == Next(env, states[k], steps[k])
  }

  ghost predicate IsRun(env: Env, states: seq<State>, steps: seq<Step>)
    requires env.cfg.maxFiles >= 1
  {
    && |states| == |steps| + 1
    && states[0] == INITIAL
    && forall k :: 0 <= k < |steps| ==> Follows(env, states, steps, k)
  }

  /** Steps executed from the initial state make a run. */
  lemma {:induction false} ExecuteIsRun(env: Env, steps: seq<Step>, last: State) returns (states: seq<State>)
    requires env.cfg.maxFiles >= 1 && Execute(env, INITIAL, steps) == Some(last)
    ensures IsRun(env, states, steps) && states[|steps|] == last
  {
    if steps == [] {
      states := [last];
    } else {
      var init := steps[..|steps| - 1];
      var before := ExecuteIsRun(env, init, Execute(env, INITIAL, init).value);
      states := before + [last];
      forall k | 0 <= k < |steps|
        ensures Follows(env, states, steps, k)
      {
        if k < |init| {
          assert Follows(env, before, init, k);
        }
      }
    }
  }

  // ----- bookkeeping over the calls of a process

  function Collect(f: Call -> seq<AuditLine>, calls: seq<Call>): seq<AuditLine> {
    if calls == [] then [] else Collect(f, calls[..|calls| - 1]) + f(calls[|calls| - 1])
  }

  function Count(p: Call -> bool, calls: seq<Call>): nat {
    if calls == [] then 0 else Count(p, calls[..|calls| - 1]) + if p(calls[|calls| - 1]) then 1 else 0
  }

  /** The entry of a call that has been audited. */
  function AuditedBy(c: Call): seq<AuditLine> {
    match c.phase
    case Audited(e) => [e]
    case _ => MeteredBy(c)
  }

  /** The entry of a call that has been counted. */
  function MeteredBy(c: Call): seq<AuditLine> {
    match c.phase
    case Metered(e) => [e]
    case Finished(Answered(e)) => [e]
    case _ => []
  }

  /** The entry of a call between its audit line and its metric update. */
  function BetweenBy(c: Call): seq<AuditLine> {
    match c.phase
    case Audited(e) => [e]
    case _ => []
  }

  /** Past the acquire and not yet released. */
  predicate Holds(c: Call) {
    c.acquires > c.releases
  }

  lemma BagAppend<T>(a: seq<T>, b: seq<T>)
    ensures multiset(a + b) == multiset(a) + multiset(b)
  {
  }

  lemma CollectSnoc(f: Call -> seq<AuditLine>, calls: seq<Call>, c: Call)
    ensures Collect(f, calls + [c]) == Collect(f, calls) + f(c)
    ensures multiset(Collect(f, calls + [c])) == multiset(Collect(f, calls)) + multiset(f(c))
  {
    assert (calls + [c])[..|calls|] == calls;
    BagAppend(Collect(f, calls), f(c));
  }

  lemma CountSnoc(p: Call -> bool, calls: seq<Call>, c: Call)
    ensures Count(p, calls + [c]) == Count(p, calls) + if p(c) then 1 else 0
  {
    assert (calls + [c])[..|calls|] == calls;
  }

  lemma AddToBoth<T>(a: multiset<T>, x: multiset<T>, b: multiset<T>, y: multiset<T>, l: multiset<T>)
    requires a + x == b + y
    ensures (a + l) + x == (b + l) + y
  {
    assert (a + l) + x == (a + x) + l;
    assert (b + l) + y == (b + y) + l;
  }

  lemma {:induction false} CollectUpdate(f: Call -> seq<AuditLine>, calls: seq<Call>, i: nat, c: Call)
    requires i < |calls|
    ensures multiset(Collect(f, calls[i := c])) + multiset(f(calls[i]))
            == multiset(Collect(f, calls)) + multiset(f(c))
  {
    var p, last := calls[..|calls| - 1], calls[|calls| - 1];
    assert calls == p + [last];
    CollectSnoc(f, p, last);
    if i < |p| {
      assert calls[i := c] == p[i := c] + [last];
      CollectUpdate(f, p, i, c);
      CollectSnoc(f, p[i := c], last);
      AddToBoth(multiset(Collect(f, p[i := c])), multiset(f(p[i])),
                multiset(Collect(f, p)), multiset(f(c)), multiset(f(last)));
    } else {
      assert calls[i := c] == p + [c];
      CollectSnoc(f, p, c);
    }
  }

  lemma {:induction false} CountUpdate(p: Call -> bool, calls: seq<Call>, i: nat, c: Call)
    requires i < |calls|
    ensures Count(p, calls[i := c]) + (if p(calls[i]) then 1 else 0) == Count(p, calls) + if p(c) then 1 else 0
  {
    var q, last := calls[..|calls| - 1], calls[|calls| - 1];
    assert calls == q + [last];
    CountSnoc(p, q, last);
    if i < |q| {
      assert calls[i := c] == q[i := c] + [last];
      CountUpdate(p, q, i, c);
      CountSnoc(p, q[i := c], last);
    } else {
      assert calls[i := c] == q + [c];
      CountSnoc(p, q, c);
    }
  }

  // ----- the semaphore

  predicate Untouched(c: Call) {
    c.acquires == 0 && c.releases == 0 && c.runs == 0
  }

  /**
   What a call has done, by phase. A token is held exactly from the acquire to the deferred release, the tool
   is started once and only if it is registered, and an entry names the call's own tool.
   */
  predicate CallOk(env: Env, c: Call) {
    var slot := if env.capacity.Some? then 1 else 0;
    var known := c.decoded && c.tool in env.tools;
    match c.phase
    case Received => Untouched(c)
    case Waiting => Untouched(c) && known && slot == 1
    case Finished(InvalidParams) => Untouched(c) && !c.decoded
    case Finished(UnknownTool) => Untouched(c) && c.decoded && c.tool !in env.tools
    case Finished(Busy) => Untouched(c) && known && slot == 1
    case Finished(Answered(e)) => known && c.acquires == slot && c.releases == slot && c.runs == 1 && e.tool == c.tool
    case Finished(PanicRecovered) => known && c.acquires == slot && c.releases == slot && c.runs == 1
    case Audited(e) => known && c.acquires == slot && c.releases == 0 && c.runs == 1 && e.tool == c.tool
    case Metered(e) => known && c.acquires == slot && c.releases == 0 && c.runs == 1 && e.tool == c.tool
    case _ => known && c.acquires == slot && c.releases == 0 && c.runs == 1
  }

  ghost predicate CallsOk(env: Env, calls: seq<Call>) {
    forall i :: 0 <= i < |calls| ==> CallOk(env, calls[i])
  }

  predicate TokensOk(env: Env, calls: seq<Call>, tokens: nat) {
    && tokens == Count(Holds, calls)
    && tokens <= if env.capacity.Some? then env.capacity.value else 0
  }

  ghost predicate SemaphoreInv(env: Env, s: State) {
    CallsOk(env, s.calls) && TokensOk(env, s.calls, s.tokens)
  }

  lemma {:induction false} HoldersCounted(p: Call -> bool, calls: seq<Call>, i: nat)
    requires i < |calls| && p(calls[i])
    ensures Count(p, calls) >= 1
  {
    if i < |calls| - 1 {
      HoldersCounted(p, calls[..|calls| - 1], i);
    }
  }

  /** The steps of one call. */
  predicate OfCall(step: Step) {
    !step.Arrive? && !step.CloseLog? && !step.Restart?
  }

  function HoldCount(c: Call): nat {
    if Holds(c) then 1 else 0
  }

  lemma CallStepTokens(env: Env, s: State, step: Step)
    requires env.cfg.maxFiles >= 1 && Enabled(env, s, step) && OfCall(step)
    requires CallOk(env, s.calls[step.i]) && HoldCount(s.calls[step.i]) <= s.tokens
    ensures var s' := Next(env, s, step);
            && s'.calls == s.calls[step.i := s'.calls[step.i]]
            && CallOk(env, s'.calls[step.i])
            && s'.tokens + HoldCount(s.calls[step.i]) == s.tokens + HoldCount(s'.calls[step.i])
            && (s'.tokens > s.tokens ==> env.capacity.Some? && s'.tokens <= env.capacity.value)
  {
  }

  /** One call moves on while the tokens follow whether it holds one. */
  lemma ReplaceCall(env: Env, calls: seq<Call>, tokens: nat, i: nat, c: Call, tokens': nat)
    requires i < |calls| && CallsOk(env, calls) && TokensOk(env, calls, tokens) && CallOk(env, c)
    requires tokens' + HoldCount(calls[i]) == tokens + HoldCount(c)
    requires tokens' > tokens ==> env.capacity.Some? && tokens' <= env.capacity.value
    ensures CallsOk(env, calls[i := c]) && TokensOk(env, calls[i := c], tokens')
  {
    CountUpdate(Holds, calls, i, c);
  }

  lemma SemaphoreCallStep(env: Env, s: State, step: Step)
    requires env.cfg.maxFiles >= 1 && SemaphoreInv(env, s) && Enabled(env, s, step) && OfCall(step)
    ensures SemaphoreInv(env, Next(env, s, step))
  {
    var i := step.i;
    assert CallOk(env, s.calls[i]);
    if Holds(s.calls[i]) {
      HoldersCounted(Holds, s.calls, i);
    }
    CallStepTokens(env, s, step);
    var s' := Next(env, s, step);
    ReplaceCall(env, s.calls, s.tokens, i, s'.calls[i], s'.tokens);
  }

  lemma SemaphoreStep(env: Env, s: State, step: Step)
    requires env.cfg.maxFiles >= 1 && SemaphoreInv(env, s) && Enabled(env, s, step)
    ensures SemaphoreInv(env, Next(env, s, step))
  {
    if OfCall(step) {
      SemaphoreCallStep(env, s, step);
    } else if step.Arrive? {
      CountSnoc(Holds, s.calls, Call(step.tool, step.decoded, Received, 0, 0, 0));
    } else if step.Restart? {
      assert Next(env, s, step).calls == [] && Next(env, s, step).tokens == 0;
    }
  }

  lemma {:induction false} NoHolders(calls: seq<Call>)
    requires forall i :: 0 <= i < |calls| ==> !Holds(calls[i])
    ensures Count(Holds, calls) == 0
  {
    if calls != [] {
      NoHolders(calls[..|calls| - 1]);
    }
  }

  /**
   In every reachable state the tokens held are the calls past the acquire and not yet released, never more
   than the capacity; every call's exit has released exactly what it acquired, a rejected or timed-out call
   holds nothing and never started its tool, and when all calls have finished no token is held.
   */
  lemma {:induction false} SemaphoreSafe(env: Env, states: seq<State>, steps: seq<Step>, k: nat)
    requires env.cfg.maxFiles >= 1 && IsRun(env, states, steps) && k < |states|
    ensures SemaphoreInv(env, states[k])
    ensures (forall i :: 0 <= i < |states[k].calls| ==> states[k].calls[i].phase.Finished?) ==> states[k].tokens == 0
  {
    if k > 0 {
      SemaphoreSafe(env, states, steps, k - 1);
      assert Follows(env, states, steps, k - 1);
      SemaphoreStep(env, states[k - 1], steps[k - 1]);
    }
    if forall i :: 0 <= i < |states[k].calls| ==> states[k].calls[i].phase.Finished? {
      NoHolders(states[k].calls);
    }
  }

  // ----- metrics against the audit log

  /**
   What this process has audited is exactly the entries of its calls past the audit line; what it has
   counted is what it read at its start plus the entries of its calls past the metric update.
   */
  ghost predicate LedgerInv(env: Env, s: State)
    requires env.cfg.maxFiles >= 1
  {
    && multiset(s.recorded) == multiset(Collect(AuditedBy, s.calls))
    && multiset(s.metered) == multiset(s.seeded) + multiset(Collect(MeteredBy, s.calls))
    && s.counters == Tally(map[], s.metered)
  }

  /** The whole history, what this process found on disk at its start, and what it added. */
  ghost predicate HistoryInv(env: Env, s: State)
    requires env.cfg.maxFiles >= 1
  {
    && History(s.events) == env.codec.Lines(s.all)
    && IsSuffix(s.recorded, Visible(s.all))
    && s.start <= |s.events|
    && History(s.events[..s.start]) == env.codec.Lines(Before(s))
    && s.seeded == Seed(Run(s.events[..s.start], env.cfg).slots, env.codec)
  }

  /** The entries recorded by earlier processes. */
  function Before(s: State): seq<Entry> {
    if |s.recorded| <= |s.all| then s.all[..|s.all| - |s.recorded|] else []
  }

  /** Entries of calls caught between their audit line and their metric update. */
  function InFlight(s: State): seq<AuditLine> {
    Collect(BetweenBy, s.calls)
  }

  lemma Cancel<T>(after: multiset<T>, gone: multiset<T>, before: multiset<T>, add: multiset<T>)
    requires after + gone == before + (gone + add)
    ensures after == before + add
  {
    assert before + (gone + add) == (before + add) + gone;
    assert after == (after + gone) - gone;
    assert before + add == ((before + add) + gone) - gone;
  }

  lemma CollectAdds(f: Call -> seq<AuditLine>, calls: seq<Call>, i: nat, c: Call, add: seq<AuditLine>)
    requires i < |calls| && f(c) == f(calls[i]) + add
    ensures multiset(Collect(f, calls[i := c])) == multiset(Collect(f, calls)) + multiset(add)
  {
    CollectUpdate(f, calls, i, c);
    BagAppend(f(calls[i]), add);
    Cancel(multiset(Collect(f, calls[i := c])), multiset(f(calls[i])), multiset(Collect(f, calls)), multiset(add));
  }

  lemma CollectSame(f: Call -> seq<AuditLine>, calls: seq<Call>, i: nat, c: Call)
    requires i < |calls| && f(c) == f(calls[i])
    ensures multiset(Collect(f, calls[i := c])) == multiset(Collect(f, calls))
  {
    assert f(c) == f(calls[i]) + [];
    CollectAdds(f, calls, i, c, []);
    assert multiset(Collect(f, calls)) + multiset([]) == multiset(Collect(f, calls));
  }

  lemma LedgerRecord(env: Env, s: State, step: Step)
    requires env.cfg.maxFiles >= 1 && LedgerInv(env, s) && Enabled(env, s, step) && step.Record?
    ensures LedgerInv(env, Next(env, s, step))
  {
    var s' := Next(env, s, step);
    var c := s'.calls[step.i];
    CollectAdds(AuditedBy, s.calls, step.i, c, [c.phase.entry]);
    CollectSame(MeteredBy, s.calls, step.i, c);
    BagAppend(s.recorded, [c.phase.entry]);
  }

  lemma AddRight<T>(m: multiset<T>, a: multiset<T>, b: multiset<T>, x: multiset<T>)
    requires m == a + b
    ensures m + x == a + (b + x)
  {
  }

  lemma CountedOneMore(calls: seq<Call>, i: nat, c: Call, e: AuditLine, seeded: seq<AuditLine>, metered: seq<AuditLine>)
    requires i < |calls| && MeteredBy(c) == [e] && MeteredBy(calls[i]) == []
    requires multiset(metered) == multiset(seeded) + multiset(Collect(MeteredBy, calls))
    ensures multiset(metered + [e]) == multiset(seeded) + multiset(Collect(MeteredBy, calls[i := c]))
    ensures Tally(map[], metered + [e]) == Bump(Tally(map[], metered), e.tool, e.durationMs)
  {
    CollectAdds(MeteredBy, calls, i, c, [e]);
    BagAppend(metered, [e]);
    AddRight(multiset(metered), multiset(seeded), multiset(Collect(MeteredBy, calls)), multiset([e]));
    assert (metered + [e])[..|metered|] == metered;
  }

  lemma LedgerMeter(env: Env, s: State, step: Step)
    requires env.cfg.maxFiles >= 1 && LedgerInv(env, s) && Enabled(env, s, step) && step.Meter?
    ensures LedgerInv(env, Next(env, s, step))
  {
    var c := Next(env, s, step).calls[step.i];
    CollectSame(AuditedBy, s.calls, step.i, c);
    CountedOneMore(s.calls, step.i, c, c.phase.entry, s.seeded, s.metered);
  }

  /** The other steps of a call touch neither its audited nor its counted entry. */
  lemma QuietStep(env: Env, s: State, step: Step)
    requires env.cfg.maxFiles >= 1 && Enabled(env, s, step) && OfCall(step) && !step.Record? && !step.Meter?
    ensures var s' := Next(env, s, step);
            && s'.calls == s.calls[step.i := s'.calls[step.i]]
            && AuditedBy(s'.calls[step.i]) == AuditedBy(s.calls[step.i])
            && MeteredBy(s'.calls[step.i]) == MeteredBy(s.calls[step.i])
            && s' == s.(calls := s'.calls, tokens := s'.tokens)
  {
  }

  lemma LedgerQuiet(env: Env, s: State, step: Step)
    requires env.cfg.maxFiles >= 1 && LedgerInv(env, s)
    requires Enabled(env, s, step) && OfCall(step) && !step.Record? && !step.Meter?
    ensures LedgerInv(env, Next(env, s, step))
  {
    QuietStep(env, s, step);
    var c := Next(env, s, step).calls[step.i];
    CollectSame(AuditedBy, s.calls, step.i, c);
    CollectSame(MeteredBy, s.calls, step.i, c);
  }

  lemma LedgerArrive(env: Env, s: State, step: Step)
    requires env.cfg.maxFiles >= 1 && LedgerInv(env, s) && step.Arrive?
    ensures LedgerInv(env, Next(env, s, step))
  {
    var c := Call(step.tool, step.decoded, Received, 0, 0, 0);
    CollectSnoc(AuditedBy, s.calls, c);
    CollectSnoc(MeteredBy, s.calls, c);
    assert Collect(AuditedBy, s.calls) + [] == Collect(AuditedBy, s.calls);
    assert Collect(MeteredBy, s.calls) + [] == Collect(MeteredBy, s.calls);
  }

  lemma LedgerStep(env: Env, s: State, step: Step)
    requires env.cfg.maxFiles >= 1 && LedgerInv(env, s) && Enabled(env, s, step)
    ensures LedgerInv(env, Next(env, s, step))
  {
    if step.Record? {
      LedgerRecord(env, s, step);
    } else if step.Meter? {
      LedgerMeter(env, s, step);
    } else if OfCall(step) {
      LedgerQuiet(env, s, step);
    } else if step.Arrive? {
      LedgerArrive(env, s, step);
    }
  }

  lemma SnocKeepsSuffix(recorded: seq<AuditLine>, all: seq<Entry>, e: Entry)
    requires IsSuffix(recorded, Visible(all))
    ensures IsSuffix(recorded + [e.line], Visible(all + [e]))
  {
    assert Visible(all + [e]) == Visible(all) + [e.line];
  }

  lemma HistoryRecord(env: Env, s: State, step: Step)
    requires env.cfg.maxFiles >= 1 && HistoryInv(env, s) && Enabled(env, s, step) && step.Record?
    ensures HistoryInv(env, Next(env, s, step))
  {
    var s' := Next(env, s, step);
    var e := s'.all[|s.all|];
    assert s'.events[..s.start] == s.events[..s.start];
    assert s'.events[..|s.events|] == s.events;
    assert Before(s') == Before(s);
    assert env.codec.Lines(s.all + [e]) == env.codec.Lines(s.all) + [env.codec.LineOf(e)];
    SnocKeepsSuffix(s.recorded, s.all, e);
  }

  lemma HistoryRestart(env: Env, s: State)
    requires env.cfg.maxFiles >= 1 && HistoryInv(env, s)
    ensures HistoryInv(env, Next(env, s, Restart))
  {
    var s' := Next(env, s, Restart);
    assert s'.events[..|s.events|] == s.events;
    assert s'.events[..s'.start] == s'.events;
    assert Before(s') == s'.all;
  }

  lemma HistoryClose(env: Env, s: State)
    requires env.cfg.maxFiles >= 1 && HistoryInv(env, s)
    ensures HistoryInv(env, Next(env, s, CloseLog))
  {
    var s' := Next(env, s, CloseLog);
    assert s'.events[..s.start] == s.events[..s.start];
    assert s'.events[..|s.events|] == s.events;
  }

  /** Nothing of what the history invariant looks at has changed. */
  predicate SameLog(s: State, s': State) {
    && s'.seeded == s.seeded && s'.recorded == s.recorded && s'.all == s.all
    && s'.events == s.events && s'.start == s.start
  }

  lemma LogUntouched(env: Env, s: State, step: Step)
    requires env.cfg.maxFiles >= 1 && Enabled(env, s, step) && !step.Record? && !step.CloseLog? && !step.Restart?
    ensures SameLog(s, Next(env, s, step))
  {
  }

  lemma SameLogSameHistory(env: Env, s: State, s': State)
    requires env.cfg.maxFiles >= 1 && HistoryInv(env, s) && SameLog(s, s')
    ensures HistoryInv(env, s')
  {
  }

  lemma HistoryQuiet(env: Env, s: State, step: Step)
    requires env.cfg.maxFiles >= 1 && HistoryInv(env, s)
    requires Enabled(env, s, step) && !step.Record? && !step.CloseLog? && !step.Restart?
    ensures HistoryInv(env, Next(env, s, step))
  {
    var s' := Next(env, s, step);
    assert SameLog(s, s') by {
      LogUntouched(env, s, step);
    }
    SameLogSameHistory(env, s, s');
  }

  lemma HistoryStep(env: Env, s: State, step: Step)
    requires env.cfg.maxFiles >= 1 && HistoryInv(env, s) && Enabled(env, s, step)
    ensures HistoryInv(env, Next(env, s, step))
  {
    if step.Record? {
      HistoryRecord(env, s, step);
    } else if step.Restart? {
      HistoryRestart(env, s);
    } else if step.CloseLog? {
      HistoryClose(env, s);
    } else {
      HistoryQuiet(env, s, step);
    }
  }

  lemma InitialInv(env: Env)
    requires env.cfg.maxFiles >= 1
    ensures LedgerInv(env, INITIAL) && HistoryInv(env, INITIAL)
  {
    assert Seed(map[], env.codec) == [] by {
      assert ReadLines([], env.codec.parse) == [];
    }
    assert Run([], env.cfg).slots == map[];
    assert Visible([]) == [] && env.codec.Lines([]) == [];
  }

  lemma LedgerAlong(env: Env, states: seq<State>, steps: seq<Step>, k: nat)
    requires env.cfg.maxFiles >= 1 && IsRun(env, states, steps) && 0 < k < |states| && LedgerInv(env, states[k - 1])
    ensures LedgerInv(env, states[k])
  {
    assert Follows(env, states, steps, k - 1);
    LedgerStep(env, states[k - 1], steps[k - 1]);
  }

  lemma HistoryAlong(env: Env, states: seq<State>, steps: seq<Step>, k: nat)
    requires env.cfg.maxFiles >= 1 && IsRun(env, states, steps) && 0 < k < |states| && HistoryInv(env, states[k - 1])
    ensures HistoryInv(env, states[k])
  {
    assert Follows(env, states, steps, k - 1);
    HistoryStep(env, states[k - 1], steps[k - 1]);
  }

  lemma {:induction false} RunLedger(env: Env, states: seq<State>, steps: seq<Step>, k: nat)
    requires env.cfg.maxFiles >= 1 && IsRun(env, states, steps) && k < |states|
    ensures LedgerInv(env, states[k])
  {
    if k == 0 {
      InitialInv(env);
    } else {
      RunLedger(env, states, steps, k - 1);
      LedgerAlong(env, states, steps, k);
    }
  }

  lemma {:induction false} RunHistory(env: Env, states: seq<State>, steps: seq<Step>, k: nat)
    requires env.cfg.maxFiles >= 1 && IsRun(env, states, steps) && k < |states|
    ensures HistoryInv(env, states[k])
  {
    if k == 0 {
      InitialInv(env);
    } else {
      RunHistory(env, states, steps, k - 1);
      HistoryAlong(env, states, steps, k);
    }
  }

  lemma {:induction false} SplitAudited(calls: seq<Call>)
    ensures multiset(Collect(AuditedBy, calls))
            == multiset(Collect(MeteredBy, calls)) + multiset(Collect(BetweenBy, calls))
  {
    if calls != [] {
      var p, last := calls[..|calls| - 1], calls[|calls| - 1];
      assert calls == p + [last];
      SplitAudited(p);
      CollectSnoc(AuditedBy, p, last);
      CollectSnoc(MeteredBy, p, last);
      CollectSnoc(BetweenBy, p, last);
    }
  }

  /**
   In every reachable state, for every tool, the audit lines read at the start or written since number the
   metric count plus the calls caught between their audit line and their metric update; likewise for the
   summed milliseconds.
   */
  lemma MetricsAgree(env: Env, states: seq<State>, steps: seq<Step>, k: nat, tool: string)
    requires env.cfg.maxFiles >= 1 && IsRun(env, states, steps) && k < |states|
    ensures var s := states[k];
            var m := if tool in s.counters then s.counters[tool] else ToolMetrics(0, 0);
            && CountOf(s.seeded + s.recorded, tool) == m.count + CountOf(InFlight(s), tool)
            && MsOf(s.seeded + s.recorded, tool) == m.totalMs + MsOf(InFlight(s), tool)
  {
    var s := states[k];
    RunLedger(env, states, steps, k);
    SplitAudited(s.calls);
    BagAppend(s.seeded, s.recorded);
    BagAppend(s.metered, InFlight(s));
    SameBagSameCounts(s.seeded + s.recorded, s.metered + InFlight(s), tool);
    CountOfAppend(s.metered, InFlight(s), tool);
    TallyCounts(s.metered);
    if CountOf(s.metered, tool) == 0 {
      NoCallsNoMs(s.metered, tool);
    }
  }

  lemma {:induction false} NoneInFlight(calls: seq<Call>)
    requires forall i :: 0 <= i < |calls| ==> !calls[i].phase.Audited?
    ensures Collect(BetweenBy, calls) == []
  {
    if calls != [] {
      NoneInFlight(calls[..|calls| - 1]);
    }
  }

  ghost predicate Quiet(s: State) {
    forall i :: 0 <= i < |s.calls| ==> !s.calls[i].phase.Audited?
  }

  /** With no call in between, the counters are those of the lines read at the start and written since. */
  lemma QuietMetrics(env: Env, states: seq<State>, steps: seq<Step>, k: nat)
    requires env.cfg.maxFiles >= 1 && IsRun(env, states, steps) && k < |states| && Quiet(states[k])
    ensures states[k].counters == Tally(map[], states[k].seeded + states[k].recorded)
  {
    var s := states[k];
    RunLedger(env, states, steps, k);
    SplitAudited(s.calls);
    NoneInFlight(s.calls);
    BagAppend(s.seeded, s.recorded);
    SameBagSameTally(s.metered, s.seeded + s.recorded);
  }

  lemma FaultFreePrefix(events: seq<Event>, k: nat)
    requires FaultFree(events) && k <= |events|
    ensures FaultFree(events[..k])
  {
  }

  lemma SamePrefixTally(a: seq<AuditLine>, b: seq<AuditLine>, more: seq<AuditLine>)
    ensures Tally(map[], a + more) == Tally(map[], b + more) <==> Tally(map[], a) == Tally(map[], b)
  {
    if Tally(map[], a) == Tally(map[], b) {
      TallyAppend(map[], a, more);
      TallyAppend(map[], b, more);
    }
    if Tally(map[], a + more) == Tally(map[], b + more) {
      var ma, mb := Tally(map[], a), Tally(map[], b);
      TallyCounts(a);
      TallyCounts(b);
      forall t
        ensures (t in ma <==> t in mb) && (t in ma ==> ma[t] == mb[t])
      {
        TallyDetermines(a + more, b + more, t);
        CountOfAppend(a, more, t);
        CountOfAppend(b, more, t);
      }
      assert ma == mb;
    }
  }

  /**
   Across any number of restarts without log failures, the counters at a quiet moment are those of every call
   ever recorded if and only if, when the present process started, no rotated file held a line and no line of
   the current file overflowed the scanner's buffer.
   */
  lemma MetricsSurviveRestartsIff(env: Env, states: seq<State>, steps: seq<Step>, k: nat)
    requires env.cfg.maxFiles >= 1 && IsRun(env, states, steps) && k < |states|
    requires Quiet(states[k]) && FaultFree(states[k].events) && env.codec.Sound()
    ensures states[k].start <= |states[k].events|
    ensures states[k].counters == Tally(map[], Visible(states[k].all))
            <==> AllReadable(Run(states[k].events[..states[k].start], env.cfg).slots)
  {
    RunHistory(env, states, steps, k);
    QuietMetrics(env, states, steps, k);
    CountersIff(env, states[k]);
  }

  /** The same in terms of what earlier processes wrote: short lines, which but for the last stay below the limit. */
  lemma MetricsSurviveWhileShort(env: Env, states: seq<State>, steps: seq<Step>, k: nat)
    requires env.cfg.maxFiles >= 1 && IsRun(env, states, steps) && k < |states|
    requires Quiet(states[k]) && FaultFree(states[k].events) && env.codec.Sound()
    ensures states[k].counters == Tally(map[], Visible(states[k].all))
            <==> StaysReadable(env.codec.Lines(Before(states[k])), env.cfg.limit)
  {
    RunHistory(env, states, steps, k);
    MetricsSurviveRestartsIff(env, states, steps, k);
    FaultFreePrefix(states[k].events, states[k].start);
    ReadableIff(states[k].events[..states[k].start], env.cfg);
  }

  lemma CountersIff(env: Env, s: State)
    requires env.cfg.maxFiles >= 1 && HistoryInv(env, s) && FaultFree(s.events) && env.codec.Sound()
    requires s.counters == Tally(map[], s.seeded + s.recorded)
    ensures s.counters == Tally(map[], Visible(s.all)) <==> AllReadable(Run(s.events[..s.start], env.cfg).slots)
  {
    SeededIff(env, s);
    assert Visible(s.all) == Visible(Before(s)) + s.recorded;
    SamePrefixTally(s.seeded, Visible(Before(s)), s.recorded);
  }

  lemma SeededIff(env: Env, s: State)
    requires env.cfg.maxFiles >= 1 && HistoryInv(env, s) && FaultFree(s.events) && env.codec.Sound()
    ensures Tally(map[], s.seeded) == Tally(map[], Visible(Before(s)))
            <==> AllReadable(Run(s.events[..s.start], env.cfg).slots)
  {
    FaultFreePrefix(s.events, s.start);
    SeedReproducesIff(s.events[..s.start], env.cfg, env.codec, Before(s));
  }

  /** Whatever calls and restarts happen, without log failures the files read as the last lines recorded. */
  lemma FilesHoldLastRecorded(env: Env, states: seq<State>, steps: seq<Step>, k: nat)
    requires env.cfg.maxFiles >= 1 && IsRun(env, states, steps) && k < |states| && FaultFree(states[k].events)
    ensures IsSuffix(Contents(Run(states[k].events, env.cfg).slots, env.cfg.maxFiles), env.codec.Lines(states[k].all))
  {
    RunHistory(env, states, steps, k);
    AuditRetention.Retention(states[k].events, env.cfg);
  }
}
