/**
 One tool call from start to finish, as internal/server/request.go and audit.Record run it: deferred release and
 recover, audit line before metric. Dispatch gives the interleavings of many such calls.
 */
module Server {
  import opened Seqs
  import opened Json
  import opened AuditStore
  import opened Metrics
  import opened ToolLoading
  import AuditWriter
  import D = Dispatch

  // ----- the audit entry

  const REDACTED := Str("[REDACTED]")

  predicate IsTrue(v: Json, field: string) {
    v.Obj? && field in v.fields && v.fields[field] == Bool(true)
  }

  /** Whether the tool's schema marks an argument as sensitive. */
  predicate Sensitive(schema: Json, arg: string) {
    && schema.Obj? && "properties" in schema.fields && schema.fields["properties"].Obj?
    && arg in schema.fields["properties"].fields
    && IsTrue(schema.fields["properties"].fields[arg], "sensitive")
  }

  /** The arguments with the sensitive ones masked. */
  function Redacted(schema: Json, args: map<string, Json>): map<string, Json> {
    map k | k in args :: if Sensitive(schema, k) then REDACTED else args[k]
  }

  /** The copy with the sensitive ones among the first i visited arguments overwritten. */
  predicate MaskedUpTo(schema: Json, args: map<string, Json>, visited: seq<string>, redacted: map<string, Json>) {
    && redacted.Keys == args.Keys
    && forall k :: k in args ==>
         redacted[k] == if k in visited && Sensitive(schema, k) then REDACTED else args[k]
  }

  lemma MaskNext(schema: Json, args: map<string, Json>, visited: seq<string>, k: string, redacted: map<string, Json>)
    requires MaskedUpTo(schema, args, visited, redacted) && k in args
    ensures MaskedUpTo(schema, args, visited + [k], if Sensitive(schema, k) then redacted[k := REDACTED] else redacted)
  {
  }

  lemma AllVisited(schema: Json, args: map<string, Json>, order: seq<string>, redacted: map<string, Json>)
    requires IterationOf(order, args) && MaskedUpTo(schema, args, order, redacted)
    ensures redacted == Redacted(schema, args)
  {
  }

  /** Copies the arguments, then overwrites the sensitive ones, in whatever order the map is visited. */
  method RedactArguments(schema: Json, args: map<string, Json>, order: seq<string>)
    returns (redacted: map<string, Json>)
    requires IterationOf(order, args)
    ensures redacted == Redacted(schema, args)
  {
    redacted := args;
    if !schema.Obj? || "properties" !in schema.fields || !schema.fields["properties"].Obj? {
      AllVisited(schema, args, order, redacted);
      return;
    }
    var properties := schema.fields["properties"].fields;
    for i := 0 to |order|
      invariant MaskedUpTo(schema, args, order[..i], redacted)
    {
      assert order[..i + 1] == order[..i] + [order[i]];
      var k := order[i];
      assert k in args;
      MaskNext(schema, args, order[..i], k, redacted);
      if k in properties && IsTrue(properties[k], "sensitive") {
        redacted := redacted[k := REDACTED];
      }
    }
    assert order[..|order|] == order;
    AllVisited(schema, args, order, redacted);
  }

  /** The text of a failed result's first content item, if it has one. */
  function ErrorText(result: Json): string {
    if result.Obj? && "content" in result.fields && result.fields["content"].Arr?
       && result.fields["content"].items != [] then
      var item := result.fields["content"].items[0];
      if item.Obj? && "text" in item.fields && item.fields["text"].Str? then item.fields["text"].s else ""
    else ""
  }

  function ErrorOf(result: Json): string {
    if !IsTrue(result, "isError") then "" else if ErrorText(result) != "" then ErrorText(result) else "unknown error"
  }

  /** A call succeeded unless its result says isError; a failure always carries some error text. */
  method DescribeResult(result: Json) returns (success: bool, error: string)
    ensures success <==> !IsTrue(result, "isError")
    ensures error == ErrorOf(result)
    ensures success <==> error == ""
  {
    success, error := true, "";
    if IsTrue(result, "isError") {
      success := false;
      error := ErrorText(result);
    }
    if error == "" && !success {
      error := "unknown error";
    }
  }

  // ----- the call

  /** Decoded parameters and the order in which the arguments happen to be visited. */
  datatype Params = Params(name: string, arguments: map<string, Json>, order: seq<string>)

  /** What the tool's handler does. */
  datatype Behaviour = Panics | Returns(value: Json, ms: int)

  datatype Reply = InvalidParams | UnknownTool(name: string) | Busy | Panicked(name: string) | Value(value: Json)

  /** The name the log gives the caller; a context without an identity counts as unknown. */
  function CallerName(identity: Option<string>): string {
    if identity.Some? then identity.value else "unknown"
  }

  // ----- the same call in the interleaved model

  /** What a call's audit line depends on beside the call itself. */
  datatype Audit = Audit(timestamp: string, caller: string, arguments: string, success: bool, error: string,
                         faults: Faults)

  function LineOf(name: string, ms: int, a: Audit): AuditLine {
    AuditLine(a.timestamp, name, a.arguments, ms, a.success, a.error)
  }

  /** The steps of a call that returns, up to its audit line. */
  function AuditSteps(i: nat, ms: int, a: Audit): seq<D.Step> {
    [D.Return(i, ms), D.Record(i, a.timestamp, a.caller, a.arguments, a.success, a.error, a.faults)]
  }

  /** The steps of call number i when nothing runs in between. */
  function CallSteps(env: D.Env, i: nat, params: Option<Params>, slotFree: bool, behaviour: Behaviour, a: Audit)
    : seq<D.Step>
  {
    if params == None then [D.Arrive("", false), D.RejectParams(i)]
    else if params.value.name !in env.tools then [D.Arrive(params.value.name, true), D.LookupMiss(i)]
    else
      var start := [D.Arrive(params.value.name, true), D.LookupHit(i)];
      if env.capacity.Some? && !slotFree then start + [D.TimeOut(i)]
      else
        (if env.capacity.Some? then start + [D.Acquire(i)] else start)
        + match behaviour
          case Panics => [D.Panic(i), D.Release(i)]
          case Returns(_, ms) => AuditSteps(i, ms, a) + [D.Meter(i), D.Release(i)]
  }

  /** How that call ends. */
  function OutcomeOf(env: D.Env, params: Option<Params>, slotFree: bool, behaviour: Behaviour, a: Audit): D.Outcome {
    if params == None then D.InvalidParams
    else if params.value.name !in env.tools then D.UnknownTool
    else if env.capacity.Some? && !slotFree then D.Busy
    else match behaviour
      case Panics => D.PanicRecovered
      case Returns(_, ms) => D.Answered(LineOf(params.value.name, ms, a))
  }

  /** The state after call number |d.calls| has come and gone with `outcome`. */
  ghost predicate CameAndWent(env: D.Env, d: D.State, d': D.State, outcome: D.Outcome, a: Audit) {
    && d'.tokens == d.tokens && d'.seeded == d.seeded && d'.start == d.start
    && |d'.calls| == |d.calls| + 1 && d'.calls[..|d.calls|] == d.calls
    && d'.calls[|d.calls|].phase == D.Finished(outcome)
    && match outcome
       case Answered(line) =>
         && d'.counters == Bump(d.counters, line.tool, line.durationMs)
         && d'.events == d.events + [Event.Write(env.codec.LineOf(Entry(line, a.caller)), a.faults)]
         && d'.all == d.all + [Entry(line, a.caller)]
       case _ => d'.counters == d.counters && d'.events == d.events && d'.all == d.all
  }

  predicate SlotGiven(env: D.Env, d: D.State, slotFree: bool) {
    env.capacity.Some? && slotFree ==> d.tokens < env.capacity.value
  }

  /** A call that gets to run, up to the start of its handler. */
  lemma StartAlone(env: D.Env, d: D.State, name: string) returns (steps: seq<D.Step>, last: D.State)
    requires env.cfg.maxFiles >= 1 && name in env.tools && SlotGiven(env, d, true)
    ensures D.Execute(env, d, steps) == Some(last)
    ensures steps == [D.Arrive(name, true), D.LookupHit(|d.calls|)]
                     + if env.capacity.Some? then [D.Acquire(|d.calls|)] else []
    ensures var slot := if env.capacity.Some? then 1 else 0;
            last == d.(calls := d.calls + [D.Call(name, true, D.Running, slot, 0, 1)], tokens := d.tokens + slot)
  {
    var i := |d.calls|;
    steps, last := [], d;
    steps, last := D.Then(env, d, steps, last, D.Arrive(name, true));
    steps, last := D.Then(env, d, steps, last, D.LookupHit(i));
    if env.capacity.Some? {
      steps, last := D.Then(env, d, steps, last, D.Acquire(i));
    }
  }

  lemma RejectedAlone(env: D.Env, d: D.State, params: Option<Params>, slotFree: bool, behaviour: Behaviour, a: Audit)
    returns (last: D.State)
    requires env.cfg.maxFiles >= 1
    requires params == None || params.value.name !in env.tools || (env.capacity.Some? && !slotFree)
    ensures D.Execute(env, d, CallSteps(env, |d.calls|, params, slotFree, behaviour, a)) == Some(last)
    ensures CameAndWent(env, d, last, OutcomeOf(env, params, slotFree, behaviour, a), a)
  {
    var i := |d.calls|;
    var steps: seq<D.Step> := [];
    last := d;
    if params == None {
      steps, last := D.Then(env, d, steps, last, D.Arrive("", false));
      steps, last := D.Then(env, d, steps, last, D.RejectParams(i));
    } else if params.value.name !in env.tools {
      steps, last := D.Then(env, d, steps, last, D.Arrive(params.value.name, true));
      steps, last := D.Then(env, d, steps, last, D.LookupMiss(i));
    } else {
      steps, last := D.Then(env, d, steps, last, D.Arrive(params.value.name, true));
      steps, last := D.Then(env, d, steps, last, D.LookupHit(i));
      steps, last := D.Then(env, d, steps, last, D.TimeOut(i));
    }
    assert steps == CallSteps(env, i, params, slotFree, behaviour, a);
  }

  lemma PanickingAlone(env: D.Env, d: D.State, params: Params, slotFree: bool, a: Audit) returns (last: D.State)
    requires env.cfg.maxFiles >= 1 && params.name in env.tools && SlotGiven(env, d, slotFree)
    requires env.capacity.Some? ==> slotFree
    ensures D.Execute(env, d, CallSteps(env, |d.calls|, Some(params), slotFree, Panics, a)) == Some(last)
    ensures CameAndWent(env, d, last, D.PanicRecovered, a)
  {
    var i := |d.calls|;
    var steps;
    steps, last := StartAlone(env, d, params.name);
    steps, last := D.Then(env, d, steps, last, D.Panic(i));
    steps, last := D.Then(env, d, steps, last, D.Release(i));
    assert steps == CallSteps(env, i, Some(params), slotFree, Panics, a);
  }

  lemma AuditAlone(env: D.Env, d: D.State, steps: seq<D.Step>, s: D.State, i: nat, ms: int, a: Audit)
    returns (steps': seq<D.Step>, last: D.State)
    requires env.cfg.maxFiles >= 1 && D.Execute(env, d, steps) == Some(s)
    requires i < |s.calls| && s.calls[i].phase.Running?
    ensures steps' == steps + AuditSteps(i, ms, a) && D.Execute(env, d, steps') == Some(last)
    ensures var line := LineOf(s.calls[i].tool, ms, a);
            last == s.(calls := s.calls[i := s.calls[i].(phase := D.Audited(line))],
                       recorded := s.recorded + [line], all := s.all + [Entry(line, a.caller)],
                       events := s.events + [Event.Write(env.codec.LineOf(Entry(line, a.caller)), a.faults)])
  {
    steps', last := D.Then(env, d, steps, s, D.Return(i, ms));
    steps', last := D.Then(env, d, steps', last,
                           D.Record(i, a.timestamp, a.caller, a.arguments, a.success, a.error, a.faults));
  }

  lemma CountAlone(env: D.Env, d: D.State, steps: seq<D.Step>, s: D.State, i: nat)
    returns (steps': seq<D.Step>, last: D.State)
    requires env.cfg.maxFiles >= 1 && D.Execute(env, d, steps) == Some(s)
    requires i < |s.calls| && s.calls[i].phase.Audited? && (env.capacity.Some? ==> s.tokens > 0)
    ensures steps' == steps + [D.Meter(i), D.Release(i)] && D.Execute(env, d, steps') == Some(last)
    ensures |last.calls| == |s.calls| && last.calls[..i] == s.calls[..i]
    ensures last.calls[i].phase == D.Finished(D.Answered(s.calls[i].phase.entry))
    ensures last.counters == Bump(s.counters, s.calls[i].phase.entry.tool, s.calls[i].phase.entry.durationMs)
    ensures last.tokens == s.tokens - if env.capacity.Some? then 1 else 0
    ensures last.seeded == s.seeded && last.start == s.start && last.events == s.events && last.all == s.all
  {
    steps', last := D.Then(env, d, steps, s, D.Meter(i));
    steps', last := D.Then(env, d, steps', last, D.Release(i));
  }

  lemma ReturningAlone(env: D.Env, d: D.State, params: Params, slotFree: bool, value: Json, ms: int, a: Audit)
    returns (last: D.State)
    requires env.cfg.maxFiles >= 1 && params.name in env.tools && SlotGiven(env, d, slotFree)
    requires env.capacity.Some? ==> slotFree
    ensures D.Execute(env, d, CallSteps(env, |d.calls|, Some(params), slotFree, Returns(value, ms), a)) == Some(last)
    ensures CameAndWent(env, d, last, D.Answered(LineOf(params.name, ms, a)), a)
  {
    var i := |d.calls|;
    var steps;
    steps, last := StartAlone(env, d, params.name);
    steps, last := AuditAlone(env, d, steps, last, i, ms, a);
    steps, last := CountAlone(env, d, steps, last, i);
    assert steps == CallSteps(env, i, Some(params), slotFree, Returns(value, ms), a);
  }

  /**
   Run without interruption, the steps of any call, refused, panicking or returning, with a semaphore or without,
   are enabled one after the other; they leave the tokens as they were and, only if the handler returned, one more
   audit line and one more count.
   */
  lemma CallAlone(env: D.Env, d: D.State, params: Option<Params>, slotFree: bool, behaviour: Behaviour, a: Audit)
    returns (last: D.State)
    requires env.cfg.maxFiles >= 1 && SlotGiven(env, d, slotFree)
    ensures D.Execute(env, d, CallSteps(env, |d.calls|, params, slotFree, behaviour, a)) == Some(last)
    ensures CameAndWent(env, d, last, OutcomeOf(env, params, slotFree, behaviour, a), a)
  {
    if params == None || params.value.name !in env.tools || (env.capacity.Some? && !slotFree) {
      last := RejectedAlone(env, d, params, slotFree, behaviour, a);
    } else if behaviour.Panics? {
      last := PanickingAlone(env, d, params.value, slotFree, a);
    } else {
      last := ReturningAlone(env, d, params.value, slotFree, behaviour.value, behaviour.ms, a);
    }
  }

  // ----- the server object

  class Server {
    const registry: Registry
    const audit: AuditWriter.AuditWriter
    const metrics: MetricsStore
    /** Semaphore capacity, if there is a semaphore. */
    const capacity: Option<nat>
    const codec: Codec
    const encodeArguments: map<string, Json> -> string
    var tokens: nat

    constructor (registry: Registry, audit: AuditWriter.AuditWriter, metrics: MetricsStore, capacity: Option<nat>,
                 codec: Codec, encodeArguments: map<string, Json> -> string)
      ensures this.registry == registry && this.audit == audit && this.metrics == metrics && this.capacity == capacity
      ensures this.codec == codec && this.encodeArguments == encodeArguments && tokens == 0
    {
      this.registry, this.audit, this.metrics, this.capacity := registry, audit, metrics, capacity;
      this.codec, this.encodeArguments := codec, encodeArguments;
      tokens := 0;
    }

    /** The audit entry of a finished call. */
    function EntryOf(p: Params, ms: int, result: Json, tool: LoadedTool, timestamp: string, caller: string): Entry {
      Entry(AuditLine(timestamp, p.name, encodeArguments(Redacted(tool.config.inputSchema, p.arguments)), ms,
                      !IsTrue(result, "isError"), ErrorOf(result)), caller)
    }

    /** How the tool's schema marks an argument as sensitive. */
    static ghost predicate Marked(tool: LoadedTool, arg: string) {
      var schema := tool.config.inputSchema;
      && schema.Obj? && "properties" in schema.fields
      && var properties := schema.fields["properties"];
         && properties.Obj? && arg in properties.fields
         && var property := properties.fields[arg];
            property.Obj? && "sensitive" in property.fields && property.fields["sensitive"] == Bool(true)
    }

    /** What marked arguments hold cannot be told from the log. */
    lemma MarkedStayOut(p: Params, q: Params, ms: int, result: Json, tool: LoadedTool,
                        timestamp: string, caller: string)
      requires p.name == q.name && p.arguments.Keys == q.arguments.Keys
      requires forall k :: k in p.arguments && !Marked(tool, k) ==> p.arguments[k] == q.arguments[k]
      ensures EntryOf(p, ms, result, tool, timestamp, caller) == EntryOf(q, ms, result, tool, timestamp, caller)
    {
      var schema := tool.config.inputSchema;
      assert Redacted(schema, p.arguments) == Redacted(schema, q.arguments);
    }

    /** Everything else is logged as it is: `shown` are the arguments with the marked ones masked. */
    lemma EntryShows(p: Params, ms: int, result: Json, tool: LoadedTool, timestamp: string, caller: string)
      returns (shown: map<string, Json>)
      ensures shown.Keys == p.arguments.Keys
      ensures forall k :: k in shown ==> shown[k] == if Marked(tool, k) then Str("[REDACTED]") else p.arguments[k]
      ensures var e := EntryOf(p, ms, result, tool, timestamp, caller);
              && e.caller == caller && e.line.timestamp == timestamp && e.line.tool == p.name
              && e.line.durationMs == ms && e.line.arguments == encodeArguments(shown)
    {
      shown := Redacted(tool.config.inputSchema, p.arguments);
    }

    /** The text a failed result gives for its failure: that of the first content item. */
    static ghost predicate Explains(result: Json, text: string) {
      && result.Obj? && "content" in result.fields && result.fields["content"].Arr?
      && result.fields["content"].items != []
      && var item := result.fields["content"].items[0];
         item.Obj? && "text" in item.fields && item.fields["text"] == Str(text)
    }

    /** A call is logged as failed exactly if its result says so, then with the result's own text or a fixed one. */
    lemma EntryTellsFailure(p: Params, ms: int, result: Json, tool: LoadedTool, timestamp: string, caller: string)
      ensures var e := EntryOf(p, ms, result, tool, timestamp, caller).line;
              var failed := result.Obj? && "isError" in result.fields && result.fields["isError"] == Bool(true);
              && (e.success <==> !failed)
              && (!failed ==> e.error == "")
              && (forall text :: failed && Explains(result, text) && text != "" ==> e.error == text)
              && (failed && (forall text :: Explains(result, text) ==> text == "") ==> e.error == "unknown error")
    {
      if IsTrue(result, "isError") {
        assert ErrorText(result) == "" || Explains(result, ErrorText(result));
      }
    }

    /** Appends the call's audit line. */
    method Record(p: Params, ms: int, result: Json, tool: LoadedTool, timestamp: string, caller: string, faults: Faults)
      requires audit.Valid() && IterationOf(p.order, p.arguments)
      modifies audit
      ensures audit.Valid()
      ensures audit.events == old(audit.events)
        + [Event.Write(codec.LineOf(EntryOf(p, ms, result, tool, timestamp, caller)), faults)]
    {
      var success, error := DescribeResult(result);
      var redacted := RedactArguments(tool.config.inputSchema, p.arguments, p.order);
      var line := AuditLine(timestamp, p.name, encodeArguments(redacted), ms, success, error);
      audit.Write(codec.LineOf(Entry(line, caller)), faults);
    }

    /** The surroundings of the interleaved model that this object stands for. */
    function Env(): D.Env
      reads registry
    {
      D.Env(capacity, registry.tools.Keys, audit.cfg, codec)
    }

    /** A state of the interleaved model agrees with the object on everything the object holds. */
    ghost predicate Agrees(d: D.State)
      reads this, audit, metrics
    {
      d.tokens == tokens && d.counters == metrics.counters && d.events == audit.events
    }

    /** What the audit line of this call says. */
    function AuditOf(params: Option<Params>, behaviour: Behaviour, timestamp: string, caller: string, faults: Faults)
      : Audit
      reads registry
    {
      if params.Some? && params.value.name in registry.tools && behaviour.Returns? then
        var tool := registry.tools[params.value.name];
        var e := EntryOf(params.value, behaviour.ms, behaviour.value, tool, timestamp, caller);
        Audit(timestamp, caller, e.line.arguments, e.line.success, e.line.error, faults)
      else Audit(timestamp, caller, "", true, "", faults)
    }

    /**
     `slotFree` says which way the wait for a slot goes; other calls hold the remaining tokens. On every path the
     tokens are as before; the log and the counters change together, and only when the handler returned.
     */
    method HandleToolCall(params: Option<Params>, identity: Option<string>, slotFree: bool, behaviour: Behaviour,
                          timestamp: string, faults: Faults)
      returns (reply: Reply)
      requires audit.Valid()
      requires params.Some? ==> IterationOf(params.value.order, params.value.arguments)
      requires capacity.Some? && slotFree ==> tokens < capacity.value
      modifies `tokens, audit, metrics
      ensures audit.Valid() && tokens == old(tokens)
      ensures params == None ==> reply == InvalidParams
      ensures params.Some? && params.value.name !in registry.tools ==> reply == UnknownTool(params.value.name)
      ensures params.Some? && params.value.name in registry.tools && capacity.Some? && !slotFree ==> reply == Busy
      ensures params.Some? && params.value.name in registry.tools && (capacity == None || slotFree) ==>
        reply == match behaviour case Panics => Panicked(params.value.name) case Returns(v, _) => Value(v)
      ensures reply.Value? ==>
        && params.Some? && params.value.name in registry.tools && behaviour.Returns?
        && metrics.counters == Bump(old(metrics.counters), params.value.name, behaviour.ms)
        && audit.events == old(audit.events) + [Event.Write(codec.LineOf(
             EntryOf(params.value, behaviour.ms, behaviour.value, registry.tools[params.value.name], timestamp,
                     if identity.Some? then identity.value else "unknown")), faults)]
      ensures !reply.Value? ==> metrics.counters == old(metrics.counters) && audit.events == old(audit.events)
    {
      if params == None {
        reply := InvalidParams;
        return;
      }
      var p := params.value;
      var found := registry.GetToolByName(p.name);
      if found == None {
        reply := UnknownTool(p.name);
        return;
      }
      if capacity.Some? {
        if !slotFree {
          reply := Busy;
          return;
        }
        tokens := tokens + 1;
      }
      var panicked := behaviour.Panics?;
      if !panicked {
        Record(p, behaviour.ms, behaviour.value, found.value, timestamp, CallerName(identity), faults);
        metrics.RecordMetric(p.name, behaviour.ms);
        reply := Value(behaviour.value);
      }
      // Deferred: the release, then the recovery.
      if capacity.Some? {
        tokens := tokens - 1;
      }
      if panicked {
        reply := Panicked(p.name);
      }
    }

    /**
     The same call seen from the interleaved model: from any state `d` that agrees with the object, the steps of the
     call lead to one that agrees with the object afterwards.
     */
    method HandleAsSteps(params: Option<Params>, identity: Option<string>, slotFree: bool, behaviour: Behaviour,
                         timestamp: string, faults: Faults, ghost d: D.State)
      returns (reply: Reply, ghost d': D.State)
      requires audit.Valid() && Agrees(d)
      requires params.Some? ==> IterationOf(params.value.order, params.value.arguments)
      requires capacity.Some? && slotFree ==> tokens < capacity.value
      modifies `tokens, audit, metrics
      ensures audit.Valid()
      ensures var a := AuditOf(params, behaviour, timestamp, CallerName(identity), faults);
              && D.Execute(Env(), d, CallSteps(Env(), |d.calls|, params, slotFree, behaviour, a)) == Some(d')
              && CameAndWent(Env(), d, d', OutcomeOf(Env(), params, slotFree, behaviour, a), a)
      ensures Agrees(d')
    {
      ghost var a := AuditOf(params, behaviour, timestamp, CallerName(identity), faults);
      d' := CallAlone(Env(), d, params, slotFree, behaviour, a);
      reply := HandleToolCall(params, identity, slotFree, behaviour, timestamp, faults);
    }
  }
}
