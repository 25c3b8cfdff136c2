/** Loading tools from manifests and scripts, the registry they go into, and the listing made from it. */
module ToolLoading {
  import opened Seqs
  import opened Strings
  import opened Json

  datatype Platform = Platform(command: string, args: seq<string>)

  /** The parts of a manifest that decide whether and how a tool is loaded; `terminal` says if it is enabled. */
  datatype ToolConfig = ToolConfig(name: string, description: string, inputSchema: Json,
                                   platforms: Option<map<string, Platform>>, http: bool, terminal: Option<bool>)

  datatype Kind = External | Http | Terminal

  datatype LoadedTool = LoadedTool(config: ToolConfig, kind: Kind)

  datatype ToolDef = ToolDef(name: string, description: string, inputSchema: Json)

  function Definition(t: LoadedTool): ToolDef {
    ToolDef(t.config.name, t.config.description, t.config.inputSchema)
  }

  // ----- validation

  const SHELL_METACHARS: seq<string> := [";", "|", "&", ">", "<", "`", "$(", "${", "\n", "\r"]

  predicate Contains(s: string, sub: string) {
    exists i :: 0 <= i <= |s| && sub <= s[i..]
  }

  predicate HasMetachar(s: string) {
    exists m :: 0 <= m < |SHELL_METACHARS| && Contains(s, SHELL_METACHARS[m])
  }

  /** None of the eight single metacharacters, and no dollar before a parenthesis or brace. */
  ghost predicate ClearOfShell(s: string) {
    && (forall i :: 0 <= i < |s| ==> s[i] !in {';', '|', '&', '>', '<', '`', '\n', '\r'})
    && (forall i :: 0 <= i < |s| - 1 && s[i] == '$' ==> s[i + 1] !in {'(', '{'})
  }

  lemma ContainsChar(s: string, c: char)
    ensures Contains(s, [c]) <==> c in s
  {
    if c in s {
      var i :| 0 <= i < |s| && s[i] == c;
      assert [c] <= s[i..];
    }
    if Contains(s, [c]) {
      var i :| 0 <= i <= |s| && [c] <= s[i..];
      assert s[i..][0] == c;
    }
  }

  lemma ContainsPair(s: string, c: char, d: char)
    ensures Contains(s, [c, d]) <==> exists i :: 0 <= i < |s| - 1 && s[i] == c && s[i + 1] == d
  {
    if i :| 0 <= i < |s| - 1 && s[i] == c && s[i + 1] == d {
      assert [c, d] <= s[i..];
    }
    if Contains(s, [c, d]) {
      var i :| 0 <= i <= |s| && [c, d] <= s[i..];
      assert s[i..][0] == c && s[i..][1] == d;
      assert s[i] == c && s[i + 1] == d;
    }
  }

  /** The search for metacharacters finds exactly these. */
  lemma MetacharIff(s: string)
    ensures HasMetachar(s) <==> !ClearOfShell(s)
  {
    forall m | 0 <= m < |SHELL_METACHARS| && m != 6 && m != 7
      ensures Contains(s, SHELL_METACHARS[m]) <==> SHELL_METACHARS[m][0] in s
    {
      ContainsChar(s, SHELL_METACHARS[m][0]);
      assert SHELL_METACHARS[m] == [SHELL_METACHARS[m][0]];
    }
    ContainsPair(s, '$', '(');
    ContainsPair(s, '$', '{');
    assert SHELL_METACHARS[6] == ['$', '('] && SHELL_METACHARS[7] == ['$', '{'];
    if !ClearOfShell(s) {
      UnclearHasMetachar(s);
    }
  }

  lemma UnclearHasMetachar(s: string)
    requires !ClearOfShell(s)
    requires forall m :: 0 <= m < |SHELL_METACHARS| && m != 6 && m != 7 ==>
               (Contains(s, SHELL_METACHARS[m]) <==> SHELL_METACHARS[m][0] in s)
    requires Contains(s, SHELL_METACHARS[6]) <==> exists i :: 0 <= i < |s| - 1 && s[i] == '$' && s[i + 1] == '('
    requires Contains(s, SHELL_METACHARS[7]) <==> exists i :: 0 <= i < |s| - 1 && s[i] == '$' && s[i + 1] == '{'
    ensures HasMetachar(s)
  {
    if i :| 0 <= i < |s| && s[i] in {';', '|', '&', '>', '<', '`', '\n', '\r'} {
      var m := if s[i] == ';' then 0 else if s[i] == '|' then 1 else if s[i] == '&' then 2 else if s[i] == '>' then 3
               else if s[i] == '<' then 4 else if s[i] == '`' then 5 else if s[i] == '\n' then 8 else 9;
      assert SHELL_METACHARS[m][0] == s[i];
      assert Contains(s, SHELL_METACHARS[m]);
    } else {
      assert Contains(s, SHELL_METACHARS[6]) || Contains(s, SHELL_METACHARS[7]);
    }
  }

  /** A command or argument list that could reach a shell. */
  predicate PlatformOk(p: Platform) {
    && !HasMetachar(p.command)
    && ' ' !in p.command && '\t' !in p.command
    && forall i :: 0 <= i < |p.args| ==> !HasMetachar(p.args[i])
  }

  lemma PlatformOkIff(p: Platform)
    ensures PlatformOk(p) <==>
              && ClearOfShell(p.command) && ' ' !in p.command && '\t' !in p.command
              && forall i :: 0 <= i < |p.args| ==> ClearOfShell(p.args[i])
  {
    MetacharIff(p.command);
    forall i | 0 <= i < |p.args|
      ensures HasMetachar(p.args[i]) <==> !ClearOfShell(p.args[i])
    {
      MetacharIff(p.args[i]);
    }
  }

  predicate ConfigOk(tc: ToolConfig) {
    && (tc.platforms.Some? || tc.http || tc.terminal.Some?)
    && (tc.platforms.Some? ==> forall k :: k in tc.platforms.value ==> PlatformOk(tc.platforms.value[k]))
  }

  method ScanMetachars(s: string) returns (found: bool)
    ensures found == HasMetachar(s)
  {
    for m := 0 to |SHELL_METACHARS|
      invariant forall j :: 0 <= j < m ==> !Contains(s, SHELL_METACHARS[j])
    {
      if Contains(s, SHELL_METACHARS[m]) {
        return true;
      }
    }
    return false;
  }

  method ValidatePlatformConfig(p: Platform) returns (ok: bool)
    ensures ok == PlatformOk(p)
    ensures ok <==>
              && ClearOfShell(p.command) && ' ' !in p.command && '\t' !in p.command
              && forall i :: 0 <= i < |p.args| ==> ClearOfShell(p.args[i])
  {
    PlatformOkIff(p);
    var bad := ScanMetachars(p.command);
    if bad || ' ' in p.command || '\t' in p.command {
      return false;
    }
    for i := 0 to |p.args|
      invariant forall j :: 0 <= j < i ==> !HasMetachar(p.args[j])
    {
      bad := ScanMetachars(p.args[i]);
      if bad {
        return false;
      }
    }
    return true;
  }

  /** `order` lists a map's keys in some iteration order. */
  ghost predicate IterationOf<V>(order: seq<string>, m: map<string, V>) {
    && (forall i, j :: 0 <= i < j < |order| ==> order[i] != order[j])
    && (forall k :: k in m <==> k in order)
  }

  /** The verdict does not depend on the order in which the platforms are visited. */
  method ValidateToolConfig(tc: ToolConfig, order: seq<string>) returns (ok: bool)
    requires tc.platforms.Some? ==> IterationOf(order, tc.platforms.value)
    ensures ok == ConfigOk(tc)
    ensures ok <==>
              && !(tc.platforms == None && !tc.http && tc.terminal == None)
              && (tc.platforms.Some? ==> forall k :: k in tc.platforms.value ==> PlatformOk(tc.platforms.value[k]))
  {
    if tc.platforms == None && !tc.http && tc.terminal == None {
      return false;
    }
    if tc.platforms.Some? {
      for i := 0 to |order|
        invariant forall j :: 0 <= j < i ==> order[j] in tc.platforms.value && PlatformOk(tc.platforms.value[order[j]])
      {
        assert order[i] in tc.platforms.value;
        ok := ValidatePlatformConfig(tc.platforms.value[order[i]]);
        if !ok {
          return false;
        }
      }
    }
    return true;
  }

  // ----- manifests

  /** An entry of tools/: not a directory, without readable or decodable manifest, or a decoded manifest. */
  datatype ToolsEntry = NotADirectory | Unreadable | Undecodable | Manifest(config: ToolConfig)

  function Classify(tc: ToolConfig): Option<Kind> {
    if tc.http then Some(Http)
    else if tc.terminal.Some? then (if tc.terminal.value then Some(Terminal) else None)
    else Some(External)
  }

  function LoadManifest(e: ToolsEntry): Option<LoadedTool> {
    if !e.Manifest? || !ConfigOk(e.config) then None
    else match Classify(e.config) case None => None case Some(kind) => Some(LoadedTool(e.config, kind))
  }

  /**
   A manifest gives a tool exactly if it has a section to run from, its platforms are clear of shell syntax, and it is
   not a disabled terminal without an http section; http wins over terminal, and platforms come last.
   */
  lemma LoadedIff(e: ToolsEntry)
    requires e.Manifest?
    ensures var tc, t := e.config, LoadManifest(e);
            && (t.Some? <==>
                  && (tc.http || tc.terminal == Some(true) || (tc.terminal == None && tc.platforms.Some?))
                  && (tc.platforms.Some? ==>
                        forall k :: k in tc.platforms.value ==> PlatformOk(tc.platforms.value[k])))
            && (t.Some? ==>
                  && t.value.config == tc
                  && (t.value.kind == Http <==> tc.http)
                  && (t.value.kind == Terminal <==> !tc.http && tc.terminal.Some?)
                  && (t.value.kind == External <==> !tc.http && tc.terminal == None))
  {
  }

  method LoadManifests(entries: seq<ToolsEntry>, orders: seq<seq<string>>) returns (tools: seq<LoadedTool>)
    requires |orders| == |entries|
    requires forall i :: 0 <= i < |entries| && entries[i].Manifest? && entries[i].config.platforms.Some? ==>
      IterationOf(orders[i], entries[i].config.platforms.value)
    ensures tools == FilterMap(LoadManifest, entries)
  {
    tools := [];
    for i := 0 to |entries|
      invariant tools == FilterMap(LoadManifest, entries[..i])
    {
      assert entries[..i + 1][..i] == entries[..i];
      if entries[i].Manifest? {
        var tc := entries[i].config;
        var ok := ValidateToolConfig(tc, orders[i]);
        if ok {
          if tc.http {
            tools := tools + [LoadedTool(tc, Http)];
          } else if tc.terminal.Some? {
            if tc.terminal.value {
              tools := tools + [LoadedTool(tc, Terminal)];
            }
          } else {
            tools := tools + [LoadedTool(tc, External)];
          }
        }
      }
    }
    assert entries[..|entries|] == entries;
  }

  // ----- scripts

  datatype Extension = Sh | Ps1

  /** An entry of scripts/: skipped for its kind, silent or malformed under --mcp-metadata, or describing itself. */
  datatype ScriptEntry =
    | Skipped
    | NoMetadata
    | Probed(ext: Extension, path: string, name: string, description: string, inputSchema: Json)

  function ScriptPlatforms(ext: Extension, path: string): map<string, Platform> {
    match ext
    case Ps1 => map["windows" := Platform("powershell", ["-ExecutionPolicy", "Bypass", "-File", path])]
    case Sh => map["linux" := Platform("bash", [path]), "darwin" := Platform("bash", [path])]
  }

  /** The tool a script describes, if its metadata is complete. */
  function ScriptTool(e: ScriptEntry): Option<LoadedTool> {
    if !e.Probed? || e.name == "" || e.description == "" || e.inputSchema.Null? then None
    else
      var platforms := ScriptPlatforms(e.ext, e.path);
      Some(LoadedTool(ToolConfig(e.name, e.description, e.inputSchema, Some(platforms), false, None), External))
  }

  /** A script's tool shows what the script said of itself, and runs that script on its platforms and on no other. */
  lemma ScriptRunsItself(e: ScriptEntry)
    requires e.Probed?
    ensures var t := ScriptTool(e);
            && (t.Some? <==> e.name != "" && e.description != "" && e.inputSchema != Null)
            && (t.Some? ==>
                  && Definition(t.value) == ToolDef(e.name, e.description, e.inputSchema) && t.value.kind == External
                  && t.value.config.platforms.Some?
                  && var ps := t.value.config.platforms.value;
                     && ps.Keys == (if e.ext.Ps1? then {"windows"} else {"linux", "darwin"})
                     && forall k :: k in ps ==>
                          && ps[k].command == (if e.ext.Ps1? then "powershell" else "bash")
                          && ps[k].args != [] && ps[k].args[|ps[k].args| - 1] == e.path
                          && ps[k].args[..|ps[k].args| - 1]
                             == if e.ext.Ps1? then ["-ExecutionPolicy", "Bypass", "-File"] else [])
  {
  }

  /** The tools of scripts whose name no manifest has taken. */
  function NewScriptTools(existing: set<string>, entries: seq<ScriptEntry>): seq<LoadedTool> {
    if entries == [] then []
    else
      var rest := NewScriptTools(existing, entries[..|entries| - 1]);
      match ScriptTool(entries[|entries| - 1])
      case None => rest
      case Some(t) => if t.config.name in existing then rest else rest + [t]
  }

  method ProbeScripts(existing: set<string>, entries: seq<ScriptEntry>) returns (tools: seq<LoadedTool>)
    ensures tools == NewScriptTools(existing, entries)
  {
    tools := [];
    for i := 0 to |entries|
      invariant tools == NewScriptTools(existing, entries[..i])
    {
      assert entries[..i + 1][..i] == entries[..i];
      var e := entries[i];
      if e.Probed? && e.name != "" && e.description != "" && !e.inputSchema.Null? {
        if e.name !in existing {
          var platforms := ScriptPlatforms(e.ext, e.path);
          var config := ToolConfig(e.name, e.description, e.inputSchema, Some(platforms), false, None);
          tools := tools + [LoadedTool(config, External)];
        }
      }
    }
    assert entries[..|entries|] == entries;
  }

  // ----- the registry

  class Registry {
    var tools: map<string, LoadedTool>

    constructor ()
      ensures tools == map[]
    {
      tools := map[];
    }

    method RegisterTool(name: string, tool: LoadedTool)
      modifies this
      ensures tools == old(tools)[name := tool]
    {
      tools := tools[name := tool];
    }

    function GetTools(): map<string, LoadedTool>
      reads this
    {
      tools
    }

    function GetToolByName(name: string): (r: Option<LoadedTool>)
      reads this
      ensures r.Some? <==> name in tools
    {
      if name in tools then Some(tools[name]) else None
    }
  }

  /** The last loaded tool of a name. */
  function LastNamed(tools: seq<LoadedTool>, name: string): (r: Option<LoadedTool>)
    ensures r == None ==> forall i :: 0 <= i < |tools| ==> tools[i].config.name != name
    ensures r.Some? ==> exists i :: && 0 <= i < |tools| && tools[i] == r.value && tools[i].config.name == name
                                    && forall j :: i < j < |tools| ==> tools[j].config.name != name
  {
    if tools == [] then None
    else if tools[|tools| - 1].config.name == name then Some(tools[|tools| - 1])
    else LastNamed(tools[..|tools| - 1], name)
  }

  function OrElse<T>(a: Option<T>, b: Option<T>): Option<T> {
    if a.Some? then a else b
  }

  /** Manifests win over scripts, and later entries over earlier ones of the same kind. */
  function Resolve(manifests: seq<ToolsEntry>, scripts: seq<ScriptEntry>, name: string): Option<LoadedTool> {
    OrElse(LastNamed(FilterMap(LoadManifest, manifests), name), LastNamed(FilterMap(ScriptTool, scripts), name))
  }

  function Lookup<V>(m: map<string, V>, name: string): Option<V> {
    if name in m then Some(m[name]) else None
  }

  /** Keys are the names of the tools under them, as LoadTools leaves the registry. */
  ghost predicate KeysAreNames(tools: map<string, LoadedTool>) {
    forall name :: name in tools ==> Definition(tools[name]).name == name
  }

  /** Registers `loaded` in order; existing names are overwritten. */
  method RegisterAll(registry: Registry, loaded: seq<LoadedTool>)
    modifies registry
    ensures (forall name ::
               Lookup(registry.tools, name) == OrElse(LastNamed(loaded, name), Lookup(old(registry.tools), name)))
  {
    for i := 0 to |loaded|
      invariant (forall name ::
                   Lookup(registry.tools, name)
                   == OrElse(LastNamed(loaded[..i], name), Lookup(old(registry.tools), name)))
    {
      assert loaded[..i + 1][..i] == loaded[..i];
      registry.RegisterTool(loaded[i].config.name, loaded[i]);
    }
    assert loaded[..|loaded|] == loaded;
  }

  method LoadTools(manifests: seq<ToolsEntry>, orders: seq<seq<string>>, scripts: seq<ScriptEntry>)
    returns (registry: Registry)
    requires |orders| == |manifests|
    requires forall i :: 0 <= i < |manifests| && manifests[i].Manifest? && manifests[i].config.platforms.Some? ==>
      IterationOf(orders[i], manifests[i].config.platforms.value)
    ensures fresh(registry)
    ensures forall name :: registry.GetToolByName(name) == Resolve(manifests, scripts, name)
    ensures KeysAreNames(registry.tools)
  {
    registry := new Registry();
    var loaded := LoadManifests(manifests, orders);
    var existing: set<string> := {};
    for i := 0 to |loaded|
      invariant forall name :: name in existing <==> LastNamed(loaded[..i], name).Some?
    {
      assert loaded[..i + 1][..i] == loaded[..i];
      existing := existing + {loaded[i].config.name};
    }
    assert loaded[..|loaded|] == loaded;
    RegisterAll(registry, loaded);
    var probed := ProbeScripts(existing, scripts);
    forall name
      ensures LastNamed(probed, name)
              == if name in existing then None else LastNamed(FilterMap(ScriptTool, scripts), name)
    {
      ProbedAreNew(existing, scripts, name);
    }
    RegisterAll(registry, probed);
    forall name
      ensures registry.GetToolByName(name) == Resolve(manifests, scripts, name)
    {
      assert Lookup(registry.tools, name) == registry.GetToolByName(name);
    }
    forall name | name in registry.tools
      ensures Definition(registry.tools[name]).name == name
    {
      assert registry.GetToolByName(name) == Resolve(manifests, scripts, name);
    }
  }

  lemma LastNamedSnoc(tools: seq<LoadedTool>, t: LoadedTool, name: string)
    ensures LastNamed(tools + [t], name) == if t.config.name == name then Some(t) else LastNamed(tools, name)
  {
    assert (tools + [t])[..|tools|] == tools;
  }

  lemma {:induction false} ProbedAreNew(existing: set<string>, entries: seq<ScriptEntry>, name: string)
    ensures LastNamed(NewScriptTools(existing, entries), name)
         == if name in existing then None else LastNamed(FilterMap(ScriptTool, entries), name)
  {
    if entries != [] {
      var p, e := entries[..|entries| - 1], entries[|entries| - 1];
      ProbedAreNew(existing, p, name);
      if ScriptTool(e).Some? {
        LastNamedSnoc(NewScriptTools(existing, p), ScriptTool(e).value, name);
        LastNamedSnoc(FilterMap(ScriptTool, p), ScriptTool(e).value, name);
      }
    }
  }

  // ----- listing

  ghost predicate SortedByName(s: seq<ToolDef>) {
    forall i, j :: 0 <= i < j < |s| ==> !Less(s[j].name, s[i].name)
  }

  /** The definitions collected while iterating over the registry's snapshot. */
  method Collect(tools: map<string, LoadedTool>, order: seq<string>) returns (defs: seq<ToolDef>)
    requires IterationOf(order, tools)
    ensures |defs| == |order|
    ensures forall i :: 0 <= i < |order| ==> order[i] in tools && defs[i] == Definition(tools[order[i]])
  {
    defs := [];
    for i := 0 to |order|
      invariant |defs| == i && forall j :: 0 <= j < i ==> order[j] in tools && defs[j] == Definition(tools[order[j]])
    {
      assert order[i] in tools;
      defs := defs + [Definition(tools[order[i]])];
    }
  }

  /** The tools by strictly increasing name, each registered tool once and nothing else. */
  ghost predicate IsListing(list: seq<ToolDef>, tools: map<string, LoadedTool>) {
    && (forall i, j :: 0 <= i < j < |list| ==> Less(list[i].name, list[j].name))
    && (forall d :: d in list <==> d.name in tools && d == Definition(tools[d.name]))
  }

  /**
   Whatever order the map was iterated in, and however an unstable sort arranges the result by name, the outcome
   is the listing of the registry.
   */
  lemma AnySortGivesListing(tools: map<string, LoadedTool>, order: seq<string>,
                            defs: seq<ToolDef>, sorted: seq<ToolDef>)
    requires KeysAreNames(tools) && IterationOf(order, tools) && |defs| == |order|
    requires forall i :: 0 <= i < |order| ==> order[i] in tools && defs[i] == Definition(tools[order[i]])
    requires SortedByName(sorted) && multiset(sorted) == multiset(defs)
    ensures IsListing(sorted, tools)
  {
    forall d
      ensures d in sorted <==> d.name in tools && d == Definition(tools[d.name])
    {
      assert d in sorted <==> d in multiset(defs);
      if d in defs {
        var i :| 0 <= i < |defs| && defs[i] == d;
        assert d.name == order[i];
      }
      if d.name in tools && d == Definition(tools[d.name]) {
        var i :| 0 <= i < |order| && order[i] == d.name;
        assert defs[i] == d;
      }
    }
    assert NoRepeats(defs);
    SameBagNoRepeats(defs, sorted);
    forall i, j | 0 <= i < j < |sorted|
      ensures Less(sorted[i].name, sorted[j].name)
    {
      assert sorted[i] in sorted && sorted[j] in sorted;
      Trichotomy(sorted[i].name, sorted[j].name);
    }
  }

  ghost predicate NoRepeats<T>(s: seq<T>) {
    forall i, j :: 0 <= i < j < |s| ==> s[i] != s[j]
  }

  lemma {:induction false} NoRepeatsCounts<T>(s: seq<T>, x: T)
    requires NoRepeats(s)
    ensures multiset(s)[x] <= 1
  {
    if s != [] {
      var p, last := s[..|s| - 1], s[|s| - 1];
      assert s == p + [last];
      NoRepeatsCounts(p, x);
      if x == last {
        assert x !in p;
        assert multiset(p)[x] == 0;
      }
    }
  }

  lemma SameBagNoRepeats<T>(a: seq<T>, b: seq<T>)
    requires NoRepeats(a) && multiset(a) == multiset(b)
    ensures NoRepeats(b)
  {
    forall i, j | 0 <= i < j < |b|
      ensures b[i] != b[j]
    {
      NoRepeatsCounts(a, b[i]);
      assert b == b[..j] + [b[j]] + b[j + 1..];
      assert b[..j] == b[..i] + [b[i]] + b[i + 1..j];
      assert multiset(b)
          == multiset(b[..i]) + multiset{b[i]} + multiset(b[i + 1..j]) + multiset{b[j]} + multiset(b[j + 1..]);
    }
  }

  lemma {:induction false} ListingUnique(a: seq<ToolDef>, b: seq<ToolDef>, tools: map<string, LoadedTool>)
    requires IsListing(a, tools) && IsListing(b, tools)
    ensures a == b
  {
    SameElements(a, b);
  }

  lemma {:induction false} SameElements(a: seq<ToolDef>, b: seq<ToolDef>)
    requires forall i, j :: 0 <= i < j < |a| ==> Less(a[i].name, a[j].name)
    requires forall i, j :: 0 <= i < j < |b| ==> Less(b[i].name, b[j].name)
    requires forall d :: d in a <==> d in b
    ensures a == b
    decreases |a|
  {
    if a != [] {
      assert a[|a| - 1] in b;
    }
    if b != [] {
      assert b[|b| - 1] in a;
    }
    if a != [] && b != [] {
      var x, y := a[|a| - 1], b[|b| - 1];
      var i :| 0 <= i < |b| && b[i] == x;
      var j :| 0 <= j < |a| && a[j] == y;
      Trichotomy(x.name, y.name);
      Trichotomy(x.name, x.name);
      assert x == y;
      var a', b' := a[..|a| - 1], b[..|b| - 1];
      forall d
        ensures d in a' <==> d in b'
      {
        assert d in a <==> d in b;
        LastOnce(a, d);
        LastOnce(b, d);
      }
      SameElements(a', b');
      assert a == a' + [x] && b == b' + [y];
    }
  }

  lemma LastOnce(a: seq<ToolDef>, d: ToolDef)
    requires a != [] && forall i, j :: 0 <= i < j < |a| ==> Less(a[i].name, a[j].name)
    ensures d in a[..|a| - 1] <==> d in a && d != a[|a| - 1]
  {
    if d in a[..|a| - 1] {
      var i :| 0 <= i < |a| - 1 && a[i] == d;
      Trichotomy(a[i].name, a[|a| - 1].name);
    }
    if d in a && d != a[|a| - 1] {
      var i :| 0 <= i < |a| && a[i] == d;
      assert d == a[..|a| - 1][i];
    }
  }

  /** Inserts a definition before the first later name. */
  method InsertByName(s: seq<ToolDef>, d: ToolDef) returns (r: seq<ToolDef>)
    requires SortedByName(s)
    ensures SortedByName(r) && multiset(r) == multiset(s) + multiset{d}
  {
    var i := 0;
    while i < |s| && !Less(d.name, s[i].name)
      invariant 0 <= i <= |s|
      invariant forall j :: 0 <= j < i ==> !Less(d.name, s[j].name)
    {
      i := i + 1;
    }
    assert s == s[..i] + s[i..];
    r := s[..i] + [d] + s[i..];
    InsertedInOrder(s, i, d);
  }

  lemma InsertedInOrder(s: seq<ToolDef>, i: nat, d: ToolDef)
    requires SortedByName(s) && i <= |s|
    requires forall j :: 0 <= j < i ==> !Less(d.name, s[j].name)
    requires i < |s| ==> Less(d.name, s[i].name)
    ensures SortedByName(s[..i] + [d] + s[i..])
  {
    if i < |s| {
      Trichotomy(d.name, s[i].name);
      forall k | i <= k < |s|
        ensures !Less(s[k].name, d.name)
      {
        Irreflexive(s[i].name);
        NotLessTransitive(s[k].name, s[i].name, d.name);
      }
    }
  }

  /** Stands for sort.Slice, of which only the order and the bag of results are known. */
  method SortSlice(defs: seq<ToolDef>) returns (sorted: seq<ToolDef>)
    ensures SortedByName(sorted) && multiset(sorted) == multiset(defs)
  {
    sorted := [];
    for i := 0 to |defs|
      invariant SortedByName(sorted) && multiset(sorted) == multiset(defs[..i])
    {
      assert defs[..i + 1] == defs[..i] + [defs[i]];
      sorted := InsertByName(sorted, defs[i]);
    }
    assert defs[..|defs|] == defs;
  }

  /** The tools/list branch: collect in iteration order, then sort. */
  method ListTools(tools: map<string, LoadedTool>, order: seq<string>) returns (list: seq<ToolDef>)
    requires KeysAreNames(tools) && IterationOf(order, tools)
    ensures IsListing(list, tools)
  {
    var defs := Collect(tools, order);
    list := SortSlice(defs);
    AnySortGivesListing(tools, order, defs, list);
  }

  /** `tools/list` names exactly the tools that `tools/call` resolves, and describes each as its configuration does. */
  lemma ListsWhatResolves(list: seq<ToolDef>, tools: map<string, LoadedTool>, name: string)
    requires KeysAreNames(tools) && IsListing(list, tools)
    ensures (exists i :: 0 <= i < |list| && list[i].name == name) <==> Lookup(tools, name).Some?
    ensures forall i :: 0 <= i < |list| && list[i].name == name ==>
              && name in tools
              && list[i].description == tools[name].config.description
              && list[i].inputSchema == tools[name].config.inputSchema
  {
    forall i | 0 <= i < |list| && list[i].name == name
      ensures name in tools && list[i] == Definition(tools[name])
    {
      assert list[i] in list;
    }
    if name in tools {
      var d := Definition(tools[name]);
      assert d in list;
    }
    if exists i :: 0 <= i < |list| && list[i].name == name {
      var i :| 0 <= i < |list| && list[i].name == name;
      assert list[i] in list;
    }
  }
}
