/** How internal/tools/http.go builds the query of an HTTP tool call, layer over layer, from unordered maps. */
module QueryMerge {
  import opened Seqs
  import opened Json
  import opened ToolLoading

  /** url.Values: the values of each key, in order. */
  type Values = map<string, seq<string>>

  /** Environment expansion, Go's default formatting, and JSON encoding (which may fail). */
  datatype Env = Env(expand: string -> string, sprint: Json -> string, marshal: Json -> Option<string>)

  /** The manifest's HTTP section, as far as the query depends on it. */
  datatype HttpConfig = HttpConfig(method': string, queryParams: map<string, string>)

  const RESERVED: set<string> := {"url", "method", "headers", "body", "query_params"}

  function HttpMethod(env: Env, config: Option<HttpConfig>, args: map<string, Json>): string {
    var fromArgs := if "method" in args && args["method"].Str? then args["method"].s else "";
    var fromConfig := if fromArgs == "" && config.Some? then env.expand(config.value.method') else fromArgs;
    if fromConfig == "" then "GET" else fromConfig
  }

  function ExplicitParams(args: map<string, Json>): map<string, Json> {
    if "query_params" in args && args["query_params"].Obj? then args["query_params"].fields else map[]
  }

  function ManifestParams(config: Option<HttpConfig>): map<string, string> {
    if config.Some? then config.value.queryParams else map[]
  }

  // ----- the layers, key by key

  function OverManifest(env: Env, params: map<string, string>, key: string, below: Option<seq<string>>)
    : Option<seq<string>>
  {
    if key in params then Some([env.expand(params[key])]) else below
  }

  function ValuesOf(values: Option<seq<string>>): seq<string> {
    if values.Some? then values.value else []
  }

  /** A scalar replaces what is below, a list is appended to it. */
  function OverExplicit(env: Env, params: map<string, Json>, key: string, below: Option<seq<string>>)
    : Option<seq<string>>
  {
    if key !in params then below
    else match params[key]
      case Str(s) => Some([s])
      case Arr(items) => if items == [] then below else Some(ValuesOf(below) + Map(env.sprint, items))
      case v => Some([env.sprint(v)])
  }

  /** What a plain argument contributes; nil, the empty string and values that do not encode contribute nothing. */
  function ArgValue(env: Env, v: Json): Option<string> {
    match v
    case Str(s) => if s == "" then None else Some(s)
    case Null => None
    case Num(_) => Some(env.sprint(v))
    case Bool(_) => Some(env.sprint(v))
    case _ => env.marshal(v)
  }

  function OverArgs(env: Env, args: map<string, Json>, key: string, below: Option<seq<string>>): Option<seq<string>> {
    if key !in args || key in RESERVED then below
    else match ArgValue(env, args[key]) case None => below case Some(s) => Some([s])
  }

  /** URL query, then manifest parameters, then `query_params`, then on GET the other arguments. */
  function Layered(env: Env, url: Values, config: Option<HttpConfig>, args: map<string, Json>, key: string)
    : Option<seq<string>>
  {
    var manifest := OverManifest(env, ManifestParams(config), key, Lookup(url, key));
    var explicit := OverExplicit(env, ExplicitParams(args), key, manifest);
    if HttpMethod(env, config, args) == "GET" then OverArgs(env, args, key, explicit) else explicit
  }

  // ----- the loops

  function Set(values: Values, key: string, v: string): Values {
    values[key := [v]]
  }

  function Add(values: Values, key: string, v: string): Values {
    values[key := (if key in values then values[key] else []) + [v]]
  }

  method AddManifest(env: Env, url: Values, params: map<string, string>, order: seq<string>) returns (values: Values)
    requires IterationOf(order, params)
    ensures forall key :: Lookup(values, key) == OverManifest(env, params, key, Lookup(url, key))
  {
    values := url;
    for i := 0 to |order|
      invariant (forall key ::
                   Lookup(values, key)
                   == if key in order[..i] then OverManifest(env, params, key, Lookup(url, key)) else Lookup(url, key))
    {
      var k := order[i];
      assert k in params;
      assert order[..i + 1] == order[..i] + [k];
      values := Set(values, k, env.expand(params[k]));
    }
    assert order[..|order|] == order;
  }

  method AddExplicit(env: Env, below: Values, params: map<string, Json>, order: seq<string>) returns (values: Values)
    requires IterationOf(order, params)
    ensures forall key :: Lookup(values, key) == OverExplicit(env, params, key, Lookup(below, key))
  {
    values := below;
    for i := 0 to |order|
      invariant (forall key ::
                   Lookup(values, key)
                   == if key in order[..i] then OverExplicit(env, params, key, Lookup(below, key))
                      else Lookup(below, key))
    {
      var k := order[i];
      assert k in params;
      assert order[..i + 1] == order[..i] + [k];
      assert k !in order[..i];
      assert Lookup(values, k) == Lookup(below, k);
      match params[k] {
        case Str(s) => values := Set(values, k, s);
        case Arr(items) => values := AddItems(env, values, k, items);
        case v => values := Set(values, k, env.sprint(v));
      }
    }
    assert order[..|order|] == order;
  }

  method AddItems(env: Env, below: Values, k: string, items: seq<Json>) returns (values: Values)
    ensures forall key :: key != k ==> Lookup(values, key) == Lookup(below, key)
    ensures Lookup(values, k) == OverExplicit(env, map[k := Arr(items)], k, Lookup(below, k))
  {
    values := below;
    ghost var start := if k in below then below[k] else [];
    for j := 0 to |items|
      invariant forall key :: key != k ==> Lookup(values, key) == Lookup(below, key)
      invariant Lookup(values, k) == if j == 0 then Lookup(below, k) else Some(start + Map(env.sprint, items[..j]))
    {
      assert Map(env.sprint, items[..j + 1]) == Map(env.sprint, items[..j]) + [env.sprint(items[j])];
      assert (if k in values then values[k] else []) == start + Map(env.sprint, items[..j]);
      Assoc(start, Map(env.sprint, items[..j]), [env.sprint(items[j])]);
      values := Add(values, k, env.sprint(items[j]));
    }
    assert items[..|items|] == items;
  }

  method AddArgs(env: Env, below: Values, args: map<string, Json>, order: seq<string>) returns (values: Values)
    requires IterationOf(order, args)
    ensures forall key :: Lookup(values, key) == OverArgs(env, args, key, Lookup(below, key))
  {
    values := below;
    for i := 0 to |order|
      invariant (forall key ::
                   Lookup(values, key)
                   == if key in order[..i] then OverArgs(env, args, key, Lookup(below, key)) else Lookup(below, key))
    {
      var k := order[i];
      assert k in args;
      assert order[..i + 1] == order[..i] + [k];
      assert k !in order[..i];
      assert Lookup(values, k) == Lookup(below, k);
      if k in RESERVED {
        continue;
      }
      var v := args[k];
      match v {
        case Str(s) =>
          if s != "" {
            values := Set(values, k, s);
          }
        case Null =>
        case Num(_) => values := Set(values, k, env.sprint(v));
        case Bool(_) => values := Set(values, k, env.sprint(v));
        case _ =>
          var data := env.marshal(v);
          if data.Some? {
            values := Set(values, k, data.value);
          }
      }
    }
    assert order[..|order|] == order;
  }

  /** The query is the layering, whatever order the three maps are iterated in. */
  method BuildQuery(env: Env, url: Values, config: Option<HttpConfig>, args: map<string, Json>,
                    manifestOrder: seq<string>, explicitOrder: seq<string>, argsOrder: seq<string>)
    returns (values: Values)
    requires IterationOf(manifestOrder, ManifestParams(config))
    requires IterationOf(explicitOrder, ExplicitParams(args))
    requires IterationOf(argsOrder, args)
    ensures forall key :: Lookup(values, key) == Layered(env, url, config, args, key)
  {
    var method' := "";
    if "method" in args && args["method"].Str? {
      method' := args["method"].s;
    }
    if method' == "" && config.Some? {
      method' := env.expand(config.value.method');
    }
    if method' == "" {
      method' := "GET";
    }
    var withManifest := AddManifest(env, url, ManifestParams(config), manifestOrder);
    var withExplicit := AddExplicit(env, withManifest, ExplicitParams(args), explicitOrder);
    values := withExplicit;
    if method' == "GET" {
      values := AddArgs(env, withExplicit, args, argsOrder);
    }
  }

  /** The layering determines the query, so two runs with different iteration orders agree. */
  lemma LayeringDetermines(env: Env, url: Values, config: Option<HttpConfig>, args: map<string, Json>,
                           a: Values, b: Values)
    requires forall key :: Lookup(a, key) == Layered(env, url, config, args, key)
    requires forall key :: Lookup(b, key) == Layered(env, url, config, args, key)
    ensures a == b
  {
    forall key
      ensures (key in a <==> key in b) && (key in a ==> a[key] == b[key])
    {
      assert Lookup(a, key) == Lookup(b, key);
    }
    assert a == b;
  }

  /** Nothing but GET, spelled by the call or else by the manifest, or said by neither. */
  ghost predicate IsGet(env: Env, config: Option<HttpConfig>, args: map<string, Json>) {
    if "method" in args && args["method"].Str? && args["method"].s != "" then args["method"] == Str("GET")
    else config.Some? ==> env.expand(config.value.method') in {"", "GET"}
  }

  lemma GetIff(env: Env, config: Option<HttpConfig>, args: map<string, Json>)
    ensures HttpMethod(env, config, args) == "GET" <==> IsGet(env, config, args)
  {
  }

  /** The text a call's argument gives a parameter of its own, if it does. */
  ghost predicate GivesText(env: Env, v: Json, text: string) {
    match v
    case Null => false
    case Str(s) => s != "" && text == s
    case Num(_) => text == env.sprint(v)
    case Bool(_) => text == env.sprint(v)
    case Arr(_) => env.marshal(v) == Some(text)
    case Obj(_) => env.marshal(v) == Some(text)
  }

  /** An argument of the call that becomes a parameter of its own. */
  ghost predicate OwnParam(env: Env, config: Option<HttpConfig>, args: map<string, Json>, key: string, text: string) {
    && IsGet(env, config, args)
    && key in args && key !in {"url", "method", "headers", "body", "query_params"} && GivesText(env, args[key], text)
  }

  /** No argument of the call becomes this parameter. */
  ghost predicate NoOwnParam(env: Env, config: Option<HttpConfig>, args: map<string, Json>, key: string) {
    forall text :: !OwnParam(env, config, args, key, text)
  }

  lemma OwnOrNot(env: Env, config: Option<HttpConfig>, args: map<string, Json>, key: string)
    ensures NoOwnParam(env, config, args, key)
            <==> !(HttpMethod(env, config, args) == "GET" && key in args && key !in RESERVED
                   && ArgValue(env, args[key]).Some?)
  {
    GetIff(env, config, args);
    if HttpMethod(env, config, args) == "GET" && key in args && key !in RESERVED && ArgValue(env, args[key]).Some? {
      assert OwnParam(env, config, args, key, ArgValue(env, args[key]).value);
    }
  }

  /**
   Precedence, value by value: an argument of its own decides alone; else a scalar of `query_params`; a list of
   `query_params` follows the manifest's value or, without one, the URL's values; else the manifest; else the URL.
   */
  lemma Precedence(env: Env, url: Values, config: Option<HttpConfig>, args: map<string, Json>, key: string)
    ensures forall text :: OwnParam(env, config, args, key, text) ==>
              Layered(env, url, config, args, key) == Some([text])
    ensures NoOwnParam(env, config, args, key) ==>
              var r := Layered(env, url, config, args, key);
              var explicit := if "query_params" in args && args["query_params"].Obj? then args["query_params"].fields
                              else map[];
              var params := if config.Some? then config.value.queryParams else map[];
              var below := if key in params then [env.expand(params[key])] else if key in url then url[key] else [];
              if key in explicit && explicit[key].Str? then r == Some([explicit[key].s])
              else if key in explicit && !explicit[key].Arr? then r == Some([env.sprint(explicit[key])])
              else if key in explicit && explicit[key].items != [] then
                r == Some(below + Map(env.sprint, explicit[key].items))
              else if key in params then r == Some(below)
              else r == Lookup(url, key)
  {
    OwnOrNot(env, config, args, key);
    GetIff(env, config, args);
  }

  lemma SameSuffix<T>(a: seq<T>, b: seq<T>, s: seq<T>)
    requires a + s == b + s
    ensures a == b
  {
    assert |a + s| == |a| + |s| && |b + s| == |b| + |s|;
    assert a == (a + s)[..|a|] && b == (b + s)[..|b|];
  }

  /** What the URL and the manifest give a key. */
  function Below(env: Env, url: Values, config: Option<HttpConfig>, key: string): Option<seq<string>> {
    OverManifest(env, ManifestParams(config), key, Lookup(url, key))
  }

  /**
   When URL and manifest matter: two calls with the same arguments and method agree on a key exactly when an
   argument or a scalar of `query_params` decides it, or URL and manifest give it the same values (for a list,
   having none and having no values is the same).
   */
  lemma LowerLayersShowIff(env: Env, url: Values, url': Values, config: Option<HttpConfig>,
                           config': Option<HttpConfig>, args: map<string, Json>, key: string)
    requires HttpMethod(env, config, args) == HttpMethod(env, config', args)
    ensures var explicit := ExplicitParams(args);
            var below, below' := Below(env, url, config, key), Below(env, url', config', key);
            Layered(env, url, config, args, key) == Layered(env, url', config', args, key)
            <==> || !NoOwnParam(env, config, args, key)
                 || (key in explicit && !explicit[key].Arr?)
                 || (key in explicit && explicit[key].items != [] && ValuesOf(below) == ValuesOf(below'))
                 || below == below'
  {
    OwnOrNot(env, config, args, key);
    var explicit := ExplicitParams(args);
    if key in explicit && explicit[key].Arr? && explicit[key].items != [] {
      var below, below' := ValuesOf(Below(env, url, config, key)), ValuesOf(Below(env, url', config', key));
      var items := Map(env.sprint, explicit[key].items);
      if below + items == below' + items {
        SameSuffix(below, below', items);
      }
    }
  }
}
