/** JSON-RPC requests and responses as internal/server/request.go builds them. */
module Protocol {
  import opened Seqs
  import opened Json
  import opened ToolLoading

  /** A decoded request; an absent id is `None`, a literal null id is `Some(Null)`. */
  datatype Request = Request(id: Option<Json>, method': string)

  /** `Null` in `result` or `error` is the nil value that encoding omits. */
  datatype Response = Response(id: Json, result: Json, error: Json)

  predicate WantsResponse(req: Request) {
    req.id.Some? && !req.id.value.Null?
  }

  function ToolJson(d: ToolDef): Json {
    Obj(map["name" := Str(d.name), "description" := Str(d.description), "inputSchema" := d.inputSchema])
  }

  const METHOD_NOT_FOUND := "-32601"

  /** The response, given what the tool call returned if the request is one. */
  function ProcessRequest(req: Request, version: string, listing: seq<ToolDef>, toolValue: Json): Response
    requires req.id.Some?
  {
    var id := req.id.value;
    if req.method' == "initialize" then
      Response(id, Obj(map[
        "protocolVersion" := Str("2024-11-05"),
        "capabilities" := Obj(map["tools" := Obj(map[])]),
        "serverInfo" := Obj(map["name" := Str("jig-mcp"), "version" := Str(version)])]), Null)
    else if req.method' == "tools/list" then
      Response(id, Obj(map["tools" := if listing == [] then Null else Arr(Map(ToolJson, listing))]), Null)
    else if req.method' == "tools/call" then Response(id, toolValue, Null)
    else if req.method' == "ping" then Response(id, Obj(map[]), Null)
    else
      Response(id, Null,
               Obj(map["code" := Num(METHOD_NOT_FOUND), "message" := Str("method not found: " + req.method')]))
  }

  /** What goes on the wire: nil members are left out. */
  function Wire(r: Response): map<string, Json> {
    var base := map["jsonrpc" := Str("2.0"), "id" := r.id];
    var withResult := if r.result.Null? then base else base["result" := r.result];
    if r.error.Null? then withResult else withResult["error" := r.error]
  }

  predicate KnownMethod(name: string) {
    name in {"initialize", "tools/list", "tools/call", "ping"}
  }

  /**
   Every response echoes the request's id. It carries an error exactly for an unknown method, and exactly one of
   result and error unless a tool call returned nil, in which case it carries neither.
   */
  lemma ResponseShape(req: Request, version: string, listing: seq<ToolDef>, toolValue: Json)
    requires req.id.Some?
    ensures var w := Wire(ProcessRequest(req, version, listing, toolValue));
            && "jsonrpc" in w && w["jsonrpc"] == Str("2.0")
            && "id" in w && w["id"] == req.id.value
            && ("error" in w <==> !KnownMethod(req.method'))
            && !("result" in w && "error" in w)
            && (("result" in w) != ("error" in w) <==> !(req.method' == "tools/call" && toolValue.Null?))
            && (req.method' == "tools/call" && "result" in w ==> w["result"] == toolValue)
  {
  }

  /** The other answers: the handshake names the protocol and server, ping is empty, unknown methods are named. */
  lemma OtherAnswers(req: Request, version: string, listing: seq<ToolDef>, toolValue: Json)
    requires req.id.Some?
    ensures var r := ProcessRequest(req, version, listing, toolValue);
            && (req.method' == "initialize" ==>
                  && r.result.Obj? && r.result.fields.Keys == {"protocolVersion", "capabilities", "serverInfo"}
                  && r.result.fields["protocolVersion"] == Str("2024-11-05")
                  && r.result.fields["serverInfo"] == Obj(map["name" := Str("jig-mcp"), "version" := Str(version)]))
            && (req.method' == "ping" ==> r.result == Obj(map[]))
            && (!r.error.Null? ==>
                  r.error == Obj(map["code" := Num("-32601"), "message" := Str("method not found: " + req.method')]))
  {
  }

  /** The names in a tools/list result, in order. */
  function ListedNames(result: Json): seq<Json> {
    if result.Obj? && "tools" in result.fields && result.fields["tools"].Arr?
    then Map((t: Json) => if t.Obj? && "name" in t.fields then t.fields["name"] else Null, result.fields["tools"].items)
    else []
  }

  /** Each listed tool carries its own name, description and input schema, and nothing else. */
  ghost predicate Describes(tools: Json, listing: seq<ToolDef>) {
    && tools.Arr? && |tools.items| == |listing|
    && forall i :: 0 <= i < |listing| ==>
         && tools.items[i].Obj?
         && tools.items[i].fields == map["name" := Str(listing[i].name), "description" := Str(listing[i].description),
                                         "inputSchema" := listing[i].inputSchema]
  }

  /**
   A client sees exactly the tools of the listing, in its order, each with its description and schema; without tools it
   gets null, not an empty list.
   */
  lemma ListingOnTheWire(req: Request, version: string, listing: seq<ToolDef>, toolValue: Json)
    requires req.id.Some? && req.method' == "tools/list"
    ensures var result := ProcessRequest(req, version, listing, toolValue).result;
            && ListedNames(result) == Map((d: ToolDef) => Str(d.name), listing)
            && result.Obj? && "tools" in result.fields
            && (result.fields["tools"].Null? <==> listing == [])
            && (listing != [] ==> Describes(result.fields["tools"], listing))
  {
    var result := ProcessRequest(req, version, listing, toolValue).result;
    if listing != [] {
      var items := result.fields["tools"].items;
      assert forall i :: 0 <= i < |listing| ==> items[i] == ToolJson(listing[i]);
    }
  }
}
