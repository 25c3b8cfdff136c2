/** How internal/tools/external.go turns a tool's JSON output into an MCP result. */
module OutputNormalization {
  import opened Seqs
  import opened Json

  /** Indented encoding of an object, base64 validity, and the text of a base64 error. */
  datatype Env = Env(render: Json -> string, validBase64: string -> bool, base64Error: string -> string)

  function TextItem(text: string): Json {
    Obj(map["type" := Str("text"), "text" := Str(text)])
  }

  function TextResult(text: string): Json {
    Obj(map["content" := Arr([TextItem(text)])])
  }

  function ErrorResult(msg: string): Json {
    Obj(map["content" := Arr([TextItem(msg)]), "isError" := Bool(true)])
  }

  predicate HasType(item: Json, t: string) {
    item.Obj? && "type" in item.fields && item.fields["type"] == Str(t)
  }

  /** The `data` string of an item, empty if there is none. */
  function Data(item: Json): string {
    if item.Obj? && "data" in item.fields && item.fields["data"].Str? then item.fields["data"].s else ""
  }

  /** Why an image item is refused, if it is. */
  predicate BadImage(env: Env, item: Json) {
    HasType(item, "image") && (Data(item) == "" || !env.validBase64(Data(item)))
  }

  function ImageError(env: Env, item: Json): string {
    if Data(item) == "" then "error: image content missing 'data' field"
    else "error: invalid base64 in image content block: " + env.base64Error(Data(item))
  }

  /** A single content item instead of a full result. */
  predicate IsBareItem(v: Json) {
    && v.Obj? && "content" !in v.fields
    && (HasType(v, "text") || HasType(v, "image") || HasType(v, "resource"))
  }

  function FirstBad(env: Env, items: seq<Json>): (i: nat)
    ensures i <= |items|
    ensures forall j :: 0 <= j < i ==> !BadImage(env, items[j])
    ensures i < |items| ==> BadImage(env, items[i])
  {
    if items == [] || BadImage(env, items[0]) then 0 else 1 + FirstBad(env, items[1..])
  }

  /** A single item is taken for the only content item of a result. */
  function FullResult(v: Json): Json {
    if IsBareItem(v) then Obj(map["content" := Arr([v])]) else v
  }

  /** The result for output `v`. */
  function Normalize(env: Env, v: Json): Json {
    if !v.Obj? then v
    else
      var full := FullResult(v);
      if "content" !in full.fields || !full.fields["content"].Arr? then TextResult(env.render(full))
      else
        var items := full.fields["content"].items;
        var i := FirstBad(env, items);
        if i < |items| then ErrorResult(ImageError(env, items[i])) else full
  }

  method WrapBareItem(v: Json) returns (toolResp: Json)
    requires v.Obj?
    ensures toolResp == FullResult(v)
  {
    toolResp := v;
    if "type" in v.fields && v.fields["type"].Str? {
      if "content" !in v.fields {
        var typeVal := v.fields["type"].s;
        if typeVal == "text" || typeVal == "image" || typeVal == "resource" {
          toolResp := Obj(map["content" := Arr([v])]);
        }
      }
    }
  }

  /** The checks of one content item. */
  method CheckImage(env: Env, item: Json) returns (refusal: Option<string>)
    ensures refusal == if BadImage(env, item) then Some(ImageError(env, item)) else None
  {
    if !item.Obj? {
      return None;
    }
    if "type" in item.fields && item.fields["type"] == Str("image") {
      var data := Data(item);
      if data == "" {
        return Some("error: image content missing 'data' field");
      }
      if !env.validBase64(data) {
        return Some("error: invalid base64 in image content block: " + env.base64Error(data));
      }
    }
    return None;
  }

  /** The checks in the order the source makes them. */
  method NormalizeOutput(env: Env, v: Json) returns (r: Json)
    ensures r == Normalize(env, v)
  {
    if !v.Obj? {
      return v;
    }
    var toolResp := WrapBareItem(v);
    if "content" !in toolResp.fields || !toolResp.fields["content"].Arr? {
      return TextResult(env.render(toolResp));
    }
    var content := toolResp.fields["content"].items;
    for i := 0 to |content|
      invariant FirstBad(env, content) >= i
    {
      var refusal := CheckImage(env, content[i]);
      if refusal.Some? {
        return ErrorResult(refusal.value);
      }
    }
    return toolResp;
  }

  /** A result with a content list in which every image carries non-empty valid base64. */
  predicate WellFormedResult(env: Env, r: Json) {
    && r.Obj? && "content" in r.fields && r.fields["content"].Arr?
    && forall i :: 0 <= i < |r.fields["content"].items| ==>
         HasType(r.fields["content"].items[i], "image") ==>
           Data(r.fields["content"].items[i]) != "" && env.validBase64(Data(r.fields["content"].items[i]))
  }

  /** Every JSON object becomes a well-formed result, and other values are passed through. */
  lemma NormalizedIsWellFormed(env: Env, v: Json)
    ensures if v.Obj? then WellFormedResult(env, Normalize(env, v)) else Normalize(env, v) == v
  {
    if v.Obj? {
      TextIsWellFormed(env, env.render(v));
    }
  }

  lemma TextIsWellFormed(env: Env, text: string)
    ensures WellFormedResult(env, TextResult(text)) && WellFormedResult(env, ErrorResult(text))
  {
  }

  /** A well-formed result is left as it is. */
  lemma WellFormedUnchanged(env: Env, v: Json)
    requires WellFormedResult(env, v)
    ensures Normalize(env, v) == v
  {
    var items := v.fields["content"].items;
    assert forall i :: 0 <= i < |items| ==> !BadImage(env, items[i]);
  }

  /** Normalising twice is normalising once; the fixed points among objects are exactly the well-formed results. */
  lemma NormalizeIdempotent(env: Env, v: Json)
    ensures Normalize(env, Normalize(env, v)) == Normalize(env, v)
    ensures v.Obj? ==> (Normalize(env, v) == v <==> WellFormedResult(env, v))
  {
    NormalizedIsWellFormed(env, v);
    if v.Obj? {
      WellFormedUnchanged(env, Normalize(env, v));
      if WellFormedResult(env, v) {
        WellFormedUnchanged(env, v);
      }
    }
  }

  /** An image item without usable data. */
  ghost predicate Unusable(env: Env, item: Json) {
    && item.Obj? && "type" in item.fields && item.fields["type"] == Str("image")
    && !("data" in item.fields && item.fields["data"].Str? && item.fields["data"].s != ""
         && env.validBase64(item.fields["data"].s))
  }

  /** A failure as clients see it: marked as an error, with one text item. */
  ghost predicate FailsWith(r: Json, text: string) {
    && r.Obj? && r.fields.Keys == {"content", "isError"} && r.fields["isError"] == Bool(true)
    && r.fields["content"] == Arr([Obj(map["type" := Str("text"), "text" := Str(text)])])
  }

  /** An unusable image fails the whole result, with the reason of the first one. */
  lemma UnusableFails(env: Env, v: Json, i: nat)
    requires v.Obj? && "content" in v.fields && v.fields["content"].Arr? && i < |v.fields["content"].items|
    requires Unusable(env, v.fields["content"].items[i])
    requires forall j :: 0 <= j < i ==> !Unusable(env, v.fields["content"].items[j])
    ensures var item := v.fields["content"].items[i];
            if "data" in item.fields && item.fields["data"].Str? && item.fields["data"].s != ""
            then FailsWith(Normalize(env, v),
                           "error: invalid base64 in image content block: " + env.base64Error(item.fields["data"].s))
            else FailsWith(Normalize(env, v), "error: image content missing 'data' field")
  {
    var items := v.fields["content"].items;
    forall j | 0 <= j < |items|
      ensures BadImage(env, items[j]) <==> Unusable(env, items[j])
    {
    }
    assert FirstBad(env, items) == i;
  }

  /** A result without unusable images, and nothing else, is returned as it is. */
  lemma UsableUnchangedIff(env: Env, v: Json)
    requires v.Obj?
    ensures Normalize(env, v) == v <==>
              && "content" in v.fields && v.fields["content"].Arr?
              && forall i :: 0 <= i < |v.fields["content"].items| ==> !Unusable(env, v.fields["content"].items[i])
  {
    NormalizeIdempotent(env, v);
  }

  /** A single text, image or resource item where a result was expected. */
  ghost predicate LoneItem(v: Json) {
    && v.Obj? && "content" !in v.fields && "type" in v.fields
    && v.fields["type"] in {Str("text"), Str("image"), Str("resource")}
  }

  /**
   Nothing is lost on success: a usable lone item becomes the only content item, an unusable one fails the result, and
   an object that is neither a result nor such an item is rendered as text.
   */
  lemma ContentPreserved(env: Env, v: Json)
    requires v.Obj? && ("content" in v.fields ==> !v.fields["content"].Arr?)
    ensures LoneItem(v) && !Unusable(env, v) ==> Normalize(env, v) == Obj(map["content" := Arr([v])])
    ensures LoneItem(v) && Unusable(env, v) ==> exists text :: FailsWith(Normalize(env, v), text)
    ensures !LoneItem(v) ==>
      Normalize(env, v) == Obj(map["content" := Arr([Obj(map["type" := Str("text"), "text" := Str(env.render(v))])])])
  {
    if LoneItem(v) {
      var full := Obj(map["content" := Arr([v])]);
      assert FullResult(v) == full;
      assert FirstBad(env, [v]) == if BadImage(env, v) then 0 else 1;
      if Unusable(env, v) {
        assert FailsWith(Normalize(env, v), ImageError(env, v));
      }
    }
  }
}
