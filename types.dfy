/** The request and response records of the server (src/types.rs) and the
    rules by which serde's derived `Deserialize` and `Serialize` map them
    from and to JSON values. */
module Types {
  import opened Wrappers
  import opened JsonValue

  /** Rust's `i32`, the type of `McpError::code`. */
  newtype i32 = x: int | -0x8000_0000 <= x < 0x8000_0000

  /** A request line. `id` and `params` read as `None` when absent or null. */
  datatype JsonRpcRequest = JsonRpcRequest(jsonrpc: string, id: Option<Json>, methodName: string, params: Option<Json>)

  datatype ClientInfo = ClientInfo(name: string, version: string)

  datatype InitializeParams =
    InitializeParams(protocolVersion: string, capabilities: map<string, Json>, clientInfo: Option<ClientInfo>)

  datatype ToolCallParams = ToolCallParams(name: string, arguments: map<string, Json>)

  datatype ResourceReadParams = ResourceReadParams(uri: string)

  datatype PromptGetParams = PromptGetParams(name: string, arguments: Option<Json>)

  datatype McpError = McpError(code: i32, message: string)

  /** A response line: `result` and `error` are left out of the JSON when `None`. */
  datatype McpResponse = McpResponse(jsonrpc: string, id: Json, result: Option<Json>, error: Option<McpError>)

  datatype Tool = Tool(name: string, description: string, inputSchema: Json)

  datatype Resource = Resource(uri: string, name: string, description: string, mimeType: string)

  datatype Prompt = Prompt(name: string, description: string)

  // Field declaration orders: serde's positional (array) form follows them.
  const RequestFields: seq<string> := ["jsonrpc", "id", "method", "params"]
  const InitializeFields: seq<string> := ["protocolVersion", "capabilities", "clientInfo"]
  const ClientInfoFields: seq<string> := ["name", "version"]
  const ToolCallFields: seq<string> := ["name", "arguments"]
  const ResourceReadFields: seq<string> := ["uri"]
  const PromptGetFields: seq<string> := ["name", "arguments"]
  const ResponseFields: seq<string> := ["jsonrpc", "id", "result", "error"]
  const ErrorFields: seq<string> := ["code", "message"]

  /* ---------------- serde's rules for the field types used here ---------------- */

  function MissingField(key: string): string {
    "missing field `" + key + "`"
  }

  function InvalidType(j: Json, expected: string): string {
    "invalid type: " + KindName(j) + ", expected " + expected
  }

  /** A deserialisation failure reads as one of serde's diagnostics. */
  predicate IsSerdeError(e: string) {
    "missing field `" <= e || "invalid " <= e
  }

  /** `String`: only a JSON string. */
  function AsString(j: Json): (r: Result<string>)
    ensures r.Ok? <==> j.Str?
    ensures r.Ok? ==> r.value == j.s
    ensures r.Err? ==> IsSerdeError(r.error)
  {
    if j.Str? then Ok(j.s) else Err(InvalidType(j, "a string"))
  }

  /** `HashMap<String, Value>`: only a JSON object. */
  function AsMap(j: Json): (r: Result<map<string, Json>>)
    ensures r.Ok? <==> j.Obj?
    ensures r.Ok? ==> r.value == j.fields
    ensures r.Err? ==> IsSerdeError(r.error)
  {
    if j.Obj? then Ok(j.fields) else Err(InvalidType(j, "a map"))
  }

  /** `Option<Value>`: null reads as `None`, anything else as `Some`. */
  function AsOptionalValue(j: Json): (r: Option<Json>)
    ensures r.None? <==> j == Null
    ensures r.Some? ==> r.value == j
  {
    if j.Null? then None else Some(j)
  }

  /** `Option<Value>` as a field: an absent field reads as `None` too. */
  function OptionalField(m: map<string, Json>, key: string): (r: Option<Json>)
    ensures r.None? <==> key !in m || m[key] == Null
    ensures r.Some? ==> r.value == m[key]
  {
    if key in m then AsOptionalValue(m[key]) else None
  }

  /** A field whose type has no default: it must be present. */
  function RequiredField(m: map<string, Json>, key: string): (r: Result<Json>)
    ensures r.Ok? <==> key in m
    ensures r.Ok? ==> r.value == m[key]
    ensures r.Err? ==> IsSerdeError(r.error)
  {
    if key in m then Ok(m[key]) else Err(MissingField(key))
  }

  /** No name occurs twice, as for the fields of a Rust struct. */
  predicate Distinct(names: seq<string>) {
    forall p, q :: 0 <= p < q < |names| ==> names[p] != names[q]
  }

  /** The array `items` read against the field names `names`, first to first:
      the i-th item becomes the value of the i-th field. */
  function Zip(names: seq<string>, items: seq<Json>): (m: map<string, Json>)
    requires |items| <= |names|
    ensures m.Keys == set i | 0 <= i < |items| :: names[i]
    ensures Distinct(names) ==> forall i :: 0 <= i < |items| ==> m[names[i]] == items[i]
  {
    if items == [] then map[]
    else
      var m := Zip(names[1..], items[1..]);
      assert Distinct(names) ==> Distinct(names[1..]) && forall i :: 1 <= i < |items| ==> names[i] != names[0] && names[i] == names[1..][i - 1];
      m[names[0] := items[0]]
  }

  /** The fields of a struct given either as a JSON object (by name; unknown
      keys are ignored) or, as serde also accepts, as a JSON array holding the
      fields in declaration order, where only the trailing `#[serde(default)]`
      fields (those from `required` on) may be left off. */
  function StructFields(j: Json, structName: string, names: seq<string>, required: nat): (r: Result<map<string, Json>>)
    requires required <= |names|
    ensures j.Obj? ==> r == Ok(j.fields)
    ensures j.Arr? ==> (r.Ok? <==> required <= |j.items| <= |names|)
    ensures j.Arr? && r.Ok? ==> r.value == Zip(names, j.items)
    ensures !j.Obj? && !j.Arr? ==> r.Err?
    ensures r.Err? ==> IsSerdeError(r.error)
  {
    match j
    case Obj(m) => Ok(m)
    case Arr(items) =>
      if required <= |items| <= |names| then Ok(Zip(names, items))
      else Err("invalid length, expected struct " + structName)
    case _ => Err(InvalidType(j, "struct " + structName))
  }

  /* ---------------- Deserialize ---------------- */

  /** `JsonRpcRequest`: `jsonrpc` and `method` must be strings (the version
      itself is not checked); `id` and `params` are optional. */
  function DecodeRequest(j: Json): (r: Result<JsonRpcRequest>)
    ensures j.Obj? ==>
      (r.Ok? <==> "jsonrpc" in j.fields && j.fields["jsonrpc"].Str? && "method" in j.fields && j.fields["method"].Str?)
    ensures j.Obj? && r.Ok? ==>
      r.value.jsonrpc == j.fields["jsonrpc"].s && r.value.methodName == j.fields["method"].s &&
      (r.value.id.None? <==> "id" !in j.fields || j.fields["id"] == Null) &&
      (r.value.params.None? <==> "params" !in j.fields || j.fields["params"] == Null) &&
      r.value.id == OptionalField(j.fields, "id") && r.value.params == OptionalField(j.fields, "params")
    ensures !j.Obj? && !j.Arr? ==> r.Err?
    ensures r.Err? ==> IsSerdeError(r.error)
  {
    var m :- StructFields(j, "JsonRpcRequest", RequestFields, 4);
    var version :- RequiredField(m, "jsonrpc");
    var jsonrpc :- AsString(version);
    var name :- RequiredField(m, "method");
    var methodName :- AsString(name);
    Ok(JsonRpcRequest(jsonrpc, OptionalField(m, "id"), methodName, OptionalField(m, "params")))
  }

  function DecodeClientInfo(j: Json): (r: Result<ClientInfo>)
    ensures j.Obj? ==>
      (r.Ok? <==> "name" in j.fields && j.fields["name"].Str? && "version" in j.fields && j.fields["version"].Str?)
    ensures r.Err? ==> IsSerdeError(r.error)
  {
    var m :- StructFields(j, "ClientInfo", ClientInfoFields, 2);
    var n :- RequiredField(m, "name");
    var name :- AsString(n);
    var v :- RequiredField(m, "version");
    var version :- AsString(v);
    Ok(ClientInfo(name, version))
  }

  /** `InitializeParams`: `protocolVersion` a string and `capabilities` an
      object, both required; `clientInfo` optional. */
  function DecodeInitializeParams(j: Json): (r: Result<InitializeParams>)
    ensures j.Obj? ==>
      (r.Ok? <==>
        "protocolVersion" in j.fields && j.fields["protocolVersion"].Str? &&
        "capabilities" in j.fields && j.fields["capabilities"].Obj? &&
        ("clientInfo" in j.fields && j.fields["clientInfo"] != Null ==> DecodeClientInfo(j.fields["clientInfo"]).Ok?))
    ensures r.Err? ==> IsSerdeError(r.error)
  {
    var m :- StructFields(j, "InitializeParams", InitializeFields, 3);
    var pv :- RequiredField(m, "protocolVersion");
    var protocolVersion :- AsString(pv);
    var caps :- RequiredField(m, "capabilities");
    var capabilities :- AsMap(caps);
    var clientInfo :- match OptionalField(m, "clientInfo")
      case None => Ok(None)
      case Some(c) => (var info :- DecodeClientInfo(c); Ok(Some(info)));
    Ok(InitializeParams(protocolVersion, capabilities, clientInfo))
  }

  /** `ToolCallParams`: `arguments` has no default, so it must be an object,
      possibly empty. */
  function DecodeToolCallParams(j: Json): (r: Result<ToolCallParams>)
    ensures j.Obj? ==>
      (r.Ok? <==> "name" in j.fields && j.fields["name"].Str? && "arguments" in j.fields && j.fields["arguments"].Obj?)
    ensures j.Obj? && r.Ok? ==>
      r.value == ToolCallParams(j.fields["name"].s, j.fields["arguments"].fields)
    ensures r.Err? ==> IsSerdeError(r.error)
  {
    var m :- StructFields(j, "ToolCallParams", ToolCallFields, 2);
    var n :- RequiredField(m, "name");
    var name :- AsString(n);
    var a :- RequiredField(m, "arguments");
    var arguments :- AsMap(a);
    Ok(ToolCallParams(name, arguments))
  }

  function DecodeResourceReadParams(j: Json): (r: Result<ResourceReadParams>)
    ensures j.Obj? ==> (r.Ok? <==> "uri" in j.fields && j.fields["uri"].Str?)
    ensures j.Obj? && r.Ok? ==> r.value.uri == j.fields["uri"].s
    ensures r.Err? ==> IsSerdeError(r.error)
  {
    var m :- StructFields(j, "ResourceReadParams", ResourceReadFields, 1);
    var u :- RequiredField(m, "uri");
    var uri :- AsString(u);
    Ok(ResourceReadParams(uri))
  }

  /** `PromptGetParams`: `arguments` defaults to `None` and may hold any value. */
  function DecodePromptGetParams(j: Json): (r: Result<PromptGetParams>)
    ensures j.Obj? ==> (r.Ok? <==> "name" in j.fields && j.fields["name"].Str?)
    ensures j.Obj? && r.Ok? ==> r.value.name == j.fields["name"].s
    ensures r.Err? ==> IsSerdeError(r.error)
  {
    var m :- StructFields(j, "PromptGetParams", PromptGetFields, 1);
    var n :- RequiredField(m, "name");
    var name :- AsString(n);
    Ok(PromptGetParams(name, OptionalField(m, "arguments")))
  }

  /** A JSON number that an `i32` can hold: whole and within range. */
  predicate IsI32(j: Json) {
    j.Num? && j.n.Floor as real == j.n && -0x8000_0000 <= j.n.Floor < 0x8000_0000
  }

  /** `McpError`: the code must be a whole number within `i32`. */
  function DecodeError(j: Json): (r: Result<McpError>)
    ensures j.Obj? ==>
      (r.Ok? <==> "code" in j.fields && IsI32(j.fields["code"]) && "message" in j.fields && j.fields["message"].Str?)
    ensures j.Obj? && r.Ok? ==>
      r.value.code as real == j.fields["code"].n && r.value.message == j.fields["message"].s
    ensures r.Err? ==> IsSerdeError(r.error)
  {
    var m :- StructFields(j, "McpError", ErrorFields, 2);
    var c :- RequiredField(m, "code");
    var code :- if IsI32(c)
      then Ok(c.n.Floor as i32) else Err(InvalidType(c, "i32"));
    var msg :- RequiredField(m, "message");
    var message :- AsString(msg);
    Ok(McpError(code, message))
  }

  /** `McpResponse`: `id` is a plain `Value`, so it must be present (null is a
      value); `result` and `error` are optional. */
  function DecodeResponse(j: Json): (r: Result<McpResponse>)
    ensures j.Obj? ==>
      (r.Ok? <==>
         "jsonrpc" in j.fields && j.fields["jsonrpc"].Str? && "id" in j.fields &&
         (OptionalField(j.fields, "error").Some? ==> DecodeError(j.fields["error"]).Ok?))
    ensures j.Obj? && r.Ok? ==>
      r.value.jsonrpc == j.fields["jsonrpc"].s && r.value.id == j.fields["id"] &&
      r.value.result == OptionalField(j.fields, "result") &&
      (r.value.error.Some? <==> OptionalField(j.fields, "error").Some?)
    ensures r.Err? ==> IsSerdeError(r.error)
  {
    var m :- StructFields(j, "McpResponse", ResponseFields, 4);
    var version :- RequiredField(m, "jsonrpc");
    var jsonrpc :- AsString(version);
    var id :- RequiredField(m, "id");
    var error :- match OptionalField(m, "error")
      case None => Ok(None)
      case Some(e) => (var err :- DecodeError(e); Ok(Some(err)));
    Ok(McpResponse(jsonrpc, id, OptionalField(m, "result"), error))
  }

  /* ---------------- Serialize ---------------- */

  /** `Option<Value>` serialises `None` as null. */
  function OptionToJson(o: Option<Json>): Json {
    if o.Some? then o.value else Null
  }

  /** `JsonRpcRequest` has no `skip_serializing_if`: absent fields become null. */
  function RequestToJson(r: JsonRpcRequest): (j: Json)
    ensures j.Obj? && j.fields.Keys == {"jsonrpc", "id", "method", "params"}
    ensures j.fields["jsonrpc"] == Str(r.jsonrpc) && j.fields["method"] == Str(r.methodName)
    ensures r.id.None? ==> j.fields["id"] == Null
    ensures r.params.None? ==> j.fields["params"] == Null
    ensures r.id.Some? ==> j.fields["id"] == r.id.value
    ensures r.params.Some? ==> j.fields["params"] == r.params.value
  {
    Obj(map["jsonrpc" := Str(r.jsonrpc), "id" := OptionToJson(r.id), "method" := Str(r.methodName),
            "params" := OptionToJson(r.params)])
  }

  function ErrorToJson(e: McpError): Json {
    Obj(map["code" := Num(e.code as real), "message" := Str(e.message)])
  }

  /** `McpResponse`: `result` and `error` are written only when present. */
  function ResponseToJson(r: McpResponse): (j: Json)
    ensures j.Obj? && "jsonrpc" in j.fields && "id" in j.fields
    ensures j.fields["jsonrpc"] == Str(r.jsonrpc) && j.fields["id"] == r.id
    ensures "result" in j.fields <==> r.result.Some?
    ensures "error" in j.fields <==> r.error.Some?
    ensures r.result.Some? ==> j.fields["result"] == r.result.value
    ensures r.error.Some? ==> j.fields["error"] == ErrorToJson(r.error.value)
    ensures j.fields.Keys <= {"jsonrpc", "id", "result", "error"}
  {
    var head := map["jsonrpc" := Str(r.jsonrpc), "id" := r.id];
    var withResult := if r.result.Some? then head["result" := r.result.value] else head;
    Obj(if r.error.Some? then withResult["error" := ErrorToJson(r.error.value)] else withResult)
  }

  /* ---------------- round trips ---------------- */

  /** A request survives serialisation and deserialisation exactly when it
      does not carry an explicit null as `id` or `params` (those read back as
      absent). */
  lemma RequestRoundTrip(r: JsonRpcRequest)
    ensures DecodeRequest(RequestToJson(r)) == Ok(r) <==> r.id != Some(Null) && r.params != Some(Null)
  {
  }

  /** A response survives serialisation and deserialisation exactly when its
      result is not an explicit null. */
  lemma ResponseRoundTrip(r: McpResponse)
    ensures DecodeResponse(ResponseToJson(r)) == Ok(r) <==> r.result != Some(Null)
  {
  }

  /** serde also reads a struct from an array holding its fields in
      declaration order: `["echo", {...}]` is valid `tools/call` params, a
      one-element array is not. */
  lemma ToolCallParamsPositional(name: string, arguments: map<string, Json>)
    ensures DecodeToolCallParams(Arr([Str(name), Obj(arguments)])) == Ok(ToolCallParams(name, arguments))
    ensures DecodeToolCallParams(Arr([Str(name)])).Err?
  {
    assert Zip(ToolCallFields, [Str(name), Obj(arguments)]) == map["name" := Str(name), "arguments" := Obj(arguments)];
  }
}
