/** The MCP server of src/server.rs: fixed descriptor tables built once, and
    one handler per protocol method. Every handler except `initialized` is a
    function of the request; `initialized` writes three notifications to
    standard output and answers nothing. */
module Server {
  import opened Wrappers
  import opened JsonValue
  import opened Types
  import Stdio

  /** The server's state: three tables that no handler ever changes. */
  datatype McpServer = McpServer(tools: seq<Tool>, resources: seq<Resource>, prompts: seq<Prompt>)

  const Version: string := "2.0"
  const ProtocolVersion: string := "2024-11-05"
  const ExampleUri: string := "file:///example.txt"
  const ExampleText: string :=
    "This is an example text file content.\nIt contains some sample text for demonstration purposes."
  const HelloText: string := "Hello from leap-mcp prompts!"

  /** The method names the dispatcher knows, matched exactly. */
  const Methods: set<string> :=
    {"initialize", "tools/list", "tools/call", "resources/list", "resources/read",
     "prompts/list", "prompts/get", "initialized"}

  const EchoSchema: Json :=
    Obj(map[
      "type" := Str("object"),
      "properties" := Obj(map[
        "message" := Obj(map["type" := Str("string"), "description" := Str("The message to echo")])]),
      "required" := Arr([Str("message")])])

  const AddSchema: Json :=
    Obj(map[
      "type" := Str("object"),
      "properties" := Obj(map[
        "a" := Obj(map["type" := Str("number"), "description" := Str("First number")]),
        "b" := Obj(map["type" := Str("number"), "description" := Str("Second number")])]),
      "required" := Arr([Str("a"), Str("b")])])

  /** Every name and URI keys at most one descriptor of its table. */
  predicate UniqueKeys(s: McpServer) {
    (forall i, j :: 0 <= i < j < |s.tools| ==> s.tools[i].name != s.tools[j].name) &&
    (forall i, j :: 0 <= i < j < |s.resources| ==> s.resources[i].uri != s.resources[j].uri) &&
    (forall i, j :: 0 <= i < j < |s.prompts| ==> s.prompts[i].name != s.prompts[j].name)
  }

  /** `McpServer::new`: the tools `echo` and `add`, one resource and one prompt. */
  function New(): (s: McpServer)
    ensures UniqueKeys(s)
    ensures |s.tools| == 2 && s.tools[0].name == "echo" && s.tools[1].name == "add"
    ensures |s.resources| == 1 && s.resources[0].uri == ExampleUri
    ensures |s.prompts| == 1 && s.prompts[0].name == "hello"
  {
    McpServer(
      [Tool("echo", "Echoes back the input message", EchoSchema),
       Tool("add", "Adds two numbers together", AddSchema)],
      [Resource(ExampleUri, "Example File", "An example text file", "text/plain")],
      [Prompt("hello", "Returns a friendly greeting")])
  }

  /* ---------------- responses ---------------- */

  /** The id a successful response carries: the request's, or null without one. */
  function IdOrNull(id: Option<Json>): Json {
    id.GetOr(Null)
  }

  function Success(id: Option<Json>, result: Json): McpResponse {
    McpResponse(Version, IdOrNull(id), Some(result), None)
  }

  /** `resp` answers a request that carried `id`: version 2.0, the request's id
      (null when it had none), a result and no error. */
  predicate Answers(resp: McpResponse, id: Option<Json>) {
    resp.jsonrpc == "2.0" &&
    (id.Some? ==> resp.id == id.value) && (id.None? ==> resp.id == Null) &&
    resp.result.Some? && resp.error.None?
  }

  /** The single result a handler's outcome carries, if it answered. */
  function ResultOf(r: Result<Option<McpResponse>>): Option<Json> {
    if r.Ok? && r.value.Some? && r.value.value.result.Some? then Some(r.value.value.result.value) else None
  }

  /* ---------------- initialize ---------------- */

  const InitializeResult: Json :=
    Obj(map[
      "protocolVersion" := Str(ProtocolVersion),
      "capabilities" := Obj(map[
        "tools" := Obj(map["listChanged" := Bool(true)]),
        "resources" := Obj(map["listChanged" := Bool(true)]),
        "prompts" := Obj(map["listChanged" := Bool(true)])]),
      "serverInfo" := Obj(map["name" := Str("leap-mcp"), "version" := Str("0.1.0")])])

  /** `initialize`: absent params are read as `{}`; whatever version the client
      asks for, the answer announces the server's own. */
  function HandleInitialize(request: JsonRpcRequest): (r: Result<Option<McpResponse>>)
    ensures r.Ok? <==> DecodeInitializeParams(request.params.GetOr(EmptyObject)).Ok?
    ensures request.params.None? ==> r == Err(MissingField("protocolVersion"))
    ensures r.Ok? ==> r.value.Some? && Answers(r.value.value, request.id) && ResultOf(r) == Some(InitializeResult)
    ensures r.Err? ==> r.error == DecodeInitializeParams(request.params.GetOr(EmptyObject)).error
  {
    var _ :- DecodeInitializeParams(request.params.GetOr(EmptyObject));
    Ok(Some(Success(request.id, InitializeResult)))
  }

  /* ---------------- the list handlers ---------------- */

  function ToolJson(t: Tool): Json {
    Obj(map["name" := Str(t.name), "description" := Str(t.description), "inputSchema" := t.inputSchema])
  }

  function ResourceJson(r: Resource): Json {
    Obj(map["uri" := Str(r.uri), "name" := Str(r.name), "description" := Str(r.description),
            "mimeType" := Str(r.mimeType)])
  }

  function PromptJson(p: Prompt): Json {
    Obj(map["name" := Str(p.name), "description" := Str(p.description)])
  }

  /** `result` is an object whose one field `key` lists `n` entries. */
  predicate ListsUnder(result: Json, key: string, n: nat) {
    result.Obj? && result.fields.Keys == {key} && result.fields[key].Arr? && |result.fields[key].items| == n
  }

  /** `tools/list`: every tool, in table order, projected to its name,
      description and input schema. */
  function HandleToolsList(server: McpServer, request: JsonRpcRequest): (r: Result<Option<McpResponse>>)
    ensures r.Ok? && r.value.Some? && Answers(r.value.value, request.id)
    ensures ListsUnder(ResultOf(r).value, "tools", |server.tools|)
    ensures forall i :: 0 <= i < |server.tools| ==> ResultOf(r).value.fields["tools"].items[i] == ToolJson(server.tools[i])
  {
    var items := seq(|server.tools|, i requires 0 <= i < |server.tools| => ToolJson(server.tools[i]));
    Ok(Some(Success(request.id, Obj(map["tools" := Arr(items)]))))
  }

  /** `resources/list`: every resource, in table order, with its uri, name,
      description and MIME type. */
  function HandleResourcesList(server: McpServer, request: JsonRpcRequest): (r: Result<Option<McpResponse>>)
    ensures r.Ok? && r.value.Some? && Answers(r.value.value, request.id)
    ensures ListsUnder(ResultOf(r).value, "resources", |server.resources|)
    ensures forall i :: 0 <= i < |server.resources| ==>
      ResultOf(r).value.fields["resources"].items[i] == ResourceJson(server.resources[i])
  {
    var items := seq(|server.resources|, i requires 0 <= i < |server.resources| => ResourceJson(server.resources[i]));
    Ok(Some(Success(request.id, Obj(map["resources" := Arr(items)]))))
  }

  /** `prompts/list`: every prompt, in table order, with its name and description. */
  function HandlePromptsList(server: McpServer, request: JsonRpcRequest): (r: Result<Option<McpResponse>>)
    ensures r.Ok? && r.value.Some? && Answers(r.value.value, request.id)
    ensures ListsUnder(ResultOf(r).value, "prompts", |server.prompts|)
    ensures forall i :: 0 <= i < |server.prompts| ==>
      ResultOf(r).value.fields["prompts"].items[i] == PromptJson(server.prompts[i])
  {
    var items := seq(|server.prompts|, i requires 0 <= i < |server.prompts| => PromptJson(server.prompts[i]));
    Ok(Some(Success(request.id, Obj(map["prompts" := Arr(items)]))))
  }

  /* ---------------- tools/call ---------------- */

  /** `arguments[key]` is present and is a JSON number (`as_f64` accepts every number). */
  predicate HasNumber(arguments: map<string, Json>, key: string) {
    key in arguments && arguments[key].Num?
  }

  /** The text of `add`: `"{} + {} = {}"` with each number rendered by
      `display`, the host's float-to-string conversion. */
  function AddText(a: real, b: real, display: real -> string): string {
    display(a) + " + " + display(b) + " = " + display(a + b)
  }

  /** `execute_tool`: `echo` needs a string `message`; `add` needs numbers `a`
      and `b`, checked in that order; any other name is unknown. */
  function ExecuteTool(name: string, arguments: map<string, Json>, display: real -> string): (r: Result<string>)
    ensures name == "echo" ==>
      (r.Ok? <==> "message" in arguments && arguments["message"].Str?) &&
      (r.Ok? ==> r.value == "Echo: " + arguments["message"].s) &&
      (r.Err? ==> r.error == "Missing 'message' argument")
    ensures name == "add" ==>
      (!HasNumber(arguments, "a") ==> r == Err("Missing 'a' argument")) &&
      (HasNumber(arguments, "a") && !HasNumber(arguments, "b") ==> r == Err("Missing 'b' argument")) &&
      (HasNumber(arguments, "a") && HasNumber(arguments, "b") ==>
        r == Ok(AddText(arguments["a"].n, arguments["b"].n, display)))
    ensures name != "echo" && name != "add" ==> r == Err("Unknown tool: " + name)
  {
    match name
    case "echo" =>
      if "message" in arguments && arguments["message"].Str? then Ok("Echo: " + arguments["message"].s)
      else Err("Missing 'message' argument")
    case "add" =>
      if !HasNumber(arguments, "a") then Err("Missing 'a' argument")
      else if !HasNumber(arguments, "b") then Err("Missing 'b' argument")
      else Ok(AddText(arguments["a"].n, arguments["b"].n, display))
    case _ => Err("Unknown tool: " + name)
  }

  /** The result of a successful tool call. */
  function ToolResult(text: string): Json {
    Obj(map["content" := Arr([Obj(map["type" := Str("text"), "text" := Str(text)])]), "isError" := Bool(false)])
  }

  /** `result` holds exactly one text item, `text`, and is not flagged as an error. */
  predicate IsTextContent(result: Json, text: string) {
    result.Obj? && result.fields.Keys == {"content", "isError"} &&
    result.fields["isError"] == Bool(false) &&
    result.fields["content"] == Arr([Obj(map["type" := Str("text"), "text" := Str(text)])])
  }

  /** `tools/call`: params are required; a tool's failure fails the request
      rather than being reported in-band with `isError: true`. */
  function HandleToolsCall(request: JsonRpcRequest, display: real -> string): (r: Result<Option<McpResponse>>)
    ensures request.params.None? ==> r == Err("Missing params")
    ensures r.Ok? <==>
      request.params.Some? && DecodeToolCallParams(request.params.value).Ok? &&
      (var p := DecodeToolCallParams(request.params.value).value; ExecuteTool(p.name, p.arguments, display).Ok?)
    ensures r.Ok? ==>
      r.value.Some? && Answers(r.value.value, request.id) &&
      (var p := DecodeToolCallParams(request.params.value).value;
       IsTextContent(ResultOf(r).value, ExecuteTool(p.name, p.arguments, display).value))
    ensures request.params.Some? && DecodeToolCallParams(request.params.value).Err? ==>
      r == Err(DecodeToolCallParams(request.params.value).error)
    ensures request.params.Some? && DecodeToolCallParams(request.params.value).Ok? ==>
      var p := DecodeToolCallParams(request.params.value).value;
      ExecuteTool(p.name, p.arguments, display).Err? ==> r == Err(ExecuteTool(p.name, p.arguments, display).error)
  {
    if request.params.None? then Err("Missing params")
    else
      var params :- DecodeToolCallParams(request.params.value);
      var text :- ExecuteTool(params.name, params.arguments, display);
      Ok(Some(Success(request.id, ToolResult(text))))
  }

  /* ---------------- resources/read ---------------- */

  /** `read_resource`: only the example file exists. */
  function ReadResource(uri: string): (r: Result<string>)
    ensures r.Ok? <==> uri == ExampleUri
    ensures r.Ok? ==> r.value == ExampleText
    ensures r.Err? ==> r.error == "Resource not found: " + uri
  {
    match uri
    case "file:///example.txt" => Ok(ExampleText)
    case _ => Err("Resource not found: " + uri)
  }

  /** `resources/read`: the one content entry echoes the uri asked for and
      always claims `text/plain`, whatever the descriptor says. */
  function HandleResourcesRead(request: JsonRpcRequest): (r: Result<Option<McpResponse>>)
    ensures request.params.None? ==> r == Err("Missing params")
    ensures r.Ok? <==>
      request.params.Some? && DecodeResourceReadParams(request.params.value).Ok? &&
      DecodeResourceReadParams(request.params.value).value.uri == ExampleUri
    ensures r.Ok? ==>
      r.value.Some? && Answers(r.value.value, request.id) &&
      ResultOf(r).value == Obj(map["contents" := Arr([
        Obj(map["uri" := Str(ExampleUri), "mimeType" := Str("text/plain"), "text" := Str(ExampleText)])])])
    ensures request.params.Some? && DecodeResourceReadParams(request.params.value).Ok? ==>
      var uri := DecodeResourceReadParams(request.params.value).value.uri;
      uri != ExampleUri ==> r == Err("Resource not found: " + uri)
    ensures request.params.Some? && DecodeResourceReadParams(request.params.value).Err? ==>
      r == Err(DecodeResourceReadParams(request.params.value).error)
  {
    if request.params.None? then Err("Missing params")
    else
      var params :- DecodeResourceReadParams(request.params.value);
      var content :- ReadResource(params.uri);
      Ok(Some(Success(request.id, Obj(map["contents" := Arr([
        Obj(map["uri" := Str(params.uri), "mimeType" := Str("text/plain"), "text" := Str(content)])])]))))
  }

  /* ---------------- prompts/get ---------------- */

  /** `prompts/get`: only `hello` is known; the prompt's `arguments` are never read. */
  function HandlePromptsGet(request: JsonRpcRequest): (r: Result<Option<McpResponse>>)
    ensures request.params.None? ==> r == Err("Missing params")
    ensures r.Ok? <==>
      request.params.Some? && DecodePromptGetParams(request.params.value).Ok? &&
      DecodePromptGetParams(request.params.value).value.name == "hello"
    ensures r.Ok? ==>
      r.value.Some? && Answers(r.value.value, request.id) &&
      ResultOf(r).value == Obj(map["messages" := Arr([
        Obj(map["role" := Str("user"), "content" := Arr([Obj(map["type" := Str("text"), "text" := Str(HelloText)])])])])])
    ensures request.params.Some? && DecodePromptGetParams(request.params.value).Ok? ==>
      var name := DecodePromptGetParams(request.params.value).value.name;
      name != "hello" ==> r == Err("Unknown prompt: " + name)
    ensures request.params.Some? && DecodePromptGetParams(request.params.value).Err? ==>
      r == Err(DecodePromptGetParams(request.params.value).error)
  {
    if request.params.None? then Err("Missing params")
    else
      var params :- DecodePromptGetParams(request.params.value);
      var text :- match params.name
        case "hello" => Ok(HelloText)
        case _ => Err("Unknown prompt: " + params.name);
      Ok(Some(Success(request.id, Obj(map["messages" := Arr([
        Obj(map["role" := Str("user"), "content" := Arr([Obj(map["type" := Str("text"), "text" := Str(text)])])])])]))))
  }

  /* ---------------- initialized ---------------- */

  /** A server-to-client notification line: no id, so no reply is expected. */
  function NotificationJson(methodName: string, params: Json): Json {
    Obj(map["jsonrpc" := Str(Version), "method" := Str(methodName), "params" := params])
  }

  /** What `initialized` writes, in order. */
  const InitializedNotifications: seq<Json> := [
    NotificationJson("tools/listChanged", EmptyObject),
    NotificationJson("resources/listChanged", EmptyObject),
    NotificationJson("prompts/listChanged", EmptyObject)]

  /** The lines a request makes the server write while it is handled. */
  function SideEffects(request: JsonRpcRequest): seq<Json> {
    if request.methodName == "initialized" then InitializedNotifications else []
  }

  /** `send_notification`: one line on standard output. */
  method SendNotification(stdout: Stdio.LineWriter, methodName: string, params: Json)
    modifies stdout
    ensures stdout.lines == old(stdout.lines) + [NotificationJson(methodName, params)]
  {
    stdout.WriteLine(NotificationJson(methodName, params));
  }

  /** `initialized`: announces that all three lists changed, and answers nothing. */
  method HandleInitialized(stdout: Stdio.LineWriter) returns (r: Result<Option<McpResponse>>)
    modifies stdout
    ensures r == Ok(None)
    ensures stdout.lines == old(stdout.lines) + InitializedNotifications
  {
    SendNotification(stdout, "tools/listChanged", EmptyObject);
    SendNotification(stdout, "resources/listChanged", EmptyObject);
    SendNotification(stdout, "prompts/listChanged", EmptyObject);
    r := Ok(None);
  }

  /* ---------------- dispatch ---------------- */

  function UnknownMethod(methodName: string): string {
    "Unknown method: " + methodName
  }

  /** The messages a known method's handler can fail with. */
  predicate IsHandlerError(e: string) {
    IsSerdeError(e) || e == "Missing params" || e == "Missing 'message' argument" ||
    e == "Missing 'a' argument" || e == "Missing 'b' argument" ||
    "Unknown tool: " <= e || "Resource not found: " <= e || "Unknown prompt: " <= e
  }

  /** `handle_request` as a function of the request: an exact, case-sensitive
      match on the method name. */
  function Dispatch(server: McpServer, request: JsonRpcRequest, display: real -> string): (r: Result<Option<McpResponse>>)
    ensures request.methodName !in Methods ==> r == Err(UnknownMethod(request.methodName))
    ensures r == Ok(None) <==> request.methodName == "initialized"
    ensures r.Ok? && r.value.Some? ==> Answers(r.value.value, request.id)
    ensures request.methodName in Methods && r.Err? ==> IsHandlerError(r.error)
  {
    match request.methodName
    case "initialize" => HandleInitialize(request)
    case "tools/list" => HandleToolsList(server, request)
    case "tools/call" => HandleToolsCall(request, display)
    case "resources/list" => HandleResourcesList(server, request)
    case "resources/read" => HandleResourcesRead(request)
    case "prompts/list" => HandlePromptsList(server, request)
    case "prompts/get" => HandlePromptsGet(request)
    case "initialized" => Ok(None)
    case _ => Err(UnknownMethod(request.methodName))
  }

  /** `handle_request`: the outcome `Dispatch` gives, and the notifications of
      `initialized` written before it returns. */
  method HandleRequest(server: McpServer, request: JsonRpcRequest, display: real -> string, stdout: Stdio.LineWriter)
    returns (r: Result<Option<McpResponse>>)
    modifies stdout
    ensures r == Dispatch(server, request, display)
    ensures stdout.lines == old(stdout.lines) + SideEffects(request)
  {
    if request.methodName == "initialized" {
      r := HandleInitialized(stdout);
    } else {
      r := Dispatch(server, request, display);
    }
  }

  /* ---------------- properties ---------------- */

  /** Each answering method is answered by its own handler. */
  lemma DispatchRoutes(server: McpServer, request: JsonRpcRequest, display: real -> string)
    ensures var r := Dispatch(server, request, display);
      (request.methodName == "initialize" ==> r == HandleInitialize(request)) &&
      (request.methodName == "tools/list" ==> r == HandleToolsList(server, request)) &&
      (request.methodName == "tools/call" ==> r == HandleToolsCall(request, display)) &&
      (request.methodName == "resources/list" ==> r == HandleResourcesList(server, request)) &&
      (request.methodName == "resources/read" ==> r == HandleResourcesRead(request)) &&
      (request.methodName == "prompts/list" ==> r == HandlePromptsList(server, request)) &&
      (request.methodName == "prompts/get" ==> r == HandlePromptsGet(request))
  {
  }

  /** No handler failure reads like an unknown method. */
  lemma HandlerErrorIsNotUnknownMethod(e: string, m: string)
    requires IsHandlerError(e)
    ensures e != UnknownMethod(m)
  {
    var u := UnknownMethod(m);
    assert u[0] == 'U' && u[8] == 'm';
  }

  /** A request fails with "Unknown method" exactly when its method is not one
      of the eight names. */
  lemma DispatchRejectsExactlyUnknown(server: McpServer, request: JsonRpcRequest, display: real -> string)
    ensures Dispatch(server, request, display) == Err(UnknownMethod(request.methodName)) <==> request.methodName !in Methods
  {
    var r := Dispatch(server, request, display);
    if request.methodName in Methods && r.Err? {
      HandlerErrorIsNotUnknownMethod(r.error, request.methodName);
    }
  }

  function ToolNames(s: McpServer): seq<string> {
    seq(|s.tools|, i requires 0 <= i < |s.tools| => s.tools[i].name)
  }

  function ResourceUris(s: McpServer): seq<string> {
    seq(|s.resources|, i requires 0 <= i < |s.resources| => s.resources[i].uri)
  }

  function PromptNames(s: McpServer): seq<string> {
    seq(|s.prompts|, i requires 0 <= i < |s.prompts| => s.prompts[i].name)
  }

  /** `tools/list` advertises exactly the tools `execute_tool` knows. */
  lemma ListedToolsAreExactlyExecutable(name: string, arguments: map<string, Json>, display: real -> string)
    ensures name in ToolNames(New()) <==> ExecuteTool(name, arguments, display) != Err("Unknown tool: " + name)
  {
    assert ToolNames(New()) == ["echo", "add"];
    var r := ExecuteTool(name, arguments, display);
    if name in ToolNames(New()) && r.Err? {
      assert r.error[0] == 'M' && ("Unknown tool: " + name)[0] == 'U';
    }
  }

  /** `resources/list` advertises exactly the uris `read_resource` can read,
      and the descriptor's MIME type is the one the read answer claims. */
  lemma ListedResourcesAreExactlyReadable(uri: string)
    ensures uri in ResourceUris(New()) <==> ReadResource(uri).Ok?
    ensures forall i :: 0 <= i < |New().resources| ==> New().resources[i].mimeType == "text/plain"
  {
    assert ResourceUris(New()) == [ExampleUri];
  }

  /** The request `prompts/get` with params `{"name": name}`. */
  function PromptGetRequest(id: Option<Json>, name: string): JsonRpcRequest {
    JsonRpcRequest(Version, id, "prompts/get", Some(Obj(map["name" := Str(name)])))
  }

  /** `prompts/list` advertises exactly the prompts `prompts/get` answers. */
  lemma ListedPromptsAreExactlyAnswered(id: Option<Json>, name: string)
    ensures name in PromptNames(New()) <==> HandlePromptsGet(PromptGetRequest(id, name)).Ok?
  {
    assert PromptNames(New()) == ["hello"];
  }

  /** The prompt's `arguments` never change the answer of `prompts/get`. */
  lemma PromptArgumentsIgnored(id: Option<Json>, m1: map<string, Json>, m2: map<string, Json>)
    requires m1 - {"arguments"} == m2 - {"arguments"}
    ensures HandlePromptsGet(JsonRpcRequest(Version, id, "prompts/get", Some(Obj(m1)))) ==
            HandlePromptsGet(JsonRpcRequest(Version, id, "prompts/get", Some(Obj(m2))))
  {
    var d1, d2 := DecodePromptGetParams(Obj(m1)), DecodePromptGetParams(Obj(m2));
    if "name" in m1 {
      assert "name" in (m1 - {"arguments"});
      assert "name" in m2 && m1["name"] == (m1 - {"arguments"})["name"] == m2["name"];
    } else {
      assert "name" !in (m1 - {"arguments"});
    }
    assert d1.Ok? <==> d2.Ok?;
    assert d1.Ok? ==> d1.value.name == d2.value.name;
  }

  /** `tools/call` needs an `arguments` object: without one the call fails to
      deserialise, while an empty one is accepted. */
  lemma ToolArgumentsRequired(id: Option<Json>, name: string, display: real -> string)
    ensures HandleToolsCall(JsonRpcRequest(Version, id, "tools/call", Some(Obj(map["name" := Str(name)]))), display)
            == Err(MissingField("arguments"))
    ensures DecodeToolCallParams(Obj(map["name" := Str(name), "arguments" := EmptyObject]))
            == Ok(ToolCallParams(name, map[]))
  {
  }

  /** `echo` with `message` "hi" answers "Echo: hi". */
  lemma EchoHi(display: real -> string)
    ensures ExecuteTool("echo", map["message" := Str("hi")], display) == Ok("Echo: hi")
  {
    assert "Echo: " + "hi" == "Echo: hi";
  }

  /** `add` with a = 2 and b = 3 answers "2 + 3 = 5" under a display that
      prints whole numbers without a fraction. */
  lemma AddTwoThree(display: real -> string)
    requires display(2.0) == "2" && display(3.0) == "3" && display(5.0) == "5"
    ensures ExecuteTool("add", map["a" := Num(2.0), "b" := Num(3.0)], display) == Ok("2 + 3 = 5")
  {
    assert 2.0 + 3.0 == 5.0;
    assert "2" + " + " + "3" + " = " + "5" == "2 + 3 = 5";
  }
}
