/** The transport loop of src/main.rs: read standard input line by line, skip
    blank lines, parse each other line as a request, hand it to the server and
    write what comes back, one JSON value per output line. */
module Transport {
  import opened Wrappers
  import opened JsonValue
  import opened Types
  import opened Text
  import opened Server
  import Stdio

  /** The reserved codes of section 5.1 of the JSON-RPC 2.0 specification. */
  const ParseErrorCode: i32 := -32700
  const InternalErrorCode: i32 := -32603

  /** The answer to a line that is not a request; it carries the sentinel id
      "parse_error". */
  function ParseErrorResponse(diagnostic: string): McpResponse {
    McpResponse(Version, Str("parse_error"), None, Some(McpError(ParseErrorCode, "Parse error: " + diagnostic)))
  }

  /** The answer to a request whose handler failed; without a request id it
      carries the sentinel id "error". */
  function InternalErrorResponse(id: Option<Json>, message: string): McpResponse {
    McpResponse(Version, id.GetOr(Str("error")), None, Some(McpError(InternalErrorCode, "Internal error: " + message)))
  }

  /** `serde_json::from_str::<JsonRpcRequest>`: the text is parsed to a JSON
      value by `parse` (which returns the parser's diagnostic on failure), and
      that value is deserialised. */
  function FromStr(parse: string -> Result<Json>, text: string): (r: Result<JsonRpcRequest>)
    ensures parse(text).Err? ==> r == Err(parse(text).error)
    ensures parse(text).Ok? ==> r == DecodeRequest(parse(text).value)
    ensures parse(text).Ok? && parse(text).value.Obj? ==>
      (r.Ok? <==> "jsonrpc" in parse(text).value.fields && parse(text).value.fields["jsonrpc"].Str? &&
                  "method" in parse(text).value.fields && parse(text).value.fields["method"].Str?)
  {
    var j :- parse(text);
    DecodeRequest(j)
  }

  /** A response line: version 2.0, an id, and exactly one of result and error. */
  predicate IsResponseLine(j: Json) {
    j.Obj? && "jsonrpc" in j.fields && j.fields["jsonrpc"] == Str("2.0") && "id" in j.fields &&
    ("result" in j.fields <==> "error" !in j.fields)
  }

  /** A notification line: a method and no id. */
  predicate IsNotificationLine(j: Json) {
    j.Obj? && "id" !in j.fields && "method" in j.fields
  }

  /** What the loop writes for one non-blank line, `trimmed` being the line
      without surrounding whitespace: notifications the handler sends, then its
      response, if any. */
  function LineOutput(trimmed: string, parse: string -> Result<Json>, display: real -> string): (out: seq<Json>)
    ensures |out| == if FromStr(parse, trimmed).Ok? && FromStr(parse, trimmed).value.methodName == "initialized" then 3 else 1
    ensures forall k :: 0 <= k < |out| ==> IsResponseLine(out[k]) || IsNotificationLine(out[k])
  {
    match FromStr(parse, trimmed)
    case Err(e) => [ResponseToJson(ParseErrorResponse(e))]
    case Ok(request) =>
      SideEffects(request) +
      match Dispatch(New(), request, display)
      case Ok(Some(response)) => [ResponseToJson(response)]
      case Ok(None) => []
      case Err(e) => [ResponseToJson(InternalErrorResponse(request.id, e))]
  }

  /** Everything the loop writes for the unread input `input` when the line
      buffer already holds `buf`. A blank line is skipped without clearing the
      buffer, so its whitespace stays in front of the next line. */
  function Transcript(buf: string, input: string, parse: string -> Result<Json>, display: real -> string): seq<Json>
    decreases |input|
  {
    if input == [] then []
    else
      var (chunk, rest) := Stdio.SplitLine(input);
      var line := buf + chunk;
      if Trim(line) == [] then Transcript(line, rest, parse, display)
      else LineOutput(Trim(line), parse, display) + Transcript([], rest, parse, display)
  }

  /** One turn of the loop: the line read, skipped when blank, answered
      otherwise. */
  lemma TranscriptStep(buf: string, input: string, parse: string -> Result<Json>, display: real -> string)
    requires input != []
    ensures var (chunk, rest) := Stdio.SplitLine(input);
      Transcript(buf, input, parse, display) ==
        if Trim(buf + chunk) == [] then Transcript(buf + chunk, rest, parse, display)
        else LineOutput(Trim(buf + chunk), parse, display) + Transcript([], rest, parse, display)
  {
  }

  lemma Associative(a: seq<Json>, b: seq<Json>, c: seq<Json>)
    ensures (a + b) + c == a + (b + c)
  {
  }

  /** The body of the loop for a non-blank line: parse it, dispatch it, and
      write the response, a parse error or an internal error. */
  method HandleLine(server: McpServer, trimmed: string, parse: string -> Result<Json>, display: real -> string,
                    stdout: Stdio.LineWriter)
    requires server == New()
    modifies stdout
    ensures stdout.lines == old(stdout.lines) + LineOutput(trimmed, parse, display)
  {
    match FromStr(parse, trimmed) {
      case Ok(request) =>
        var requestId := request.id;
        var outcome := HandleRequest(server, request, display, stdout);
        match outcome {
          case Ok(Some(response)) =>
            stdout.WriteLine(ResponseToJson(response));
          case Ok(None) =>
          case Err(e) =>
            stdout.WriteLine(ResponseToJson(InternalErrorResponse(requestId, e)));
        }
      case Err(e) =>
        stdout.WriteLine(ResponseToJson(ParseErrorResponse(e)));
    }
  }

  /** The `while stdin.read_line(&mut line)` loop of `main`: it runs until a
      read returns nothing and writes exactly what `Transcript` says. */
  method Serve(stdin: Stdio.LineReader, stdout: Stdio.LineWriter, parse: string -> Result<Json>, display: real -> string)
    modifies stdin, stdout
    ensures stdout.lines == old(stdout.lines) + Transcript([], old(stdin.remaining), parse, display)
    ensures stdin.remaining == []
  {
    var server := New();
    var line: string := [];
    while true
      invariant stdout.lines + Transcript(line, stdin.remaining, parse, display)
                == old(stdout.lines) + Transcript([], old(stdin.remaining), parse, display)
      decreases |stdin.remaining|
    {
      var n: nat;
      ghost var buf, input := line, stdin.remaining;
      n, line := stdin.ReadLine(line);
      if n == 0 {
        break;
      }
      TranscriptStep(buf, input, parse, display);
      var trimmed := Trim(line);
      if trimmed == [] {
        continue;
      }
      ghost var written := stdout.lines;
      HandleLine(server, trimmed, parse, display, stdout);
      line := [];
      Associative(written, LineOutput(trimmed, parse, display), Transcript(line, stdin.remaining, parse, display));
    }
  }

  /* ---------------- properties ---------------- */

  /** Input that is nothing but whitespace produces no output. */
  lemma {:induction false} BlankInputIsSilent(buf: string, input: string, parse: string -> Result<Json>,
                                              display: real -> string)
    requires AllWhitespace(buf) && AllWhitespace(input)
    ensures Transcript(buf, input, parse, display) == []
    decreases |input|
  {
    if input != [] {
      var (chunk, rest) := Stdio.SplitLine(input);
      assert chunk == input[..|chunk|] && rest == input[|chunk|..];
      WhitespaceJoin(buf, chunk);
      BlankInputIsSilent(buf + chunk, rest, parse, display);
    }
  }

  /** Lines as `read_line` hands them out: each ends in a newline, except
      perhaps the last. */
  predicate AreLines(lines: seq<string>) {
    forall i :: 0 <= i < |lines| ==> Stdio.IsLine(lines[i]) && (i < |lines| - 1 ==> lines[i][|lines[i]| - 1] == '\n')
  }

  function Concat(lines: seq<string>): string {
    if lines == [] then [] else lines[0] + Concat(lines[1..])
  }

  /** The expected output, line by line: nothing for a blank line, and for any
      other line what that line alone produces. */
  function PerLine(lines: seq<string>, parse: string -> Result<Json>, display: real -> string): seq<Json> {
    if lines == [] then []
    else (if AllWhitespace(lines[0]) then [] else LineOutput(Trim(lines[0]), parse, display)) + PerLine(lines[1..], parse, display)
  }

  /** The loop's output is the concatenation, in input order, of what each
      line produces on its own: whitespace kept in the buffer from skipped
      blank lines never changes how a later line is read. */
  lemma {:induction false} TranscriptIsPerLine(buf: string, lines: seq<string>, parse: string -> Result<Json>,
                                               display: real -> string)
    requires AllWhitespace(buf) && AreLines(lines)
    ensures Transcript(buf, Concat(lines), parse, display) == PerLine(lines, parse, display)
    decreases |lines|
  {
    if lines != [] {
      var l, rest := lines[0], Concat(lines[1..]);
      if |lines| == 1 {
        assert rest == [];
      }
      Stdio.SplitLineOfLine(l, rest);
      assert AreLines(lines[1..]) by {
        forall i | 0 <= i < |lines[1..]| ensures Stdio.IsLine(lines[1..][i]) {
          assert lines[1..][i] == lines[i + 1];
        }
      }
      TrimSkipsWhitespace(buf, l);
      if AllWhitespace(l) {
        WhitespaceJoin(buf, l);
        TranscriptIsPerLine(buf + l, lines[1..], parse, display);
      } else {
        TranscriptIsPerLine([], lines[1..], parse, display);
      }
    }
  }

  /** Every line the loop writes is a response or a notification. */
  lemma {:induction false} TranscriptWellFormed(buf: string, input: string, parse: string -> Result<Json>,
                                                display: real -> string)
    ensures forall k :: 0 <= k < |Transcript(buf, input, parse, display)| ==>
      IsResponseLine(Transcript(buf, input, parse, display)[k]) || IsNotificationLine(Transcript(buf, input, parse, display)[k])
    decreases |input|
  {
    if input != [] {
      var (chunk, rest) := Stdio.SplitLine(input);
      var line := buf + chunk;
      if Trim(line) == [] {
        TranscriptWellFormed(line, rest, parse, display);
      } else {
        TranscriptWellFormed([], rest, parse, display);
      }
    }
  }

  /** A line that does not parse gets one answer: id "parse_error", code
      -32700, a message starting "Parse error: ", and no result. */
  lemma ParseFailureAnswer(trimmed: string, parse: string -> Result<Json>, display: real -> string)
    requires FromStr(parse, trimmed).Err?
    ensures var out := LineOutput(trimmed, parse, display);
      |out| == 1 && out[0].Obj? && out[0].fields["id"] == Str("parse_error") && "result" !in out[0].fields &&
      out[0].fields["error"] == Obj(map["code" := Num(-32700 as real),
                                        "message" := Str("Parse error: " + FromStr(parse, trimmed).error)])
  {
  }

  /** A request whose handler fails gets one answer: the request's id (the
      string "error" without one), code -32603, the message "Internal error: "
      followed by the failure, and no result. */
  lemma HandlerFailureAnswer(trimmed: string, parse: string -> Result<Json>, display: real -> string)
    requires FromStr(parse, trimmed).Ok?
    requires Dispatch(New(), FromStr(parse, trimmed).value, display).Err?
    ensures var request := FromStr(parse, trimmed).value;
      var out := LineOutput(trimmed, parse, display);
      |out| == 1 && out[0].Obj? && "result" !in out[0].fields &&
      out[0].fields["id"] == (if request.id.Some? then request.id.value else Str("error")) &&
      out[0].fields["error"] == Obj(map["code" := Num(-32603 as real),
        "message" := Str("Internal error: " + Dispatch(New(), request, display).error)])
  {
  }

  /** Whatever happens to a request other than `initialized`, its one answer
      carries its id, and null (on success) or "error" (on failure) without one. */
  lemma RequestIdEchoed(trimmed: string, parse: string -> Result<Json>, display: real -> string)
    requires FromStr(parse, trimmed).Ok? && FromStr(parse, trimmed).value.methodName != "initialized"
    ensures var request := FromStr(parse, trimmed).value;
      var out := LineOutput(trimmed, parse, display);
      |out| == 1 && IsResponseLine(out[0]) &&
      (request.id.Some? ==> out[0].fields["id"] == request.id.value) &&
      (request.id.None? ==> out[0].fields["id"] in {Null, Str("error")})
  {
  }

  /** A request its handler answers gets that answer, serialised, as its one
      output line. */
  lemma SuccessAnswer(trimmed: string, parse: string -> Result<Json>, display: real -> string)
    requires FromStr(parse, trimmed).Ok?
    ensures var outcome := Dispatch(New(), FromStr(parse, trimmed).value, display);
      outcome.Ok? && outcome.value.Some? ==> LineOutput(trimmed, parse, display) == [ResponseToJson(outcome.value.value)]
  {
  }

  /** `initialized` answers nothing and writes the three list-changed
      notifications, in order. */
  lemma InitializedWritesNotifications(trimmed: string, parse: string -> Result<Json>, display: real -> string)
    requires FromStr(parse, trimmed).Ok? && FromStr(parse, trimmed).value.methodName == "initialized"
    ensures LineOutput(trimmed, parse, display) == InitializedNotifications
    ensures forall k :: 0 <= k < 3 ==> IsNotificationLine(LineOutput(trimmed, parse, display)[k])
  {
  }

  /** A request without an id is still answered when its method is known and
      is not `initialized`: a successful answer carries the id null. */
  lemma RequestWithoutIdIsAnswered(trimmed: string, parse: string -> Result<Json>, display: real -> string)
    requires FromStr(parse, trimmed).Ok?
    requires FromStr(parse, trimmed).value.id.None? && FromStr(parse, trimmed).value.methodName == "tools/list"
    ensures var out := LineOutput(trimmed, parse, display);
      |out| == 1 && out[0].Obj? && out[0].fields["id"] == Null && "result" in out[0].fields
  {
  }
}
