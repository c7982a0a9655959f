# leap-mcp in Dafny

A model of a small MCP (Model Context Protocol) server that speaks
newline-delimited JSON-RPC 2.0 over standard input and output. The model
follows the Rust sources of the repository:

- `src/types.rs`: the request, parameter and response records. serde's
  derived `Deserialize` and `Serialize` become functions between these
  records and JSON values (module `Types`). This includes the optional and
  defaulted fields, `skip_serializing_if`, and serde's positional (array)
  form of a struct.
- `src/server.rs`: the server (module `Server`). Its three descriptor tables
  (tools `echo` and `add`, the resource `file:///example.txt`, the prompt
  `hello`) form an immutable value built by `New`. Each handler is a function
  from a request to `Ok(Some(response))`, `Ok(None)` or `Err(message)`.
  `Dispatch` matches the method name exactly. `initialized` writes its three
  notifications through the methods `HandleInitialized` and
  `SendNotification`, and `HandleRequest` runs the whole handler with those
  writes.
- `src/main.rs`: the transport loop (module `Transport`). `Serve` is the
  `while stdin.read_line(&mut line)` loop over a reader and a writer (module
  `Stdio`). It is proved to write exactly `Transcript`, a function of the
  whole input. Lemmas relate `Transcript` to a line-by-line reference
  (`PerLine`) and state what each kind of line produces.

JSON values are the datatype `JsonValue.Json`, whose objects are maps. An
output line is the JSON value written on it; rendering it as text is not
modelled.

Two behaviours of the code are worth knowing, and the model keeps both:

- A request without an `id` is a notification under section 4.1 of the
  JSON-RPC 2.0 specification, and a notification gets no reply. This server
  still answers such a request for every known method except `initialized`,
  with id `null` on success and `"error"` on failure
  (`Transport.RequestWithoutIdIsAnswered`).
- A line that is JSON but not a valid request envelope also gets the `-32700`
  parse-error answer, because `serde_json::from_str::<JsonRpcRequest>` fails
  on it. Examples are a missing `method` or a `method` that is not a string.

## Model

| member | source | states |
|---|---|---|
| `Types.DecodeRequest` | src/types.rs:5-11 | An object decodes exactly when `jsonrpc` and `method` are strings. `id` and `params` read as absent when missing or null, and otherwise carry the value given. A value that is neither an object nor an array is refused. Every failure is a serde diagnostic. |
| `Types.RequestRoundTrip` | src/types.rs:4-11 | A serialised request decodes back to itself exactly when neither `id` nor `params` is an explicit null. |
| `Types.DecodeInitializeParams` | src/types.rs:14-20 | Decodes exactly when `protocolVersion` is a string, `capabilities` is an object, and `clientInfo` is absent, null or a valid client info. |
| `Types.DecodeClientInfo` | src/types.rs:23-26 | An object decodes exactly when `name` and `version` are strings. |
| `Types.DecodeToolCallParams` | src/types.rs:29-32 | An object decodes exactly when `name` is a string and `arguments` is an object, which may be empty. The result carries those two values. |
| `Types.ToolCallParamsPositional` | src/types.rs:28-32 | `[name, {...}]` decodes as tool-call params. An array with only the name does not. |
| `Types.DecodeResourceReadParams` | src/types.rs:35-37 | An object decodes exactly when `uri` is a string, and the result carries that uri. |
| `Types.DecodePromptGetParams` | src/types.rs:77-82 | An object decodes exactly when `name` is a string. `arguments` may hold anything and never causes a failure. |
| `Types.StructFields` | src/types.rs:4-5 | A struct is read from an object by name, or from an array in field order (the fields `Zip` gives). The array may omit only the trailing defaulted fields. Any other value is an invalid type. |
| `Types.Zip` | src/types.rs:4-5 | With distinct field names, the i-th array item becomes the value of the i-th field, and only the fields given are present. |
| `Types.RequiredField` | src/types.rs:6 | A field without a default succeeds exactly when present, and fails with "missing field" otherwise. |
| `Types.OptionalField` | src/types.rs:7-10 | An `Option` field is `None` exactly when it is absent or null. Otherwise it is the value given. |
| `Types.AsString` | src/types.rs:6 | A `String` accepts exactly JSON strings. |
| `Types.AsMap` | src/types.rs:31 | A `HashMap<String, Value>` accepts exactly JSON objects. |
| `Types.RequestToJson` | src/types.rs:4-11 | The serialised request always has exactly the keys `jsonrpc`, `id`, `method` and `params`. An absent `id` or `params` is written as null. |
| `Types.DecodeError` | src/types.rs:49-53 | An object decodes exactly when `code` is a whole number within `i32` and `message` is a string, and the result carries both. |
| `Types.DecodeResponse` | src/types.rs:39-47 | An object decodes exactly when `jsonrpc` is a string, `id` is present (null included) and `error` is absent, null or a valid error. The result carries the id given, and `result` is absent exactly when missing or null. |
| `Types.ResponseToJson` | src/types.rs:40-47 | The serialised response always has `jsonrpc` and `id`. It has `result` exactly when the result is present and `error` exactly when the error is present, and no other keys. |
| `Types.ResponseRoundTrip` | src/types.rs:39-53 | A serialised response decodes back to itself exactly when its result is not an explicit null. |
| `Server.New` | src/server.rs:15-68 | The tables hold the tools `echo` and `add` in that order, the one resource `file:///example.txt` and the one prompt `hello`. Names and uris are unique within each table. |
| `Server.HandleInitialize` | src/server.rs:84-115 | Succeeds exactly when the params (or `{}` if absent) decode as initialize params, so absent params fail with "missing field `protocolVersion`". On success it answers the request's id with the fixed capability announcement. A failure carries the decoder's message unchanged. |
| `Server.HandleToolsList` | src/server.rs:117-139 | Always answers the request's id. The result has the single key `tools`, which lists every tool in table order as name, description and input schema. |
| `Server.HandleResourcesList` | src/server.rs:166-189 | Always answers the request's id. The result has the single key `resources`, which lists every resource in table order as uri, name, description and MIME type. |
| `Server.HandlePromptsList` | src/server.rs:216-237 | Always answers the request's id. The result has the single key `prompts`, which lists every prompt in table order as name and description. |
| `Server.ExecuteTool` | src/server.rs:277-303 | `echo` succeeds exactly when `message` is a string, and answers "Echo: " followed by the message. `add` checks `a` before `b` and names the first one that is missing or not a number. Any other name fails with "Unknown tool: " followed by the name. |
| `Server.HandleToolsCall` | src/server.rs:141-164 | Absent params fail with "Missing params". Success requires decoded params and a successful tool. On success the result is exactly one text item holding the tool's text, with `isError: false`. A decode failure or a tool failure ("Unknown tool: …", "Missing 'message' argument", …) is passed on unchanged. |
| `Server.ReadResource` | src/server.rs:305-310 | Succeeds exactly for `file:///example.txt`, with the canned two-line text. Any other uri fails with "Resource not found: " followed by the uri. |
| `Server.HandleResourcesRead` | src/server.rs:191-214 | Absent params fail with "Missing params". It succeeds exactly for the example uri. The answer holds one content entry with that uri, MIME type `text/plain` and the canned text. Any other uri fails with "Resource not found". A decode failure is passed on unchanged. |
| `Server.HandlePromptsGet` | src/server.rs:239-262 | Absent params fail with "Missing params". It succeeds exactly for `hello`, answering one user message with the greeting. Any other name fails with "Unknown prompt: " followed by the name. A decode failure is passed on unchanged. |
| `Server.SendNotification` | src/server.rs:312-326 | Appends one notification line, which has `jsonrpc`, `method` and `params` and no id. |
| `Server.HandleInitialized` | src/server.rs:264-275 | Writes the `tools/listChanged`, `resources/listChanged` and `prompts/listChanged` notifications, each with params `{}` and in that order, then returns `Ok(None)`. |
| `Server.Dispatch` | src/server.rs:70-82 | An unknown method fails with "Unknown method: " followed by the name. The answer is `Ok(None)` exactly for `initialized`. Every answer echoes the request's id (null when it had none) with a result and no error. A known method fails only with a handler's own message. |
| `Server.DispatchRoutes` | src/server.rs:71-81 | Each of the seven answering methods is answered by its own handler: `initialize`, `tools/list`, `tools/call`, `resources/list`, `resources/read`, `prompts/list` and `prompts/get`. |
| `Server.HandleRequest` | src/server.rs:70-82 | Gives the outcome `Dispatch` gives. Only for `initialized` does it write the three notifications before returning. |
| `Server.DispatchRejectsExactlyUnknown` | src/server.rs:71-81 | A request fails with "Unknown method" if and only if its method is not one of the eight names. |
| `Server.HandlerErrorIsNotUnknownMethod` | src/server.rs:80 | No failure message of a known method's handler can be taken for an unknown-method failure. |
| `Server.ListedToolsAreExactlyExecutable` | src/server.rs:16-49 | A name is listed by `tools/list` if and only if `execute_tool` knows it. |
| `Server.ListedResourcesAreExactlyReadable` | src/server.rs:51-56 | A uri is listed by `resources/list` if and only if `read_resource` can read it. The descriptor's MIME type agrees with the `text/plain` that a read claims. |
| `Server.ListedPromptsAreExactlyAnswered` | src/server.rs:58-61 | A name is listed by `prompts/list` if and only if `prompts/get` answers it. |
| `Server.PromptArgumentsIgnored` | src/server.rs:239-250 | Two `prompts/get` params that differ only in `arguments` get the same outcome. |
| `Server.ToolArgumentsRequired` | src/server.rs:141-146 | `tools/call` params without `arguments` fail with "missing field `arguments`". An empty `arguments` object is accepted. |
| `Server.EchoHi` | src/server.rs:283-289 | `echo` with message "hi" answers "Echo: hi". |
| `Server.AddTwoThree` | src/server.rs:290-299 | `add` with 2 and 3 answers "2 + 3 = 5" when whole numbers are displayed without a fraction. |
| `Text.TrimStart` | src/main.rs:33 | Removes exactly the leading run of Unicode whitespace. |
| `Text.TrimEnd` | src/main.rs:33 | Removes exactly the trailing run of Unicode whitespace. |
| `Text.Trim` | src/main.rs:33-34 | The trimmed line is empty exactly when the line is all whitespace. Otherwise it neither starts nor ends with whitespace. |
| `Text.TrimIsInfix` | src/main.rs:33 | The trimmed line is the part of the line between a whitespace prefix and a whitespace suffix. |
| `Text.TrimStartSkipsWhitespace` | src/main.rs:33 | Whitespace in front of a string does not change its leading trim. |
| `Text.TrimSkipsWhitespace` | src/main.rs:33-36 | Whitespace left in the buffer by a skipped blank line does not change what the next line trims to. |
| `Stdio.SplitLine` | src/main.rs:32 | A read takes everything up to and including the first newline, or the rest of the input. It is empty exactly at the end of the input, and together with what is left it makes up the input. |
| `Stdio.SplitLineOfLine` | src/main.rs:32 | A line that ends in a newline, or the input's last line, is read whole in one read. |
| `Stdio.LineReader.ReadLine` | src/main.rs:32 | Appends the next line to the buffer and returns its length, which is 0 exactly at the end of the input. |
| `Stdio.LineWriter.WriteLine` | src/main.rs:43-46 | Appends exactly one line to the output. |
| `Transport.FromStr` | src/main.rs:38 | A text the parser rejects fails with the parser's diagnostic. Otherwise the value is decoded as a request, which for an object succeeds exactly when `jsonrpc` and `method` are strings. |
| `Transport.LineOutput` | src/main.rs:38-86 | A non-blank line produces three lines if it is an `initialized` request and exactly one line otherwise. Every line produced is a response or a notification. |
| `Transport.HandleLine` | src/main.rs:38-86 | Writes exactly `LineOutput` for the trimmed line: the handler's notifications, then the response, the internal-error answer or the parse-error answer. |
| `Transport.Serve` | src/main.rs:30-89 | Runs until a read returns nothing, consuming all input. It writes exactly `Transcript` of the input, skipping blank lines without clearing the buffer. |
| `Transport.BlankInputIsSilent` | src/main.rs:33-36 | Input that is nothing but whitespace produces no output. |
| `Transport.TranscriptIsPerLine` | src/main.rs:32-88 | For input made of lines, the output is the concatenation, in input order, of what each non-blank line produces on its own. A parse failure therefore does not stop later lines from being answered. |
| `Transport.TranscriptWellFormed` | src/main.rs:42-85 | Every output line is a response with exactly one of result and error, or a notification without an id. |
| `Transport.SuccessAnswer` | src/main.rs:42-46 | A request its handler answers writes exactly one line: that answer, serialised. |
| `Transport.ParseFailureAnswer` | src/main.rs:70-85 | A line that fails to parse gets one answer. It has id "parse_error", code -32700 and message "Parse error: " followed by the diagnostic, and no result. |
| `Transport.HandlerFailureAnswer` | src/main.rs:51-67 | A failed request gets one answer. Its id is the request's id, or "error" when there is none. It has code -32603, message "Internal error: " followed by the failure, and no result. |
| `Transport.RequestIdEchoed` | src/main.rs:40-62 | Every request other than `initialized` gets exactly one answer. The answer carries the request's id, or null or "error" when there is none. |
| `Transport.InitializedWritesNotifications` | src/main.rs:48-50 | An `initialized` line writes the three notifications and no response. |
| `Transport.RequestWithoutIdIsAnswered` | src/main.rs:42-47 | A `tools/list` request without an id is still answered, with id null and a result. |

## Left out

- Text parsing of JSON (`serde_json::from_str` up to a `Value`) is the parameter `parse`, which returns the value or the parser's diagnostic. Rendering a value as text (`serde_json::to_string`) is not modelled: an output line is the value written.
- Duplicate keys in a request line are not modelled. serde rejects a repeated field name, but a `Json` object cannot hold one.
- serde's diagnostics are abbreviated. Only the opening words of each message are kept: "missing field `x`", "invalid type" and "invalid length". For an invalid type, the model replaces serde's description of the offending value with a bare kind word ("null", "boolean", "number", "string", "sequence", "map"). For numbers that word differs from serde's, which writes for instance "integer `5`" or "floating point `1.5`". For a request line, which `serde_json::from_str` decodes from text, the position ("at line L column C") that serde_json appends is dropped too. A request array that is too long fails there with "trailing characters" rather than "invalid length"; the model gives "invalid length". When several fields are wrong, which one the message names is not modelled. For params decoded from a value by `from_value`, "missing field `x`" is exact.
- `Server.ExecuteTool`: the `f64` arithmetic and float-to-string formatting of `add` are not modelled. The text is built from the parameter `display` applied to `a`, `b` and their exact sum, so rounding to `f64` is not captured.
- `Types.DecodeError`: a JSON number is a `real`, so `3.0` and `3` are the same number. serde accepts only the integer form for the `i32` code. This decoder and `Types.DecodeResponse` back only the response round trip; the server never reads a response.
- Logging through `tracing` to standard error is left out. It has no effect on the protocol.
- Asynchronous I/O, flushing and write or read failures (the `?` on `write_all`, `flush` and `read_line`) are left out. Input that is not valid UTF-8 makes `read_line` fail and end the loop, which is not modelled.
- The contents of the two tool input schemas are written out but never inspected; nothing validates arguments against them.
