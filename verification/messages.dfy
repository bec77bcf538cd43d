/**
  The data that flows through `Agent`: streamed chunks, finalised tool calls,
  conversation messages and the progress reported to the caller's callbacks.
*/
module Messages {
  import opened Base

  /** A decoded JSON value, as far as `write_file` distinguishes them. */
  datatype Json = JString(text: string) | JOther

  /** The outcome of `json.loads` on a tool call's argument string. */
  datatype Arguments = Unparsable | NotAnObject | Object(fields: map<string, Json>)

  /** `dict.get(key)`: the value, or `None` when the key is missing. */
  function Get(fields: map<string, Json>, key: string): Option<Json> {
    if key in fields then Some(fields[key]) else None
  }

  /** A tool call of a finalised assistant message. */
  datatype ToolCall = ToolCall(id: string, name: string, arguments: Arguments)

  /** The first tool-call fragment of a streamed chunk; only its function name is read. */
  datatype ToolFragment = ToolFragment(name: Option<string>)

  /** Python truthiness of an optional string. */
  predicate Truthy(s: Option<string>) {
    s.Some? && s.value != ""
  }

  /** One streamed chunk: `delta.get("tool_calls")` and `delta.get("content")`. */
  datatype Chunk = Chunk(toolCalls: Option<seq<ToolFragment>>, content: Option<string>)

  /** The content of a user message: a plain prompt, or a text block followed by an image block. */
  datatype UserContent =
    | Plain(text: string)
    | TextAndImage(text: string, imageUrl: string)

  datatype Message =
    | User(content: UserContent)
    | Assistant(text: Option<string>, toolCalls: seq<ToolCall>)
    | Tool(toolCallId: string, name: string, result: string)

  /** What the callbacks receive, in order. */
  datatype Event =
    | Progress(text: string)        // progress_callback
    | ToolProgress(text: string)    // progress_tool_callback
    | Finished(message: Message)    // finished_callback

  /** Which of the optional callbacks were passed (a `None` callback is `false`). */
  datatype Callbacks = Callbacks(progress: bool, toolProgress: bool, finished: bool)

  /** The exceptions a turn can end with. */
  datatype Error =
    | ProviderError                 // the completion call failed or returned nothing
    | MissingToolCallback           // TypeError: `progress_tool_callback` is None but is called
    | ArgumentParseError            // `json.loads` rejected the arguments
    | UnknownTool(name: string)     // RuntimeError("invalid tool: <name>")
    | ArgumentsNotAnObject          // AttributeError: the arguments are JSON but not an object
    | NotAString(key: string)       // TypeError: the key is missing or its value is not a string
    | PathEscape                    // RuntimeError("only cwd can be written: <cwd>")
    | IsADirectory                  // `open(path, "w")` on a directory
}
