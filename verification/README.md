# frontogether agent core, modelled in Dafny

This project models the turn loop of `frontogether`'s `Agent`. It also models the
routing of the chat input in the Qt window.

- **Streaming progress** (`Streaming`). `_do_call` walks the response stream chunk by
  chunk. A chunk with content and no `tool_calls` is reported to `progress_callback`.
  The `"\nassistant: "` prefix comes once, before the first such text. A chunk with tool
  calls is reported to `progress_tool_callback` as `\nfunc(<name>): ` or as `.`. Every
  chunk is kept for reassembly.
- **Tool round and recursion** (`Agent`). The reassembled message may carry tool calls.
  If so, the message is logged, a newline and the message go to the callbacks, and every
  call is dispatched in order. Each completed call logs one tool message. The first
  exception ends the turn. Without an exception, `_do_call` recurses on the longer log.
  `Result` collects the assistant message of every call and the summed cost.
- **The tool** (`Tools`, `Paths`). `write_file` is the only tool in the schema. Its
  handler resolves `cwd.joinpath(filename)` and writes only when the resolved parent is
  the working directory. Dispatch parses the arguments and then rejects any other name.
- **`answer`** (`Agent`). It appends one user message, with an image block only when
  the attachment is truthy, and runs the turn.
- **`FrontogetherGui.send`** (`Gui`). Input starting with `/` is a command. `/open `
  loads a URL; every other command is refused. Any other input starts one agent worker,
  with a screenshot when the checkbox is checked.

The completion service is a script, a `seq<Response>`. Each response holds the streamed
chunks, the message that `litellm.stream_chunk_builder` produces from them, and the call's
cost. Each completion call consumes one response. A call after the script has run out
fails with `ProviderError`. Callbacks are presence flags. What they receive is an `Event`
list: `Progress`, `ToolProgress` or `Finished`. The message log, the file system and the
working directory are threaded through a `Session` value instead of living in `self` and
on disk.

Notes on what the code does:

- `Result.messages` holds only the assistant messages of the chain. Tool messages go to
  the log, not to the result, so a tool call followed by an answer returns two messages,
  not three (`Agent.ToolThenAnswer`).
- Delta reassembly is not implemented by the repository. It is delegated to
  `stream_chunk_builder`, so the reassembled message is part of each scripted response.
- A tool call while `progress_tool_callback` is `None` raises a `TypeError` at
  `frontogether/agent.py:121`, before anything is logged. It is modelled as the error
  `MissingToolCallback`.
- A failing tool aborts the whole turn. The failure is not fed back to the model.

## Model

| member | source | states |
|---|---|---|
| Streaming.ChunkEvents | frontogether/agent.py:101-114 | a chunk with tool calls only ever yields tool progress; with neither callback nothing is reported; a chunk yields at most two reports |
| Streaming.ChunkReports | frontogether/agent.py:104-114 | a text chunk gives `progress_callback` its own content, after the prefix exactly when it is the first text of the call; a tool chunk gives `progress_tool_callback` exactly its one label |
| Streaming.ReportChunks | frontogether/agent.py:98-115 | the loop, with its local `first` flag, reports exactly the recursive per-chunk reference `StreamEvents` and keeps every chunk in order |
| Streaming.TextReportsInOrder | frontogether/agent.py:104-108 | `progress_callback` receives the content of every text chunk verbatim and in arrival order, preceded by the prefix exactly when the stream has some text |
| Streaming.ToolReportsInOrder | frontogether/agent.py:109-114 | `progress_tool_callback` receives one label per tool chunk, in order: `\nfunc(name): ` for a truthy function name, `.` otherwise |
| Streaming.PrefixBeforeFirstText | frontogether/agent.py:104-108 | the prefix is reported once, immediately before the first text chunk's content; the chunks before it report no text |
| Streaming.NoTextNoPrefix | frontogether/agent.py:104-107 | a stream without text chunks reports no prefix and no text |
| Streaming.StreamEventsAppend | frontogether/agent.py:98-115 | reporting a concatenated stream is reporting its halves, the second one starting in the text state the first one left |
| Streaming.StreamHasNoFinished | frontogether/agent.py:98-115 | the chunk loop never calls `finished_callback` |
| Paths.SplitRoundTrip | frontogether/agent.py:54 | splitting a file name at `/` loses nothing: joining the components back gives the name |
| Paths.ResolveIsResolved | frontogether/agent.py:54 | from a resolved working directory every name resolves to a path without empty, `.` or `..` components |
| Paths.NormalizeAppends | frontogether/agent.py:54 | without `..`, resolution only appends the named components |
| Paths.DirectlyInsideMeansChild | frontogether/agent.py:56 | the parent test holds exactly when the target is one component below the working directory, or is the root when the working directory is the root |
| Paths.RelativeNameInside | frontogether/agent.py:54-56 | below the root, a relative name without `..` passes exactly when it names one component |
| Paths.ClimbingOutEscapes | frontogether/agent.py:54-56 | below the root, `../x` resolves outside the working directory |
| Tools.WriteFile | frontogether/agent.py:52-63 | a successful write returns `"true"`; the handler never raises the dispatcher's `invalid tool` |
| Tools.WriteFileContract | frontogether/agent.py:52-63 | the write succeeds exactly for a string content and a string name whose target passes the parent test and is not a directory; it then stores the content at that one target; a name failing the test changes nothing; any change is to a direct child of the working directory |
| Tools.Dispatch | frontogether/agent.py:126-136 | a successful dispatch returns `"true"` |
| Tools.DispatchContract | frontogether/agent.py:126-136 | unparsable arguments fail first; otherwise `invalid tool` is raised exactly for a name the schema does not advertise, and such a call changes nothing |
| Tools.HandlerReadsSchemaKeys | frontogether/agent.py:27-49 | the schema requires exactly its two properties, both strings, and dispatching the advertised name hands the handler exactly the values under those two keys |
| Tools.DispatchWrite | frontogether/agent.py:126-134 | a `write_file` call carrying the schema's two required string properties reaches the handler with exactly those values |
| Tools.WriteAccepted | frontogether/agent.py:52-63 | a target passing the test that is not a directory is written with the given content |
| Tools.WriteRefused | frontogether/agent.py:56-57 | a target failing the test raises and writes nothing |
| Tools.WritePlainName | frontogether/agent.py:52-63 | a plain name writes that entry of the working directory whenever that entry is not a directory |
| Tools.WriteClimbingBackIn | frontogether/agent.py:53-56 | `d/../f` writes `f` in the working directory whenever `f` there is not a directory |
| Tools.WriteClimbingOut | frontogether/agent.py:53-57 | below the root, `../f` is refused and nothing is written |
| Tools.WriteClimbingOutOfRoot | frontogether/agent.py:53-56 | at the root, `..` stays at the root, so `../f` is written there unless `/f` is a directory |
| Tools.WriteIntoSubdirectory | frontogether/agent.py:53-57 | `d/f` is refused |
| Tools.WriteDirectoryItself | frontogether/agent.py:53-60 | `.` is refused by the parent test, except at the root, where `open` meets a directory |
| Tools.WriteAbsoluteElsewhere | frontogether/agent.py:53-57 | an absolute `/a/b` is refused unless `/a` is the working directory |
| Agent.RunTools | frontogether/agent.py:126-143 | the round completes every call exactly when nothing raised, never completes more calls than it was given, and keeps the working directory |
| Agent.RunToolsEffects | frontogether/agent.py:126-143 | against the fold `RoundFs` of the calls' effects: every completed call returned; a round that stops early stops at a raising call, with that call's error and the file system that call left; a complete round leaves the effect of all its calls |
| Agent.FirstFailureStops | frontogether/agent.py:126-143 | once the calls before it have returned, a raising call at any position ends the round there, with its own error and effect |
| Agent.RunToolsLog | frontogether/agent.py:138-143 | the round logs one tool message per completed call, in call order, carrying that call's id and name |
| Agent.OneCallRound | frontogether/agent.py:126-143 | one accepted call applies its effect and logs exactly one tool message |
| Agent.RoundAnswersCalls | frontogether/agent.py:122-143 | each tool message of a round answers, by id and name, the matching call of the assistant message logged just before |
| Agent.DoCall | frontogether/agent.py:117-161 | the log only grows at its end; on success, the result's messages are the finalised messages of the first `k` calls, `k` is between 1 and the number of calls available, and the cost is the sum of their costs |
| Agent.AnswerOnly | frontogether/agent.py:158-161 | a call without tool calls is the whole turn: nothing is logged and the result is that message and its cost |
| Agent.SuccessfulRound | frontogether/agent.py:120-156 | a successful turn whose first call asked for tools had a tool callback, ran its whole round, logged it, and continued successfully |
| Agent.ChainAskedForTools | frontogether/agent.py:117-161 | a successful turn of `k` calls: every call but the last asked for tools and the last did not |
| Agent.ChainLog | frontogether/agent.py:120-143 | a successful turn logs, for each tool round in order, the assistant message and its tool messages; the final answer is returned but not logged |
| Agent.ChainReports | frontogether/agent.py:98-124 | the reports of a successful turn are those of each call in call order: its chunks, then for a tool round the newline and the finished message |
| Agent.RoundFinished | frontogether/agent.py:120-124 | a call reports its own message as finished only after a tool round and with a finished callback |
| Agent.ChainFinished | frontogether/agent.py:123-124 | `finished_callback` receives every tool-round message in order and never the final answer |
| Agent.ToolFailureAborts | frontogether/agent.py:126-143 | when a call raises, the turn fails with the round's error, which `RunToolsEffects` shows is the raising call's own, keeps the assistant message and the earlier tool messages in the log, and makes no further completion call |
| Agent.UnknownToolStops | frontogether/agent.py:130-136 | a call to a name outside the schema, at any position after calls that returned, raises `invalid tool` there; no later call runs and the file system is what the earlier calls left |
| Agent.UnparsableStops | frontogether/agent.py:126-128 | arguments that do not parse, at any position after calls that returned, raise there in the same way |
| Agent.MissingCallbackAborts | frontogether/agent.py:120-121 | tool calls without a tool callback fail the turn with nothing logged and only the chunk reports made |
| Agent.NoUserAdded | frontogether/agent.py:117-161 | whatever happens, a turn only appends assistant and tool messages |
| Agent.ToolThenAnswer | frontogether/agent.py:117-161 | one accepted tool call, then an answer: the effect is applied, the log gains the assistant and tool messages, and the result holds both assistant messages with the summed cost |
| Agent.UserMessage | frontogether/agent.py:172-193 | the user message carries an image block exactly when the attachment is truthy |
| Agent.UserMessageRoundTrip | frontogether/agent.py:172-193 | the prompt and a truthy attachment can be read back from the message; a falsy attachment is dropped |
| Agent.Answer | frontogether/agent.py:163-199 | the log keeps its old entries, and the next entry is the user message |
| Agent.AnswerAddsOneUserMessage | frontogether/agent.py:163-199 | `answer` appends exactly one user message; every later entry is an assistant or tool message |
| Gui.LStrip | frontogether/gui.py:135 | the result is a suffix of the input, and it is empty or starts outside the character set |
| Gui.LStripCharacterised | frontogether/gui.py:135 | `lstrip` drops exactly the longest leading run of characters from the set |
| Gui.LStripIdempotent | frontogether/gui.py:135 | stripping twice strips nothing more |
| Gui.Send | frontogether/gui.py:129-156 | the input box is cleared; a worker starts exactly for input not starting with `/`, with that input and with a screenshot exactly when checked; a URL is loaded exactly for `/open `, whose only chat line is its echo; commands are echoed first and leave the checkbox as it was |
| Gui.MessageStartsWorker | frontogether/gui.py:140-153 | a message is echoed once as a user line and goes to exactly one worker |
| Gui.OtherCommandRefused | frontogether/gui.py:132-138 | every command but `/open ` is echoed and then refused |
| Gui.OpenWithoutSpaceRefused | frontogether/gui.py:132-138 | `/open` without the space is refused and loads nothing |
| Gui.OpenedUrl | frontogether/gui.py:134-136 | the URL loaded is the rest of the input with every leading character from `/open ` dropped |
| Gui.OpenedUrlUnchanged | frontogether/gui.py:134-136 | a URL that does not start with one of those characters is loaded unchanged |
| Gui.OpenStripsHostLetters | frontogether/gui.py:135 | a host starting with the letters `open` loses them |
| Gui.OpenOpenAi | frontogether/gui.py:135 | `/open openai.com` loads `ai.com` |
| Gui.OpenArgument | frontogether/gui.py:134-135 | the intended argument is defined exactly for `/open ` input, and prefixing `/open ` gives the input back |
| Gui.OpenArgumentRoundTrip | frontogether/gui.py:134-135 | with the prefix removed instead of stripped, every URL is loaded unchanged |
| Gui.OpenStripsTooMuch | frontogether/gui.py:135 | on `/open openai.com` the intended argument is `openai.com` and the command as written loads `ai.com` |

## Left out

- Streaming and reassembly: `litellm.completion` and `litellm.stream_chunk_builder` are outside the model. The reassembled message and the call's cost are part of each scripted response, not computed from the chunks.
- Cost: `litellm.completion_cost` returns a float. Here it is a natural number given by the script, so floating-point rounding of the sum is not modelled.
- JSON: `json.loads` of the arguments is scripted as `Unparsable`, `NotAnObject` or an object. A JSON value is only told apart as a string or something else.
- Paths: symbolic links, the `//` root that POSIX allows, and OS errors other than opening a directory (permissions, a missing parent, a full disk) are not modelled. `Path.resolve()` is taken as lexical normalisation.
- Working directory: it is taken as already resolved, as `os.getcwd()` returns it (absolute, without `.`, `..` or empty components); the model does not resolve it again before the parent test.
- Provider failures: a completion call fails only when it starts, when the script has run out. A stream that raises after some of its chunks were reported is not modelled.
- Errors: exceptions are values of `Error`; their message texts are not modelled. The `logging.info` call is left out.
- `answer`: the Jinja templates, `_read_files` and `_system_prompt` are left out, so the rendered prompt is an input.
- Agent.Answer: states the log prefix and the appended user message. What the turn does after that is stated by the `DoCall` lemmas, not repeated here.
- Gui: Qt widgets, the screenshot grab and its base64 encoding, the thread pool, `AgentWorker` and its signals are replaced by the fields of `SendOutcome`. The checkbox's `checkState()` is taken to be truthy exactly when the box is checked.
- Concurrency: each turn runs on a worker thread in the source. The model is sequential.
- The preview web server, the drawing canvas and the command-line entry points are not part of this model.

## Findings

| source | as written | input that shows it | evidently intended | confidence | as-written member | corrected member |
|---|---|---|---|---|---|---|
| frontogether/gui.py:135 | `inp.lstrip("/open ")` strips every leading character from the set `/`, `o`, `p`, `e`, `n`, space | `/open openai.com` loads `ai.com` | remove the `/open ` prefix, loading `openai.com` | high; not executed | Gui.OpenStripsHostLetters | Gui.OpenArgument |
