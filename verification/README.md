# Agent loop, chat endpoints and chat store of a network-automation assistant

This project models, in Dafny, the conversational core of a network-automation assistant. A user chats
with a language model that can inspect and reconfigure simulated network devices through tools.

- **The agent loop** (`run_agent_loop` in `api/app/services/llm.py`):
  - It adapts the MCP tool catalog into function tools, removing the two injected parameters.
  - It seeds the transcript with the system prompt and the user's request.
  - It then runs at most ten iterations. Each iteration:
    - polls the session's cancel flag;
    - applies the 45 000-token truncation rule;
    - streams one completion, decoding reasoning, content and tool-call fragments into accumulators;
    - dispatches the calls, where a `push_configuration` call passes the per-device retry limit of two
      failures and every call's answer becomes one tool message.
  - The process-wide registry `active_agent_tasks` maps a session to its cancel flag. `stop_agent_task`
    raises that flag.
- **The chat endpoints** (`api/app/api/routes/chat.py`):
  - the session-opening rules shared by the three message endpoints: a 404 for an unknown topology, the
    session title, and the saved user message;
  - the window of the last four history entries;
  - the agent endpoint's re-framing of the agent's chunks as server-sent events, with the response text
    saved once after the stream unless the agent itself raised;
  - the stop endpoint.
- **The browser chat store** (`client/src/stores/chat.js`):
  - `sendMessage`, which reads the event stream chunk by chunk, keeps an unfinished line in a buffer, and
    appends each payload's text to the assistant message until an error payload arrives;
  - the session actions, and the flags that freeze model and mode once a session has started.

## How it is modelled

- **Object state is a class.** The registry, the cancel flag, the chat database rows and the store's state
  are classes. Their methods state the whole new state.
- **Loops are methods.** Every loop of the source is a method with a loop, proved against specification
  functions. Examples: the stream decoder against `EmittedFor`, `Fragments` and `SlotsMatch`; the retry
  bookkeeping against `Registered`, `AfterFailure` and `AfterSuccess`; the store's reader against
  `ScanLines` over `CompleteLines` of the whole stream.
- **The outside world is a parameter.**
  - `Environment` carries the MCP catalog and the completion server's answers.
  - Tool answers are indexed by invocation number.
  - A stop request arrives before the cancel check of a given iteration.
  - JSON parsing is a function parameter.
- **Python and JavaScript quirks are written out.**
  - Python's `True`/`False` are equal to `1`/`0` as dictionary keys (`RetryPolicy.KeyOf`).
  - Iterating a `device_configs` value that is not a list fails, except for an empty string or an empty
    object.
  - A parsed `null` payload throws on member access and the throw is caught.
  - JavaScript truthiness and string conversion apply when the store appends a text.

Some behaviours of the code are easy to misread. The model follows the code in each of them:

- **Truncation.** The rule in `llm.py:216-226` keeps either the whole transcript or only the system
  message. It scans the messages newest first against a running total that shrinks with every kept
  message, so once one message is kept every older one is kept too (`Transcript.Truncate`). The user's
  request can be dropped.
- **Registry clean-up.** The registry entry is removed only after a loop that ends normally. The early
  returns for a failed connection or a broken stream, and an escaping exception, leave it in place.
- **Retry counting.** Counters rise once per configuration entry, so a device named twice in one failed
  push reaches the limit at once.
- **The closing reasoning marker.** `"</think> "` is yielded for every qualifying chunk once reasoning has
  started, not once.

## Model

| member | source | states |
|---|---|---|
| ToolSchema.AdaptSchema | api/app/services/llm.py:177-186 | the empty schema becomes the default one; when the adapter does not raise, the schema keeps its keys and every entry other than "properties" and "required" |
| ToolSchema.AdaptWellShaped | api/app/services/llm.py:177-186 | a schema of the generated shape never makes the adapter raise; its properties lose exactly `topology_id` and `model_name`, and its required list loses one occurrence of each and nothing else |
| ToolSchema.AdaptedProperties | api/app/services/llm.py:179-185 | the object of properties loses exactly the two injected keys |
| ToolSchema.AdaptedRequired | api/app/services/llm.py:180-186 | the required list loses one occurrence of each injected key, as a multiset, and nothing else |
| ToolSchema.InjectedPropertiesRemoved | api/app/services/llm.py:182-185 | no adapted schema with object-valued properties still offers an injected parameter |
| ToolSchema.RemoveFirst | api/app/services/llm.py:183 | `list.remove` drops the first occurrence only and keeps the order of the rest |
| ToolSchema.AdaptCatalog | api/app/services/llm.py:174-195 | raises exactly when some schema raises; otherwise each tool keeps its position, name and description, carries its adapted schema, and offers no injected parameter |
| StreamDecoder.Absorb | api/app/services/llm.py:281-286 | one fragment raises exactly when it is faulty (no function part, or an index beyond the slot it appended) and appends at most one slot |
| StreamDecoder.AbsorbMatches | api/app/services/llm.py:281-286 | a fragment that does not raise keeps the accumulators equal, index by index, to the last id, the last name and the concatenated arguments reported |
| StreamDecoder.AbsorbToolCalls | api/app/services/llm.py:280-286 | a chunk's fragments raise exactly when one is faulty on the slots that exist when it is processed; otherwise the slots keep matching everything reported |
| StreamDecoder.StreamText | api/app/services/llm.py:263-278 | a chunk's yielded events are `ChunkEmissions`; what it adds to the content and reasoning buffers is exactly the wording of those events |
| StreamDecoder.StreamReasoning | api/app/services/llm.py:263-274 | the reasoning events of a chunk: the opening marker only before the first reasoning fragment, the fragment, and the closing marker on a bare chunk once reasoning started; the reasoning buffer grows by exactly their wording |
| StreamDecoder.Decode | api/app/services/llm.py:251-290 | the pass fails exactly when the stream is not healthy; when healthy, the events, finish reason and accumulators are those of the whole stream; on failure, the events yielded are `ShownBeforeFault` and the message is `FailureReason`; the content buffer is the content events' text |
| StreamDecoder.FaultIndex | api/app/services/llm.py:258-290 | reading stops at the first item that raises: the stream is read cleanly up to it and not through it |
| StreamDecoder.FaultShown | api/app/services/llm.py:258-290 | a stream broken by the transport yielded the events of the items before the broken one; a faulty tool-call fragment yields its own chunk's text first, since the text is handled before the fragments |
| StreamDecoder.FaultRaised | api/app/services/llm.py:287-290 | the error message is the broken item's own, or that of the first faulty fragment of the chunk it stops at |
| StreamDecoder.SkippedIndexRaises | api/app/services/llm.py:282-286 | a fragment with arguments whose index skips past the next free slot raises |
| StreamDecoder.ContentIsFragments | api/app/services/llm.py:276-278 | the content buffer is the in-order concatenation of the non-empty content fragments |
| StreamDecoder.ChunkContents | api/app/services/llm.py:276-278 | a chunk's non-empty content is its only content event |
| StreamDecoder.ChunkOpens | api/app/services/llm.py:263-267 | `"<think>"` is yielded by a chunk exactly when it is the first to carry reasoning |
| StreamDecoder.ThinkOpensOnce | api/app/services/llm.py:256-267 | `"<think>"` is yielded exactly once when the stream carried reasoning, and never otherwise |
| StreamDecoder.SlotCountBound | api/app/services/llm.py:282-283 | the accumulator list grows by at most one slot per fragment |
| StreamDecoder.DenseIndicesNeverRaise | api/app/services/llm.py:282-286 | fragments that keep to open indices or the next one, each with a function part, never raise |
| StreamDecoder.HealthyPrefix | api/app/services/llm.py:258-286 | a stream read cleanly to its end is read cleanly up to any point |
| StreamDecoder.NoFaultPrefix | api/app/services/llm.py:281-286 | a fault-free run of fragments stays fault-free when cut short |
| StreamDecoder.EmitAppend | api/app/services/llm.py:263-278 | the content and non-content projections of the event list distribute over concatenation |
| Transcript.Truncate | api/app/services/llm.py:216-226 | the result is the whole transcript or its first message alone, and the first message always survives; the transcript is kept whole exactly when the estimate is within 45 000, or it has one message, or the estimate minus the newest message's estimate is below 45 000 |
| Transcript.TruncationKeepsShape | api/app/services/llm.py:216-226 | both truncation outcomes keep the transcript well formed |
| Transcript.WellFormedAppendRound | api/app/services/llm.py:298-310 | appending an assistant message with its answers keeps the transcript well formed |
| Transcript.RoundsAppendRound | api/app/services/llm.py:310-396 | complete rounds followed by one more complete round are complete rounds |
| RetryPolicy.KeyOf | api/app/services/llm.py:330-332 | a device name can be a dictionary key exactly when it is not a list or an object, which are unhashable and raise |
| RetryPolicy.DeviceKeys | api/app/services/llm.py:326-330 | no `device_configs` gives no keys; a list gives one key per entry, in order, and raises exactly when some entry has none; any other value raises unless it is an empty string or an empty object, which give no keys |
| RetryPolicy.AtLimit | api/app/services/llm.py:334-337 | the vetoing entries are empty exactly when no named device has two failures |
| RetryPolicy.AdmitPush | api/app/services/llm.py:325-346 | registers each new device at zero, reports in order every entry whose device is at two failures, and the push is skipped exactly when one is |
| RetryPolicy.RecordPush | api/app/services/llm.py:362-386 | after a failure each device rises once per entry naming it; after a success each named device is at zero; other counters keep their value |
| RetryPolicy.FailureCountsEntries | api/app/services/llm.py:364-386 | a failed push raises a device's counter by the number of its entries |
| RetryPolicy.TwoFailuresVeto | api/app/services/llm.py:325-386 | two failed pushes in a row naming a device refuse the next push naming it |
| RetryPolicy.VetoKeepsCounters | api/app/services/llm.py:325-346 | a refused push registers its devices and changes no counter, so a device at the limit stays there |
| RetryPolicy.SuccessClears | api/app/services/llm.py:362-369 | a successful push sets every device it names back to zero, so the same push is admitted next |
| RetryPolicy.OnceFailedAdmitted | api/app/services/llm.py:325-386 | a push naming fresh devices once each is admitted, and admitted again after one failure |
| RetryPolicy.EntriesRead | api/app/services/llm.py:326-337 | the entries read before the admission loop raises: all keys when none raises, otherwise the keys before the first entry without one |
| RetryPolicy.DuplicateEntryVetoes | api/app/services/llm.py:364-386 | one failed push naming a device twice already refuses the next push naming it |
| ToolDispatch.ResultText | api/app/services/llm.py:354-380 | the result text is never empty; a non-empty tool text is kept; a timeout or an exception gives an `Error: ` text |
| ToolDispatch.ParseArguments | api/app/services/llm.py:314-319 | unparseable arguments become `{}`; an object is taken as it is; any other document makes the following assignment raise |
| ToolDispatch.Inject | api/app/services/llm.py:319-321 | `topology_id` is always set, `model_name` only for the knowledge tool, and every other argument passes unchanged |
| ToolDispatch.Dispatch | api/app/services/llm.py:312-396 | a call raises exactly when its arguments or device entries do, and then after yielding nothing or the announcement and the limit events of the entries read; otherwise it is answered by one tool message with its id and name, the veto text when refused and the result text otherwise; the tool is invoked with the prepared arguments unless refused, and the counters follow the retry rules |
| ToolDispatch.Admit | api/app/services/llm.py:323-396 | with prepared arguments: the announcement, one limit event per entry read at the limit, then the reports of the invocation; the veto answer without an invocation for a refused push; the result otherwise |
| ToolDispatch.DispatchCall | api/app/services/llm.py:312-321 | the dispatch as the loop runs it is `Dispatch` |
| ToolDispatch.AdmitCall | api/app/services/llm.py:323-396 | the admission loop and the invocation as the loop runs them are `Admit` |
| ToolDispatch.ReportOutcome | api/app/services/llm.py:348-386 | a timeout or an exception is reported with its `Error: ` text; for a push, every entry's counter rises on a failure and is reset on a success, and the result is reported |
| ToolDispatch.PushFailedIffReported | api/app/services/llm.py:366-386 | a push counts as failed exactly when its result text mentions "Error" or "Failed" |
| ToolDispatch.NoOutputIsSuccess | api/app/services/llm.py:359-369 | the placeholder for an empty result is not a failure, so it resets the counters |
| AgentLoop.DispatchSeq | api/app/services/llm.py:312-398 | unless a call raises, the calls are answered one tool message each, in order; a raising call ends the batch; the invocation log only grows, by at most one per call, each carrying the topology; only a push moves the counters |
| AgentLoop.DispatchPrefix | api/app/services/llm.py:312-398 | each call is dispatched with the counters and the invocation count the earlier calls left, its events and answer appended to theirs |
| AgentLoop.CrashSticks | api/app/services/llm.py:312-398 | once a call raises, no later call is dispatched |
| AgentLoop.DispatchAll | api/app/services/llm.py:312-398 | the answers, events, counters and invocation log the loop leaves are those of `DispatchSeq` |
| AgentLoop.RetriedPushRefused | api/app/services/llm.py:325-386 | a push naming fresh devices once each that fails twice is refused on its third attempt in the same turn: the first two answers are the result texts, the third is the veto text, and the tool is invoked twice |
| AgentLoop.Step | api/app/services/llm.py:214-398 | a failed connection ends the run with one connection-error event, a broken stream with the text it showed and one streaming-error event, a clean stream without calls finishes it; a clean stream's text is yielded first; the loop goes on exactly when no call raised, and then the transcript grows by the assistant message with the streamed content and recorded calls and their answers; the counters and log change only through the calls |
| AgentLoop.Streamed | api/app/services/llm.py:251-398 | the same for an opened stream |
| AgentLoop.Heard | api/app/services/llm.py:292-398 | after a clean stream: its text first, then the end of the run when it reported no calls, or their round |
| AgentLoop.Responded | api/app/services/llm.py:298-398 | the events already yielded come first; unless a call raised, the transcript is extended by one well-formed round holding the content, the calls and one answer per call |
| AgentLoop.Iterate | api/app/services/llm.py:214-398 | the iteration as the loop runs it is `Step` |
| AgentLoop.Respond | api/app/services/llm.py:298-398 | the assistant message and the answers as the loop builds them are `Responded` |
| AgentLoop.CallsForSlots | api/app/services/llm.py:298-308 | accumulators that match the stream record exactly the calls it reported, each id defaulted to `call_default` |
| AgentLoop.RunAgentLoop | api/app/services/llm.py:96-401 | a schema that cannot be adapted crashes the run before the loop; otherwise the run is the loop from the seeded transcript with empty counters; at most ten completions; the session's registry entry remains exactly on the early returns and on an exception, and other entries are untouched; the run stops early exactly when it reports the stop, which needs a stop request; the cap means ten completions; a finished run's last stream was clean and had no tool calls; every invocation carries the topology |
| AgentLoop.Converse | api/app/services/llm.py:105-398 | the same run facts, with the registry's entries left as they are |
| AgentLoop.RunReports | api/app/services/llm.py:209-398 | the run facts follow from how the loop concluded |
| AgentLoop.Iterations | api/app/services/llm.py:207-398 | the loop as it runs is `Loop` from iteration 0 with the seeded transcript, empty counters, no invocations and no events |
| AgentLoop.Round | api/app/services/llm.py:209-398 | one pass through the body ends the loop as `Loop` says, or leaves what the next iteration carries, with the flag still down |
| AgentLoop.LoopConcludes | api/app/services/llm.py:209-398 | from any iteration: at most ten completions in all; earlier events come first; a stop event appears exactly when the loop stops early, only for a registered run with a stop request and none earlier; the cap only after ten completions; a finished loop's last stream was clean without calls; a lost connection or broken stream ends with its error event; the transcript stays well formed unless a call raised; every invocation carries the topology |
| AgentLoop.LoopSteps | api/app/services/llm.py:209-398 | an iteration the cancel check lets run ends the loop on its verdict, after one more completion, or hands its transcript, counters, log and events to the next |
| AgentLoop.LoopStops | api/app/services/llm.py:209-212 | a registered run whose stop request arrived before the check stops there with one stop event |
| Cancellation.Registry.Register | api/app/services/llm.py:101-103 | a non-empty session id gets the fresh flag, replacing any earlier one; the empty id is never registered |
| Cancellation.Registry.Stop | api/app/services/llm.py:403-407 | answers whether the session has a flag and, if so, raises it; nothing else changes |
| Cancellation.Registry.Unregister | api/app/services/llm.py:400-401 | the session's entry, if any, is deleted whoever registered it |
| ChatRoutes.SessionTitle | api/app/api/routes/chat.py:52 | a message of up to 30 characters is the title; a longer one gives its first 30 characters and "..." |
| ChatRoutes.HistoryWindow | api/app/api/routes/chat.py:76 | the last four history entries, or all of them when there are fewer |
| ChatRoutes.Accepted | api/app/api/routes/chat.py:143-153 | every surviving chunk is a chunk of the stream with a text |
| ChatRoutes.AcceptedComplete | api/app/api/routes/chat.py:143-153 | no chunk with a text is dropped |
| ChatRoutes.AcceptedAppend | api/app/api/routes/chat.py:143-153 | filtering keeps the order: the survivors of two stretches of the stream are those of the first, then those of the second |
| ChatRoutes.Texts | api/app/api/routes/chat.py:145-148 | one text per surviving chunk, in the same order, each the chunk's text |
| ChatRoutes.ReframeAgentStream | api/app/api/routes/chat.py:139-153 | every surviving chunk is forwarded as one `data:` event, and the response text is the concatenation of their texts |
| ChatRoutes.ChatDatabase.OpenSession | api/app/api/routes/chat.py:44-74 | for "new", an unknown topology is a 404 with nothing written, and otherwise a session with the derived title is created; the user's message is then saved under the session in use |
| ChatRoutes.ChatDatabase.AgentResponse | api/app/api/routes/chat.py:139-162 | the events of the surviving chunks; then, unless the agent itself raised, the response text saved once, only when not empty; when it raised, no message is saved |
| ChatRoutes.StopAgentChat | api/app/api/routes/chat.py:233-239 | stopped exactly when a run is registered for the session, whose flag is then raised; a 404 otherwise |
| ChatRoutes.SilentChunkForwarded | api/app/api/routes/chat.py:145-151 | a chunk without text is forwarded but adds nothing to the saved response |
| ChatStore.TakeLines | client/src/stores/chat.js:136-140 | the complete lines and the new buffer hold no line feed, and rejoined they give back buffer plus chunk |
| ChatStore.Store.constructor | client/src/stores/chat.js:5-15 | no session, no messages, not streaming, model "qwen", mode "agent", session not started |
| ChatStore.Store.SetCurrentSession | client/src/stores/chat.js:178-181 | the session is set and counts as started unless it is null or "new" |
| ChatStore.Store.ClearMessages | client/src/stores/chat.js:183-186 | no messages and the session no longer counts as started |
| ChatStore.Store.SetModel | client/src/stores/chat.js:188-192 | the model changes only while the session has not started |
| ChatStore.Store.SetMode | client/src/stores/chat.js:194-198 | the mode changes only while the session has not started |
| ChatStore.Store.ResetSession | client/src/stores/chat.js:200-204 | no session, no messages, session not started |
| ChatStore.Store.StopAgent | client/src/stores/chat.js:206-218 | nothing happens unless a session is set and the mode is "agent"; otherwise the stop goes to the current session, and streaming ends on success, or on failure the error is recorded and the failure rethrown to the caller |
| ChatStore.Store.SendMessage | client/src/stores/chat.js:92-176 | the user's message, then the assistant message with the texts of the complete lines up to the first error payload; the error, the returned id (`newSessionId \|\| sessionId`) or the rethrow, the session flags, and `streaming` false on every exit |
| ChatStore.Store.ReadStream | client/src/stores/chat.js:131-167 | the assistant message ends as the scan of the whole stream's complete lines, whatever the chunk boundaries; the loop stops exactly at an error payload, which is recorded |
| ChatStore.Store.ScanChunkLines | client/src/stores/chat.js:142-166 | one read's lines extend the scan in order; the loop stops exactly when the scan meets an error payload |
| ChatStore.Store.ScanLine | client/src/stores/chat.js:143-165 | blank and non-`data:` lines are skipped, an error payload is recorded and stops the scan, and a truthy text is appended |
| ChatStore.ScanStops | client/src/stores/chat.js:152-156 | once an error payload has stopped the scan, later lines change nothing |
| ChatStore.CompleteLinesGrow | client/src/stores/chat.js:136-140 | the complete lines of a stream stay complete, in place, however the stream continues |
| ChatStore.ReadExtends | client/src/stores/chat.js:136-140 | reading one more chunk continues the buffer with it and keeps every completed line |
| ChatStore.ErrorSettles | client/src/stores/chat.js:152-156 | an error payload in the lines read so far fixes the scan of the whole stream |
| Wire.FramesSplit | api/app/api/routes/chat.py:151 | line-feed-free chunks framed as events split into data lines and empty lines, with nothing unfinished |
| Wire.EventLinesScan | client/src/stores/chat.js:142-166 | the store's scan of the agent endpoint's event lines collects exactly the texts of the surviving chunks when none carries an error |
| Wire.AgentStreamArrives | api/app/api/routes/chat.py:139-162 | with chunks free of line feeds and error members, the store's assistant message equals the response text the endpoint saves, and no error is recorded |

## Left out

- Network and database I/O are left out. The completion server, the MCP tools, the knowledge service,
  the HTTP layer and the database rows are parameters or fields.
- Concurrency is left out. The stop endpoint's effect is a stop request before a given iteration's
  cancel check, so a stop arriving during an iteration takes effect at the next check, as in the source.
- The 120-second tool timeout and the 0.1-second pause between calls are not timed. A timeout is the
  tool outcome `TimedOut`.
- The system prompt text and the exact wording of the progress events are left out. The prompt is a
  parameter; the events are kinds with their payloads.
- JSON numbers are integers only. Floating point is not modelled.
- `TextDecoder` is not modelled. The store receives chunks already decoded.
- The content-normalising loops over the transcript (`llm.py:199-203` and `228-236`) are not modelled.
  In the model every content is already a string.
- The `history` argument of `run_agent_loop` is accepted but unused, as in the source.
- The `finish_reason == "stop"` test (`llm.py:292`) is left out. The `not tool_calls` test after it covers
  every case it covers.
- The `"Success"` fallback of the tool message is unreachable, because the result text is never empty.
  It is modelled (`ToolDispatch.MessageText`) but plays no part in any property.
- Tool answers are indexed by invocation number, so a retried push may see a different answer.
- Tool-call indices are natural numbers. A negative index, which Python would read from the end of the
  accumulator list (or raise on an empty one), is not modelled.
- The counters a raising call leaves are not kept: the exception ends the run, and the counters live for
  one run.
- The ask and local endpoints' streaming through `llm.response_generator` and the knowledge service are
  not part of this model. Only their session-opening rules and the history window are.
- The store's other actions (`fetchSessions`, `fetchHistory` and the session deletions) are not part of
  this model.
- The repository's other files are not part of this model: the Ansible runner, the GNS3 client, the
  device and topology services, the chat persistence helpers, the database set-up, the MCP server and the
  user interface.
- Wire.AgentStreamArrives: assumes that the server's `json.loads` and the browser's `JSON.parse` agree on
  every chunk. Python accepts `NaN` and `Infinity`, which JavaScript rejects.
