# Intelligent RAG pipes, modelled in Dafny

The repository holds two near-duplicate "pipes" for a chat host. Each pipe
takes one chat turn, sends the last message to an external "intelligent RAG"
server over HTTP, adds the server's answer (and maybe its reasoning log) to
the conversation, and reports progress to the host through a throttled
status emitter. This project models both pipes after the network call is
abstracted away:

- `status.dfy` (module `Status`): the throttle behind `emit_status`. Its one
  field, `last_emit_time`, starts at 0. `Notify` is one call, and `Replay`
  runs the calls of one invocation in order. `Consistent` is the invariant:
  `last_emit_time` is the time of the last event sent, and every non-terminal
  event came at least `emit_interval` after the one before it.
- `openwebui_pipe.dfy` (module `OpenWebUIPipe`): the pipe of
  openwebui_pipe.py. It builds a context string from earlier user and
  assistant turns and appends the reply's `log` to the answer as a fenced
  JSON "Reasoning" block. Every failed request (transport, non-200 status,
  decoding, missing `answer`) comes back as
  `{"error": "Error during RAG query: ..."}`; an empty message list comes
  back as the unprefixed `{"error": "No messages found in the request body"}`.
- `intelligent_rag_pipe.dfy` (module `IntelligentRagPipe`): the pipe of
  intelligent_rag_pipe.py. It sends no context and adds a truthy `log` as a
  separate "Thinking process" system message. Failures come back unprefixed.
  On an empty message list it falls through to `return answer` with `answer`
  never assigned.
- `host.dfy` (module `Host`): the shared values. These are messages, the
  valves (configuration, with `thinking_depth` confined to 1..4), the chat
  body whose message list is appended to in place, the abstract HTTP
  outcome, and what `pipe` ends with.
- `text.dfy` (module `Text`): `str.join`, `str.split` on one character, and
  `str()` of a status code.
- `flavours.dfy` (module `Flavours`): what the two pipes do alike and
  differently for the same inputs, plus a small client of the throttle.

Each pipe is a class `Pipe`. Its fields are `valves`, `lastEmitTime`, and a
ghost `events` trace of what the emitter received, each event stamped with
its clock reading. `EmitStatus` is `emit_status`. `Handle` is `pipe`: it
appends to `body.messages` in place, returns the result and the request it
sent, and is proved against the pure function `TurnOf`. `TurnOf` gives the
request sent, the messages appended, the result, and the `emit_status` calls
made in order. The lemmas about `TurnOf` state each path's behaviour.
`Handle`'s postcondition ties the new emitter state to
`Status.Replay(old state, TurnOf(...).calls, clock)`.

Inputs the model takes as parameters:

- The k-th `emit_status` call of one invocation reads the clock as
  `clock(k)`; this replaces `time.time()`.
- The reply to the POST is an `HttpOutcome`. It is either a transport
  failure, or a status code with body text and a decoded JSON reading.
- `json.dumps(..., indent=2)`, Python's `str` of a non-string log, and
  `urljoin` are function-valued parameters: `dumps`, `show` and `urljoin`.

Behaviour of the code worth noting, which the model keeps as written:

- In intelligent_rag_pipe.py a 200 reply without `answer` is not a failure.
  The answer defaults to `""`.
- On an empty message list, intelligent_rag_pipe.py raises at `return answer`
  instead of returning an error. It emits the terminal "Complete" status
  just before that.
- Both files raise, uncaught, when `body` has no "messages" key and the
  message list is therefore empty. `body.get` reads an empty list, but
  `body["messages"].append` fails. The model represents the missing key as
  `ChatBody.messages == None` with the result `Raised`.
- intelligent_rag_pipe.py returns the unprefixed `str(e)`, while its terminal
  status carries the prefixed text.

## Model

| member | source | states |
|---|---|---|
| Status.Notify | openwebui_pipe.py:61-87 | definition, no contract of its own: one `emit_status` call; it sends the "complete" (when `done`) or "in_progress" event with the call's level, message and flag and sets `last_emit_time` to now iff the emitter is present, the indicator is enabled, and the interval has passed or `done` holds; otherwise the notifier is unchanged |
| Status.Replay | openwebui_pipe.py:89-173 | definition, no contract of its own: the `emit_status` calls of one `pipe` invocation applied in order, the k-th reading the clock as `clock(k)` |
| Status.InitialConsistent | openwebui_pipe.py:59 | a fresh notifier (`last_emit_time` 0, nothing sent) satisfies the throttling invariant; both constructors rely on it |
| Status.NotifyKeepsConsistent | openwebui_pipe.py:69-87 | one `emit_status` call keeps the invariant: `last_emit_time` is the last sent event's time (0 before any), and each non-terminal event is at least `emit_interval` after the previous one |
| Status.ReplayKeepsConsistent | intelligent_rag_pipe.py:66-84 | any sequence of `emit_status` calls keeps that throttling invariant |
| Status.SilencedCallIsIdle | openwebui_pipe.py:69-75 | with no emitter or the indicator disabled, a call sends nothing and leaves `last_emit_time` unchanged |
| Status.SilencedReplayIsIdle | intelligent_rag_pipe.py:66-72 | with no emitter or the indicator disabled, a whole invocation sends nothing and leaves `last_emit_time` unchanged |
| Status.TerminalCallSends | openwebui_pipe.py:69-87 | with an emitter and the indicator on, a `done` call always sends, whatever the elapsed time; its event is "complete" with the call's level, message and flag, and `last_emit_time` becomes now |
| Status.ProgressCallThrottled | openwebui_pipe.py:69-87 | with an emitter and the indicator on, a non-`done` call sends an "in_progress" event iff `now - last_emit_time >= emit_interval`, and otherwise changes nothing |
| Status.CloseProgressCallsSendOnce | intelligent_rag_pipe.py:66-84 | of two non-terminal calls less than the interval apart, the second is dropped once the first was sent; a terminal second call is still sent |
| Status.ReplayOnlyAppends | openwebui_pipe.py:76-87 | an invocation only appends events, at most one per call, and `last_emit_time` moves only when an event is sent |
| Status.TerminalCallIsLastEvent | openwebui_pipe.py:69-87 | when the last call is `done` and the channel is open, the last event received is that call's "complete" event at that call's time |
| OpenWebUIPipe.ContextLines | openwebui_pipe.py:108-110 | definition, no contract of its own: the `role: content` lines of the user and assistant messages, in order |
| OpenWebUIPipe.Context | openwebui_pipe.py:107-120 | definition, no contract of its own: the `context` field, the lines of `messages[:-1]` joined by "\n", or `None` when there are none |
| OpenWebUIPipe.Interpret | openwebui_pipe.py:129-140 | definition, no contract of its own: the `try` block's reading of the reply, the text of a transport, non-200, decoding or missing-`answer` failure, or else the answer with its reasoning block |
| OpenWebUIPipe.TurnOf | openwebui_pipe.py:89-173 | definition, no contract of its own: path by path, the request sent, the messages appended, the result and the `emit_status` calls of one `pipe` call |
| OpenWebUIPipe.Pipe.constructor | openwebui_pipe.py:54-59 | a new pipe has `last_emit_time` 0, has sent nothing, and satisfies the throttling invariant |
| OpenWebUIPipe.Pipe.EmitStatus | openwebui_pipe.py:61-87 | sends the status event and sets `last_emit_time` to now exactly when the emitter is present, the indicator is enabled, and the interval has passed or `done` holds; otherwise nothing changes; keeps the invariant |
| OpenWebUIPipe.Pipe.Handle | openwebui_pipe.py:89-173 | returns `TurnOf`'s result and request, appends exactly `TurnOf`'s messages to `body["messages"]`, and leaves the emitter state as the replay of `TurnOf`'s status calls |
| OpenWebUIPipe.BuildContext | openwebui_pipe.py:107-110 | the loop over `messages[:-1]` yields the context: the lines of the earlier user and assistant messages joined by newlines, or none |
| OpenWebUIPipe.ContextLinesAppend | openwebui_pipe.py:108-110 | the context lines of a concatenation are those of each part, in order |
| OpenWebUIPipe.ContextLinesEmptyIff | openwebui_pipe.py:109 | there are no context lines iff no message has role "user" or "assistant" |
| OpenWebUIPipe.ContextLinesMembers | openwebui_pipe.py:108-110 | every context line is `role: content` of a user or assistant message, and every such message contributes its line |
| OpenWebUIPipe.ContextAbsentIff | openwebui_pipe.py:120 | the context is `None` iff no message before the last is a user or assistant message; otherwise it is their lines joined by "\n" |
| OpenWebUIPipe.ContextIgnoresLastMessage | openwebui_pipe.py:108 | the last message never affects the context |
| OpenWebUIPipe.ContextSplitsIntoLines | openwebui_pipe.py:110-120 | when no role or content contains a newline, splitting the context on "\n" gives back exactly the context lines |
| OpenWebUIPipe.WithReasoning | openwebui_pipe.py:136-138 | the answer text starts with the reply's `answer`; it equals it iff there is no `log` key; with a log it is followed by the "Reasoning" JSON block holding `dumps(log)` |
| OpenWebUIPipe.ReadReply | openwebui_pipe.py:131-140 | reads the reply as `Interpret` does: a transport failure, non-200 status, parse failure or missing `answer` yields the exception text; otherwise the answer with its reasoning block |
| OpenWebUIPipe.RequestCarriesLastMessage | openwebui_pipe.py:104-124 | a non-empty list sends one request to `urljoin(server_url, "/api/query")`; `query` is the last message's content verbatim, `projectId` and `thinkingDepth` (within 1..4) come from the valves, and `context` comes from the earlier turns |
| OpenWebUIPipe.AnsweredTurn | openwebui_pipe.py:131-148 | a 200 reply with an answer appends exactly one assistant message whose content is the returned string; it starts with the answer, and carries the reasoning block iff `log` is present; the status calls end with the terminal success call |
| OpenWebUIPipe.FailureDescriptions | openwebui_pipe.py:129-140 | the failure text is the transport error, "Error: <code> - <body>" for a non-200 status, the decoding error, or "'answer'" for a missing answer; only a 200 reply with an answer succeeds |
| OpenWebUIPipe.FailedTurn | openwebui_pipe.py:150-158 | a failed request appends nothing and returns `{"error": "Error during RAG query: " + description}` after a terminal error status with that same text |
| OpenWebUIPipe.ServerErrorExample | openwebui_pipe.py:139-158 | a 500 reply with body "server error" returns the error "Error during RAG query: Error: 500 - server error" |
| OpenWebUIPipe.EmptyTurn | openwebui_pipe.py:159-173 | an empty list makes no request, emits a terminal error, appends exactly the assistant message "No messages found in the request body" and returns it as the error; without the key, the append raises |
| OpenWebUIPipe.TurnEndsWithTerminalEvent | openwebui_pipe.py:145-166 | with an emitter and the indicator on, the last event of every turn is terminal; for a returned error it carries the error's own text at level "error" |
| OpenWebUIPipe.TurnOnlyAppends | openwebui_pipe.py:143 | the messages present before the call are kept unchanged as a prefix |
| IntelligentRagPipe.Interpret | intelligent_rag_pipe.py:112-137 | definition, no contract of its own: the `try` block's reading of the reply, the text of a transport, non-200 or decoding failure, or else the answer and log defaulted to "" |
| IntelligentRagPipe.TurnOf | intelligent_rag_pipe.py:86-162 | definition, no contract of its own: path by path, the request sent, the messages appended, the result (including the raise at `return answer`) and the `emit_status` calls of one `pipe` call |
| IntelligentRagPipe.Pipe.constructor | intelligent_rag_pipe.py:51-56 | a new pipe has `last_emit_time` 0, has sent nothing, and satisfies the throttling invariant |
| IntelligentRagPipe.Pipe.EmitStatus | intelligent_rag_pipe.py:58-84 | the same throttle as the other pipe: it sends and sets `last_emit_time` exactly when the emitter is present, the indicator is enabled, and the interval has passed or `done` holds |
| IntelligentRagPipe.Pipe.Handle | intelligent_rag_pipe.py:86-162 | returns `TurnOf`'s result and request, appends exactly `TurnOf`'s messages, and leaves the emitter state as the replay of `TurnOf`'s status calls, including the fall-through to line 161 |
| IntelligentRagPipe.LogText | intelligent_rag_pipe.py:127 | a string log is inserted verbatim |
| IntelligentRagPipe.ReplyMessages | intelligent_rag_pipe.py:124-134 | a 200 reply appends two messages if the log is truthy, else one; the last is the assistant answer, and the first, when there are two, is the system message "Thinking process:\n" + log |
| IntelligentRagPipe.ReadReply | intelligent_rag_pipe.py:118-137 | reads the reply as `Interpret` does: a transport failure, non-200 status or decoding error yields the exception text; otherwise the answer and log, defaulted to "" when missing |
| IntelligentRagPipe.RequestCarriesLastMessage | intelligent_rag_pipe.py:101-116 | a non-empty list sends exactly `{projectId, query, thinkingDepth}` to `server_url + "/api/query"`; `query` is the last message verbatim |
| IntelligentRagPipe.AnsweredTurn | intelligent_rag_pipe.py:118-134 | a 200 reply returns the bare answer (`""` when missing, never mixed with the log); the system message comes first iff the log is truthy, then exactly one assistant message; the status calls end with "Complete" |
| IntelligentRagPipe.StringLogExample | intelligent_rag_pipe.py:124-134 | the reply `{"answer": "X", "log": "Y"}` appends "Thinking process:\nY" as a system message, then "X", and returns "X" |
| IntelligentRagPipe.FailedTurn | intelligent_rag_pipe.py:139-146 | a failed request appends nothing and returns the unprefixed `{"error": str(e)}`, while the terminal error status carries the "Error during RAG query: " prefix |
| IntelligentRagPipe.FailureDescriptions | intelligent_rag_pipe.py:112-137 | only a transport failure, a non-200 status ("Error: <code> - <body>") or a decoding error fail |
| IntelligentRagPipe.EmptyTurn | intelligent_rag_pipe.py:147-162 | an empty list makes no request, emits the terminal error, appends the assistant message "No messages found in the request body", then emits "Complete" and raises at `return answer`; without the key the append raises first |
| IntelligentRagPipe.TurnEndsWithTerminalEvent | intelligent_rag_pipe.py:140-161 | with an emitter and the indicator on, the last event is terminal: "Complete" after an answer, the prefixed error after an error |
| IntelligentRagPipe.TurnOnlyAppends | intelligent_rag_pipe.py:125-134 | the messages present before the call are kept unchanged as a prefix |
| Host.Truthy | intelligent_rag_pipe.py:124 | definition, no contract of its own: Python truthiness of the decoded `log`; null, false, 0, "" and an empty list or object are falsy |
| Host.MessagesOrEmpty | openwebui_pipe.py:100 | definition, no contract of its own: `body.get("messages", [])`, the list when the key is present and empty otherwise |
| Host.AllButLast | openwebui_pipe.py:108 | `messages[:-1]` is the list without its last element, and empty for an empty list |
| Host.StatusErrorText | openwebui_pipe.py:140 | the text of a non-200 failure is "Error: ", then decimal digits denoting the status code, then " - " and the body text |
| Host.StatusErrorTextExample | intelligent_rag_pipe.py:137 | status 500 with body "server error" gives "Error: 500 - server error" |
| Text.Join | openwebui_pipe.py:120 | definition, no contract of its own: `sep.join(parts)`, the parts in order with `sep` between neighbours |
| Text.NatToString | openwebui_pipe.py:140 | `str()` of a status code is a non-empty string of decimal digits with no leading zero |
| Text.DigitsValueOfNatToString | intelligent_rag_pipe.py:137 | the decimal text of the status code reads back as the code |
| Text.SplitJoin | openwebui_pipe.py:120 | "\n".join is undone by splitting on "\n" when no part contains a newline |
| Flavours.SameQuery | intelligent_rag_pipe.py:107-116 | both pipes send the last message verbatim with the same project and depth; only openwebui_pipe.py sends a context, and they build the URL differently |
| Flavours.LogAbsentAgree | openwebui_pipe.py:131-148 | for a 200 reply `{"answer": X}`, both pipes return X and append the single assistant message X |
| Flavours.ErrorWordingDiffers | intelligent_rag_pipe.py:139-146 | for a failure both see, both append nothing, but only openwebui_pipe.py prefixes the returned error text |
| Flavours.MissingAnswerDiffers | intelligent_rag_pipe.py:120 | for a 200 reply without `answer`, openwebui_pipe.py fails with "'answer'" and intelligent_rag_pipe.py answers "" |
| Flavours.EmptyInputDiffers | intelligent_rag_pipe.py:147-162 | for an empty list, openwebui_pipe.py returns an error and intelligent_rag_pipe.py raises |
| Flavours.ThrottleScenario | openwebui_pipe.py:69-87 | on a fresh pipe with the default two-second interval, a progress call at 5.0 is sent, one at 6.0 is dropped, and a terminal one at 6.5 is still sent; `last_emit_time` reads 5.0, 5.0, 6.5 |

## Left out

- The HTTP request itself (`requests.post`, its headers, `response.status_code`, `response.text`, `response.json()`) is network I/O. It is an `HttpOutcome` input, and `Handle` returns the request it would send.
- `json.dumps(..., indent=2)`, Python's `str()` of a non-string log, and `urljoin` are library calls. They are function parameters (`dumps`, `show`, `urljoin`) with no properties assumed; the model only records that the openwebui URL is `urljoin(server_url, "/api/query")`.
- `extract_event_info` is reflection over the emitter's closure, and its result is never used. The `__user__` and `__event_call__` parameters are unused too.
- async/await and the emitter callable run sequentially. Each awaited emission becomes an append to the ghost `events` trace. A failing emitter is not modelled.
- `time.time()` is the `clock` parameter, a real number per call. Floating-point rounding is not modelled.
- Concurrent invocations racing on `last_emit_time` are out of scope; the model is single-threaded.
- Pydantic validation is reduced to the 1..4 bound on `thinking_depth`. The valves are a constructor argument instead of the declared defaults (`Host.DefaultValves`) that the host later overwrites.
- The `type`, `id` and `name` attributes of `Pipe` are not modelled, because no logic reads them.
- An `answer` that is not a string and a JSON reply that is not an object are not modelled. An exception raised while reading such a reply is folded into `Malformed(description)`.
- Messages are assumed to carry `role` and `content`. A message without them makes the source raise a `KeyError`, which is not modelled.
- Exception texts are abstract constants, not CPython's exact messages. This covers the missing "messages" key, the unbound `answer`, transport errors and JSON decoding errors. The one exception is `str(KeyError('answer'))`, which is modelled as `'answer'`.
- Exceptions raised inside the `try` by `emit_status` or `urljoin` themselves are not modelled.
