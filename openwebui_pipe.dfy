/** The pipe of openwebui_pipe.py: it sends the last message together with a
    context built from the earlier user and assistant turns, wraps the reply's
    `log` into the answer as a fenced JSON "Reasoning" block, and returns
    every failed request (transport, non-200 status, decoding, missing
    `answer`) as `{"error": "Error during RAG query: ..."}`; an empty message
    list is answered with the unprefixed "No messages found" error. */
module OpenWebUIPipe {
  import opened Host
  import Status
  import Text

  /** The JSON body of the POST; `context` is sent as null when absent. */
  datatype Payload = Payload(projectId: string, query: string, thinkingDepth: Depth, context: Option<string>)

  datatype Request = Request(url: string, payload: Payload)

  /** Everything one call of `pipe` does: the request it sends (if any), the
      messages it appends to `body["messages"]`, what it returns or raises,
      and the `emit_status` calls it makes, in order. */
  datatype Turn = Turn(request: Option<Request>, appended: seq<Message>, result: PipeResult, calls: seq<Status.Call>)

  const StartCall := Status.Call("info", "Calling Intelligent RAG Server...", false)
  const ProcessingCall := Status.Call("info", "Processing query...", false)
  const SuccessCall := Status.Call("info", "Response generated successfully", true)
  const NoMessagesCall := Status.Call("error", NoMessagesText, true)
  const ReasoningOpen := "\n\n```json\nReasoning:\n"
  const ReasoningClose := "\n```"
  /** `str(KeyError("answer"))`, raised by `rag_response["answer"]`. */
  const MissingAnswerText := "'answer'"

  predicate IsConversational(m: Message)
  {
    m.role == "assistant" || m.role == "user"
  }

  /** `f"{msg['role']}: {msg['content']}"`. */
  function Line(m: Message): string
  {
    m.role + ": " + m.content
  }

  /** The context lines of the given messages, in order. */
  function ContextLines(ms: seq<Message>): seq<string>
    decreases |ms|
  {
    if ms == [] then []
    else
      var last := ms[|ms| - 1];
      ContextLines(ms[..|ms| - 1]) + (if IsConversational(last) then [Line(last)] else [])
  }

  /** The `context` field built from `messages[:-1]`. */
  function Context(messages: seq<Message>): Option<string>
  {
    var lines := ContextLines(AllButLast(messages));
    if lines == [] then None else Some(Text.Join(lines, "\n"))
  }

  /** The payload for a non-empty message list. */
  function MakePayload(valves: Valves, messages: seq<Message>): Payload
    requires |messages| > 0
  {
    Payload(valves.projectId, messages[|messages| - 1].content, valves.thinkingDepth, Context(messages))
  }

  /** The answer text after the reasoning block is added when the reply has
      a `log` key (`dumps` stands for `json.dumps(..., indent=2)`). */
  function WithReasoning(answer: string, log: Option<Json>, dumps: Json -> string): (text: string)
    ensures answer <= text
    ensures text == answer <==> log.None?
    ensures log.Some? ==> text[|answer|..] == ReasoningOpen + dumps(log.value) + ReasoningClose
  {
    match log
    case None => answer
    case Some(j) =>
      assert (answer + ReasoningOpen + dumps(j) + ReasoningClose)[|answer|..] == ReasoningOpen + dumps(j) + ReasoningClose;
      answer + ReasoningOpen + dumps(j) + ReasoningClose
  }

  /** The reply, read as the `try` block reads it: the final answer text, or
      the text `str(e)` of the exception raised. */
  datatype Reading = Answered(text: string) | Failed(description: string)

  function Interpret(outcome: HttpOutcome, dumps: Json -> string): Reading
  {
    match outcome
    case TransportFailure(d) => Failed(d)
    case Response(code, text, json) =>
      if code != 200 then Failed(StatusErrorText(code, text))
      else match json
        case Malformed(d) => Failed(d)
        case Parsed(answer, log) =>
          if answer.None? then Failed(MissingAnswerText)
          else Answered(WithReasoning(answer.value, log, dumps))
  }

  /** What one call of `pipe` does, given the message list it finds (`None`
      when `body` has no "messages" key), the reply the request gets, and the
      two library functions it uses. */
  function TurnOf(valves: Valves, messages: Option<seq<Message>>, outcome: HttpOutcome,
                  urljoin: (string, string) -> string, dumps: Json -> string): Turn
  {
    var ms := MessagesOrEmpty(messages);
    if |ms| == 0 then
      if messages.None? then
        Turn(None, [], Raised(MissingMessagesKey), [StartCall, NoMessagesCall])
      else
        Turn(None, [Message("assistant", NoMessagesText)], Error(NoMessagesText), [StartCall, NoMessagesCall])
    else
      var request := Request(urljoin(valves.serverUrl, "/api/query"), MakePayload(valves, ms));
      match Interpret(outcome, dumps)
      case Answered(text) =>
        Turn(Some(request), [Message("assistant", text)], Answer(text), [StartCall, ProcessingCall, SuccessCall])
      case Failed(d) =>
        Turn(Some(request), [], Error(ErrorPrefix + d),
             [StartCall, ProcessingCall, Status.Call("error", ErrorPrefix + d, true)])
  }

  /** The `try` block after the POST: `failure` is the text of the exception
      raised, if any; otherwise `answer` is the final answer text. */
  method ReadReply(outcome: HttpOutcome, dumps: Json -> string) returns (failure: Option<string>, answer: string)
    ensures Interpret(outcome, dumps) == if failure.None? then Answered(answer) else Failed(failure.value)
  {
    failure, answer := None, "";
    match outcome {
      case TransportFailure(d) =>
        failure := Some(d);
      case Response(code, text, json) =>
        if code == 200 {
          match json {
            case Malformed(d) =>
              failure := Some(d);
            case Parsed(a, log) =>
              if a.None? {
                failure := Some(MissingAnswerText);
              } else {
                answer := a.value;
                if log.Some? {
                  var reasoning := dumps(log.value);
                  answer := answer + ReasoningOpen + reasoning + ReasoningClose;
                }
              }
          }
        } else {
          failure := Some(StatusErrorText(code, text));
        }
    }
  }

  // Properties of the context string.

  /** Context lines of a concatenation are the lines of each part, in order. */
  lemma {:induction false} ContextLinesAppend(a: seq<Message>, b: seq<Message>)
    ensures ContextLines(a + b) == ContextLines(a) + ContextLines(b)
    decreases |b|
  {
    if b == [] {
      assert a + b == a;
    } else {
      var b' := b[..|b| - 1];
      ContextLinesAppend(a, b');
      assert (a + b)[..|a + b| - 1] == a + b';
    }
  }

  /** No context line exists iff no message is a user or assistant message. */
  lemma {:induction false} ContextLinesEmptyIff(ms: seq<Message>)
    ensures ContextLines(ms) == [] <==> forall i :: 0 <= i < |ms| ==> !IsConversational(ms[i])
    decreases |ms|
  {
    if ms != [] {
      var prefix := ms[..|ms| - 1];
      ContextLinesEmptyIff(prefix);
      if ContextLines(ms) == [] {
        forall i | 0 <= i < |ms| ensures !IsConversational(ms[i]) {
          if i < |ms| - 1 { assert ms[i] == prefix[i]; }
        }
      } else if !IsConversational(ms[|ms| - 1]) {
        var i :| 0 <= i < |prefix| && IsConversational(prefix[i]);
        assert ms[i] == prefix[i];
      }
    }
  }

  /** Every context line is `role: content` of a user or assistant message,
      and every such message contributes its line. */
  lemma {:induction false} ContextLinesMembers(ms: seq<Message>)
    ensures forall l :: l in ContextLines(ms) ==> exists m :: m in ms && IsConversational(m) && l == Line(m)
    ensures forall m :: m in ms && IsConversational(m) ==> Line(m) in ContextLines(ms)
    decreases |ms|
  {
    if ms != [] {
      var prefix := ms[..|ms| - 1];
      ContextLinesMembers(prefix);
      assert ms == prefix + [ms[|ms| - 1]];
      forall l | l in ContextLines(ms)
        ensures exists m :: m in ms && IsConversational(m) && l == Line(m)
      {
        if l in ContextLines(prefix) {
          var m :| m in prefix && IsConversational(m) && l == Line(m);
          assert m in ms;
        } else {
          assert ms[|ms| - 1] in ms;
        }
      }
    }
  }

  /** The context is absent iff no message before the last is a user or
      assistant message; otherwise it is their lines joined by newlines. */
  lemma ContextAbsentIff(messages: seq<Message>)
    ensures var prior := AllButLast(messages);
      && (Context(messages).None? <==> forall i :: 0 <= i < |prior| ==> !IsConversational(prior[i]))
      && (Context(messages).Some? ==> Context(messages).value == Text.Join(ContextLines(prior), "\n"))
  {
    ContextLinesEmptyIff(AllButLast(messages));
  }

  /** The last message never contributes to the context. */
  lemma ContextIgnoresLastMessage(ms: seq<Message>, a: Message, b: Message)
    ensures Context(ms + [a]) == Context(ms + [b])
  {
    assert AllButLast(ms + [a]) == ms == AllButLast(ms + [b]);
  }

  /** When no role or content holds a newline, splitting the context on
      newlines gives back exactly the context lines. */
  lemma ContextSplitsIntoLines(messages: seq<Message>)
    requires forall i :: 0 <= i < |messages| ==> '\n' !in messages[i].role && '\n' !in messages[i].content
    ensures var lines := ContextLines(AllButLast(messages));
      Context(messages).Some? ==> Text.Split(Context(messages).value, '\n') == lines
  {
    var prior := AllButLast(messages);
    var lines := ContextLines(prior);
    if lines != [] {
      ContextLinesMembers(prior);
      forall i | 0 <= i < |lines| ensures '\n' !in lines[i] {
        assert lines[i] in lines;
        var m :| m in prior && IsConversational(m) && lines[i] == Line(m);
        var j :| 0 <= j < |prior| && prior[j] == m;
        assert messages[j] == m;
      }
      Text.SplitJoin(lines, '\n');
    }
  }

  // Properties of one turn.

  /** A non-empty message list makes one request: to `urljoin(server_url,
      "/api/query")`, with the last message verbatim as `query`, the valves'
      project and depth (within 1..4), and the context of earlier turns. */
  lemma RequestCarriesLastMessage(valves: Valves, ms: seq<Message>, outcome: HttpOutcome,
                                  urljoin: (string, string) -> string, dumps: Json -> string)
    requires |ms| > 0
    ensures var t := TurnOf(valves, Some(ms), outcome, urljoin, dumps);
      && t.request.Some?
      && t.request.value.url == urljoin(valves.serverUrl, "/api/query")
      && t.request.value.payload.query == ms[|ms| - 1].content
      && t.request.value.payload.projectId == valves.projectId
      && t.request.value.payload.thinkingDepth == valves.thinkingDepth
      && 1 <= t.request.value.payload.thinkingDepth <= 4
      && t.request.value.payload.context == Context(ms)
  {
  }

  /** A 200 reply with an answer appends exactly one assistant message, whose
      content is the returned string; it starts with the answer and differs
      from it iff the reply has a `log` key, then by the reasoning block. */
  lemma AnsweredTurn(valves: Valves, ms: seq<Message>, text: string, answer: string, log: Option<Json>,
                     urljoin: (string, string) -> string, dumps: Json -> string)
    requires |ms| > 0
    ensures var t := TurnOf(valves, Some(ms), Response(200, text, Parsed(Some(answer), log)), urljoin, dumps);
      && t.result.Answer?
      && t.appended == [Message("assistant", t.result.text)]
      && answer <= t.result.text
      && (t.result.text == answer <==> log.None?)
      && (log.Some? ==> t.result.text == answer + "\n\n```json\nReasoning:\n" + dumps(log.value) + "\n```")
      && t.calls == [StartCall, ProcessingCall, SuccessCall]
  {
    var r := WithReasoning(answer, log, dumps);
    if log.Some? {
      assert r == r[..|answer|] + r[|answer|..];
    }
  }

  /** A non-200 status, a transport failure, a malformed body or a missing
      `answer` fail with the exception's text, which for a bad status is
      "Error: <code> - <body>" and for a missing answer "'answer'". */
  lemma FailureDescriptions(outcome: HttpOutcome, dumps: Json -> string)
    ensures outcome.TransportFailure? ==> Interpret(outcome, dumps) == Failed(outcome.description)
    ensures outcome.Response? && outcome.statusCode != 200 ==>
      Interpret(outcome, dumps) == Failed("Error: " + Text.NatToString(outcome.statusCode) + " - " + outcome.text)
    ensures outcome.Response? && outcome.statusCode == 200 && outcome.json.Malformed? ==>
      Interpret(outcome, dumps) == Failed(outcome.json.description)
    ensures outcome.Response? && outcome.statusCode == 200 && outcome.json.Parsed? && outcome.json.answer.None? ==>
      Interpret(outcome, dumps) == Failed("'answer'")
    ensures Interpret(outcome, dumps).Answered? <==>
      outcome.Response? && outcome.statusCode == 200 && outcome.json.Parsed? && outcome.json.answer.Some?
  {
  }

  /** A failed request appends nothing and returns the prefixed description as
      `{"error": ...}`, after a terminal error status with that same text. */
  lemma FailedTurn(valves: Valves, ms: seq<Message>, outcome: HttpOutcome,
                   urljoin: (string, string) -> string, dumps: Json -> string)
    requires |ms| > 0 && Interpret(outcome, dumps).Failed?
    ensures var t := TurnOf(valves, Some(ms), outcome, urljoin, dumps);
      var message := "Error during RAG query: " + Interpret(outcome, dumps).description;
      && t.appended == []
      && t.result == Error(message)
      && t.calls == [StartCall, ProcessingCall, Status.Call("error", message, true)]
  {
  }

  /** The example of a 500 reply with body "server error". */
  lemma ServerErrorExample(valves: Valves, ms: seq<Message>, json: ReplyJson,
                           urljoin: (string, string) -> string, dumps: Json -> string)
    requires |ms| > 0
    ensures TurnOf(valves, Some(ms), Response(500, "server error", json), urljoin, dumps).result
         == Error("Error during RAG query: Error: 500 - server error")
  {
    StatusErrorTextExample();
    assert Interpret(Response(500, "server error", json), dumps) == Failed("Error: 500 - server error");
    assert ErrorPrefix + "Error: 500 - server error" == "Error during RAG query: Error: 500 - server error";
  }

  /** An empty message list makes no request, appends the one assistant
      message "No messages found in the request body" and returns that text
      as the error after a terminal error status; without a "messages" key
      the append raises instead. */
  lemma EmptyTurn(valves: Valves, messages: Option<seq<Message>>, outcome: HttpOutcome,
                  urljoin: (string, string) -> string, dumps: Json -> string)
    requires messages == Some([]) || messages.None?
    ensures var t := TurnOf(valves, messages, outcome, urljoin, dumps);
      && t.request.None?
      && t.calls == [StartCall, Status.Call("error", "No messages found in the request body", true)]
      && (messages.Some? ==> t.appended == [Message("assistant", "No messages found in the request body")]
                              && t.result == Error("No messages found in the request body"))
      && (messages.None? ==> t.appended == [] && t.result.Raised?)
  {
  }

  /** Every turn ends with a terminal status call; with an emitter and the
      indicator on, it is the last event received, and for a returned error
      its text is the error's text. */
  lemma TurnEndsWithTerminalEvent(valves: Valves, messages: Option<seq<Message>>, outcome: HttpOutcome,
                                  urljoin: (string, string) -> string, dumps: Json -> string,
                                  n: Status.Notifier, hasEmitter: bool, clock: nat -> real)
    requires hasEmitter && valves.enableStatusIndicator
    ensures var t := TurnOf(valves, messages, outcome, urljoin, dumps);
      var trace := Status.Replay(n, Status.Channel(hasEmitter, true, valves.emitInterval), t.calls, clock).trace;
      && |trace| > 0
      && trace[|trace| - 1].event.status == "complete"
      && trace[|trace| - 1].event.done
      && (t.result.Answer? ==> trace[|trace| - 1].event.level == "info")
      && (t.result.Error? ==> trace[|trace| - 1].event == Status.Event("complete", "error", t.result.message, true))
  {
    var t := TurnOf(valves, messages, outcome, urljoin, dumps);
    Status.TerminalCallIsLastEvent(n, Status.Channel(hasEmitter, true, valves.emitInterval), t.calls, clock);
  }

  /** `pipe` never changes or removes the messages already in the body. */
  lemma TurnOnlyAppends(valves: Valves, messages: seq<Message>, outcome: HttpOutcome,
                        urljoin: (string, string) -> string, dumps: Json -> string)
    ensures var after := Appended(Some(messages), TurnOf(valves, Some(messages), outcome, urljoin, dumps).appended);
      after.Some? && |after.value| >= |messages| && after.value[..|messages|] == messages
  {
  }

  /** The context loop: one line per earlier user or assistant message. */
  method BuildContext(messages: seq<Message>) returns (context: Option<string>)
    ensures context == Context(messages)
  {
    var prior := AllButLast(messages);
    var lines: seq<string> := [];
    for i := 0 to |prior|
      invariant lines == ContextLines(prior[..i])
    {
      var msg := prior[i];
      assert prior[..i + 1][..i] == prior[..i];
      if IsConversational(msg) {
        lines := lines + [Line(msg)];
      }
    }
    assert prior[..|prior|] == prior;
    context := if |lines| > 0 then Some(Text.Join(lines, "\n")) else None;
  }

  class Pipe {
    const valves: Valves
    var lastEmitTime: real
    /** The events the emitter has received from this pipe. */
    ghost var events: seq<Status.Emission>

    ghost predicate Valid()
      reads this
    {
      Status.Consistent(Notifier(), valves.emitInterval)
    }

    ghost function Notifier(): Status.Notifier
      reads this
    {
      Status.Notifier(lastEmitTime, events)
    }

    function Channel(hasEmitter: bool): Status.Channel
    {
      Status.Channel(hasEmitter, valves.enableStatusIndicator, valves.emitInterval)
    }

    constructor (valves: Valves)
      ensures this.valves == valves && Notifier() == Status.Initial && Valid()
    {
      this.valves := valves;
      lastEmitTime := 0.0;
      events := [];
      Status.InitialConsistent(valves.emitInterval);
    }

    method EmitStatus(hasEmitter: bool, level: string, message: string, done: bool, now: real)
      requires Valid()
      modifies this
      ensures Valid()
      ensures Notifier() == Status.Notify(old(Notifier()), Channel(hasEmitter), Status.Call(level, message, done), now)
      ensures Status.ShouldEmit(Channel(hasEmitter), old(lastEmitTime), now, done) ==>
        && lastEmitTime == now
        && events == old(events) + [Status.Emission(now, Status.Event(if done then "complete" else "in_progress", level, message, done))]
      ensures !Status.ShouldEmit(Channel(hasEmitter), old(lastEmitTime), now, done) ==>
        lastEmitTime == old(lastEmitTime) && events == old(events)
    {
      Status.NotifyKeepsConsistent(Notifier(), Channel(hasEmitter), Status.Call(level, message, done), now);
      if hasEmitter && valves.enableStatusIndicator && (now - lastEmitTime >= valves.emitInterval || done) {
        events := events + [Status.Emission(now, Status.Event(if done then "complete" else "in_progress", level, message, done))];
        lastEmitTime := now;
      }
    }

    /** One chat turn; the k-th `emit_status` call reads the clock as clock(k). */
    method Handle(body: ChatBody, hasEmitter: bool, clock: nat -> real, outcome: HttpOutcome,
                  urljoin: (string, string) -> string, dumps: Json -> string)
      returns (result: PipeResult, request: Option<Request>)
      requires Valid()
      modifies this, body
      ensures Valid()
      ensures var t := TurnOf(valves, old(body.messages), outcome, urljoin, dumps);
        && result == t.result
        && request == t.request
        && body.messages == Appended(old(body.messages), t.appended)
        && Notifier() == Status.Replay(old(Notifier()), Channel(hasEmitter), t.calls, clock)
    {
      ghost var n0 := Notifier();
      ghost var ch := Channel(hasEmitter);
      EmitStatus(hasEmitter, "info", "Calling Intelligent RAG Server...", false, clock(0));
      assert Notifier() == Status.Replay(n0, ch, [StartCall], clock) by {
        assert [StartCall][..0] == [];
      }
      var messages := MessagesOrEmpty(body.messages);
      request := None;
      if |messages| > 0 {
        var question := messages[|messages| - 1].content;
        var context := BuildContext(messages);
        var payload := Payload(valves.projectId, question, valves.thinkingDepth, context);
        var url := urljoin(valves.serverUrl, "/api/query");
        EmitStatus(hasEmitter, "info", "Processing query...", false, clock(1));
        assert Notifier() == Status.Replay(n0, ch, [StartCall, ProcessingCall], clock) by {
          assert [StartCall, ProcessingCall][..1] == [StartCall];
        }
        request := Some(Request(url, payload));
        var failure, answer := ReadReply(outcome, dumps);
        if failure.None? {
          body.messages := Some(body.messages.value + [Message("assistant", answer)]);
          EmitStatus(hasEmitter, "info", "Response generated successfully", true, clock(2));
          assert [StartCall, ProcessingCall, SuccessCall][..2] == [StartCall, ProcessingCall];
          result := Answer(answer);
        } else {
          var errorMsg := ErrorPrefix + failure.value;
          assert body.messages.value + [] == body.messages.value;
          EmitStatus(hasEmitter, "error", errorMsg, true, clock(2));
          assert [StartCall, ProcessingCall, Status.Call("error", errorMsg, true)][..2] == [StartCall, ProcessingCall];
          result := Error(errorMsg);
        }
      } else {
        EmitStatus(hasEmitter, "error", NoMessagesText, true, clock(1));
        assert [StartCall, NoMessagesCall][..1] == [StartCall];
        if body.messages.None? {
          result := Raised(MissingMessagesKey);
        } else {
          body.messages := Some(body.messages.value + [Message("assistant", NoMessagesText)]);
          result := Error(NoMessagesText);
        }
      }
    }
  }
}
