/** The pipe of intelligent_rag_pipe.py: it sends only the last message, adds
    a truthy `log` as a separate "Thinking process" system message before the
    assistant's answer, returns failures unprefixed as `{"error": str(e)}`,
    and on an empty message list falls through to `return answer` with
    `answer` never assigned. */
module IntelligentRagPipe {
  import opened Host
  import Status
  import Text

  /** The JSON body of the POST: exactly these three keys. */
  datatype Payload = Payload(projectId: string, query: string, thinkingDepth: Depth)

  datatype Request = Request(url: string, payload: Payload)

  /** Everything one call of `pipe` does: the request it sends (if any), the
      messages it appends to `body["messages"]`, what it returns or raises,
      and the `emit_status` calls it makes, in order. */
  datatype Turn = Turn(request: Option<Request>, appended: seq<Message>, result: PipeResult, calls: seq<Status.Call>)

  const StartCall := Status.Call("info", "Querying intelligent RAG server...", false)
  const CompleteCall := Status.Call("info", "Complete", true)
  const NoMessagesCall := Status.Call("error", NoMessagesText, true)
  const ThinkingPrefix := "Thinking process:\n"
  /** What `return answer` raises when `answer` was never assigned. */
  const UnboundAnswer := "UnboundLocalError: 'answer'"

  /** `f"{log}"`: a string is itself; any other value is rendered by `show`
      (Python's `str`). */
  function LogText(log: Json, show: Json -> string): (text: string)
    ensures log.Str? ==> text == log.s
  {
    if log.Str? then log.s else show(log)
  }

  /** The reply, read as the `try` block reads it: the answer and log (each
      defaulted when missing), or the text `str(e)` of the exception raised. */
  datatype Reading = Answered(answer: string, log: Json) | Failed(description: string)

  function Interpret(outcome: HttpOutcome): Reading
  {
    match outcome
    case TransportFailure(d) => Failed(d)
    case Response(code, text, json) =>
      if code != 200 then Failed(StatusErrorText(code, text))
      else match json
        case Malformed(d) => Failed(d)
        case Parsed(answer, log) => Answered(answer.GetOr(""), log.GetOr(Str("")))
  }

  /** The messages a 200 reply appends: the thinking process when `log` is
      truthy, then the answer. */
  function ReplyMessages(answer: string, log: Json, show: Json -> string): (added: seq<Message>)
    ensures |added| == if Truthy(log) then 2 else 1
    ensures added[|added| - 1] == Message("assistant", answer)
    ensures Truthy(log) ==> added[0] == Message("system", ThinkingPrefix + LogText(log, show))
  {
    (if Truthy(log) then [Message("system", ThinkingPrefix + LogText(log, show))] else [])
      + [Message("assistant", answer)]
  }

  /** What one call of `pipe` does, given the message list it finds (`None`
      when `body` has no "messages" key), the reply the request gets, and
      `str` for non-string logs. */
  function TurnOf(valves: Valves, messages: Option<seq<Message>>, outcome: HttpOutcome, show: Json -> string): Turn
  {
    var ms := MessagesOrEmpty(messages);
    if |ms| == 0 then
      if messages.None? then
        Turn(None, [], Raised(MissingMessagesKey), [StartCall, NoMessagesCall])
      else
        Turn(None, [Message("assistant", NoMessagesText)], Raised(UnboundAnswer),
             [StartCall, NoMessagesCall, CompleteCall])
    else
      var request := Request(valves.serverUrl + "/api/query",
                             Payload(valves.projectId, ms[|ms| - 1].content, valves.thinkingDepth));
      match Interpret(outcome)
      case Answered(answer, log) =>
        Turn(Some(request), ReplyMessages(answer, log, show), Answer(answer), [StartCall, CompleteCall])
      case Failed(d) =>
        Turn(Some(request), [], Error(d), [StartCall, Status.Call("error", ErrorPrefix + d, true)])
  }

  /** The `try` block after the POST: `failure` is the text of the exception
      raised, if any; otherwise `answer` and `log` are the reply's fields. */
  method ReadReply(outcome: HttpOutcome) returns (failure: Option<string>, answer: string, log: Json)
    ensures Interpret(outcome) == if failure.None? then Answered(answer, log) else Failed(failure.value)
  {
    failure, answer, log := None, "", Str("");
    match outcome {
      case TransportFailure(d) =>
        failure := Some(d);
      case Response(code, text, json) =>
        if code == 200 {
          match json {
            case Malformed(d) =>
              failure := Some(d);
            case Parsed(a, l) =>
              answer := a.GetOr("");
              log := l.GetOr(Str(""));
          }
        } else {
          failure := Some(StatusErrorText(code, text));
        }
    }
  }

  // Properties of one turn.

  /** A non-empty message list makes one request, to `server_url +
      "/api/query"`, whose payload is the valves' project, the last message
      verbatim and the valves' depth (within 1..4), and no context. */
  lemma RequestCarriesLastMessage(valves: Valves, ms: seq<Message>, outcome: HttpOutcome, show: Json -> string)
    requires |ms| > 0
    ensures TurnOf(valves, Some(ms), outcome, show).request
         == Some(Request(valves.serverUrl + "/api/query",
                         Payload(valves.projectId, ms[|ms| - 1].content, valves.thinkingDepth)))
    ensures 1 <= valves.thinkingDepth <= 4
  {
  }

  /** A 200 reply returns the bare answer, defaulted to "" when missing and
      never mixed with the log; it appends the thinking process as a system
      message iff the log is truthy, then exactly one assistant message with
      the answer, and ends with the terminal "Complete" status. */
  lemma AnsweredTurn(valves: Valves, ms: seq<Message>, text: string, answer: Option<string>, log: Option<Json>,
                     show: Json -> string)
    requires |ms| > 0
    ensures var t := TurnOf(valves, Some(ms), Response(200, text, Parsed(answer, log)), show);
      var l := log.GetOr(Str(""));
      && t.result == Answer(answer.GetOr(""))
      && (answer.None? ==> t.result == Answer(""))
      && (Truthy(l) ==> t.appended == [Message("system", "Thinking process:\n" + LogText(l, show)),
                                       Message("assistant", answer.GetOr(""))])
      && (!Truthy(l) ==> t.appended == [Message("assistant", answer.GetOr(""))])
      && (log.None? ==> t.appended == [Message("assistant", answer.GetOr(""))])
      && t.calls == [StartCall, Status.Call("info", "Complete", true)]
  {
    var added := ReplyMessages(answer.GetOr(""), log.GetOr(Str("")), show);
    if Truthy(log.GetOr(Str(""))) {
      assert added == [added[0], added[1]];
    } else {
      assert added == [added[0]];
    }
  }

  /** The example of a reply `{"answer": "X", "log": "Y"}`. */
  lemma StringLogExample(valves: Valves, ms: seq<Message>, text: string, show: Json -> string)
    requires |ms| > 0
    ensures var t := TurnOf(valves, Some(ms), Response(200, text, Parsed(Some("X"), Some(Str("Y")))), show);
      && t.appended == [Message("system", "Thinking process:\nY"), Message("assistant", "X")]
      && t.result == Answer("X")
  {
    AnsweredTurn(valves, ms, text, Some("X"), Some(Str("Y")), show);
    assert Truthy(Str("Y"));
    assert "Thinking process:\n" + "Y" == "Thinking process:\nY";
  }

  /** A failed request appends nothing and returns the bare description as
      `{"error": ...}`, while the terminal error status carries it with the
      "Error during RAG query: " prefix. */
  lemma FailedTurn(valves: Valves, ms: seq<Message>, outcome: HttpOutcome, show: Json -> string)
    requires |ms| > 0 && Interpret(outcome).Failed?
    ensures var t := TurnOf(valves, Some(ms), outcome, show);
      var d := Interpret(outcome).description;
      && t.appended == []
      && t.result == Error(d)
      && t.calls == [StartCall, Status.Call("error", "Error during RAG query: " + d, true)]
  {
  }

  /** Only a transport failure, a non-200 status or a malformed body fail; a
      bad status fails with "Error: <code> - <body>". */
  lemma FailureDescriptions(outcome: HttpOutcome)
    ensures outcome.TransportFailure? ==> Interpret(outcome) == Failed(outcome.description)
    ensures outcome.Response? && outcome.statusCode != 200 ==>
      Interpret(outcome) == Failed("Error: " + Text.NatToString(outcome.statusCode) + " - " + outcome.text)
    ensures outcome.Response? && outcome.statusCode == 200 && outcome.json.Malformed? ==>
      Interpret(outcome) == Failed(outcome.json.description)
    ensures Interpret(outcome).Answered? <==>
      outcome.Response? && outcome.statusCode == 200 && outcome.json.Parsed?
  {
  }

  /** An empty message list makes no request, emits the terminal error, appends
      the assistant message "No messages found in the request body", emits the
      terminal "Complete" too and then raises at `return answer`; without a
      "messages" key the append raises first. */
  lemma EmptyTurn(valves: Valves, messages: Option<seq<Message>>, outcome: HttpOutcome, show: Json -> string)
    requires messages == Some([]) || messages.None?
    ensures var t := TurnOf(valves, messages, outcome, show);
      && t.request.None?
      && t.result.Raised?
      && t.calls[..2] == [StartCall, Status.Call("error", "No messages found in the request body", true)]
      && (messages.Some? ==> t.appended == [Message("assistant", "No messages found in the request body")]
                              && t.calls == t.calls[..2] + [Status.Call("info", "Complete", true)])
      && (messages.None? ==> t.appended == [] && |t.calls| == 2)
  {
  }

  /** Every turn ends with a terminal status call; with an emitter and the
      indicator on, it is the last event received: "Complete" after a
      returned answer, the prefixed error after a returned error. */
  lemma TurnEndsWithTerminalEvent(valves: Valves, messages: Option<seq<Message>>, outcome: HttpOutcome,
                                  show: Json -> string, n: Status.Notifier, hasEmitter: bool, clock: nat -> real)
    requires hasEmitter && valves.enableStatusIndicator
    ensures var t := TurnOf(valves, messages, outcome, show);
      var trace := Status.Replay(n, Status.Channel(hasEmitter, true, valves.emitInterval), t.calls, clock).trace;
      && |trace| > 0
      && trace[|trace| - 1].event.status == "complete"
      && (t.result.Answer? ==> trace[|trace| - 1].event == Status.Event("complete", "info", "Complete", true))
      && (t.result.Error? ==>
            trace[|trace| - 1].event == Status.Event("complete", "error", ErrorPrefix + t.result.message, true))
  {
    var t := TurnOf(valves, messages, outcome, show);
    Status.TerminalCallIsLastEvent(n, Status.Channel(hasEmitter, true, valves.emitInterval), t.calls, clock);
  }

  /** `pipe` never changes or removes the messages already in the body. */
  lemma TurnOnlyAppends(valves: Valves, messages: seq<Message>, outcome: HttpOutcome, show: Json -> string)
    ensures var after := Appended(Some(messages), TurnOf(valves, Some(messages), outcome, show).appended);
      after.Some? && |after.value| >= |messages| && after.value[..|messages|] == messages
  {
  }

  class Pipe {
    const valves: Valves
    var lastEmitTime: real
    /** The events the emitter has received from this pipe. */
    ghost var events: seq<Status.Emission>

    ghost predicate Valid()
      reads this
    {
      Status.Consistent(Notifier(), valves.emitInterval)
    }

    ghost function Notifier(): Status.Notifier
      reads this
    {
      Status.Notifier(lastEmitTime, events)
    }

    function Channel(hasEmitter: bool): Status.Channel
    {
      Status.Channel(hasEmitter, valves.enableStatusIndicator, valves.emitInterval)
    }

    constructor (valves: Valves)
      ensures this.valves == valves && Notifier() == Status.Initial && Valid()
    {
      this.valves := valves;
      lastEmitTime := 0.0;
      events := [];
      Status.InitialConsistent(valves.emitInterval);
    }

    method EmitStatus(hasEmitter: bool, level: string, message: string, done: bool, now: real)
      requires Valid()
      modifies this
      ensures Valid()
      ensures Notifier() == Status.Notify(old(Notifier()), Channel(hasEmitter), Status.Call(level, message, done), now)
      ensures Status.ShouldEmit(Channel(hasEmitter), old(lastEmitTime), now, done) ==>
        && lastEmitTime == now
        && events == old(events) + [Status.Emission(now, Status.Event(if done then "complete" else "in_progress", level, message, done))]
      ensures !Status.ShouldEmit(Channel(hasEmitter), old(lastEmitTime), now, done) ==>
        lastEmitTime == old(lastEmitTime) && events == old(events)
    {
      Status.NotifyKeepsConsistent(Notifier(), Channel(hasEmitter), Status.Call(level, message, done), now);
      if hasEmitter && valves.enableStatusIndicator && (now - lastEmitTime >= valves.emitInterval || done) {
        events := events + [Status.Emission(now, Status.Event(if done then "complete" else "in_progress", level, message, done))];
        lastEmitTime := now;
      }
    }

    /** One chat turn; the k-th `emit_status` call reads the clock as clock(k). */
    method Handle(body: ChatBody, hasEmitter: bool, clock: nat -> real, outcome: HttpOutcome, show: Json -> string)
      returns (result: PipeResult, request: Option<Request>)
      requires Valid()
      modifies this, body
      ensures Valid()
      ensures var t := TurnOf(valves, old(body.messages), outcome, show);
        && result == t.result
        && request == t.request
        && body.messages == Appended(old(body.messages), t.appended)
        && Notifier() == Status.Replay(old(Notifier()), Channel(hasEmitter), t.calls, clock)
    {
      ghost var n0 := Notifier();
      ghost var ch := Channel(hasEmitter);
      EmitStatus(hasEmitter, "info", "Querying intelligent RAG server...", false, clock(0));
      assert Notifier() == Status.Replay(n0, ch, [StartCall], clock) by {
        assert [StartCall][..0] == [];
      }
      var messages := MessagesOrEmpty(body.messages);
      request := None;
      // `answer` stays unbound (None) unless the reply is read successfully.
      var answer: Option<string> := None;
      if |messages| > 0 {
        var question := messages[|messages| - 1].content;
        var payload := Payload(valves.projectId, question, valves.thinkingDepth);
        request := Some(Request(valves.serverUrl + "/api/query", payload));
        var failure, text, log := ReadReply(outcome);
        if failure.Some? {
          var d := failure.value;
          EmitStatus(hasEmitter, "error", ErrorPrefix + d, true, clock(1));
          assert [StartCall, Status.Call("error", ErrorPrefix + d, true)][..1] == [StartCall];
          assert body.messages.value + [] == body.messages.value;
          result := Error(d);
          return;
        }
        ghost var before := body.messages.value;
        if Truthy(log) {
          body.messages := Some(body.messages.value + [Message("system", ThinkingPrefix + LogText(log, show))]);
        }
        body.messages := Some(body.messages.value + [Message("assistant", text)]);
        assert body.messages.value == before + ReplyMessages(text, log, show);
        answer := Some(text);
      } else {
        EmitStatus(hasEmitter, "error", NoMessagesText, true, clock(1));
        assert [StartCall, NoMessagesCall][..1] == [StartCall];
        if body.messages.None? {
          result := Raised(MissingMessagesKey);
          return;
        }
        body.messages := Some(body.messages.value + [Message("assistant", NoMessagesText)]);
      }
      var k := if |messages| > 0 then 1 else 2;
      EmitStatus(hasEmitter, "info", "Complete", true, clock(k));
      if |messages| > 0 {
        assert [StartCall, CompleteCall][..1] == [StartCall];
      } else {
        assert [StartCall, NoMessagesCall, CompleteCall][..2] == [StartCall, NoMessagesCall];
      }
      result := if answer.Some? then Answer(answer.value) else Raised(UnboundAnswer);
    }
  }
}
