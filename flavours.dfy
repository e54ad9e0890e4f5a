/** Where the two pipes agree and where they differ, for the same inputs. */
module Flavours {
  import opened Host
  import Status
  import OpenWebUIPipe
  import IntelligentRagPipe

  /** Both send the last message verbatim with the same project and depth;
      only the first sends a context, and they reach different URLs. */
  lemma SameQuery(valves: Valves, ms: seq<Message>, outcome: HttpOutcome,
                  urljoin: (string, string) -> string, dumps: Json -> string, show: Json -> string)
    requires |ms| > 0
    ensures var a := OpenWebUIPipe.TurnOf(valves, Some(ms), outcome, urljoin, dumps).request;
      var b := IntelligentRagPipe.TurnOf(valves, Some(ms), outcome, show).request;
      && a.Some? && b.Some?
      && a.value.payload.query == b.value.payload.query == ms[|ms| - 1].content
      && a.value.payload.projectId == b.value.payload.projectId
      && a.value.payload.thinkingDepth == b.value.payload.thinkingDepth
      && a.value.payload.context == OpenWebUIPipe.Context(ms)
      && a.value.url == urljoin(valves.serverUrl, "/api/query")
      && b.value.url == valves.serverUrl + "/api/query"
  {
  }

  /** A 200 reply `{"answer": X}` without a log: both return X and append the
      one assistant message X. */
  lemma LogAbsentAgree(valves: Valves, ms: seq<Message>, text: string, x: string,
                       urljoin: (string, string) -> string, dumps: Json -> string, show: Json -> string)
    requires |ms| > 0
    ensures var outcome := Response(200, text, Parsed(Some(x), None));
      var a := OpenWebUIPipe.TurnOf(valves, Some(ms), outcome, urljoin, dumps);
      var b := IntelligentRagPipe.TurnOf(valves, Some(ms), outcome, show);
      && a.result == b.result == Answer(x)
      && a.appended == b.appended == [Message("assistant", x)]
  {
    OpenWebUIPipe.AnsweredTurn(valves, ms, text, x, None, urljoin, dumps);
    IntelligentRagPipe.AnsweredTurn(valves, ms, text, Some(x), None, show);
  }

  /** A failure both see (transport, bad status, malformed body): both append
      nothing, but only the first prefixes the returned error text. */
  lemma ErrorWordingDiffers(valves: Valves, ms: seq<Message>, outcome: HttpOutcome,
                            urljoin: (string, string) -> string, dumps: Json -> string, show: Json -> string)
    requires |ms| > 0 && IntelligentRagPipe.Interpret(outcome).Failed?
    ensures var d := IntelligentRagPipe.Interpret(outcome).description;
      var a := OpenWebUIPipe.TurnOf(valves, Some(ms), outcome, urljoin, dumps);
      var b := IntelligentRagPipe.TurnOf(valves, Some(ms), outcome, show);
      && a.result == Error(ErrorPrefix + d)
      && b.result == Error(d)
      && a.appended == b.appended == []
  {
  }

  /** A 200 reply without `answer`: the first fails with "'answer'", the
      second answers "". */
  lemma MissingAnswerDiffers(valves: Valves, ms: seq<Message>, text: string, log: Option<Json>,
                             urljoin: (string, string) -> string, dumps: Json -> string, show: Json -> string)
    requires |ms| > 0
    ensures var outcome := Response(200, text, Parsed(None, log));
      && OpenWebUIPipe.TurnOf(valves, Some(ms), outcome, urljoin, dumps).result == Error(ErrorPrefix + "'answer'")
      && IntelligentRagPipe.TurnOf(valves, Some(ms), outcome, show).result == Answer("")
  {
  }

  /** An empty message list: the first returns the error, the second raises. */
  lemma EmptyInputDiffers(valves: Valves, outcome: HttpOutcome,
                          urljoin: (string, string) -> string, dumps: Json -> string, show: Json -> string)
    ensures OpenWebUIPipe.TurnOf(valves, Some([]), outcome, urljoin, dumps).result == Error(NoMessagesText)
    ensures IntelligentRagPipe.TurnOf(valves, Some([]), outcome, show).result.Raised?
  {
  }

  /** A client of the throttle: with the default two-second interval, a
      progress status one second after another is dropped, a terminal one
      half a second later is not. `t1`, `t2` and `t3` are `last_emit_time`
      after each call. */
  method ThrottleScenario() returns (t1: real, t2: real, t3: real)
    ensures t1 == 5.0 && t2 == 5.0 && t3 == 6.5
  {
    var p := new OpenWebUIPipe.Pipe(DefaultValves);
    p.EmitStatus(true, "info", "first", false, 5.0);
    assert |p.events| == 1;
    t1 := p.lastEmitTime;
    p.EmitStatus(true, "info", "second", false, 6.0);
    assert |p.events| == 1;
    t2 := p.lastEmitTime;
    p.EmitStatus(true, "info", "last", true, 6.5);
    t3 := p.lastEmitTime;
    assert p.events == [Status.Emission(5.0, Status.Event("in_progress", "info", "first", false)),
                        Status.Emission(6.5, Status.Event("complete", "info", "last", true))];
  }
}
