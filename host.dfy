/** The values the chat host hands to a pipe and gets back from it, and the
    abstract outcome of the one HTTP round trip a pipe makes. */
module Host {
  import Text

  datatype Option<+T> = None | Some(value: T)
  {
    function GetOr(default: T): T
    {
      match this
      case Some(v) => v
      case None => default
    }
  }

  /** A decoded JSON value, as `response.json()` returns it. */
  datatype Json =
    | Null
    | Bool(b: bool)
    | Number(x: real)
    | Str(s: string)
    | List(items: seq<Json>)
    | Dict(entries: seq<(string, Json)>)

  /** Python truthiness of a decoded JSON value (`if log:`). */
  predicate Truthy(j: Json)
  {
    match j
    case Null => false
    case Bool(b) => b
    case Number(x) => x != 0.0
    case Str(s) => s != ""
    case List(items) => |items| > 0
    case Dict(entries) => |entries| > 0
  }

  /** One chat message `{"role": ..., "content": ...}`. */
  datatype Message = Message(role: string, content: string)

  /** The `thinking_depth` valve, bounded to 1..4 by its field declaration. */
  type Depth = d: int | 1 <= d <= 4 witness 2

  /** The adapter's configuration (its `Valves`). */
  datatype Valves = Valves(
    serverUrl: string,
    projectId: string,
    thinkingDepth: Depth,
    emitInterval: real,
    enableStatusIndicator: bool)

  /** The defaults the `Valves` fields declare. */
  const DefaultValves := Valves("http://localhost:3000", "default", 2, 2.0, true)

  /** The chat-turn object `body`; `messages` is `None` when the key is
      missing, in which case `body.get("messages", [])` reads an empty list
      but `body["messages"].append(...)` raises. */
  class ChatBody {
    var messages: Option<seq<Message>>

    constructor (messages: Option<seq<Message>>)
      ensures this.messages == messages
    {
      this.messages := messages;
    }
  }

  /** What `response.json()` yields: a raised decoding error, or an object
      with an optional `answer` and an optional `log` key. */
  datatype ReplyJson =
    | Malformed(description: string)
    | Parsed(answer: Option<string>, log: Option<Json>)

  /** The outcome of the POST: `requests.post` raised, or a reply arrived. */
  datatype HttpOutcome =
    | TransportFailure(description: string)
    | Response(statusCode: nat, text: string, json: ReplyJson)

  /** What `pipe` ends with: a returned answer string, a returned
      `{"error": message}` dictionary, or an exception left uncaught. */
  datatype PipeResult =
    | Answer(text: string)
    | Error(message: string)
    | Raised(exception: string)

  const NoMessagesText := "No messages found in the request body"
  const ErrorPrefix := "Error during RAG query: "
  /** The exception `body["messages"]` raises when the key is missing. */
  const MissingMessagesKey := "KeyError: 'messages'"

  /** `body.get("messages", [])`. */
  function MessagesOrEmpty(messages: Option<seq<Message>>): seq<Message>
  {
    messages.GetOr([])
  }

  /** `messages[:-1]`: every message but the last (none for an empty list). */
  function AllButLast(ms: seq<Message>): (prior: seq<Message>)
    ensures |ms| > 0 ==> ms == prior + [ms[|ms| - 1]]
    ensures |ms| == 0 ==> prior == []
  {
    if |ms| == 0 then [] else ms[..|ms| - 1]
  }

  /** The text of the exception a non-200 reply raises:
      `f"Error: {status_code} - {text}"`. */
  function StatusErrorText(code: nat, text: string): (s: string)
    ensures exists digits :: s == "Error: " + digits + " - " + text
                             && Text.IsDigits(digits) && Text.DigitsValue(digits) == code
  {
    var digits := Text.NatToString(code);
    Text.DigitsValueOfNatToString(code);
    "Error: " + digits + " - " + text
  }

  /** A 500 reply with body "server error" raises "Error: 500 - server error". */
  lemma StatusErrorTextExample()
    ensures StatusErrorText(500, "server error") == "Error: 500 - server error"
  {
    assert Text.DigitChar(5) == '5' && Text.DigitChar(0) == '0';
    assert Text.NatToString(5) == "5";
    assert Text.NatToString(50) == "50";
  }

  /** `body["messages"]` after the given messages have been appended to it;
      no key means nothing can be appended. */
  function Appended(messages: Option<seq<Message>>, added: seq<Message>): Option<seq<Message>>
  {
    match messages
    case None => None
    case Some(ms) => Some(ms + added)
  }
}
