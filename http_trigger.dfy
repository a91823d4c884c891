/**
 * The HTTP entry point of the agent: a JSON-RPC 2.0 dispatcher for the methods
 * "SendMessage" (one answer) and "SendStreamingMessage" (updates framed as a
 * server-sent event stream, collected before the reply is sent).
 *
 * The agent is a parameter: `send` gives the outcome of a synchronous call and
 * `stream` the outcome of a streaming call, each for a message and a session id.
 * JSON encoding of an update is the parameter `encode`, and the id generated
 * for a message without a context is `freshId`.
 */
module HttpTrigger {
  import opened Wrappers
  import TravelAgent

  /** A JSON-RPC request id as echoed back; a missing id is null. */
  datatype RpcId = NullId | StringId(s: string) | NumberId(n: int)

  /** The message of a request that validated as a `SendMessageRequest`. */
  datatype Message = Message(messageId: string, contextId: Option<string>, parts: seq<TravelAgent.Part>)

  /** One element of "params" as `SendMessageRequest.model_validate` sees it: it
      validates to a request's message, or validation raises with an error text. */
  datatype ParamValue = Valid(message: Message) | Invalid(reason: string)

  /** The "params" member of the request body. */
  datatype ParamsField =
    | Absent                        // defaults to [{}]
    | List(items: seq<ParamValue>)
    | Text(s: string)               // a JSON string: indexing gives its first character
    | Unindexable(reason: string)   // null, a number, a boolean or an object: indexing raises

  /** The request body as `req.get_json()` leaves it. */
  datatype RequestBody =
    | Unparsed(reason: string)      // get_json raised
    | NonObject                     // valid JSON without `.get`: an array, a string, a number, null
    | Object(rpcMethod: Option<string>, params: ParamsField, id: RpcId)

  /** What the agent does with a synchronous call. */
  datatype SendOutcome = Sent(task: TravelAgent.AgentMessage) | SendFailed(error: string)

  /** What the agent does with a streaming call: all its updates, or a failure
      after some updates were already produced. */
  datatype StreamOutcome =
    | Streamed(events: seq<TravelAgent.Update>)
    | StreamFailed(emitted: seq<TravelAgent.Update>, error: string)

  /** A JSON-RPC 2.0 response object. */
  datatype Envelope =
    | RpcResult(task: TravelAgent.AgentMessage, id: RpcId)
    | RpcError(code: int, message: string, data: Option<string>, id: RpcId)

  datatype Body = Json(envelope: Envelope) | EventStream(text: string)

  /** The HTTP reply, or an exception that escapes the handler. */
  datatype Reply = Response(status: int, mimetype: string, body: Body) | Unhandled

  // Error codes of section 5.1 of the JSON-RPC 2.0 Specification.
  const MethodNotFound := -32601
  const InvalidParams := -32602
  const InternalError := -32603

  // Python's texts for the indexing failures the handler can meet.
  const ListIndexError := "list index out of range"
  const StringIndexError := "string index out of range"

  const JsonMimetype := "application/json"
  const EventStreamMimetype := "text/event-stream"

  /** A first element of "params" that is not taken from a list: the default `{}`
      of an absent "params", or the one-character string that indexing a JSON
      string gives. Neither validates as a `SendMessageRequest`. */
  datatype Selected = DefaultObject | Character(c: char)

  /** `req_body.get("params", [{}])[0]`: the first element of "params". An absent
      "params" gives `{}` and a string its first character, neither of which
      validates; `reject` is the text of the validation error raised for them.
      Indexing an empty or unindexable value raises. */
  function SelectParams(params: ParamsField, reject: Selected -> string): (r: Result<ParamValue, string>)
    ensures r.Success? <==> params.Absent? || (params.List? && params.items != []) || (params.Text? && params.s != "")
    ensures r.Success? && params.List? ==> r.value == params.items[0]
    ensures params.Absent? ==> r == Success(Invalid(reject(DefaultObject)))
    ensures r.Success? && params.Text? ==> r == Success(Invalid(reject(Character(params.s[0]))))
    ensures r.Failure? && params.List? ==> r.error == ListIndexError
    ensures r.Failure? && params.Text? ==> r.error == StringIndexError
    ensures params.Unindexable? ==> r == Failure(params.reason)
  {
    match params
    case Absent => Success(Invalid(reject(DefaultObject)))
    case List(items) => if items != [] then Success(items[0]) else Failure(ListIndexError)
    case Text(s) => if s != "" then Success(Invalid(reject(Character(s[0])))) else Failure(StringIndexError)
    case Unindexable(reason) => Failure(reason)
  }

  /** The session id: the message's context id, or the fresh id when it has none
      or an empty one. */
  function SessionId(m: Message, freshId: string): string {
    if m.contextId.Some? && m.contextId.value != "" then m.contextId.value else freshId
  }

  /** The id a reply echoes: the request's, or null when the body did not parse. */
  function EchoedId(body: RequestBody): RpcId {
    if body.Object? then body.id else NullId
  }

  /** The HTTP status that goes with each error code of the handler. */
  function StatusOf(code: int): int {
    if code == MethodNotFound then 404 else if code == InvalidParams then 400 else 500
  }

  function ErrorReply(code: int, message: string, data: Option<string>, id: RpcId): Reply {
    Response(StatusOf(code), JsonMimetype, Json(RpcError(code, message, data, id)))
  }

  // ---------------------------------------------------------------------------
  // Server-sent event framing
  // ---------------------------------------------------------------------------

  const DataField := "data: "

  /** One event of the stream: a `data` line followed by a blank line. */
  function Frame(json: string): string {
    DataField + json + "\n\n"
  }

  function Frames(events: seq<TravelAgent.Update>, encode: TravelAgent.Update -> string): seq<string> {
    seq(|events|, k requires 0 <= k < |events| => Frame(encode(events[k])))
  }

  /** The body of a streaming reply: the frames of the events in order. */
  function EventStreamText(events: seq<TravelAgent.Update>, encode: TravelAgent.Update -> string): string {
    TravelAgent.Concat(Frames(events, encode))
  }

  /** The streaming branch's loop: frame each event, then join the frames. */
  method FrameEvents(events: seq<TravelAgent.Update>, encode: TravelAgent.Update -> string)
    returns (text: string)
    ensures text == EventStreamText(events, encode)
  {
    var responseData: seq<string> := [];
    var i := 0;
    while i < |events|
      invariant 0 <= i <= |events|
      invariant responseData == Frames(events[..i], encode)
    {
      var formattedEvent := Frame(encode(events[i]));
      assert Frames(events[..i + 1], encode) == Frames(events[..i], encode) + [formattedEvent];
      responseData := responseData + [formattedEvent];
      i := i + 1;
    }
    assert events[..i] == events;
    text := TravelAgent.Concat(responseData);
  }

  /** The characters that end a line of an event stream: carriage return and line feed. */
  predicate IsLineBreak(ch: char) {
    ch == '\r' || ch == '\n'
  }

  /** The index of the first line-break character at or after `from`. */
  function LineEnd(s: string, from: nat): (r: Option<nat>)
    requires from <= |s|
    ensures r.Some? ==> from <= r.value < |s| && IsLineBreak(s[r.value])
    ensures r.Some? ==> forall j :: from <= j < r.value ==> !IsLineBreak(s[j])
    ensures r.None? ==> forall j :: from <= j < |s| ==> !IsLineBreak(s[j])
    decreases |s| - from
  {
    if from == |s| then None
    else if IsLineBreak(s[from]) then Some(from)
    else LineEnd(s, from + 1)
  }

  /** The length of the line break at `k`: 2 for CR LF, else 1 (a lone CR or LF). */
  function BreakLength(s: string, k: nat): (n: nat)
    requires k < |s| && IsLineBreak(s[k])
    ensures 1 <= n <= |s| - k
  {
    if s[k] == '\r' && k + 1 < |s| && s[k + 1] == '\n' then 2 else 1
  }

  /** What an event-stream client reads from a stream of events that each hold one
      `data` line followed by a blank line, lines ending in CR LF, CR or LF: the
      data of each event, in order. `None` when the text is not of that form. */
  function DecodeEventStream(text: string): Option<seq<string>>
    decreases |text|
  {
    if text == "" then Some([])
    else if |text| < |DataField| || text[..|DataField|] != DataField then None
    else match LineEnd(text, |DataField|)
      case None => None
      case Some(k) =>
        var blank := k + BreakLength(text, k);
        if blank < |text| && IsLineBreak(text[blank]) then
          match DecodeEventStream(text[blank + BreakLength(text, blank)..])
          case None => None
          case Some(rest) => Some([text[|DataField|..k]] + rest)
        else None
  }

  /** The JSON encodings of the events, in order. */
  function Encodings(events: seq<TravelAgent.Update>, encode: TravelAgent.Update -> string): seq<string> {
    seq(|events|, k requires 0 <= k < |events| => encode(events[k]))
  }

  lemma DecodeFrame(json: string, rest: string)
    requires '\n' !in json && '\r' !in json
    ensures DecodeEventStream(Frame(json) + rest) ==
      match DecodeEventStream(rest)
      case None => None
      case Some(tail) => Some([json] + tail)
  {
    var text := Frame(json) + rest;
    var k := |DataField| + |json|;
    assert text[..|DataField|] == DataField;
    assert forall j :: |DataField| <= j < k ==> text[j] == json[j - |DataField|];
    assert text[k] == '\n' && text[k + 1] == '\n';
    assert LineEnd(text, |DataField|) == Some(k);
    assert BreakLength(text, k) == 1 && BreakLength(text, k + 1) == 1;
    assert text[|DataField|..k] == json;
    assert text[k + 2..] == rest;
  }

  lemma EventStreamTextCons(events: seq<TravelAgent.Update>, encode: TravelAgent.Update -> string)
    requires events != []
    ensures EventStreamText(events, encode) == Frame(encode(events[0])) + EventStreamText(events[1..], encode)
    ensures Encodings(events, encode) == [encode(events[0])] + Encodings(events[1..], encode)
  {
    var frames := Frames(events, encode);
    assert frames[1..] == Frames(events[1..], encode);
  }

  /** Framing round trip: a client decoding the body of a streaming reply reads
      back each event's encoding, one event per frame, in order, provided no
      encoding holds a line break (JSON text without indentation never does). */
  lemma {:induction false} DecodeEventStreamText(events: seq<TravelAgent.Update>, encode: TravelAgent.Update -> string)
    requires forall k :: 0 <= k < |events| ==> '\n' !in encode(events[k]) && '\r' !in encode(events[k])
    ensures DecodeEventStream(EventStreamText(events, encode)) == Some(Encodings(events, encode))
    decreases |events|
  {
    if events == [] {
      assert Frames(events, encode) == [] && Encodings(events, encode) == [];
    } else {
      EventStreamTextCons(events, encode);
      DecodeEventStreamText(events[1..], encode);
      DecodeFrame(encode(events[0]), EventStreamText(events[1..], encode));
    }
  }

  // ---------------------------------------------------------------------------
  // The dispatcher
  // ---------------------------------------------------------------------------

  /** `main`: parse the body, pick the params, dispatch on the method name, and
      turn every failure into a JSON-RPC error reply. */
  function Dispatch(body: RequestBody, reject: Selected -> string, send: (Message, string) -> SendOutcome,
                    stream: (Message, string) -> StreamOutcome, freshId: string,
                    encode: TravelAgent.Update -> string): (r: Reply)
    ensures r.Unhandled? <==> body.NonObject?
    ensures r.Response? && r.body.Json? ==> r.mimetype == JsonMimetype && r.body.envelope.id == EchoedId(body)
    ensures r.Response? && r.body.Json? && r.body.envelope.RpcError? ==> r.status == StatusOf(r.body.envelope.code)
    ensures r.Response? && r.body.EventStream? ==> r.mimetype == EventStreamMimetype
    ensures r.Response? ==> (r.status == 200 <==> r.body.EventStream? || r.body.envelope.RpcResult?)
  {
    match body
    case Unparsed(reason) => ErrorReply(InternalError, "Internal error", Some(reason), NullId)
    case NonObject => Unhandled
    case Object(rpcMethod, params, id) =>
      match SelectParams(params, reject)
      case Failure(e) => ErrorReply(InternalError, "Internal error", Some(e), id)
      case Success(p) =>
        if rpcMethod == Some("SendMessage") then
          match p
          case Invalid(reason) => ErrorReply(InvalidParams, "Invalid params", Some(reason), id)
          case Valid(m) =>
            match send(m, SessionId(m, freshId))
            case Sent(task) => Response(200, JsonMimetype, Json(RpcResult(task, id)))
            case SendFailed(e) => ErrorReply(InvalidParams, "Invalid params", Some(e), id)
        else if rpcMethod == Some("SendStreamingMessage") then
          match p
          case Invalid(reason) => ErrorReply(InternalError, "Internal server error", Some(reason), id)
          case Valid(m) =>
            match stream(m, SessionId(m, freshId))
            case Streamed(events) => Response(200, EventStreamMimetype, EventStream(EventStreamText(events, encode)))
            case StreamFailed(_, e) => ErrorReply(InternalError, "Internal server error", Some(e), id)
        else
          ErrorReply(MethodNotFound, "Method not found", None, id)
  }

  // ---------------------------------------------------------------------------
  // Properties of the dispatcher
  // ---------------------------------------------------------------------------

  /** A body that is not JSON gets -32603 "Internal error" with a null id. */
  lemma UnparsedBody(reason: string, reject: Selected -> string, send: (Message, string) -> SendOutcome,
                     stream: (Message, string) -> StreamOutcome, freshId: string,
                     encode: TravelAgent.Update -> string)
    ensures Dispatch(Unparsed(reason), reject, send, stream, freshId, encode) ==
            Response(500, JsonMimetype, Json(RpcError(InternalError, "Internal error", Some(reason), NullId)))
  {
  }

  /** Params that cannot be indexed, or an empty list or string, fail before the
      method is looked at: whatever the method, the reply is -32603 "Internal
      error" with the request id, and the agent is not called. */
  lemma ParamsFailBeforeMethod(rpcMethod: Option<string>, params: ParamsField, id: RpcId,
                               reject: Selected -> string, send: (Message, string) -> SendOutcome,
                               stream: (Message, string) -> StreamOutcome, freshId: string,
                               encode: TravelAgent.Update -> string)
    requires params.Unindexable? || params == List([]) || params == Text("")
    ensures Dispatch(Object(rpcMethod, params, id), reject, send, stream, freshId, encode) ==
            Response(500, JsonMimetype, Json(RpcError(InternalError, "Internal error",
                                                      Some(SelectParams(params, reject).error), id)))
  {
  }

  /** Any method other than the two known ones gets -32601 "Method not found"
      with status 404 and the request id, and the agent is not called. */
  lemma UnknownMethod(rpcMethod: Option<string>, params: ParamsField, id: RpcId,
                      reject: Selected -> string, send: (Message, string) -> SendOutcome,
                      stream: (Message, string) -> StreamOutcome, freshId: string,
                      encode: TravelAgent.Update -> string)
    requires rpcMethod != Some("SendMessage") && rpcMethod != Some("SendStreamingMessage")
    requires SelectParams(params, reject).Success?
    ensures Dispatch(Object(rpcMethod, params, id), reject, send, stream, freshId, encode) ==
            Response(404, JsonMimetype, Json(RpcError(MethodNotFound, "Method not found", None, id)))
  {
  }

  /** "SendMessage" answers with the agent's task when the first params element
      validates and the agent succeeds; every other case is -32602 "Invalid params"
      with status 400, the error text as data and the request id. */
  lemma SendMessageReply(params: ParamsField, id: RpcId, reject: Selected -> string,
                         send: (Message, string) -> SendOutcome,
                         stream: (Message, string) -> StreamOutcome, freshId: string,
                         encode: TravelAgent.Update -> string)
    requires SelectParams(params, reject).Success?
    ensures var r := Dispatch(Object(Some("SendMessage"), params, id), reject, send, stream, freshId, encode);
      var p := SelectParams(params, reject).value;
      && (r.status == 200 <==> p.Valid? && send(p.message, SessionId(p.message, freshId)).Sent?)
      && (r.status == 200 ==> r == Response(200, JsonMimetype,
                                            Json(RpcResult(send(p.message, SessionId(p.message, freshId)).task, id))))
      && (r.status != 200 ==>
            r.status == 400 && r.body.envelope.code == InvalidParams &&
            r.body.envelope.message == "Invalid params" && r.body.envelope.id == id)
      && (p.Invalid? ==> r.body.envelope.data == Some(p.reason))
      && (p.Valid? && send(p.message, SessionId(p.message, freshId)).SendFailed? ==>
            r.body.envelope.data == Some(send(p.message, SessionId(p.message, freshId)).error))
  {
  }

  /** "SendStreamingMessage" answers, when the first params element validates and
      the agent's stream completes, with one frame per update in order under the
      event-stream mimetype; a client decoding the body reads back the updates'
      encodings. When validation fails, or the stream fails at any point, no frame
      is sent: the reply is -32603 "Internal server error" with status 500, the
      error text and the request id, the same whatever was produced before. */
  lemma StreamingReply(params: ParamsField, id: RpcId, reject: Selected -> string,
                       send: (Message, string) -> SendOutcome,
                       stream: (Message, string) -> StreamOutcome, freshId: string,
                       encode: TravelAgent.Update -> string)
    requires SelectParams(params, reject).Success?
    requires forall u :: '\n' !in encode(u) && '\r' !in encode(u)
    ensures var r := Dispatch(Object(Some("SendStreamingMessage"), params, id), reject, send, stream, freshId, encode);
      match SelectParams(params, reject).value
      case Invalid(reason) =>
        r == Response(500, JsonMimetype, Json(RpcError(InternalError, "Internal server error", Some(reason), id)))
      case Valid(m) =>
        match stream(m, SessionId(m, freshId))
        case Streamed(events) =>
          && r == Response(200, EventStreamMimetype, EventStream(EventStreamText(events, encode)))
          && DecodeEventStream(r.body.text) == Some(Encodings(events, encode))
        case StreamFailed(emitted, e) =>
          r == Response(500, JsonMimetype, Json(RpcError(InternalError, "Internal server error", Some(e), id)))
  {
    match SelectParams(params, reject).value
    case Invalid(_) =>
    case Valid(m) =>
      match stream(m, SessionId(m, freshId))
      case Streamed(events) =>
        DecodeEventStreamText(events, encode);
      case StreamFailed(_, _) =>
  }

  /** With the travel agent behind it, a completed streaming call reaches the
      client as one to three events, the last one being the closing update, which
      carries a final state and the timestamp. */
  lemma StreamedAgentFrames(m: Message, params: ParamsField, id: RpcId, reject: Selected -> string,
                            send: (Message, string) -> SendOutcome,
                            stream: (Message, string) -> StreamOutcome, freshId: string,
                            encode: TravelAgent.Update -> string, messageObj: TravelAgent.MessageObj,
                            cs: seq<TravelAgent.Chunk>, parse: string -> Option<TravelAgent.Payload>,
                            timestamp: string, uuid: nat -> string)
    requires SelectParams(params, reject) == Success(Valid(m))
    requires forall u :: '\n' !in encode(u) && '\r' !in encode(u)
    requires stream(m, SessionId(m, freshId)) ==
             Streamed(TravelAgent.StreamUpdates(messageObj, SessionId(m, freshId), cs, parse, timestamp, uuid))
    ensures var r := Dispatch(Object(Some("SendStreamingMessage"), params, id), reject, send, stream, freshId, encode);
      var u := TravelAgent.StreamUpdates(messageObj, SessionId(m, freshId), cs, parse, timestamp, uuid);
      && r.status == 200 && r.body.EventStream?
      && DecodeEventStream(r.body.text).Some?
      && 1 <= |DecodeEventStream(r.body.text).value| <= 3
      && DecodeEventStream(r.body.text).value[|DecodeEventStream(r.body.text).value| - 1] == encode(u[|u| - 1])
      && u[|u| - 1].state != TravelAgent.Working && u[|u| - 1].timestamp == Some(timestamp)
  {
    var u := TravelAgent.StreamUpdates(messageObj, SessionId(m, freshId), cs, parse, timestamp, uuid);
    TravelAgent.UpdatesShape(messageObj, SessionId(m, freshId), cs, parse, timestamp, uuid);
    StreamingReply(params, id, reject, send, stream, freshId, encode);
  }

  /** A message with a non-empty context id runs under that session: the fresh id
      is not used, whatever the method. Without one, the session is the fresh id. */
  lemma SessionIdChoice(m: Message, rpcMethod: Option<string>, params: ParamsField, id: RpcId,
                        reject: Selected -> string, send: (Message, string) -> SendOutcome,
                        stream: (Message, string) -> StreamOutcome, fresh1: string, fresh2: string,
                        encode: TravelAgent.Update -> string)
    requires SelectParams(params, reject) == Success(Valid(m))
    ensures m.contextId.Some? && m.contextId.value != "" ==>
      SessionId(m, fresh1) == m.contextId.value &&
      Dispatch(Object(rpcMethod, params, id), reject, send, stream, fresh1, encode) ==
      Dispatch(Object(rpcMethod, params, id), reject, send, stream, fresh2, encode)
    ensures m.contextId.None? || m.contextId == Some("") ==> SessionId(m, fresh1) == fresh1
  {
  }
}
