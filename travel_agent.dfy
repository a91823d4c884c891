/**
 * The travel agent's message handling: reading the user's text out of a request
 * message, wrapping the model's answer as an agent message, and turning the
 * model's chunk stream into task-status updates (two edge-triggered "working"
 * announcements, then exactly one closing update).
 *
 * The language model is a parameter: `getResponse` gives its whole answer to a
 * prompt and `invoke` the sequence of chunks it streams for a prompt. JSON
 * decoding and pydantic validation are parameters too (`loads`, `parse`), as are
 * the fresh message ids (`uuid`) and the clock (`timestamp`).
 */
module TravelAgent {
  import opened Wrappers

  // ---------------------------------------------------------------------------
  // Messages and parts
  // ---------------------------------------------------------------------------

  /** A message part as the agent reads it: a JSON object whose "kind" and "text"
      keys may be missing. */
  datatype Part = Part(kind: Option<string>, text: Option<string>)

  /** A request message as the agent reads it: "messageId" and "parts" may be missing. */
  datatype MessageObj = MessageObj(messageId: Option<string>, parts: Option<seq<Part>>)

  datatype Role = User | Agent

  /** A message the agent produces. */
  datatype AgentMessage = AgentMessage(role: Role, parts: seq<Part>, messageId: string, kind: string)

  predicate IsTextPart(p: Part) {
    p.kind == Some("text")
  }

  /** `part.get("text", "")` */
  function PartText(p: Part): string {
    p.text.GetOr("")
  }

  /** `message.get("parts", [])` */
  function PartsOf(m: MessageObj): seq<Part> {
    m.parts.GetOr([])
  }

  /** Part `i` is the first part of kind "text". */
  predicate IsFirstTextPart(parts: seq<Part>, i: int) {
    0 <= i < |parts| && IsTextPart(parts[i]) && forall j :: 0 <= j < i ==> !IsTextPart(parts[j])
  }

  /** The user's input: the text of the first part of kind "text", or "" when
      there is no such part (the generator expression of `stream`). */
  function FirstTextPart(parts: seq<Part>): (r: string)
    ensures (forall i :: 0 <= i < |parts| ==> !IsTextPart(parts[i])) ==> r == ""
    ensures forall i :: IsFirstTextPart(parts, i) ==> r == PartText(parts[i])
  {
    if parts == [] then ""
    else if IsTextPart(parts[0]) then PartText(parts[0])
    else
      var r := FirstTextPart(parts[1..]);
      assert forall i :: IsFirstTextPart(parts, i) ==> IsFirstTextPart(parts[1..], i - 1);
      r
  }

  /** The message the agent answers with: role "agent", kind "message", one text part. */
  function AgentTextMessage(text: string, messageId: string): (m: AgentMessage)
    ensures m.role == Agent && m.kind == "message" && m.messageId == messageId
    ensures |m.parts| == 1 && IsTextPart(m.parts[0]) && m.parts[0].text == Some(text)
    ensures FirstTextPart(m.parts) == text
  {
    AgentMessage(Agent, [Part(Some("text"), Some(text))], messageId, "message")
  }

  // ---------------------------------------------------------------------------
  // Synchronous answers
  // ---------------------------------------------------------------------------

  /** JSON values as far as the agent inspects them; an object's field values are
      kept as their text. */
  datatype JsonValue = JString(s: string) | JObject(fields: map<string, string>) | JOther

  /** What the model hands back: an object with a `content` attribute holding
      text, or a bare value. */
  datatype Content = ChatContent(content: string) | Bare(value: JsonValue)

  datatype ResponseError =
    | InvalidJson     // json.loads raised
    | AnswerUnbound   // no "message" field: `agent_response` is read before it is bound

  /** The decoded answer object: the `content` attribute if there is one, decoded
      by `loads` when it is text. `None` when decoding raised. */
  function DecodedContent(content: Content, loads: string -> Option<JsonValue>): Option<JsonValue> {
    var inner := match content
      case ChatContent(t) => JString(t)
      case Bare(v) => v;
    match inner
    case JString(s) => loads(s)
    case _ => Some(inner)
  }

  /** The answer field of a decoded answer, when it is an object that has one. */
  function AnswerField(decoded: Option<JsonValue>): Option<string> {
    match decoded
    case Some(JObject(fields)) => if "message" in fields then Some(fields["message"]) else None
    case _ => None
  }

  /** `_get_agent_response`: wraps the answer's "message" field as an agent message. */
  function GetAgentResponse(content: Content, loads: string -> Option<JsonValue>, messageId: string)
    : (r: Result<AgentMessage, ResponseError>)
    ensures r.Success? <==> AnswerField(DecodedContent(content, loads)).Some?
    ensures r.Success? ==>
      && r.value.role == Agent && r.value.kind == "message" && r.value.messageId == messageId
      && |r.value.parts| == 1 && IsTextPart(r.value.parts[0])
      && r.value.parts[0].text == AnswerField(DecodedContent(content, loads))
      && FirstTextPart(r.value.parts) == AnswerField(DecodedContent(content, loads)).value
    ensures r.Failure? ==> (r.error == InvalidJson <==> DecodedContent(content, loads).None?)
  {
    var decoded := DecodedContent(content, loads);
    if decoded.None? then Failure(InvalidJson)
    else match AnswerField(decoded)
      case Some(answer) => Success(AgentTextMessage(answer, messageId))
      case None => Failure(AnswerUnbound)
  }

  /** `send_message`: the loop picks the first text part as the prompt, the model
      answers it, and the answer is wrapped by `GetAgentResponse`. */
  method SendMessage(message: MessageObj, getResponse: string -> Content,
                     loads: string -> Option<JsonValue>, messageId: string)
    returns (userText: string, r: Result<AgentMessage, ResponseError>)
    ensures userText == FirstTextPart(PartsOf(message))
    ensures r == GetAgentResponse(getResponse(userText), loads, messageId)
  {
    userText := "";
    var parts := PartsOf(message);
    var i := 0;
    while i < |parts|
      invariant 0 <= i <= |parts|
      invariant forall j :: 0 <= j < i ==> !IsTextPart(parts[j])
      invariant userText == ""
    {
      if IsTextPart(parts[i]) {
        userText := PartText(parts[i]);
        assert IsFirstTextPart(parts, i);
        break;
      }
      i := i + 1;
    }
    r := GetAgentResponse(getResponse(userText), loads, messageId);
  }

  // ---------------------------------------------------------------------------
  // Streamed chunks
  // ---------------------------------------------------------------------------

  /** The kinds of item a streamed chunk can hold. */
  datatype Item = FunctionCall | FunctionResult | StreamingText | OtherContent

  /** One streamed chunk: its items and its message text. */
  datatype Chunk = Chunk(items: seq<Item>, message: string)

  /** A chunk that holds a function call or a function result. */
  predicate IsToolChunk(c: Chunk) {
    FunctionCall in c.items || FunctionResult in c.items
  }

  /** A chunk that holds streamed text and no function call or result. */
  predicate IsTextChunk(c: Chunk) {
    !IsToolChunk(c) && StreamingText in c.items
  }

  /** The two phases announced by a "working" update. */
  datatype Phase = ToolPhase | MessagePhase

  predicate Triggers(c: Chunk, p: Phase) {
    match p
    case ToolPhase => IsToolChunk(c)
    case MessagePhase => IsTextChunk(c)
  }

  const ToolProgressText := "Processing the trip plan (with plugins)..."
  const MessageProgressText := "Building the trip plan..."
  const FallbackText := "We are unable to process your request at the moment. Please try again."

  function ProgressText(p: Phase): string {
    match p
    case ToolPhase => ToolProgressText
    case MessagePhase => MessageProgressText
  }

  /** The index of the first chunk that triggers phase `p`. */
  function FirstTrigger(cs: seq<Chunk>, p: Phase): (r: Option<nat>)
    ensures r.None? <==> forall i :: 0 <= i < |cs| ==> !Triggers(cs[i], p)
    ensures r.Some? ==> r.value < |cs| && Triggers(cs[r.value], p)
    ensures r.Some? ==> forall i :: 0 <= i < r.value ==> !Triggers(cs[i], p)
  {
    if cs == [] then None
    else if Triggers(cs[0], p) then Some(0)
    else
      var rest := FirstTrigger(cs[1..], p);
      assert forall i :: 1 <= i < |cs| ==> cs[i] == cs[1..][i - 1];
      match rest
      case None => None
      case Some(k) => Some(k + 1)
  }

  /** The phases announced by a stream of chunks, in the order they are announced:
      each phase once, at the first chunk that triggers it. */
  function Announcements(cs: seq<Chunk>): seq<Phase> {
    match (FirstTrigger(cs, ToolPhase), FirstTrigger(cs, MessagePhase))
    case (None, None) => []
    case (Some(_), None) => [ToolPhase]
    case (None, Some(_)) => [MessagePhase]
    case (Some(i), Some(j)) => if i < j then [ToolPhase, MessagePhase] else [MessagePhase, ToolPhase]
  }

  /** The message texts of the text chunks, in arrival order. */
  function TextMessages(cs: seq<Chunk>): seq<string> {
    if cs == [] then []
    else (if IsTextChunk(cs[0]) then [cs[0].message] else []) + TextMessages(cs[1..])
  }

  function Concat(ss: seq<string>): string {
    if ss == [] then "" else ss[0] + Concat(ss[1..])
  }

  /** Python's `sum(rest, start)`: a left fold with `+`. */
  function Sum(start: string, rest: seq<string>): string
    decreases |rest|
  {
    if rest == [] then start else Sum(start + rest[0], rest[1..])
  }

  /** The aggregated answer of a stream. */
  function Aggregate(cs: seq<Chunk>): string {
    Concat(TextMessages(cs))
  }

  // ---------------------------------------------------------------------------
  // Status updates
  // ---------------------------------------------------------------------------

  datatype TaskState = Working | InputRequired | Completed | Error

  /** The states a structured answer may carry. */
  type Status = s: TaskState | !s.Working? witness InputRequired

  /** A structured answer as the JSON parser sees it: "status" may be missing. */
  datatype Payload = Payload(status: Option<Status>, message: string)

  /** The validated structured answer (`ResponseFormat`). */
  datatype ResponseFormat = ResponseFormat(status: Status, message: string)

  /** `ResponseFormat.model_validate_json`: `None` when it raises. The empty text is
      not JSON and never validates; a missing status is "input_required". */
  function ValidateResponse(text: string, parse: string -> Option<Payload>): (r: Option<ResponseFormat>)
    ensures text == "" ==> r.None?
    ensures r.Some? <==> text != "" && parse(text).Some?
    ensures r.Some? ==> r.value.message == parse(text).value.message
    ensures r.Some? ==> (r.value.status == InputRequired <==> parse(text).value.status in {None, Some(InputRequired)})
    ensures r.Some? && parse(text).value.status.Some? ==> r.value.status == parse(text).value.status.value
  {
    if text == "" then None
    else match parse(text)
      case None => None
      case Some(p) => Some(ResponseFormat(p.status.GetOr(InputRequired), p.message))
  }

  /** One update of the stream: the task's id and context, its state, a timestamp
      (only on the closing update) and the agent's message. */
  datatype Update = Update(id: Option<string>, contextId: string, state: TaskState,
                           timestamp: Option<string>, message: AgentMessage)

  /** The text an update carries. */
  function UpdateText(u: Update): string {
    FirstTextPart(u.message.parts)
  }

  function WorkingUpdate(m: MessageObj, sessionId: string, p: Phase, messageId: string): Update {
    Update(m.messageId, sessionId, Working, None, AgentTextMessage(ProgressText(p), messageId))
  }

  /** The working updates for a sequence of announcements; the k-th takes the k-th fresh id. */
  function WorkingUpdates(m: MessageObj, sessionId: string, ann: seq<Phase>, uuid: nat -> string): seq<Update> {
    if ann == [] then []
    else WorkingUpdates(m, sessionId, ann[..|ann| - 1], uuid)
         + [WorkingUpdate(m, sessionId, ann[|ann| - 1], uuid(|ann| - 1))]
  }

  /** The closing update: the parsed status and message, or "error" with the fallback text. */
  function ClosingUpdate(m: MessageObj, sessionId: string, parsed: Option<ResponseFormat>,
                         timestamp: string, messageId: string): Update {
    match parsed
    case Some(rf) => Update(m.messageId, sessionId, rf.status, Some(timestamp), AgentTextMessage(rf.message, messageId))
    case None => Update(m.messageId, sessionId, Error, Some(timestamp), AgentTextMessage(FallbackText, messageId))
  }

  /** The updates a stream of chunks yields. */
  function StreamUpdates(m: MessageObj, sessionId: string, cs: seq<Chunk>, parse: string -> Option<Payload>,
                         timestamp: string, uuid: nat -> string): seq<Update> {
    var ann := Announcements(cs);
    WorkingUpdates(m, sessionId, ann, uuid)
      + [ClosingUpdate(m, sessionId, ValidateResponse(Aggregate(cs), parse), timestamp, uuid(|ann|))]
  }

  /** The state `stream` keeps while it reads chunks: its two flags, the buffered
      messages and the phases announced so far. */
  datatype Classifier = Classifier(toolCallInProgress: bool, messageInProgress: bool,
                                   chunks: seq<string>, announced: seq<Phase>)

  const Initial := Classifier(false, false, [], [])

  /** What `stream` does with one chunk. */
  function Step(st: Classifier, c: Chunk): Classifier {
    if IsToolChunk(c) then
      if st.toolCallInProgress then st
      else st.(toolCallInProgress := true, announced := st.announced + [ToolPhase])
    else if StreamingText in c.items then
      var st' := if st.messageInProgress then st
                 else st.(messageInProgress := true, announced := st.announced + [MessagePhase]);
      st'.(chunks := st'.chunks + [c.message])
    else st
  }

  /** The state after reading all of `cs`. */
  function Run(cs: seq<Chunk>): Classifier
    decreases |cs|
  {
    if cs == [] then Initial else Step(Run(cs[..|cs| - 1]), cs[|cs| - 1])
  }

  /** `stream`: the loop over the model's chunks with its two edge-triggered flags
      and the chunk buffer, then the closing classification. */
  method Stream(messageObj: MessageObj, sessionId: string, invoke: string -> seq<Chunk>,
                parse: string -> Option<Payload>, timestamp: string, uuid: nat -> string)
    returns (updates: seq<Update>)
    ensures updates == StreamUpdates(messageObj, sessionId, invoke(FirstTextPart(PartsOf(messageObj))),
                                     parse, timestamp, uuid)
  {
    var userInput := FirstTextPart(PartsOf(messageObj));
    var cs := invoke(userInput);
    var toolCallInProgress := false;
    var messageInProgress := false;
    var chunks: seq<string> := [];
    updates := [];
    var i := 0;
    ghost var st := Initial;
    while i < |cs|
      invariant 0 <= i <= |cs|
      invariant st == Run(cs[..i])
      invariant st == Classifier(toolCallInProgress, messageInProgress, chunks, st.announced)
      invariant updates == WorkingUpdates(messageObj, sessionId, st.announced, uuid)
      invariant |updates| == |st.announced|
    {
      var c := cs[i];
      RunSnoc(cs, i);
      if IsToolChunk(c) {
        if !toolCallInProgress {
          WorkingUpdatesSnoc(messageObj, sessionId, st.announced, ToolPhase, uuid);
          updates := updates + [WorkingUpdate(messageObj, sessionId, ToolPhase, uuid(|updates|))];
          toolCallInProgress := true;
        }
      } else if StreamingText in c.items {
        if !messageInProgress {
          WorkingUpdatesSnoc(messageObj, sessionId, st.announced, MessagePhase, uuid);
          updates := updates + [WorkingUpdate(messageObj, sessionId, MessagePhase, uuid(|updates|))];
          messageInProgress := true;
        }
        chunks := chunks + [c.message];
      }
      st := Step(st, c);
      i := i + 1;
    }
    assert cs[..i] == cs;
    var fullMessage := if chunks != [] then Sum(chunks[0], chunks[1..]) else "";
    var structured := ValidateResponse(fullMessage, parse);
    var closing := ClosingUpdate(messageObj, sessionId, structured, timestamp, uuid(|updates|));
    StreamFinish(messageObj, sessionId, cs, parse, timestamp, uuid, chunks, updates);
    updates := updates + [closing];
  }

  // ---------------------------------------------------------------------------
  // Lemmas used by Stream
  // ---------------------------------------------------------------------------

  lemma RunSnoc(cs: seq<Chunk>, i: nat)
    requires i < |cs|
    ensures Run(cs[..i + 1]) == Step(Run(cs[..i]), cs[i])
  {
    assert cs[..i + 1][..i] == cs[..i];
  }

  lemma WorkingUpdatesSnoc(m: MessageObj, sessionId: string, ann: seq<Phase>, p: Phase, uuid: nat -> string)
    ensures WorkingUpdates(m, sessionId, ann + [p], uuid) ==
            WorkingUpdates(m, sessionId, ann, uuid) + [WorkingUpdate(m, sessionId, p, uuid(|ann|))]
  {
    assert (ann + [p])[..|ann|] == ann;
  }

  /** The state machine agrees with the declarative description of a stream: a
      flag is set exactly when a chunk of its kind has arrived, the buffer holds the
      text chunks' messages, and the announcements are those of `Announcements`. */
  lemma {:induction false} RunMatchesSpec(cs: seq<Chunk>)
    ensures Run(cs) == Classifier(FirstTrigger(cs, ToolPhase).Some?, FirstTrigger(cs, MessagePhase).Some?,
                                  TextMessages(cs), Announcements(cs))
    decreases |cs|
  {
    if cs != [] {
      var n := |cs| - 1;
      assert cs[..n + 1] == cs;
      RunMatchesSpec(cs[..n]);
      FirstTriggerStep(cs, n, ToolPhase);
      FirstTriggerStep(cs, n, MessagePhase);
      TextMessagesStep(cs, n);
      AnnouncementsStep(cs, n);
    }
  }

  /** After the loop: the buffer's sum and the closing update complete the stream's updates. */
  lemma StreamFinish(m: MessageObj, sessionId: string, cs: seq<Chunk>, parse: string -> Option<Payload>,
                     timestamp: string, uuid: nat -> string, chunks: seq<string>, updates: seq<Update>)
    requires chunks == Run(cs).chunks
    requires updates == WorkingUpdates(m, sessionId, Run(cs).announced, uuid)
    ensures var full := if chunks != [] then Sum(chunks[0], chunks[1..]) else "";
      updates + [ClosingUpdate(m, sessionId, ValidateResponse(full, parse), timestamp, uuid(|updates|))]
      == StreamUpdates(m, sessionId, cs, parse, timestamp, uuid)
  {
    RunMatchesSpec(cs);
    if chunks != [] {
      SumIsConcat(chunks[0], chunks[1..]);
    }
    WorkingUpdatesAt(m, sessionId, Announcements(cs), uuid);
  }

  /** The k-th working update announces the k-th phase with the k-th fresh id. */
  lemma {:induction false} WorkingUpdatesAt(m: MessageObj, sessionId: string, ann: seq<Phase>, uuid: nat -> string)
    ensures |WorkingUpdates(m, sessionId, ann, uuid)| == |ann|
    ensures forall k :: 0 <= k < |ann| ==>
      WorkingUpdates(m, sessionId, ann, uuid)[k] == WorkingUpdate(m, sessionId, ann[k], uuid(k))
    decreases |ann|
  {
    if ann != [] {
      var init := ann[..|ann| - 1];
      var front := WorkingUpdates(m, sessionId, init, uuid);
      WorkingUpdatesAt(m, sessionId, init, uuid);
      var w := front + [WorkingUpdate(m, sessionId, ann[|ann| - 1], uuid(|ann| - 1))];
      assert WorkingUpdates(m, sessionId, ann, uuid) == w;
      forall k | 0 <= k < |ann|
        ensures w[k] == WorkingUpdate(m, sessionId, ann[k], uuid(k))
      {
        if k < |init| {
          assert w[k] == front[k];
          assert ann[k] == init[k];
        }
      }
    }
  }

  /** Reading one more chunk fixes the first trigger when it is the first one. */
  lemma FirstTriggerStep(cs: seq<Chunk>, i: nat, p: Phase)
    requires i < |cs|
    ensures FirstTrigger(cs[..i + 1], p) ==
      if FirstTrigger(cs[..i], p).Some? then FirstTrigger(cs[..i], p)
      else if Triggers(cs[i], p) then Some(i)
      else None
  {
    var before, after := FirstTrigger(cs[..i], p), FirstTrigger(cs[..i + 1], p);
    assert forall j :: 0 <= j < i ==> cs[..i][j] == cs[j] == cs[..i + 1][j];
    assert cs[..i + 1][i] == cs[i];
    if before.Some? {
      assert after.Some?;
      assert after.value == before.value;
    } else if Triggers(cs[i], p) {
      assert after.Some?;
    }
  }

  /** The announcement chunk `c` adds after `prefix`: a phase it triggers that has not fired yet. */
  function NewAnnouncement(prefix: seq<Chunk>, c: Chunk): seq<Phase> {
    if IsToolChunk(c) && FirstTrigger(prefix, ToolPhase).None? then [ToolPhase]
    else if IsTextChunk(c) && FirstTrigger(prefix, MessagePhase).None? then [MessagePhase]
    else []
  }

  /** Reading one more chunk appends at most one announcement. */
  lemma AnnouncementsStep(cs: seq<Chunk>, i: nat)
    requires i < |cs|
    ensures Announcements(cs[..i + 1]) == Announcements(cs[..i]) + NewAnnouncement(cs[..i], cs[i])
  {
    FirstTriggerStep(cs, i, ToolPhase);
    FirstTriggerStep(cs, i, MessagePhase);
  }

  lemma {:induction false} TextMessagesAppend(a: seq<Chunk>, b: seq<Chunk>)
    ensures TextMessages(a + b) == TextMessages(a) + TextMessages(b)
  {
    if a == [] {
      assert a + b == b;
    } else {
      assert (a + b)[0] == a[0] && (a + b)[1..] == a[1..] + b;
      TextMessagesAppend(a[1..], b);
      assert TextMessages(a + b) == (if IsTextChunk(a[0]) then [a[0].message] else []) + TextMessages(a[1..] + b);
    }
  }

  lemma TextMessagesStep(cs: seq<Chunk>, i: nat)
    requires i < |cs|
    ensures TextMessages(cs[..i + 1]) ==
      TextMessages(cs[..i]) + (if IsTextChunk(cs[i]) then [cs[i].message] else [])
  {
    assert cs[..i + 1] == cs[..i] + [cs[i]];
    TextMessagesAppend(cs[..i], [cs[i]]);
  }

  /** Python's `sum(rest, start)` on strings is `start` followed by the concatenation of `rest`. */
  lemma {:induction false} SumIsConcat(start: string, rest: seq<string>)
    ensures Sum(start, rest) == start + Concat(rest)
    decreases |rest|
  {
    if rest != [] {
      SumIsConcat(start + rest[0], rest[1..]);
    }
  }

  // ---------------------------------------------------------------------------
  // Properties of a stream
  // ---------------------------------------------------------------------------

  /** A chunk that triggers `p` at index `k`, with none before it, is the first trigger. */
  lemma FirstTriggerAt(cs: seq<Chunk>, p: Phase, k: nat)
    requires k < |cs| && Triggers(cs[k], p)
    requires forall i :: 0 <= i < k ==> !Triggers(cs[i], p)
    ensures FirstTrigger(cs, p) == Some(k)
  {
  }

  /** A phase is announced exactly when some chunk triggers it. */
  lemma AnnouncedIff(cs: seq<Chunk>, p: Phase)
    ensures p in Announcements(cs) <==> FirstTrigger(cs, p).Some?
    ensures p in Announcements(cs) <==> exists i :: 0 <= i < |cs| && Triggers(cs[i], p)
    ensures |Announcements(cs)| <= 2
  {
  }

  /** The first trigger within the first `n` chunks. */
  lemma FirstTriggerPrefix(cs: seq<Chunk>, n: nat, p: Phase)
    requires n <= |cs|
    ensures FirstTrigger(cs[..n], p) ==
      if FirstTrigger(cs, p).Some? && FirstTrigger(cs, p).value < n then FirstTrigger(cs, p) else None
  {
    var whole := FirstTrigger(cs, p);
    assert forall i :: 0 <= i < n ==> cs[..n][i] == cs[i];
    if whole.Some? && whole.value < n {
      FirstTriggerAt(cs[..n], p, whole.value);
    }
  }

  /** The announcement of a phase is made on the chunk that first triggers it: it is
      among the announcements after chunk `i` but not before exactly when chunk `i`
      is the first chunk of its kind. */
  lemma AnnouncedOnFirstTrigger(cs: seq<Chunk>, i: nat, p: Phase)
    requires i < |cs|
    ensures (p in Announcements(cs[..i + 1]) && p !in Announcements(cs[..i])) <==> FirstTrigger(cs, p) == Some(i)
  {
    var whole := FirstTrigger(cs, p);
    assert p in Announcements(cs[..i + 1]) <==> whole.Some? && whole.value <= i by {
      AnnouncedIff(cs[..i + 1], p);
      FirstTriggerPrefix(cs, i + 1, p);
    }
    assert p in Announcements(cs[..i]) <==> whole.Some? && whole.value < i by {
      AnnouncedIff(cs[..i], p);
      FirstTriggerPrefix(cs, i, p);
    }
  }

  /** What has been announced after reading some chunks is never retracted: the
      announcements of a prefix of the stream are a prefix of the stream's. */
  lemma AnnouncementsOfPrefix(cs: seq<Chunk>, n: nat)
    requires n <= |cs|
    ensures Announcements(cs[..n]) <= Announcements(cs)
  {
    FirstTriggerPrefix(cs, n, ToolPhase);
    FirstTriggerPrefix(cs, n, MessagePhase);
  }

  /** The working updates yielded while reading the first `n` chunks are the first
      updates of the whole stream. */
  lemma UpdatesYieldedSoFar(m: MessageObj, sessionId: string, cs: seq<Chunk>, n: nat,
                            parse: string -> Option<Payload>, timestamp: string, uuid: nat -> string)
    requires n <= |cs|
    ensures WorkingUpdates(m, sessionId, Announcements(cs[..n]), uuid) <=
            StreamUpdates(m, sessionId, cs, parse, timestamp, uuid)
  {
    var pre, all := Announcements(cs[..n]), Announcements(cs);
    AnnouncementsOfPrefix(cs, n);
    WorkingUpdatesAt(m, sessionId, pre, uuid);
    WorkingUpdatesAt(m, sessionId, all, uuid);
  }

  /** Every stream yields one to three updates, all tagged with the request's
      message id and the session id; every update but the last is a "working"
      update without a timestamp, and the last is the only closing one and the
      only one with a timestamp. */
  lemma UpdatesShape(m: MessageObj, sessionId: string, cs: seq<Chunk>,
                     parse: string -> Option<Payload>, timestamp: string, uuid: nat -> string)
    ensures var u := StreamUpdates(m, sessionId, cs, parse, timestamp, uuid);
      && 1 <= |u| <= 3
      && (forall k :: 0 <= k < |u| ==> u[k].id == m.messageId && u[k].contextId == sessionId)
      && (forall k :: 0 <= k < |u| ==> (u[k].state == Working <==> k < |u| - 1))
      && (forall k :: 0 <= k < |u| ==> (u[k].timestamp.Some? <==> k == |u| - 1))
      && u[|u| - 1].timestamp == Some(timestamp)
  {
    var ann := Announcements(cs);
    AnnouncedIff(cs, ToolPhase);
    WorkingUpdatesAt(m, sessionId, ann, uuid);
    var u := StreamUpdates(m, sessionId, cs, parse, timestamp, uuid);
    assert forall k :: 0 <= k < |ann| ==> u[k] == WorkingUpdate(m, sessionId, ann[k], uuid(k));
  }

  /** An update announcing phase `p`. */
  predicate IsProgress(u: Update, p: Phase) {
    u.state == Working && UpdateText(u) == ProgressText(p)
  }

  /** The number of updates announcing phase `p`. */
  function CountProgress(u: seq<Update>, p: Phase): nat {
    if u == [] then 0
    else CountProgress(u[..|u| - 1], p) + (if IsProgress(u[|u| - 1], p) then 1 else 0)
  }

  lemma ProgressOfWorking(m: MessageObj, sessionId: string, q: Phase, messageId: string, p: Phase)
    ensures IsProgress(WorkingUpdate(m, sessionId, q, messageId), p) <==> q == p
  {
    assert ToolProgressText != MessageProgressText by {
      assert ToolProgressText[0] != MessageProgressText[0];
    }
  }

  lemma CountProgressSnoc(u: seq<Update>, x: Update, p: Phase)
    ensures CountProgress(u + [x], p) == CountProgress(u, p) + (if IsProgress(x, p) then 1 else 0)
  {
    assert (u + [x])[..|u|] == u;
  }

  lemma {:induction false} CountProgressOfWorking(m: MessageObj, sessionId: string, ann: seq<Phase>,
                                                  uuid: nat -> string, p: Phase)
    ensures CountProgress(WorkingUpdates(m, sessionId, ann, uuid), p) == multiset(ann)[p]
    decreases |ann|
  {
    if ann != [] {
      var init, q := ann[..|ann| - 1], ann[|ann| - 1];
      assert ann == init + [q];
      var last := WorkingUpdate(m, sessionId, q, uuid(|ann| - 1));
      CountProgressOfWorking(m, sessionId, init, uuid, p);
      CountProgressSnoc(WorkingUpdates(m, sessionId, init, uuid), last, p);
      ProgressOfWorking(m, sessionId, q, uuid(|ann| - 1), p);
    }
  }

  lemma AnnouncedOnce(cs: seq<Chunk>, p: Phase)
    ensures multiset(Announcements(cs))[p] == if FirstTrigger(cs, p).Some? then 1 else 0
  {
    var t, x := FirstTrigger(cs, ToolPhase), FirstTrigger(cs, MessagePhase);
    if t.Some? && x.Some? {
      assert Announcements(cs) == [ToolPhase, MessagePhase] || Announcements(cs) == [MessagePhase, ToolPhase];
    }
  }

  /** However many chunks of a kind arrive, the stream announces their phase once
      if at least one arrives and never otherwise. */
  lemma ProgressAnnouncedOnce(m: MessageObj, sessionId: string, cs: seq<Chunk>,
                              parse: string -> Option<Payload>, timestamp: string, uuid: nat -> string, p: Phase)
    ensures CountProgress(StreamUpdates(m, sessionId, cs, parse, timestamp, uuid), p) ==
            if exists i :: 0 <= i < |cs| && Triggers(cs[i], p) then 1 else 0
  {
    var ann := Announcements(cs);
    var w := WorkingUpdates(m, sessionId, ann, uuid);
    var last := ClosingUpdate(m, sessionId, ValidateResponse(Aggregate(cs), parse), timestamp, uuid(|ann|));
    assert StreamUpdates(m, sessionId, cs, parse, timestamp, uuid) == w + [last];
    CountProgressSnoc(w, last, p);
    CountProgressOfWorking(m, sessionId, ann, uuid, p);
    AnnouncedOnce(cs, p);
    assert FirstTrigger(cs, p).Some? <==> exists i :: 0 <= i < |cs| && Triggers(cs[i], p);
  }

  /** The closing update carries the validated status and message, or "error" with
      the fallback text when the aggregated answer does not validate; so its state
      is one of input_required, completed and error. */
  lemma ClosingClassification(m: MessageObj, sessionId: string, cs: seq<Chunk>,
                              parse: string -> Option<Payload>, timestamp: string, uuid: nat -> string)
    ensures var u := StreamUpdates(m, sessionId, cs, parse, timestamp, uuid);
      var last, parsed := u[|u| - 1], ValidateResponse(Aggregate(cs), parse);
      && last.state in {InputRequired, Completed, Error}
      && (parsed.Some? ==> last.state == parsed.value.status && UpdateText(last) == parsed.value.message)
      && (parsed.None? ==> last.state == Error && UpdateText(last) == FallbackText)
  {
  }

  /** When the aggregated answer is non-empty and parses with a status and a
      message, the stream closes with exactly that status and that message; when it
      parses without a status, it closes with input_required. */
  lemma ClosingKeepsParsedAnswer(m: MessageObj, sessionId: string, cs: seq<Chunk>,
                                 parse: string -> Option<Payload>, timestamp: string, uuid: nat -> string,
                                 status: Option<Status>, text: string)
    requires Aggregate(cs) != "" && parse(Aggregate(cs)) == Some(Payload(status, text))
    ensures var u := StreamUpdates(m, sessionId, cs, parse, timestamp, uuid);
      && u[|u| - 1].state == status.GetOr(InputRequired)
      && UpdateText(u[|u| - 1]) == text
  {
  }

  lemma {:induction false} ConcatAppend(a: seq<string>, b: seq<string>)
    ensures Concat(a + b) == Concat(a) + Concat(b)
  {
    if a == [] {
      assert a + b == b;
    } else {
      assert (a + b)[1..] == a[1..] + b;
      ConcatAppend(a[1..], b);
    }
  }

  /** The aggregated answer of two consecutive stretches of a stream is the
      answer of the first followed by the answer of the second. */
  lemma AggregateAppend(a: seq<Chunk>, b: seq<Chunk>)
    ensures Aggregate(a + b) == Aggregate(a) + Aggregate(b)
  {
    TextMessagesAppend(a, b);
    ConcatAppend(TextMessages(a), TextMessages(b));
  }

  /** The aggregated answer of a single chunk: its message if it is a text chunk,
      and nothing if it holds a function call or result or no text at all. */
  lemma AggregateOfChunk(c: Chunk)
    ensures Aggregate([c]) == if IsTextChunk(c) then c.message else ""
  {
    assert [c][1..] == [];
    if IsTextChunk(c) {
      assert TextMessages([c]) == [c.message];
      assert [c.message][1..] == [];
      assert Concat([c.message]) == c.message + Concat([]);
    } else {
      assert TextMessages([c]) == [];
    }
  }

  lemma {:induction false} NoTextMessages(cs: seq<Chunk>)
    requires forall i :: 0 <= i < |cs| ==> !IsTextChunk(cs[i])
    ensures TextMessages(cs) == []
  {
    if cs != [] {
      NoTextMessages(cs[1..]);
    }
  }

  /** A stream without text chunks aggregates to "" and closes with "error" and
      the fallback text. */
  lemma NoTextMeansError(m: MessageObj, sessionId: string, cs: seq<Chunk>,
                         parse: string -> Option<Payload>, timestamp: string, uuid: nat -> string)
    requires forall i :: 0 <= i < |cs| ==> !IsTextChunk(cs[i])
    ensures Aggregate(cs) == ""
    ensures var u := StreamUpdates(m, sessionId, cs, parse, timestamp, uuid);
      u[|u| - 1].state == Error && UpdateText(u[|u| - 1]) == FallbackText
  {
    NoTextMessages(cs);
  }

  /** An index into `a + b` moved past a chunk inserted at position `at`. */
  function ShiftPast(r: Option<nat>, at: nat): Option<nat> {
    match r
    case None => None
    case Some(k) => Some(if k < at then k else k + 1)
  }

  lemma FirstTriggerPastHead(cs: seq<Chunk>, p: Phase)
    requires cs != [] && !Triggers(cs[0], p)
    ensures FirstTrigger(cs, p) == ShiftPast(FirstTrigger(cs[1..], p), 0)
  {
  }

  lemma ShiftPastHead(r: Option<nat>, n: nat)
    requires n >= 1
    ensures ShiftPast(ShiftPast(r, n - 1), 0) == ShiftPast(ShiftPast(r, 0), n)
  {
    match r
    case None =>
    case Some(k) =>
  }

  lemma {:induction false} FirstTriggerWithout(a: seq<Chunk>, c: Chunk, b: seq<Chunk>, p: Phase)
    requires !Triggers(c, p)
    ensures FirstTrigger(a + [c] + b, p) == ShiftPast(FirstTrigger(a + b, p), |a|)
    decreases |a|
  {
    var x, y := a + [c] + b, a + b;
    if a == [] {
      assert x == [c] + b && x[1..] == b && y == b;
      FirstTriggerPastHead(x, p);
    } else {
      assert x[0] == a[0] == y[0];
      assert x[1..] == a[1..] + [c] + b;
      assert y[1..] == a[1..] + b;
      if Triggers(a[0], p) {
        assert FirstTrigger(x, p) == Some(0) == FirstTrigger(y, p);
      } else {
        FirstTriggerWithout(a[1..], c, b, p);
        FirstTriggerPastHead(x, p);
        FirstTriggerPastHead(y, p);
        var inner := FirstTrigger(y[1..], p);
        assert FirstTrigger(x, p) == ShiftPast(ShiftPast(inner, |a| - 1), 0);
        assert FirstTrigger(y, p) == ShiftPast(inner, 0);
        ShiftPastHead(inner, |a|);
      }
    }
  }

  lemma AnnouncementsWithout(a: seq<Chunk>, c: Chunk, b: seq<Chunk>)
    requires !IsToolChunk(c) && StreamingText !in c.items
    ensures Announcements(a + [c] + b) == Announcements(a + b)
  {
    FirstTriggerWithout(a, c, b, ToolPhase);
    FirstTriggerWithout(a, c, b, MessagePhase);
  }

  lemma AggregateWithout(a: seq<Chunk>, c: Chunk, b: seq<Chunk>)
    requires !IsTextChunk(c)
    ensures Aggregate(a + [c] + b) == Aggregate(a + b)
  {
    AggregateAppend(a + [c], b);
    AggregateAppend(a, [c]);
    AggregateAppend(a, b);
    AggregateOfChunk(c);
  }

  /** A chunk that holds neither a function call or result nor streamed text is
      ignored entirely: the stream yields the same updates without it. */
  lemma IgnoredChunkInvisible(m: MessageObj, sessionId: string, a: seq<Chunk>, c: Chunk, b: seq<Chunk>,
                              parse: string -> Option<Payload>, timestamp: string, uuid: nat -> string)
    requires !IsToolChunk(c) && StreamingText !in c.items
    ensures StreamUpdates(m, sessionId, a + [c] + b, parse, timestamp, uuid) ==
            StreamUpdates(m, sessionId, a + b, parse, timestamp, uuid)
  {
    AnnouncementsWithout(a, c, b);
    AggregateWithout(a, c, b);
  }
}
