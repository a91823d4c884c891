# Travel agent A2A adapter: a verified model

This project models the core of an Agent-to-Agent (A2A) travel-planning agent.
The agent is built on Semantic Kernel and served by Azure Functions. The model has three parts.

- **The travel agent** (`TravelAgent`, travel_agent.dfy):
  - It reads the user's prompt from a request message: the text of the first part of kind "text".
  - It wraps a synchronous answer's `"message"` field as an agent message (`_get_agent_response`).
  - It turns the model's chunk stream into task-status updates:
    - at most one "working" update when the first function-call or function-result chunk arrives;
    - at most one "working" update when the first text chunk arrives;
    - then exactly one closing update, built by validating the concatenated text chunks as a `ResponseFormat` (status and message).
  - `Stream` is the imperative loop with its two edge-triggered flags and its chunk buffer. It is proved equal to the declarative `StreamUpdates`, and the properties of a stream are proved about `StreamUpdates`.
- **The JSON-RPC 2.0 HTTP entry point** (`HttpTrigger`, http_trigger.dfy):
  - `Dispatch` is a total function from the parsed request body to the HTTP reply.
  - It picks the first element of `params` and dispatches on the method names "SendMessage" and "SendStreamingMessage".
  - Failures become the error envelopes of section 5.1 of the JSON-RPC 2.0 Specification (-32601, -32602, -32603), echoing the request id (section 5).
  - The streaming reply frames each update as a server-sent event, `data: <json>` followed by a blank line (WHATWG HTML Standard, section 9.2). `FrameEvents` is the framing loop.
  - `DecodeEventStream` is a client-side reader used to prove that the framing round-trips.
- **The agent-card endpoint** (`AgentCard`, agent_card.dfy):
  - The base URL is the request URL cut at the last occurrence of `/.well-known/agent-card.json`.
  - A `Card` object is deep-copied and its fields are assigned in place: a single JSON-RPC interface and the service URL, both at `base + "/v1"`.
  - The template card is left unchanged.

`Wrappers` (wrappers.dfy) holds `Option` and `Result`.

The following are parameters of the model:
- the language model: `getResponse` for a whole answer, `invoke` for a stream of chunks;
- JSON decoding (`loads`) and `ResponseFormat` validation (`parse`);
- JSON encoding of an update (`encode`) and card serialization (`serialize`);
- fresh identifiers (`uuid`, `messageId`, `freshId`) and the clock (`timestamp`);
- the agent's behaviour as seen by the HTTP layer (`send`, `stream`);
- the text of the validation error raised for a first params element that is not taken from a list, the default `{}` or a one-character string (`reject`).

Some behaviour of the code that the model keeps as written:
- A failed synchronous call answers -32602 "Invalid params" with status 400 (HttpTrigger/__init__.py:34-40), whether validation or the agent failed.
- A streaming call that fails answers -32603 "Internal server error" with status 500 and no frames (HttpTrigger/__init__.py:60-67).
- The closing update of an answer that does not validate has state "error" and a fixed fallback text (agent.py:322-325).
- A body that parses to JSON that is not an object makes the handler's own error path raise again (HttpTrigger/__init__.py:76-82). The exception escapes (`Unhandled`) and is not turned into an envelope.

## Model

| member | source | states |
|---|---|---|
| TravelAgent.FirstTextPart | samples/agents/semantickernel/agent.py:239-242 | The user input is the text of the first part whose kind is "text" ("" when that part has no text), and "" when no part has that kind |
| TravelAgent.SendMessage | samples/agents/semantickernel/agent.py:183-196 | The loop with `break` selects the same prompt as the first-text-part rule; the reply is the wrapped answer to that prompt |
| TravelAgent.AgentTextMessage | samples/agents/semantickernel/agent.py:212-222 | The agent's message has role agent, kind "message", the given fresh id and exactly one part, of kind "text", whose "text" key holds the given text |
| TravelAgent.GetAgentResponse | samples/agents/semantickernel/agent.py:198-222 | It succeeds exactly when the decoded content is an object with a "message" field, giving an agent message whose single part has kind "text" and that field under its "text" key; otherwise it fails, with the JSON error exactly when decoding raised |
| TravelAgent.ValidateResponse | samples/agents/semantickernel/agent.py:308-314 | The aggregate validates exactly when it is non-empty and parses; the message is the parsed one, a status present in the answer is kept as it is, and the status is input_required exactly when it is missing or input_required (default at agent.py:83) |
| TravelAgent.FirstTrigger | samples/agents/semantickernel/agent.py:252-298 | The index of the first chunk of a kind: that chunk is of the kind, none before it is, and there is none exactly when no chunk is of the kind |
| TravelAgent.Stream | samples/agents/semantickernel/agent.py:224-341 | The loop over chunks with its two flags and buffer yields exactly the updates `StreamUpdates` describes for the prompt's chunk stream |
| TravelAgent.RunMatchesSpec | samples/agents/semantickernel/agent.py:244-298 | After any chunks, each flag is set exactly when a chunk of its kind has arrived, the buffer holds the text chunks' messages in order, and the announcements are each phase once in order of first trigger |
| TravelAgent.SumIsConcat | samples/agents/semantickernel/agent.py:300-304 | `sum(chunks[1:], chunks[0])` is the concatenation of all buffered messages in arrival order |
| TravelAgent.AnnouncedIff | samples/agents/semantickernel/agent.py:252-296 | A phase is announced exactly when some chunk of its kind arrives, and at most two announcements are made |
| TravelAgent.AnnouncedOnFirstTrigger | samples/agents/semantickernel/agent.py:252-296 | A phase's announcement appears on reading chunk i exactly when chunk i is the first chunk of that kind |
| TravelAgent.AnnouncementsOfPrefix | samples/agents/semantickernel/agent.py:244-298 | The announcements made after reading part of the stream are a prefix of the whole stream's |
| TravelAgent.UpdatesYieldedSoFar | samples/agents/semantickernel/agent.py:244-298 | The working updates yielded after reading part of the stream are the first updates of the whole stream |
| TravelAgent.ProgressAnnouncedOnce | samples/agents/semantickernel/agent.py:252-296 | Each progress text is yielded once if a chunk of its kind arrives and never otherwise, however many such chunks arrive |
| TravelAgent.UpdatesShape | samples/agents/semantickernel/agent.py:256-341 | A stream yields one to three updates, all with the request's message id and the session id; all but the last are working, and only the last has a timestamp, the given one |
| TravelAgent.ClosingClassification | samples/agents/semantickernel/agent.py:308-341 | The closing update has the parsed status and message, or error with the fallback text when the aggregate does not validate; its state is input_required, completed or error |
| TravelAgent.ClosingKeepsParsedAnswer | samples/agents/semantickernel/agent.py:308-341 | When the aggregate is non-empty and validates, the closing update carries the parsed message and the parsed status, input_required when none was given |
| TravelAgent.AggregateOfChunk | samples/agents/semantickernel/agent.py:252-298 | A single chunk contributes its message to the aggregate only if it is a text chunk; a tool chunk's text is never buffered |
| TravelAgent.AggregateAppend | samples/agents/semantickernel/agent.py:298-304 | The aggregate of two stretches of a stream is the first's followed by the second's |
| TravelAgent.NoTextMeansError | samples/agents/semantickernel/agent.py:300-325 | A stream without text chunks aggregates to "" and closes with error and the fallback text |
| TravelAgent.FirstTriggerWithout | samples/agents/semantickernel/agent.py:252-298 | Inserting a chunk that is not of a kind moves that kind's first trigger past the inserted position and changes nothing else |
| TravelAgent.IgnoredChunkInvisible | samples/agents/semantickernel/agent.py:252-298 | A chunk with neither a tool item nor streamed text changes nothing: the stream yields the same updates without it |
| HttpTrigger.Dispatch | HttpTrigger/__init__.py:12-82 | The exception escapes exactly for a non-object body; every JSON reply echoes the request id (null when the body did not parse) under application/json, with status 404, 400 or 500 matching the error code; status 200 exactly for a result or an event stream |
| HttpTrigger.SelectParams | HttpTrigger/__init__.py:19 | The first element is selected exactly for an absent "params", a non-empty list or a non-empty string: a list gives its first item; the default `{}` and a string's first character give a validation failure with the oracle's text; an empty list or string fails with Python's index error, and unindexable params with their own error |
| HttpTrigger.UnparsedBody | HttpTrigger/__init__.py:76-82 | A body that is not JSON gets -32603 "Internal error", status 500, the error text and a null id |
| HttpTrigger.ParamsFailBeforeMethod | HttpTrigger/__init__.py:18-21 | Unindexable, empty-list or empty-string params give -32603 "Internal error", status 500, with the request id, whatever the method |
| HttpTrigger.UnknownMethod | HttpTrigger/__init__.py:69-74 | Any other method gives -32601 "Method not found", status 404, no data, the request id; the reply does not involve the agent |
| HttpTrigger.SendMessageReply | HttpTrigger/__init__.py:23-40 | Status 200 with the agent's task exactly when the params validate and the agent succeeds; otherwise -32602 "Invalid params", status 400, the request id, and as data the validation error when the params do not validate or the agent's error when it fails |
| HttpTrigger.StreamingReply | HttpTrigger/__init__.py:43-67 | For any params whose first element is selected: params that do not validate give -32603 "Internal server error", status 500, with the validation error; a completed stream gives status 200, text/event-stream, and the body `EventStreamText` (each update as `data: <json>` and a blank line, LF-terminated), which decodes to the updates' encodings in order; a failed stream gives -32603 "Internal server error", status 500, with the agent's error, whatever was produced before the failure |
| HttpTrigger.FrameEvents | HttpTrigger/__init__.py:50-59 | The framing loop's joined text is the concatenation of the frames of all updates in order |
| HttpTrigger.DecodeEventStreamText | HttpTrigger/__init__.py:51-59 | Decoding the framed body gives back one data field per update, each update's encoding, in order, when no encoding holds a carriage return or line feed; the reader ends lines at CR LF, CR or LF |
| HttpTrigger.StreamedAgentFrames | HttpTrigger/__init__.py:43-59 | For any params whose first element validates, with the travel agent behind it, a completed streaming reply decodes to one to three events, the last being the closing update with its timestamp and a final state |
| HttpTrigger.SessionIdChoice | HttpTrigger/__init__.py:26 | A message with a non-empty context id runs under that session and the reply does not depend on the fresh id; otherwise the session is the fresh id |
| AgentCard.LastOccurrenceAtOrBelow | AgentCard/__init__.py:10 | The largest position at or below the bound where the separator occurs, or none when it occurs nowhere there |
| AgentCard.BaseUrl | AgentCard/__init__.py:10 | The base is a prefix of the URL; it is the whole URL exactly when the well-known path does not occur, and otherwise the path occurs right after it and nowhere later |
| AgentCard.BaseUrlOfWellKnown | AgentCard/__init__.py:10 | A URL ending in the well-known path has the rest of the URL as its base |
| AgentCard.Card.DeepCopy | AgentCard/__init__.py:9 | The copy is a new object with the same content |
| AgentCard.Card.PointAt | AgentCard/__init__.py:12-20 | The card's interfaces and service URL are rewritten to the endpoint below the base; no other field changes |
| AgentCard.Serve | AgentCard/__init__.py:6-26 | The template is unchanged; the reply is the rewritten copy's JSON with status 200 and application/json, or status 500 with the fixed error text when serialization fails |
| AgentCard.RewrittenEndpoints | AgentCard/__init__.py:15-20 | After the rewrite there is exactly one interface, a JSON-RPC one, whose URL is the card's URL, base + "/v1" |
| AgentCard.RewrittenKeepsOtherFields | AgentCard/__init__.py:9-22 | Every other field is carried over, and the result does not depend on the template's former interfaces or URL |
| AgentCard.ServedFromWellKnown | AgentCard/__init__.py:10-20 | A card requested at b followed by the well-known path points at b + "/v1" |

## Left out

- The currency plugin (agent.py:40-72) and the agent's construction (agent.py:99-162). They are a network call and library object construction.
- The language model, its conversation thread, JSON decoding and encoding, and pydantic validation are parameters. The JSON grammar is not modelled.
- `uuid4` and the clock are parameters. Update k of a stream gets the k-th fresh id.
- Asynchrony: the HTTP handler collects the whole stream before it answers, so the stream is modelled as a finished sequence of chunks.
- The type mismatches between the HTTP handler and the agent. The handler passes a pydantic message where the agent calls `.get`, and it calls `model_dump` on a dictionary. The handler sees the agent only through abstract success-or-failure outcomes.
- function_app.py, tasks/send/__init__.py, tasks/sendSubscribe/__init__.py, `__main__.py`, the static card data in agent_card.py and the data shapes in types.py. The card's untouched fields are kept as one map.
- TravelAgent.Aggregate: the `+` on streamed message contents is modelled as string concatenation of their message texts. Chunk metadata is not modelled.
- TravelAgent.GetAgentResponse: the values of an answer object are modelled as text. A non-string "message" value is not distinguished.
- TravelAgent.FirstTextPart: a part whose "text" key holds null is not modelled (Python would return `None` there, not "").
- HttpTrigger.Dispatch: logging calls and the `json.dumps` of the body and params for the log are not modelled. They cannot fail on parsed JSON.
- HttpTrigger.Dispatch: request ids are modelled as null, strings and integers. A float, boolean, array or object id, which the code echoes unchanged, is not modelled.
- AgentCard.Serve: a reply without an explicit mimetype is shown as `None`, meaning the HTTP library's default.
