/**
 * The message envelope that every participant exchanges (utils/mcp.py):
 * closed enumerations of participants and message kinds, an untyped payload
 * map, pydantic-style validated construction with a default trace id, the
 * field dump `to_dict`, and the payload schema classes.
 */
module Mcp {
  import opened Wrappers

  /** The participants. `SenderType` and `ReceiverType` name the same five. */
  datatype Participant = UI | Coordinator | IngestionAgent | RetrievalAgent | LLMResponseAgent

  function ParticipantName(p: Participant): string
  {
    match p
    case UI => "UI"
    case Coordinator => "Coordinator"
    case IngestionAgent => "IngestionAgent"
    case RetrievalAgent => "RetrievalAgent"
    case LLMResponseAgent => "LLMResponseAgent"
  }

  const SenderNames: set<string> := {"UI", "Coordinator", "IngestionAgent", "RetrievalAgent", "LLMResponseAgent"}
  const ReceiverNames: set<string> := {"Coordinator", "IngestionAgent", "RetrievalAgent", "LLMResponseAgent", "UI"}

  /** The literal check pydantic applies to `sender` and `receiver`. */
  function ParseParticipant(s: string): (r: Option<Participant>)
    ensures r.Some? <==> s in SenderNames
    ensures r.Some? ==> ParticipantName(r.value) == s
  {
    if s == "UI" then Some(UI)
    else if s == "Coordinator" then Some(Coordinator)
    else if s == "IngestionAgent" then Some(IngestionAgent)
    else if s == "RetrievalAgent" then Some(RetrievalAgent)
    else if s == "LLMResponseAgent" then Some(LLMResponseAgent)
    else None
  }

  /** The eight message kinds. */
  datatype MessageType =
    | IngestRequest | IngestComplete | EmbedRequest | EmbedComplete
    | RetrievalRequest | RetrievalResponse | GenerateRequest | GenerateResponse

  function TypeName(t: MessageType): string
  {
    match t
    case IngestRequest => "INGEST_REQUEST"
    case IngestComplete => "INGEST_COMPLETE"
    case EmbedRequest => "EMBED_REQUEST"
    case EmbedComplete => "EMBED_COMPLETE"
    case RetrievalRequest => "RETRIEVAL_REQUEST"
    case RetrievalResponse => "RETRIEVAL_RESPONSE"
    case GenerateRequest => "GENERATE_REQUEST"
    case GenerateResponse => "GENERATE_RESPONSE"
  }

  const TypeNames: set<string> :=
    {"INGEST_REQUEST", "INGEST_COMPLETE", "EMBED_REQUEST", "EMBED_COMPLETE",
     "RETRIEVAL_REQUEST", "RETRIEVAL_RESPONSE", "GENERATE_REQUEST", "GENERATE_RESPONSE"}

  /** The literal check pydantic applies to `type`. */
  function ParseType(s: string): (r: Option<MessageType>)
    ensures r.Some? <==> s in TypeNames
    ensures r.Some? ==> TypeName(r.value) == s
  {
    if s == "INGEST_REQUEST" then Some(IngestRequest)
    else if s == "INGEST_COMPLETE" then Some(IngestComplete)
    else if s == "EMBED_REQUEST" then Some(EmbedRequest)
    else if s == "EMBED_COMPLETE" then Some(EmbedComplete)
    else if s == "RETRIEVAL_REQUEST" then Some(RetrievalRequest)
    else if s == "RETRIEVAL_RESPONSE" then Some(RetrievalResponse)
    else if s == "GENERATE_REQUEST" then Some(GenerateRequest)
    else if s == "GENERATE_RESPONSE" then Some(GenerateResponse)
    else None
  }

  /** The text form of a random UUID (`str(uuid.uuid4())`): always 36 characters. */
  type Uuid = s: string | |s| == 36 witness "00000000-0000-0000-0000-000000000000"

  /** A payload value: what a `Dict[str, Any]` holds in this pipeline. */
  datatype Value = Null | Str(s: string) | List(items: seq<Value>) | Dict(entries: map<string, Value>)

  type Payload = map<string, Value>

  /** `payload.get(key, default)`. */
  function Get(p: Payload, key: string, default: Value): Value
  {
    if key in p then p[key] else default
  }

  /** Python truthiness: None and empty strings, lists and dicts are false. */
  predicate Truthy(v: Value)
  {
    match v
    case Null => false
    case Str(s) => s != ""
    case List(xs) => xs != []
    case Dict(m) => m != map[]
  }

  /**
   * What `for x in v` visits: the items of a list or the one-character
   * strings of a string; None where Python raises (None) or where the model
   * does not follow the iteration (a dict's keys in insertion order).
   */
  function Iterate(v: Value): (r: Option<seq<Value>>)
    ensures v.List? ==> r == Some(v.items)
    ensures v.Null? ==> r == None
  {
    match v
    case List(items) => Some(items)
    case Str(s) => Some(seq(|s|, i requires 0 <= i < |s| => Str([s[i]])))
    case _ => None
  }

  /** A list of strings as a payload value. */
  function StrList(xs: seq<string>): (v: Value)
    ensures v.List? && |v.items| == |xs|
    ensures forall i :: 0 <= i < |xs| ==> v.items[i] == Str(xs[i])
  {
    List(seq(|xs|, i requires 0 <= i < |xs| => Str(xs[i])))
  }

  /** The strings of a value that is a list holding only strings. */
  function AsStrings(v: Value): (r: Option<seq<string>>)
    ensures r.Some? <==> v.List? && forall i :: 0 <= i < |v.items| ==> v.items[i].Str?
    ensures r.Some? ==> |r.value| == |v.items| && forall i :: 0 <= i < |r.value| ==> v.items[i] == Str(r.value[i])
  {
    if v.List? && forall i :: 0 <= i < |v.items| ==> v.items[i].Str? then
      Some(seq(|v.items|, i requires 0 <= i < |v.items| && v.items[i].Str? => v.items[i].s))
    else None
  }

  /** Reading back a list of strings written as a payload value gives the same strings. */
  lemma AsStringsStrList(xs: seq<string>)
    ensures AsStrings(StrList(xs)) == Some(xs)
  {
    var r := AsStrings(StrList(xs));
    assert r.Some?;
    assert r.value == xs;
  }

  /** `MCPMessage`. */
  datatype Message = Message(sender: Participant, receiver: Participant, kind: MessageType, traceId: string, payload: Payload)

  /** The fields a failed validation reports, in declaration order. */
  function InvalidFields(sender: string, receiver: string, kind: string, traceId: Option<Value>): seq<string>
  {
    (if sender in SenderNames then [] else ["sender"]) +
    (if receiver in ReceiverNames then [] else ["receiver"]) +
    (if kind in TypeNames then [] else ["type"]) +
    (if traceId.None? || traceId.value.Str? then [] else ["trace_id"])
  }

  /**
   * `MCPMessage(sender=..., receiver=..., type=..., trace_id=..., payload=...)`.
   * `traceId` is None when the caller leaves the field out; `freshId` is the
   * UUID the default factory would produce. The payload is accepted as it is.
   */
  function Build(sender: string, receiver: string, kind: string, traceId: Option<Value>, payload: Payload, freshId: Uuid)
    : (r: Result<Message, seq<string>>)
    ensures r.Success? <==>
              sender in SenderNames && receiver in ReceiverNames && kind in TypeNames &&
              (traceId.Some? ==> traceId.value.Str?)
    ensures r.Success? ==>
              ParticipantName(r.value.sender) == sender && ParticipantName(r.value.receiver) == receiver &&
              TypeName(r.value.kind) == kind && r.value.payload == payload
    ensures r.Success? && traceId.Some? ==> r.value.traceId == traceId.value.s
    ensures r.Success? && traceId.None? ==> r.value.traceId == freshId && r.value.traceId != ""
    ensures r.Failure? ==>
              && r.error != []
              && ("sender" in r.error <==> sender !in SenderNames)
              && ("receiver" in r.error <==> receiver !in ReceiverNames)
              && ("type" in r.error <==> kind !in TypeNames)
              && ("trace_id" in r.error <==> traceId.Some? && !traceId.value.Str?)
  {
    var errors := InvalidFields(sender, receiver, kind, traceId);
    if errors != [] then Failure(errors)
    else
      var trace := if traceId.Some? then traceId.value.s else freshId;
      Success(Message(ParseParticipant(sender).value, ParseParticipant(receiver).value,
                      ParseType(kind).value, trace, payload))
  }

  /** A message built in code from literal names, with no trace id: the default factory supplies `freshId`. */
  function NewMessage(sender: Participant, receiver: Participant, kind: MessageType, payload: Payload, freshId: Uuid)
    : Message
  {
    Message(sender, receiver, kind, freshId, payload)
  }

  /** Every message built in code is one that validation accepts, with the fresh trace id. */
  lemma NewMessageValidates(sender: Participant, receiver: Participant, kind: MessageType, payload: Payload, freshId: Uuid)
    ensures Build(ParticipantName(sender), ParticipantName(receiver), TypeName(kind), None, payload, freshId)
            == Success(NewMessage(sender, receiver, kind, payload, freshId))
  {
    ParticipantNameRoundTrip(sender);
    ParticipantNameRoundTrip(receiver);
    TypeNameRoundTrip(kind);
  }

  lemma ParticipantNameRoundTrip(p: Participant)
    ensures ParseParticipant(ParticipantName(p)) == Some(p)
  {
  }

  lemma TypeNameRoundTrip(t: MessageType)
    ensures ParseType(TypeName(t)) == Some(t)
  {
  }

  /** `to_dict()`: the five fields with their values. */
  function ToDict(m: Message): map<string, Value>
  {
    map["sender" := Str(ParticipantName(m.sender)),
        "receiver" := Str(ParticipantName(m.receiver)),
        "type" := Str(TypeName(m.kind)),
        "trace_id" := Str(m.traceId),
        "payload" := Dict(m.payload)]
  }

  /** Validating a field dictionary (`MCPMessage(**d)`); a missing required field is reported by name. */
  function FromDict(d: map<string, Value>, freshId: Uuid): Result<Message, seq<string>>
  {
    var missing := (if "sender" in d && d["sender"].Str? then [] else ["sender"]) +
                   (if "receiver" in d && d["receiver"].Str? then [] else ["receiver"]) +
                   (if "type" in d && d["type"].Str? then [] else ["type"]) +
                   (if "payload" in d && d["payload"].Dict? then [] else ["payload"]);
    if missing != [] then Failure(missing)
    else Build(d["sender"].s, d["receiver"].s, d["type"].s,
               if "trace_id" in d then Some(d["trace_id"]) else None, d["payload"].entries, freshId)
  }

  /** `to_dict` returns exactly the five fields, and validating them gives the message back. */
  lemma ToDictRoundTrip(m: Message, freshId: Uuid)
    ensures ToDict(m).Keys == {"sender", "receiver", "type", "trace_id", "payload"}
    ensures FromDict(ToDict(m), freshId) == Success(m)
  {
    ParticipantNameRoundTrip(m.sender);
    ParticipantNameRoundTrip(m.receiver);
    TypeNameRoundTrip(m.kind);
  }

  /** What an agent's handler does with one message: nothing, one reply, or an exception. */
  datatype Reply = Silent | Emit(msg: Message) | Raised(error: string)

  /** The field types the payload classes declare. */
  datatype FieldKind = StrField | StrListField | DictListField

  /** The payload classes. */
  datatype Schema =
    | IngestRequestPayload | EmbedRequestPayload | RetrievalRequestPayload
    | RetrievalResponsePayload | GenerateRequestPayload | GenerateResponsePayload

  function Fields(s: Schema): map<string, FieldKind>
  {
    match s
    case IngestRequestPayload => map["file_paths" := StrListField]
    case EmbedRequestPayload => map["chunks" := StrListField, "metadata" := DictListField]
    case RetrievalRequestPayload => map["query" := StrField]
    case RetrievalResponsePayload => map["query" := StrField, "retrieved_context" := StrListField]
    case GenerateRequestPayload => map["query" := StrField, "context_chunks" := StrListField]
    case GenerateResponsePayload => map["answer" := StrField, "sources" := StrListField]
  }

  /** The schema class named after a message kind; the two notifications have none. */
  function SchemaOf(t: MessageType): Option<Schema>
  {
    match t
    case IngestRequest => Some(IngestRequestPayload)
    case EmbedRequest => Some(EmbedRequestPayload)
    case RetrievalRequest => Some(RetrievalRequestPayload)
    case RetrievalResponse => Some(RetrievalResponsePayload)
    case GenerateRequest => Some(GenerateRequestPayload)
    case GenerateResponse => Some(GenerateResponsePayload)
    case IngestComplete => None
    case EmbedComplete => None
  }

  predicate HasKind(v: Value, k: FieldKind)
  {
    match k
    case StrField => v.Str?
    case StrListField => AsStrings(v).Some?
    case DictListField => v.List? && forall i :: 0 <= i < |v.items| ==> v.items[i].Dict?
  }

  /** A payload carries every field its schema declares, with the declared type. */
  predicate Conforms(p: Payload, s: Schema)
  {
    forall f :: f in Fields(s) ==> f in p && HasKind(p[f], Fields(s)[f])
  }

  /**
   * The schemas are declarations only: an INGEST_REQUEST with an empty
   * payload is a valid message although it lacks `file_paths`.
   */
  lemma PayloadNotValidated(freshId: Uuid)
    ensures Build("UI", "IngestionAgent", "INGEST_REQUEST", None, map[], freshId).Success?
    ensures !Conforms(map[], IngestRequestPayload)
  {
    assert "file_paths" in Fields(IngestRequestPayload);
  }
}
