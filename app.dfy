/**
 * The Coordinator of app.py and the upload step of its user interface.
 * The Coordinator keeps the registered agents by name and routes every
 * message: to the named agent, to itself (where it rewrites and forwards
 * two message types and turns two others into user-interface events), or
 * nowhere, with a warning. Agents answer by sending at most one message
 * back, so a whole exchange is a chain that this model follows to its end.
 */
module App {
  import opened Wrappers
  import opened Mcp
  import opened OsPath
  import Ingestion
  import Retrieval
  import Response

  /** What the environment supplies: the UUID drawn at the k-th routing step, and whether that step's save fails. */
  datatype Env = Env(ids: nat -> Uuid, saveFaults: nat -> Retrieval.SaveFault)

  /** A registered agent. */
  datatype Agent =
    | IngestionEntry(ingestion: Ingestion.IngestionAgent)
    | RetrievalEntry(retrieval: Retrieval.RetrievalAgent)
    | ResponseEntry(response: Response.LLMResponseAgent)

  /** `agent.name`, the key `register_agent` files an agent under. */
  function AgentName(a: Agent): string
  {
    match a
    case IngestionEntry(_) => "IngestionAgent"
    case RetrievalEntry(r) => r.name
    case ResponseEntry(_) => "LLMResponseAgent"
  }

  /** A call of the user-interface callback. */
  datatype UiEvent = UiEvent(kind: string, payload: Payload)

  /** How a `send` ends: normally, or with an exception raised by a handler. */
  datatype Outcome = Delivered | Failed(error: string)

  datatype RetrievalSlot = RetrievalSlot(embedder: Retrieval.Embedder, state: Retrieval.RetrievalState)

  /**
   * The whole system as values: which agents are registered (and the
   * retrieval agent's state), whether a UI callback is set, the UI events,
   * every message routed so far and the warnings printed.
   */
  datatype World = World(
    ingestion: Option<Ingestion.IngestionAgent>,
    retrieval: Option<RetrievalSlot>,
    response: Option<Response.LLMResponseAgent>,
    hasCallback: bool,
    events: seq<UiEvent>,
    routed: seq<Message>,
    warnings: seq<string>)

  function Warning(receiver: string): string
  {
    "Warning: No agent or handler registered for receiver '" + receiver + "'"
  }

  /** The GENERATE_REQUEST the Coordinator builds from a RETRIEVAL_RESPONSE payload. */
  function GeneratePayload(p: Payload): (q: Payload)
    ensures q.Keys == {"query", "context_chunks", "trace_id"}
    ensures q["query"] == Get(p, "query", Null)
    ensures q["context_chunks"] == Get(p, "retrieved_context", List([]))
    ensures q["trace_id"] == Get(p, "trace_id", Null)
  {
    map["query" := Get(p, "query", Null),
        "context_chunks" := Get(p, "retrieved_context", List([])),
        "trace_id" := Get(p, "trace_id", Null)]
  }

  /**
   * A message addressed to the Coordinator itself: EMBED_REQUEST is forwarded
   * to the retrieval agent unchanged, RETRIEVAL_RESPONSE becomes a
   * GENERATE_REQUEST for the response agent, INGEST_COMPLETE and
   * GENERATE_RESPONSE become UI events when a callback is set, the rest is dropped.
   */
  function OwnMessage(hasCallback: bool, events: seq<UiEvent>, m: Message, freshId: Uuid): (r: (seq<UiEvent>, Reply))
    requires m.receiver == Participant.Coordinator
    ensures m.kind == EmbedRequest ==>
              r == (events, Emit(NewMessage(Participant.Coordinator, Participant.RetrievalAgent, EmbedRequest, m.payload, freshId)))
    ensures m.kind == RetrievalResponse ==>
              r == (events, Emit(NewMessage(Participant.Coordinator, Participant.LLMResponseAgent, GenerateRequest,
                                            GeneratePayload(m.payload), freshId)))
    ensures m.kind == IngestComplete ==>
              r == (if hasCallback then events + [UiEvent("ingest_complete", map[])] else events, Silent)
    ensures m.kind == GenerateResponse ==>
              r == (if hasCallback then events + [UiEvent("final_answer", m.payload)] else events, Silent)
    ensures m.kind !in {EmbedRequest, RetrievalResponse, IngestComplete, GenerateResponse} ==> r == (events, Silent)
    ensures r.1.Emit? ==> Depth(r.1.msg) < Depth(m)
  {
    match m.kind
    case EmbedRequest =>
      (events, Emit(NewMessage(Participant.Coordinator, Participant.RetrievalAgent, EmbedRequest, m.payload, freshId)))
    case RetrievalResponse =>
      (events, Emit(NewMessage(Participant.Coordinator, Participant.LLMResponseAgent, GenerateRequest,
                               GeneratePayload(m.payload), freshId)))
    case IngestComplete =>
      (if hasCallback then events + [UiEvent("ingest_complete", map[])] else events, Silent)
    case GenerateResponse =>
      (if hasCallback then events + [UiEvent("final_answer", m.payload)] else events, Silent)
    case _ => (events, Silent)
  }

  /**
   * How far a message is from the end of its chain. Every message an agent
   * or the Coordinator emits in answer to a message is strictly closer, so
   * a chain started by the UI routes at most four messages.
   */
  function Depth(m: Message): nat
  {
    match m.kind
    case IngestRequest => 4
    case RetrievalRequest => 4
    case RetrievalResponse => 3
    case EmbedRequest => if m.receiver == Participant.Coordinator then 3 else 2
    case GenerateRequest => 2
    case _ => 1
  }

  /**
   * The agents' `process_message`, as the Coordinator sees them: it knows
   * nothing of an agent but that it takes a message and may answer one.
   * Only the retrieval agent has state that a message changes.
   */
  datatype Handlers = Handlers(
    ingest: (Ingestion.IngestionAgent, Message, Uuid) -> Reply,
    retrieve: (Retrieval.Embedder, Retrieval.RetrievalState, Message, Uuid, Retrieval.SaveFault)
                -> (Retrieval.RetrievalState, Reply),
    respond: (Response.LLMResponseAgent, Message, Uuid) -> Reply)

  /** The three agents of this system; they obey the chain discipline, so every chain they take part in ends. */
  function Agents(): (h: Handlers)
    ensures Shortens(h)
  {
    AgentsShorten();
    Handlers(Ingestion.IngestStep, Retrieval.RetrievalStep, Response.Respond)
  }

  /** Every answer an agent sends is closer to the end of its chain than the message it answers. */
  ghost predicate Shortens(h: Handlers)
  {
    && (forall a, m, id :: h.ingest(a, m, id).Emit? ==> Depth(h.ingest(a, m, id).msg) < Depth(m))
    && (forall e, st, m, id, f :: h.retrieve(e, st, m, id, f).1.Emit? ==> Depth(h.retrieve(e, st, m, id, f).1.msg) < Depth(m))
    && (forall a, m, id :: h.respond(a, m, id).Emit? ==> Depth(h.respond(a, m, id).msg) < Depth(m))
  }

  lemma IngestionShortens(a: Ingestion.IngestionAgent, m: Message, id: Uuid)
    ensures Ingestion.IngestStep(a, m, id).Emit? ==> Depth(Ingestion.IngestStep(a, m, id).msg) < Depth(m)
  {
  }

  lemma RetrievalShortens(e: Retrieval.Embedder, st: Retrieval.RetrievalState, m: Message, id: Uuid, f: Retrieval.SaveFault)
    ensures Retrieval.RetrievalStep(e, st, m, id, f).1.Emit? ==> Depth(Retrieval.RetrievalStep(e, st, m, id, f).1.msg) < Depth(m)
  {
  }

  lemma ResponseShortens(a: Response.LLMResponseAgent, m: Message, id: Uuid)
    ensures Response.Respond(a, m, id).Emit? ==> Depth(Response.Respond(a, m, id).msg) < Depth(m)
  {
  }

  lemma AgentsShorten()
    ensures Shortens(Handlers(Ingestion.IngestStep, Retrieval.RetrievalStep, Response.Respond))
  {
    var h := Handlers(Ingestion.IngestStep, Retrieval.RetrievalStep, Response.Respond);
    forall a, m, id ensures h.ingest(a, m, id).Emit? ==> Depth(h.ingest(a, m, id).msg) < Depth(m) {
      IngestionShortens(a, m, id);
    }
    forall e, st, m, id, f
      ensures h.retrieve(e, st, m, id, f).1.Emit? ==> Depth(h.retrieve(e, st, m, id, f).1.msg) < Depth(m)
    {
      RetrievalShortens(e, st, m, id, f);
    }
    forall a, m, id ensures h.respond(a, m, id).Emit? ==> Depth(h.respond(a, m, id).msg) < Depth(m) {
      ResponseShortens(a, m, id);
    }
  }

  /** One routing step of `send`: deliver `m` and return what its handler wants sent next. */
  function Step(h: Handlers, env: Env, w: World, m: Message): (r: (World, Reply))
    requires Shortens(h)
    ensures r.1.Emit? ==> Depth(r.1.msg) < Depth(m)
  {
    var k := |w.routed|;
    var w0 := w.(routed := w.routed + [m]);
    var unrouted := (w0.(warnings := w.warnings + [Warning(ParticipantName(m.receiver))]), Silent);
    match m.receiver
    case IngestionAgent =>
      if w.ingestion.Some? then (w0, h.ingest(w.ingestion.value, m, env.ids(k))) else unrouted
    case RetrievalAgent =>
      if w.retrieval.Some? then
        var slot := w.retrieval.value;
        var o := h.retrieve(slot.embedder, slot.state, m, env.ids(k), env.saveFaults(k));
        (w0.(retrieval := Some(slot.(state := o.0))), o.1)
      else unrouted
    case LLMResponseAgent =>
      if w.response.Some? then (w0, h.respond(w.response.value, m, env.ids(k))) else unrouted
    case Coordinator =>
      var o := OwnMessage(w.hasCallback, w.events, m, env.ids(k));
      (w0.(events := o.0), o.1)
    case UI => unrouted
  }

  /**
   * `send`, followed to the end of the chain: route `m`, then whatever its
   * handler sends back, until a handler sends nothing or raises; an
   * exception ends the chain where it is raised.
   */
  function Dispatch(h: Handlers, env: Env, w: World, m: Message): (r: (World, Outcome))
    requires Shortens(h)
    decreases Depth(m)
  {
    var s := Step(h, env, w, m);
    if s.1.Emit? then Dispatch(h, env, s.0, s.1.msg)
    else (s.0, if s.1.Raised? then Failed(s.1.error) else Delivered)
  }

  /** A step that sends nothing further ends the chain, with an exception as its failure. */
  lemma DispatchEnds(h: Handlers, env: Env, w: World, m: Message)
    requires Shortens(h) && !Step(h, env, w, m).1.Emit?
    ensures var s := Step(h, env, w, m);
            Dispatch(h, env, w, m) == (s.0, if s.1.Raised? then Failed(s.1.error) else Delivered)
  {
  }

  /** A step that forwards a message hands the rest of the chain to that message. */
  lemma DispatchThrough(h: Handlers, env: Env, w: World, m: Message, w': World, next: Message)
    requires Shortens(h) && Step(h, env, w, m) == (w', Emit(next))
    ensures Dispatch(h, env, w, m) == Dispatch(h, env, w', next)
  {
  }

  /**
   * One step logs the message and changes neither the registered agents nor
   * the callback; only the retrieval agent's state can change, and only when
   * the message is for it.
   */
  lemma StepFrame(h: Handlers, env: Env, w: World, m: Message)
    requires Shortens(h)
    ensures Step(h, env, w, m).0.routed == w.routed + [m]
    ensures Step(h, env, w, m).0.ingestion == w.ingestion && Step(h, env, w, m).0.response == w.response
    ensures Step(h, env, w, m).0.hasCallback == w.hasCallback
    ensures Step(h, env, w, m).0.retrieval.Some? <==> w.retrieval.Some?
    ensures w.retrieval.Some? ==> Step(h, env, w, m).0.retrieval.value.embedder == w.retrieval.value.embedder
    ensures m.receiver != Participant.RetrievalAgent ==> Step(h, env, w, m).0.retrieval == w.retrieval
  {
  }

  /** Every message of a chain is logged in order after what was routed before, `m` first and at most `Depth(m)` of them. */
  lemma {:induction false} DispatchLog(h: Handlers, env: Env, w: World, m: Message)
    requires Shortens(h)
    decreases Depth(m)
    ensures |w.routed| < |Dispatch(h, env, w, m).0.routed| <= |w.routed| + Depth(m)
    ensures Dispatch(h, env, w, m).0.routed[..|w.routed| + 1] == w.routed + [m]
  {
    var s := Step(h, env, w, m);
    StepFrame(h, env, w, m);
    if s.1.Emit? {
      DispatchThrough(h, env, w, m, s.0, s.1.msg);
      DispatchLog(h, env, s.0, s.1.msg);
      LogPrefix(Dispatch(h, env, s.0, s.1.msg).0.routed, w.routed + [m], s.1.msg);
    } else {
      DispatchEnds(h, env, w, m);
    }
  }

  /** The log of a whole chain starts with the log after its first step. */
  lemma LogPrefix(log: seq<Message>, before: seq<Message>, next: Message)
    requires |before| < |log| && log[..|before| + 1] == before + [next]
    ensures log[..|before|] == before
  {
    assert log[..|before|] == log[..|before| + 1][..|before|];
  }

  /** A chain never changes which agents are registered, nor whether a callback is set. */
  lemma {:induction false} DispatchKeepsRegistrations(h: Handlers, env: Env, w: World, m: Message)
    requires Shortens(h)
    decreases Depth(m)
    ensures Dispatch(h, env, w, m).0.ingestion == w.ingestion && Dispatch(h, env, w, m).0.response == w.response
    ensures Dispatch(h, env, w, m).0.retrieval.Some? <==> w.retrieval.Some?
    ensures Dispatch(h, env, w, m).0.hasCallback == w.hasCallback
  {
    var s := Step(h, env, w, m);
    StepFrame(h, env, w, m);
    if s.1.Emit? {
      DispatchKeepsRegistrations(h, env, s.0, s.1.msg);
    }
  }

  /** `Step`, one receiver at a time: a registered agent gets the message and answers with its handler. */
  lemma StepToIngestion(h: Handlers, env: Env, w: World, m: Message)
    requires Shortens(h) && m.receiver == Participant.IngestionAgent && w.ingestion.Some?
    ensures Step(h, env, w, m) == (w.(routed := w.routed + [m]), h.ingest(w.ingestion.value, m, env.ids(|w.routed|)))
  {
  }

  lemma StepToRetrieval(h: Handlers, env: Env, w: World, m: Message)
    requires Shortens(h) && m.receiver == Participant.RetrievalAgent && w.retrieval.Some?
    ensures var o := h.retrieve(w.retrieval.value.embedder, w.retrieval.value.state, m,
                                env.ids(|w.routed|), env.saveFaults(|w.routed|));
            Step(h, env, w, m) == (w.(routed := w.routed + [m], retrieval := Some(w.retrieval.value.(state := o.0))), o.1)
  {
  }

  lemma StepToResponse(h: Handlers, env: Env, w: World, m: Message)
    requires Shortens(h) && m.receiver == Participant.LLMResponseAgent && w.response.Some?
    ensures Step(h, env, w, m) == (w.(routed := w.routed + [m]), h.respond(w.response.value, m, env.ids(|w.routed|)))
  {
  }

  /** A message for the Coordinator is handled by its own table; no agent is consulted. */
  lemma StepToCoordinator(h: Handlers, env: Env, w: World, m: Message)
    requires Shortens(h) && m.receiver == Participant.Coordinator
    ensures var o := OwnMessage(w.hasCallback, w.events, m, env.ids(|w.routed|));
            Step(h, env, w, m) == (w.(routed := w.routed + [m], events := o.0), o.1)
  {
  }

  /** A receiver with no registered agent gets nothing; one warning is printed, and nothing raises. */
  lemma StepUnrouted(h: Handlers, env: Env, w: World, m: Message)
    requires Shortens(h)
    requires || m.receiver == Participant.UI
             || (m.receiver == Participant.IngestionAgent && w.ingestion.None?)
             || (m.receiver == Participant.RetrievalAgent && w.retrieval.None?)
             || (m.receiver == Participant.LLMResponseAgent && w.response.None?)
    ensures Step(h, env, w, m) ==
              (w.(routed := w.routed + [m], warnings := w.warnings + [Warning(ParticipantName(m.receiver))]), Silent)
  {
  }

  /** A message for a receiver nobody handles changes nothing but the log and adds one warning. */
  lemma UnhandledReceiverWarns(h: Handlers, env: Env, w: World, m: Message)
    requires Shortens(h) && m.receiver == Participant.UI
    ensures Dispatch(h, env, w, m) ==
              (w.(routed := w.routed + [m], warnings := w.warnings + [Warning("UI")]), Delivered)
  {
  }

  /** A message for any of the three agents when that agent is not registered is dropped the same way. */
  lemma UnregisteredAgentWarns(h: Handlers, env: Env, w: World, m: Message)
    requires Shortens(h)
    requires || (m.receiver == Participant.IngestionAgent && w.ingestion.None?)
             || (m.receiver == Participant.RetrievalAgent && w.retrieval.None?)
             || (m.receiver == Participant.LLMResponseAgent && w.response.None?)
    ensures Dispatch(h, env, w, m) ==
              (w.(routed := w.routed + [m], warnings := w.warnings + [Warning(ParticipantName(m.receiver))]), Delivered)
  {
    StepUnrouted(h, env, w, m);
    DispatchEnds(h, env, w, m);
  }

  /** Without a callback the terminal notifications change nothing but the log. */
  lemma NotificationsNeedCallback(h: Handlers, env: Env, w: World, m: Message)
    requires Shortens(h) && !w.hasCallback && m.receiver == Participant.Coordinator
    requires m.kind == IngestComplete || m.kind == GenerateResponse
    ensures Dispatch(h, env, w, m) == (w.(routed := w.routed + [m]), Delivered)
  {
  }

  /** With a callback set, each terminal notification becomes exactly one UI event and ends the chain. */
  lemma CallbackHop(h: Handlers, env: Env, w: World, m: Message)
    requires Shortens(h) && w.hasCallback && m.receiver == Participant.Coordinator
    requires m.kind == IngestComplete || m.kind == GenerateResponse
    ensures Dispatch(h, env, w, m) ==
              (w.(routed := w.routed + [m],
                  events := w.events + [if m.kind == IngestComplete then UiEvent("ingest_complete", map[])
                                        else UiEvent("final_answer", m.payload)]),
               Delivered)
  {
  }

  /** A GENERATE_REQUEST carrying a list of strings is answered, and the answer reaches the UI. */
  lemma AnswerHop(h: Handlers, env: Env, w: World, m: Message, chunks: seq<string>)
    requires Shortens(h) && h.respond == Response.Respond
    requires w.response.Some? && w.hasCallback
    requires m.receiver == Participant.LLMResponseAgent && m.kind == GenerateRequest
    requires Response.ContextValue(m.payload) == StrList(chunks)
    ensures var a := Response.Respond(w.response.value, m, env.ids(|w.routed|));
            && a.Emit?
            && Dispatch(h, env, w, m) ==
                 (w.(routed := w.routed + [m, a.msg], events := w.events + [UiEvent("final_answer", a.msg.payload)]), Delivered)
  {
    var a := Response.Respond(w.response.value, m, env.ids(|w.routed|));
    Response.StringContextAnswered(w.response.value, m, env.ids(|w.routed|), chunks);
    StepToResponse(h, env, w, m);
    var w1 := w.(routed := w.routed + [m]);
    DispatchThrough(h, env, w, m, w1, a.msg);
    CallbackHop(h, env, w1, a.msg);
    assert w1.routed + [a.msg] == w.routed + [m, a.msg];
  }

  /** A RETRIEVAL_RESPONSE is rewritten into a GENERATE_REQUEST, whose answer reaches the UI. */
  lemma GenerateHop(h: Handlers, env: Env, w: World, m: Message, chunks: seq<string>)
    requires Shortens(h) && h.respond == Response.Respond
    requires w.response.Some? && w.hasCallback
    requires m.receiver == Participant.Coordinator && m.kind == RetrievalResponse
    requires "retrieved_context" in m.payload && m.payload["retrieved_context"] == StrList(chunks)
    ensures var g := NewMessage(Participant.Coordinator, Participant.LLMResponseAgent, GenerateRequest,
                                GeneratePayload(m.payload), env.ids(|w.routed|));
            var a := Response.Respond(w.response.value, g, env.ids(|w.routed| + 1));
            && a.Emit?
            && Dispatch(h, env, w, m) ==
                 (w.(routed := w.routed + [m, g, a.msg], events := w.events + [UiEvent("final_answer", a.msg.payload)]), Delivered)
  {
    var g := NewMessage(Participant.Coordinator, Participant.LLMResponseAgent, GenerateRequest,
                        GeneratePayload(m.payload), env.ids(|w.routed|));
    StepToCoordinator(h, env, w, m);
    var w1 := w.(routed := w.routed + [m]);
    DispatchThrough(h, env, w, m, w1, g);
    AnswerHop(h, env, w1, g, chunks);
    var a := Response.Respond(w.response.value, g, env.ids(|w.routed| + 1));
    assert w1.routed + [g, a.msg] == w.routed + [m, g, a.msg];
  }

  /** The message the chat input sends for a question. */
  function QueryMessage(prompt: string, freshId: Uuid): Message
  {
    NewMessage(Participant.UI, Participant.RetrievalAgent, RetrievalRequest, map["query" := Str(prompt)], freshId)
  }

  /** A message the retrieval agent answers by raising: the chain stops there with that error. */
  lemma QueryFailHop(h: Handlers, env: Env, w: World, m: Message, err: string)
    requires Shortens(h) && w.retrieval.Some? && m.receiver == Participant.RetrievalAgent
    requires RetrievalOutcome(h, env, w, m) == (w.retrieval.value.state, Raised(err))
    ensures Dispatch(h, env, w, m) == (w.(routed := w.routed + [m]), Failed(err))
  {
    StepToRetrieval(h, env, w, m);
  }

  /**
   * A message the retrieval agent answers, without changing its state, with
   * a RETRIEVAL_RESPONSE carrying a list of texts: the answer generated from
   * those texts reaches the UI.
   */
  lemma QueryHop(h: Handlers, env: Env, w: World, m: Message, q: Message, chunks: seq<string>)
    requires Shortens(h) && h.respond == Response.Respond
    requires w.retrieval.Some? && w.response.Some? && w.hasCallback
    requires m.receiver == Participant.RetrievalAgent
    requires RetrievalOutcome(h, env, w, m) == (w.retrieval.value.state, Emit(q))
    requires q.receiver == Participant.Coordinator && q.kind == RetrievalResponse
    requires "retrieved_context" in q.payload && q.payload["retrieved_context"] == StrList(chunks)
    ensures var g := NewMessage(Participant.Coordinator, Participant.LLMResponseAgent, GenerateRequest,
                                GeneratePayload(q.payload), env.ids(|w.routed| + 1));
            var a := Response.Respond(w.response.value, g, env.ids(|w.routed| + 2));
            && a.Emit?
            && Dispatch(h, env, w, m) ==
                 (w.(routed := w.routed + [m, q, g, a.msg], events := w.events + [UiEvent("final_answer", a.msg.payload)]), Delivered)
  {
    StepToRetrieval(h, env, w, m);
    var w1 := w.(routed := w.routed + [m]);
    assert w.(routed := w.routed + [m], retrieval := Some(w.retrieval.value.(state := w.retrieval.value.state))) == w1;
    DispatchThrough(h, env, w, m, w1, q);
    GenerateHop(h, env, w1, q, chunks);
    var g := NewMessage(Participant.Coordinator, Participant.LLMResponseAgent, GenerateRequest,
                        GeneratePayload(q.payload), env.ids(|w.routed| + 1));
    var a := Response.Respond(w.response.value, g, env.ids(|w.routed| + 2));
    assert w1.routed + [q, g, a.msg] == w.routed + [m, q, g, a.msg];
  }

  /**
   * A question, followed end to end: the retrieval agent's state never
   * changes; when retrieval fails the chain stops there with the error and
   * no UI event; otherwise four messages are routed and exactly one
   * `final_answer` event reaches the UI, carrying the question's own trace id
   * and, as sources, either the retrieved texts or nothing.
   */
  lemma QueryChain(h: Handlers, env: Env, w: World, prompt: string, id: Uuid)
    requires Shortens(h) && h.retrieve == Retrieval.RetrievalStep && h.respond == Response.Respond
    requires w.retrieval.Some? && w.response.Some? && w.hasCallback
    ensures Dispatch(h, env, w, QueryMessage(prompt, id)).0.retrieval == w.retrieval
    ensures Dispatch(h, env, w, QueryMessage(prompt, id)).0.warnings == w.warnings
    ensures var ctx := Retrieval.RetrievedContext(w.retrieval.value.embedder, w.retrieval.value.state, Str(prompt));
            ctx.Failure? ==> Dispatch(h, env, w, QueryMessage(prompt, id)) ==
                               (w.(routed := w.routed + [QueryMessage(prompt, id)]), Failed(ctx.error))
    ensures var ctx := Retrieval.RetrievedContext(w.retrieval.value.embedder, w.retrieval.value.state, Str(prompt));
            var r := Dispatch(h, env, w, QueryMessage(prompt, id));
            ctx.Success? ==>
              && r.1 == Delivered
              && |r.0.routed| == |w.routed| + 4
              && |r.0.events| == |w.events| + 1 && r.0.events[..|w.events|] == w.events
              && r.0.events[|w.events|].kind == "final_answer"
              && r.0.events[|w.events|].payload.Keys == {"answer", "sources", "trace_id"}
              && r.0.events[|w.events|].payload["trace_id"] == Str(id)
              && r.0.events[|w.events|].payload["answer"].Str?
              && r.0.events[|w.events|].payload["sources"] in {StrList(ctx.value), List([])}
  {
    var m := QueryMessage(prompt, id);
    var slot := w.retrieval.value;
    var k := |w.routed|;
    Retrieval.QueryOutcome(slot.embedder, slot.state, m, env.ids(k), env.saveFaults(k));
    var ctx := Retrieval.RetrievedContext(slot.embedder, slot.state, Str(prompt));
    if ctx.Success? {
      var q := Message(Participant.RetrievalAgent, Participant.Coordinator, RetrievalResponse, id,
                       map["retrieved_context" := StrList(ctx.value), "query" := Str(prompt), "trace_id" := Str(id)]);
      QueryHop(h, env, w, m, q, ctx.value);
      var g := NewMessage(Participant.Coordinator, Participant.LLMResponseAgent, GenerateRequest,
                          GeneratePayload(q.payload), env.ids(k + 1));
      Response.StringContextAnswered(w.response.value, g, env.ids(k + 2), ctx.value);
    } else {
      QueryFailHop(h, env, w, m, ctx.error);
    }
  }


  /** What the retrieval handler does with `m` when it is the next message routed in `w`. */
  function RetrievalOutcome(h: Handlers, env: Env, w: World, m: Message): (Retrieval.RetrievalState, Reply)
    requires w.retrieval.Some?
  {
    h.retrieve(w.retrieval.value.embedder, w.retrieval.value.state, m, env.ids(|w.routed|), env.saveFaults(|w.routed|))
  }

  /**
   * A message the retrieval agent answers with INGEST_COMPLETE: its new state
   * is kept, and INGEST_COMPLETE reaches the UI.
   */
  lemma EmbedHop(h: Handlers, env: Env, w: World, m: Message)
    requires Shortens(h) && w.retrieval.Some? && w.hasCallback
    requires m.receiver == Participant.RetrievalAgent
    requires var o := RetrievalOutcome(h, env, w, m);
             o.1.Emit? && o.1.msg.receiver == Participant.Coordinator && o.1.msg.kind == IngestComplete
    ensures var o := RetrievalOutcome(h, env, w, m);
            Dispatch(h, env, w, m) ==
              (w.(routed := w.routed + [m, o.1.msg], retrieval := Some(w.retrieval.value.(state := o.0)),
                  events := w.events + [UiEvent("ingest_complete", map[])]),
               Delivered)
  {
    var o := RetrievalOutcome(h, env, w, m);
    StepToRetrieval(h, env, w, m);
    var w1 := w.(routed := w.routed + [m], retrieval := Some(w.retrieval.value.(state := o.0)));
    DispatchThrough(h, env, w, m, w1, o.1.msg);
    CallbackHop(h, env, w1, o.1.msg);
    assert w1.routed + [o.1.msg] == w.routed + [m, o.1.msg];
  }

  /**
   * The Coordinator forwards an EMBED_REQUEST to the retrieval agent with its
   * payload unchanged; when the agent answers INGEST_COMPLETE, that reaches the UI.
   */
  lemma ForwardEmbedHop(h: Handlers, env: Env, w: World, m: Message)
    requires Shortens(h) && w.retrieval.Some? && w.hasCallback
    requires m.receiver == Participant.Coordinator && m.kind == EmbedRequest
    requires var f := NewMessage(Participant.Coordinator, Participant.RetrievalAgent, EmbedRequest, m.payload, env.ids(|w.routed|));
             var o := RetrievalOutcome(h, env, w.(routed := w.routed + [m]), f);
             o.1.Emit? && o.1.msg.receiver == Participant.Coordinator && o.1.msg.kind == IngestComplete
    ensures var f := NewMessage(Participant.Coordinator, Participant.RetrievalAgent, EmbedRequest, m.payload, env.ids(|w.routed|));
            var o := RetrievalOutcome(h, env, w.(routed := w.routed + [m]), f);
            Dispatch(h, env, w, m) ==
              (w.(routed := w.routed + [m, f, o.1.msg], retrieval := Some(w.retrieval.value.(state := o.0)),
                  events := w.events + [UiEvent("ingest_complete", map[])]),
               Delivered)
  {
    var f := NewMessage(Participant.Coordinator, Participant.RetrievalAgent, EmbedRequest, m.payload, env.ids(|w.routed|));
    StepToCoordinator(h, env, w, m);
    var w1 := w.(routed := w.routed + [m]);
    DispatchThrough(h, env, w, m, w1, f);
    EmbedHop(h, env, w1, f);
    var o := RetrievalOutcome(h, env, w1, f);
    assert w1.routed + [f, o.1.msg] == w.routed + [m, f, o.1.msg];
  }

  /** The message the upload step sends for the files it wrote. */
  function IngestMessage(filePaths: seq<string>, freshId: Uuid): Message
  {
    NewMessage(Participant.UI, Participant.IngestionAgent, IngestRequest, map["file_paths" := StrList(filePaths)], freshId)
  }

  /** A message the ingestion agent answers with nothing: the chain ends after routing it. */
  lemma SilentHop(h: Handlers, env: Env, w: World, m: Message)
    requires Shortens(h) && w.ingestion.Some? && m.receiver == Participant.IngestionAgent
    requires h.ingest(w.ingestion.value, m, env.ids(|w.routed|)) == Silent
    ensures Dispatch(h, env, w, m) == (w.(routed := w.routed + [m]), Delivered)
  {
    StepToIngestion(h, env, w, m);
  }

  /**
   * A message the ingestion agent answers with an EMBED_REQUEST that the
   * retrieval agent, once the Coordinator has forwarded it, answers with
   * INGEST_COMPLETE: the retrieval agent keeps its new state and the UI is told.
   */
  lemma IngestHop(h: Handlers, env: Env, w: World, m: Message)
    requires Shortens(h) && w.ingestion.Some? && w.retrieval.Some? && w.hasCallback
    requires m.receiver == Participant.IngestionAgent
    requires var e := h.ingest(w.ingestion.value, m, env.ids(|w.routed|));
             && e.Emit? && e.msg.receiver == Participant.Coordinator && e.msg.kind == EmbedRequest
             && var f := NewMessage(Participant.Coordinator, Participant.RetrievalAgent, EmbedRequest, e.msg.payload, env.ids(|w.routed| + 1));
                var o := RetrievalOutcome(h, env, w.(routed := w.routed + [m, e.msg]), f);
                o.1.Emit? && o.1.msg.receiver == Participant.Coordinator && o.1.msg.kind == IngestComplete
    ensures var e := h.ingest(w.ingestion.value, m, env.ids(|w.routed|));
            var f := NewMessage(Participant.Coordinator, Participant.RetrievalAgent, EmbedRequest, e.msg.payload, env.ids(|w.routed| + 1));
            var o := RetrievalOutcome(h, env, w.(routed := w.routed + [m, e.msg]), f);
            Dispatch(h, env, w, m) ==
              (w.(routed := w.routed + [m, e.msg, f, o.1.msg], retrieval := Some(w.retrieval.value.(state := o.0)),
                  events := w.events + [UiEvent("ingest_complete", map[])]),
               Delivered)
  {
    var e := h.ingest(w.ingestion.value, m, env.ids(|w.routed|));
    StepToIngestion(h, env, w, m);
    var w1 := w.(routed := w.routed + [m]);
    DispatchThrough(h, env, w, m, w1, e.msg);
    assert w1.(routed := w1.routed + [e.msg]) == w.(routed := w.routed + [m, e.msg]);
    ForwardEmbedHop(h, env, w1, e.msg);
    var f := NewMessage(Participant.Coordinator, Participant.RetrievalAgent, EmbedRequest, e.msg.payload, env.ids(|w.routed| + 1));
    var o := RetrievalOutcome(h, env, w.(routed := w.routed + [m, e.msg]), f);
    assert w1.routed + [e.msg, f, o.1.msg] == w.routed + [m, e.msg, f, o.1.msg];
  }

  /**
   * An upload batch, followed end to end. When no file yields a chunk only
   * the request is routed. Otherwise, when the embeddings fit the index,
   * four messages are routed, the retrieval agent keeps every chunk paired
   * with its source tag (none is dropped by `zip`) and every embedding, its
   * invariant is kept, and exactly one `ingest_complete` event reaches the UI.
   */
  lemma IngestChain(h: Handlers, env: Env, w: World, filePaths: seq<string>, id: Uuid)
    requires Shortens(h) && h.ingest == Ingestion.IngestStep && h.retrieve == Retrieval.RetrievalStep
    requires w.ingestion.Some? && w.retrieval.Some? && w.hasCallback
    ensures Ingestion.Aggregate(w.ingestion.value, StrList(filePaths).items).0 == [] ==>
              Dispatch(h, env, w, IngestMessage(filePaths, id)) == (w.(routed := w.routed + [IngestMessage(filePaths, id)]), Delivered)
    ensures var agg := Ingestion.Aggregate(w.ingestion.value, StrList(filePaths).items);
            var slot := w.retrieval.value;
            var r := Dispatch(h, env, w, IngestMessage(filePaths, id));
            agg.0 != [] && Retrieval.FitsIndex(slot.embedder, slot.state, agg.0) ==>
              && r.1 == Delivered
              && |r.0.routed| == |w.routed| + 4
              && r.0.events == w.events + [UiEvent("ingest_complete", map[])]
              && r.0.retrieval.Some? && r.0.retrieval.value.embedder == slot.embedder
              && |Retrieval.Zip(agg.0, agg.1)| == |agg.0|
              && r.0.retrieval.value.state.records == slot.state.records + Retrieval.Zip(agg.0, agg.1)
              && r.0.retrieval.value.state.index.Some?
              && r.0.retrieval.value.state.index.value.vectors ==
                   (if slot.state.index.Some? then slot.state.index.value.vectors else []) + Retrieval.EncodeAll(slot.embedder, agg.0)
              && (Retrieval.Consistent(slot.state) ==> Retrieval.Consistent(r.0.retrieval.value.state))
  {
    var m := IngestMessage(filePaths, id);
    var k := |w.routed|;
    var agg := Ingestion.Aggregate(w.ingestion.value, StrList(filePaths).items);
    var slot := w.retrieval.value;
    var e := Ingestion.IngestStep(w.ingestion.value, m, env.ids(k));
    if agg.0 == [] {
      SilentHop(h, env, w, m);
    } else if Retrieval.FitsIndex(slot.embedder, slot.state, agg.0) {
      var f := NewMessage(Participant.Coordinator, Participant.RetrievalAgent, EmbedRequest, e.msg.payload, env.ids(k + 1));
      Retrieval.EmbedAppends(slot.embedder, slot.state, f, env.ids(k + 2), env.saveFaults(k + 2), agg.0, agg.1);
      IngestHop(h, env, w, m);
      if Retrieval.Consistent(slot.state) {
        Retrieval.EmbedKeepsConsistentIff(slot.embedder, slot.state, f, env.ids(k + 2), env.saveFaults(k + 2), agg.0, agg.1);
      }
    }
  }


  /** The Coordinator object. */
  class Coordinator {
    var agents: map<string, Agent>
    var hasCallback: bool
    var events: seq<UiEvent>
    var routed: seq<Message>
    var warnings: seq<string>
    const env: Env

    /** Every agent is filed under its own name. */
    predicate Valid()
      reads this
    {
      forall name :: name in agents ==> name == AgentName(agents[name])
    }

    /** The retrieval agent objects reachable from the registry: the only objects `send` changes besides this one. */
    function RetrievalObjects(): set<Retrieval.RetrievalAgent>
      reads this
    {
      set name | name in agents && agents[name].RetrievalEntry? :: agents[name].retrieval
    }

    /** The object graph seen as a `World`. */
    function View(): World
      reads this, RetrievalObjects()
    {
      World(
        if "IngestionAgent" in agents && agents["IngestionAgent"].IngestionEntry? then Some(agents["IngestionAgent"].ingestion) else None,
        if "RetrievalAgent" in agents && agents["RetrievalAgent"].RetrievalEntry? then
          Some(RetrievalSlot(agents["RetrievalAgent"].retrieval.embedder, agents["RetrievalAgent"].retrieval.State()))
        else None,
        if "LLMResponseAgent" in agents && agents["LLMResponseAgent"].ResponseEntry? then Some(agents["LLMResponseAgent"].response) else None,
        hasCallback, events, routed, warnings)
    }

    constructor (env: Env)
      ensures Valid() && this.env == env
      ensures agents == map[] && !hasCallback && events == [] && routed == [] && warnings == []
    {
      agents := map[];
      hasCallback := false;
      events := [];
      routed := [];
      warnings := [];
      this.env := env;
    }

    /** `register_agent`: a later agent with the same name replaces the earlier one. */
    method RegisterAgent(a: Agent)
      requires Valid()
      modifies this
      ensures Valid()
      ensures agents == old(agents)[AgentName(a) := a]
      ensures hasCallback == old(hasCallback) && events == old(events) && routed == old(routed) && warnings == old(warnings)
    {
      agents := agents[AgentName(a) := a];
    }

    /** `set_ui_callback`, with the callback reduced to whether it is set. */
    method SetUiCallback(present: bool)
      modifies this
      ensures hasCallback == present
      ensures agents == old(agents) && events == old(events) && routed == old(routed) && warnings == old(warnings)
    {
      hasCallback := present;
    }

    /** The Coordinator's own handling of a message addressed to it. */
    method HandleOwn(m: Message, freshId: Uuid) returns (reply: Reply)
      requires m.receiver == Participant.Coordinator
      modifies this
      ensures (events, reply) == OwnMessage(old(hasCallback), old(events), m, freshId)
      ensures agents == old(agents) && hasCallback == old(hasCallback) && routed == old(routed) && warnings == old(warnings)
    {
      reply := Silent;
      if m.kind == EmbedRequest {
        reply := Emit(NewMessage(Participant.Coordinator, Participant.RetrievalAgent, EmbedRequest, m.payload, freshId));
      } else if m.kind == RetrievalResponse {
        reply := Emit(NewMessage(Participant.Coordinator, Participant.LLMResponseAgent, GenerateRequest,
                                 GeneratePayload(m.payload), freshId));
      } else if m.kind == IngestComplete {
        if hasCallback {
          events := events + [UiEvent("ingest_complete", map[])];
        }
      } else if m.kind == GenerateResponse {
        if hasCallback {
          events := events + [UiEvent("final_answer", m.payload)];
        }
      }
    }

    /** `self.agents[receiver].process_message(message)` for the ingestion agent. */
    method DeliverToIngestion(m: Message) returns (reply: Reply)
      requires Valid() && "IngestionAgent" in agents
      modifies this
      ensures Valid() && agents == old(agents) && hasCallback == old(hasCallback)
      ensures View() == old(View()).(routed := old(routed) + [m])
      ensures reply == Ingestion.IngestStep(old(View()).ingestion.value, m, env.ids(|old(routed)|))
    {
      var k := |routed|;
      routed := routed + [m];
      reply := Ingestion.ProcessMessage(agents["IngestionAgent"].ingestion, m, env.ids(k));
    }

    /** The same for the retrieval agent, whose state the message may change. */
    method DeliverToRetrieval(m: Message) returns (reply: Reply)
      requires Valid() && "RetrievalAgent" in agents
      modifies this, RetrievalObjects()
      ensures Valid() && agents == old(agents) && hasCallback == old(hasCallback)
      ensures var w := old(View());
              var o := Retrieval.RetrievalStep(w.retrieval.value.embedder, w.retrieval.value.state, m,
                                               env.ids(|w.routed|), env.saveFaults(|w.routed|));
              (View(), reply) == (w.(routed := w.routed + [m], retrieval := Some(w.retrieval.value.(state := o.0))), o.1)
    {
      var k := |routed|;
      routed := routed + [m];
      var r := agents["RetrievalAgent"].retrieval;
      reply := r.ProcessMessage(m, env.ids(k), env.saveFaults(k));
    }

    /** The same for the response agent. */
    method DeliverToResponse(m: Message) returns (reply: Reply)
      requires Valid() && "LLMResponseAgent" in agents
      modifies this
      ensures Valid() && agents == old(agents) && hasCallback == old(hasCallback)
      ensures View() == old(View()).(routed := old(routed) + [m])
      ensures reply == Response.Respond(old(View()).response.value, m, env.ids(|old(routed)|))
    {
      var k := |routed|;
      routed := routed + [m];
      reply := Response.Respond(agents["LLMResponseAgent"].response, m, env.ids(k));
    }

    /** A message for the Coordinator itself. */
    method DeliverToSelf(m: Message) returns (reply: Reply)
      requires Valid() && m.receiver == Participant.Coordinator
      modifies this
      ensures Valid() && agents == old(agents) && hasCallback == old(hasCallback)
      ensures var o := OwnMessage(old(hasCallback), old(events), m, env.ids(|old(routed)|));
              (View(), reply) == (old(View()).(routed := old(routed) + [m], events := o.0), o.1)
    {
      var k := |routed|;
      routed := routed + [m];
      reply := HandleOwn(m, env.ids(k));
    }

    /** A message nobody is registered for: only the warning is printed. */
    method DeliverNowhere(m: Message) returns (reply: Reply)
      requires Valid()
      modifies this
      ensures Valid() && agents == old(agents) && hasCallback == old(hasCallback)
      ensures View() == old(View()).(routed := old(routed) + [m], warnings := old(warnings) + [Warning(ParticipantName(m.receiver))])
      ensures reply == Silent
    {
      routed := routed + [m];
      warnings := warnings + [Warning(ParticipantName(m.receiver))];
      reply := Silent;
    }

    /** A message for a registered agent goes to exactly that agent's `process_message`. */
    method DeliverToAgent(m: Message) returns (reply: Reply)
      requires Valid() && ParticipantName(m.receiver) in agents
      modifies this, RetrievalObjects()
      ensures Valid() && agents == old(agents) && hasCallback == old(hasCallback)
      ensures (View(), reply) == Step(Agents(), env, old(View()), m)
    {
      ghost var w := View();
      if m.receiver == Participant.IngestionAgent {
        StepToIngestion(Agents(), env, w, m);
        reply := DeliverToIngestion(m);
      } else if m.receiver == Participant.RetrievalAgent {
        StepToRetrieval(Agents(), env, w, m);
        reply := DeliverToRetrieval(m);
      } else {
        StepToResponse(Agents(), env, w, m);
        reply := DeliverToResponse(m);
      }
    }

    /** One routing step of `send`: log `m` and hand it to its receiver. */
    method Deliver(m: Message) returns (reply: Reply)
      requires Valid()
      modifies this, RetrievalObjects()
      ensures Valid() && agents == old(agents) && hasCallback == old(hasCallback)
      ensures (View(), reply) == Step(Agents(), env, old(View()), m)
    {
      if ParticipantName(m.receiver) in agents {
        reply := DeliverToAgent(m);
      } else if m.receiver == Participant.Coordinator {
        StepToCoordinator(Agents(), env, View(), m);
        reply := DeliverToSelf(m);
      } else {
        StepUnrouted(Agents(), env, View(), m);
        reply := DeliverNowhere(m);
      }
    }

    /** `send`: route `m`, then send whatever its handler sends, until the chain ends or raises. */
    method Send(m: Message) returns (outcome: Outcome)
      requires Valid()
      modifies this, RetrievalObjects()
      decreases Depth(m)
      ensures Valid() && agents == old(agents) && hasCallback == old(hasCallback)
      ensures (View(), outcome) == Dispatch(Agents(), env, old(View()), m)
    {
      var reply := Deliver(m);
      if reply.Emit? {
        outcome := Send(reply.msg);
      } else if reply.Raised? {
        outcome := Failed(reply.error);
      } else {
        outcome := Delivered;
      }
    }
  }

  /** The directory uploads are written to. */
  const UploadDir: string := "uploads"

  /** `os.path.join(UPLOAD_DIR, uploaded_file.name)`. */
  function UploadPath(name: string): string
  {
    JoinPath(UploadDir, name)
  }

  /** The paths a batch of uploads is written to. */
  ghost function PathsOf(names: seq<string>): set<string>
  {
    set i | 0 <= i < |names| :: UploadPath(names[i])
  }

  lemma PathsOfSnoc(names: seq<string>, name: string)
    ensures PathsOf(names + [name]) == PathsOf(names) + {UploadPath(name)}
  {
    var s := names + [name];
    forall p | p in PathsOf(s) ensures p in PathsOf(names) + {UploadPath(name)} {
      var i :| 0 <= i < |s| && p == UploadPath(s[i]);
      if i < |names| {
        assert s[i] == names[i];
      }
    }
    forall p | p in PathsOf(names) ensures p in PathsOf(s) {
      var i :| 0 <= i < |names| && p == UploadPath(names[i]);
      assert s[i] == names[i];
    }
    assert UploadPath(s[|names|]) in PathsOf(s);
  }

  /**
   * The duplicate filter over a batch of uploaded names, given the paths
   * that exist beforehand: the paths written (in upload order), the names
   * skipped, and the paths that exist afterwards. Every upload is either
   * written or skipped; afterwards every path of the batch exists; the
   * written paths are exactly the batch's paths that did not exist, each
   * written once.
   */
  function Uploads(names: seq<string>, existing: set<string>): (r: (seq<string>, seq<string>, set<string>))
    decreases |names|
    ensures |r.0| + |r.1| == |names|
    ensures r.2 == existing + PathsOf(names)
    ensures forall p :: p in r.0 <==> p in PathsOf(names) && p !in existing
    ensures forall i, j :: 0 <= i < j < |r.0| ==> r.0[i] != r.0[j]
  {
    if names == [] then ([], [], existing)
    else
      var prefix := names[..|names| - 1];
      var name := names[|names| - 1];
      assert prefix + [name] == names;
      PathsOfSnoc(prefix, name);
      var o := Uploads(prefix, existing);
      var p := UploadPath(name);
      if p in o.2 then (o.0, o.1 + [name], o.2)
      else (o.0 + [p], o.1, o.2 + {p})
  }

  /**
   * The k-th upload is skipped exactly when its path already exists, either
   * from before the batch or written earlier in the same batch; otherwise
   * its path is written and appended.
   */
  lemma UploadDecision(names: seq<string>, existing: set<string>, k: nat)
    requires k < |names|
    ensures var before := Uploads(names[..k], existing);
            var p := UploadPath(names[k]);
            Uploads(names[..k + 1], existing) ==
              if p in existing || p in PathsOf(names[..k]) then (before.0, before.1 + [names[k]], before.2)
              else (before.0 + [p], before.1, before.2 + {p})
  {
    assert names[..k + 1][..k] == names[..k];
  }

  /** One more upload only appends to the two lists. */
  lemma UploadsExtend(names: seq<string>, existing: set<string>)
    requires names != []
    ensures var mid := Uploads(names[..|names| - 1], existing);
            var whole := Uploads(names, existing);
            && |mid.0| <= |whole.0| && whole.0[..|mid.0|] == mid.0
            && |mid.1| <= |whole.1| && whole.1[..|mid.1|] == mid.1
  {
  }

  /** The filter works in upload order: what it decides for a prefix of the batch is a prefix of what it decides for the batch. */
  lemma {:induction false} UploadsInOrder(names: seq<string>, existing: set<string>, k: nat)
    requires k <= |names|
    decreases |names|
    ensures var part := Uploads(names[..k], existing);
            var whole := Uploads(names, existing);
            && |part.0| <= |whole.0| && whole.0[..|part.0|] == part.0
            && |part.1| <= |whole.1| && whole.1[..|part.1|] == part.1
  {
    if k == |names| {
      assert names[..k] == names;
    } else {
      var shorter := names[..|names| - 1];
      assert shorter[..k] == names[..k];
      UploadsInOrder(shorter, existing, k);
      UploadsExtend(names, existing);
      var part := Uploads(names[..k], existing);
      var mid := Uploads(shorter, existing);
      var whole := Uploads(names, existing);
      assert whole.0[..|part.0|] == whole.0[..|mid.0|][..|part.0|];
      assert whole.1[..|part.1|] == whole.1[..|mid.1|][..|part.1|];
    }
  }

  /** The message sent for a batch, or none when no file was written. */
  function IngestRequestFor(filePaths: seq<string>, freshId: Uuid): (r: Option<Message>)
    ensures r.None? <==> filePaths == []
    ensures r.Some? ==> r.value.receiver == Participant.IngestionAgent && r.value.kind == IngestRequest
    ensures r.Some? ==> "file_paths" in r.value.payload && AsStrings(r.value.payload["file_paths"]) == Some(filePaths)
  {
    AsStringsStrList(filePaths);
    if filePaths == [] then None else Some(IngestMessage(filePaths, freshId))
  }

  /** The upload loop: each name is skipped when its path exists, and written otherwise. */
  method FilterUploads(names: seq<string>, existing: set<string>)
    returns (filePaths: seq<string>, skipped: seq<string>, disk: set<string>)
    ensures (filePaths, skipped, disk) == Uploads(names, existing)
  {
    filePaths, skipped, disk := [], [], existing;
    for i := 0 to |names|
      invariant (filePaths, skipped, disk) == Uploads(names[..i], existing)
    {
      UploadDecision(names, existing, i);
      var filePath := UploadPath(names[i]);
      if filePath in disk {
        skipped := skipped + [names[i]];
      } else {
        disk := disk + {filePath};
        filePaths := filePaths + [filePath];
      }
    }
    assert names[..|names|] == names;
  }

  /**
   * The sidebar's upload step: filter the batch, then, when a file was
   * written, send one INGEST_REQUEST listing the written paths.
   */
  method UploadBatch(c: Coordinator, names: seq<string>, existing: set<string>, freshId: Uuid)
    returns (filePaths: seq<string>, skipped: seq<string>, disk: set<string>, outcome: Option<Outcome>)
    requires c.Valid()
    modifies c, c.RetrievalObjects()
    ensures c.Valid()
    ensures (filePaths, skipped, disk) == Uploads(names, existing)
    ensures filePaths == [] ==> outcome == None && c.View() == old(c.View())
    ensures filePaths != [] ==>
              && outcome == Some(Dispatch(Agents(), c.env, old(c.View()), IngestMessage(filePaths, freshId)).1)
              && c.View() == Dispatch(Agents(), c.env, old(c.View()), IngestMessage(filePaths, freshId)).0
  {
    filePaths, skipped, disk := FilterUploads(names, existing);
    var request := IngestRequestFor(filePaths, freshId);
    if request.Some? {
      var o := c.Send(request.value);
      outcome := Some(o);
    } else {
      outcome := None;
    }
  }
}
