/**
 * The response agent (agents/response_agent.py). On a GENERATE_REQUEST it
 * joins the context chunks into a prompt, asks the language model for an
 * answer and replies to the Coordinator with GENERATE_RESPONSE; without
 * context it answers with a fixed apology and never calls the model. The
 * model is a function from prompt to text or error message.
 */
module Response {
  import opened Wrappers
  import opened Mcp
  import opened Text

  /** The agent: its only dependency is the generative model. */
  datatype LLMResponseAgent = LLMResponseAgent(generate: string -> Result<string, string>)

  const NoInfoAnswer: string :=
    "I'm sorry, I couldn't find any relevant information in the uploaded documents to answer your question."

  const ErrorPrefix: string := "An error occurred while contacting the Gemini API: "

  /** The separator placed between context chunks. */
  const ContextDelimiter: string := "\n\n---\n\n"

  /**
   * The fixed text of a prompt: what comes before the context, what
   * separates two chunks of it, what comes between the context and the
   * question, and what follows the question.
   */
  datatype PromptTemplate = PromptTemplate(head: string, delimiter: string, questionHead: string, answerHead: string)

  /** The template of `_create_prompt` (the source's indentation is part of it). */
  const Template: PromptTemplate := PromptTemplate(
    "You are a helpful assistant. Answer the user's question based only on the provided context. If the answer is not in the context, say you don't know.\n\n        CONTEXT:\n        ",
    ContextDelimiter,
    "\n\n        QUESTION:\n        ",
    "\n\n        ANSWER:\n        ")

  /** A template with the joined context and the query filled in. */
  function Fill(t: PromptTemplate, query: string, chunks: seq<string>): string
  {
    t.head + Join(t.delimiter, chunks) + t.questionHead + query + t.answerHead
  }

  /** `_create_prompt`. */
  function CreatePrompt(query: string, chunks: seq<string>): string
  {
    Fill(Template, query, chunks)
  }

  /** The query as the f-string renders it: exact for a string and for None. */
  function Render(v: Value): (r: string)
    ensures v.Str? ==> r == v.s
    ensures v.Null? ==> r == "None"
  {
    match v
    case Str(s) => s
    case Null => "None"
    case _ => "<non-string query>"
  }

  /** The context: `context_chunks` unless it is absent or None, then `retrieved_context` (default `[]`). */
  function ContextValue(p: Payload): (v: Value)
    ensures "context_chunks" in p && !p["context_chunks"].Null? ==> v == p["context_chunks"]
    ensures ("context_chunks" !in p || p["context_chunks"].Null?) && "retrieved_context" in p ==> v == p["retrieved_context"]
    ensures ("context_chunks" !in p || p["context_chunks"].Null?) && "retrieved_context" !in p ==> v == List([])
  {
    var first := Get(p, "context_chunks", Null);
    if !first.Null? then first else Get(p, "retrieved_context", List([]))
  }

  /** What `str.join` accepts: an iterable of strings, as the strings it visits. */
  function StringsOf(v: Value): (r: Option<seq<string>>)
    ensures r.Some? <==> Iterate(v).Some? && forall i :: 0 <= i < |Iterate(v).value| ==> Iterate(v).value[i].Str?
    ensures r.Some? ==> |r.value| == |Iterate(v).value|
    ensures r.Some? ==> forall i :: 0 <= i < |r.value| ==> Iterate(v).value[i] == Str(r.value[i])
  {
    match Iterate(v)
    case None => None
    case Some(items) => AsStrings(List(items))
  }

  /** The GENERATE_RESPONSE envelope; it carries a fresh trace id and the request's `trace_id` in its payload. */
  function ResponseMessage(answer: string, sources: Value, trace: Value, freshId: Uuid): Message
  {
    NewMessage(Participant.LLMResponseAgent, Participant.Coordinator, GenerateResponse,
               map["answer" := Str(answer), "sources" := sources, "trace_id" := trace], freshId)
  }

  /** `process_message`. */
  function Respond(agent: LLMResponseAgent, m: Message, freshId: Uuid): (r: Reply)
    ensures m.kind != GenerateRequest ==> r == Silent
    ensures m.kind == GenerateRequest ==> r.Emit? || r.Raised?
    ensures r.Emit? ==>
              && r.msg.sender == Participant.LLMResponseAgent && r.msg.receiver == Participant.Coordinator
              && r.msg.kind == GenerateResponse && r.msg.traceId == freshId
              && r.msg.payload.Keys == {"answer", "sources", "trace_id"}
              && r.msg.payload["answer"].Str?
              && r.msg.payload["trace_id"] == Get(m.payload, "trace_id", Null)
    ensures r.Raised? ==> Truthy(ContextValue(m.payload)) && StringsOf(ContextValue(m.payload)).None?
  {
    if m.kind != GenerateRequest then Silent
    else
      var context := ContextValue(m.payload);
      var trace := Get(m.payload, "trace_id", Null);
      if !Truthy(context) then Emit(ResponseMessage(NoInfoAnswer, List([]), trace, freshId))
      else match StringsOf(context)
        case None => Raised("TypeError: sequence item: expected str instance")
        case Some(chunks) =>
          match agent.generate(CreatePrompt(Render(Get(m.payload, "query", Null)), chunks))
          case Success(text) => Emit(ResponseMessage(text, context, trace, freshId))
          case Failure(err) => Emit(ResponseMessage(ErrorPrefix + err, List([]), trace, freshId))
  }

  /** Without context the fixed apology is sent with no sources, and the model is never consulted. */
  lemma NoContextAnswer(a1: LLMResponseAgent, a2: LLMResponseAgent, m: Message, freshId: Uuid)
    requires m.kind == GenerateRequest && !Truthy(ContextValue(m.payload))
    ensures Respond(a1, m, freshId) == Respond(a2, m, freshId)
    ensures Respond(a1, m, freshId).Emit?
    ensures Respond(a1, m, freshId).msg.payload["answer"] == Str(NoInfoAnswer)
    ensures Respond(a1, m, freshId).msg.payload["sources"] == List([])
  {
  }

  /** A model answer is passed on verbatim, with the context as its sources. */
  lemma AnswerWithSources(agent: LLMResponseAgent, m: Message, freshId: Uuid, chunks: seq<string>, text: string)
    requires m.kind == GenerateRequest && Truthy(ContextValue(m.payload))
    requires StringsOf(ContextValue(m.payload)) == Some(chunks)
    requires agent.generate(CreatePrompt(Render(Get(m.payload, "query", Null)), chunks)) == Success(text)
    ensures Respond(agent, m, freshId).Emit?
    ensures Respond(agent, m, freshId).msg.payload["answer"] == Str(text)
    ensures Respond(agent, m, freshId).msg.payload["sources"] == ContextValue(m.payload)
  {
  }

  /** A model failure becomes an answer that starts with the fixed prefix, with no sources. */
  lemma ModelErrorAnswer(agent: LLMResponseAgent, m: Message, freshId: Uuid, chunks: seq<string>, err: string)
    requires m.kind == GenerateRequest && Truthy(ContextValue(m.payload))
    requires StringsOf(ContextValue(m.payload)) == Some(chunks)
    requires agent.generate(CreatePrompt(Render(Get(m.payload, "query", Null)), chunks)) == Failure(err)
    ensures Respond(agent, m, freshId).Emit?
    ensures Respond(agent, m, freshId).msg.payload["answer"] == Str(ErrorPrefix + err)
    ensures Respond(agent, m, freshId).msg.payload["sources"] == List([])
  {
  }

  /**
   * A context that is a list of strings, as the retrieval agent sends it, is
   * always answered and never raises; the answer names either those strings
   * or nothing as its sources.
   */
  lemma StringContextAnswered(agent: LLMResponseAgent, m: Message, freshId: Uuid, chunks: seq<string>)
    requires m.kind == GenerateRequest && ContextValue(m.payload) == StrList(chunks)
    ensures Respond(agent, m, freshId).Emit?
    ensures Respond(agent, m, freshId).msg.payload["sources"] in {StrList(chunks), List([])}
  {
    AsStringsStrList(chunks);
  }


  /** Where the joined context and the query sit inside a filled template. */
  function ContextStart(t: PromptTemplate): nat
  {
    |t.head|
  }

  function QueryStart(t: PromptTemplate, query: string, chunks: seq<string>): nat
  {
    |t.head| + |Join(t.delimiter, chunks)| + |t.questionHead|
  }

  /** A filled template is its head, the joined context, the question head, the query and the answer head, in that order. */
  lemma PromptLayout(t: PromptTemplate, query: string, chunks: seq<string>)
    ensures |Fill(t, query, chunks)| == QueryStart(t, query, chunks) + |query| + |t.answerHead|
    ensures Fill(t, query, chunks)[..ContextStart(t)] == t.head
    ensures Fill(t, query, chunks)[ContextStart(t)..ContextStart(t) + |Join(t.delimiter, chunks)|] == Join(t.delimiter, chunks)
    ensures Fill(t, query, chunks)[QueryStart(t, query, chunks)..QueryStart(t, query, chunks) + |query|] == query
    ensures Fill(t, query, chunks)[QueryStart(t, query, chunks) + |query|..] == t.answerHead
  {
    var j := Join(t.delimiter, chunks);
    var p := Fill(t, query, chunks);
    assert p == t.head + (j + (t.questionHead + (query + t.answerHead)));
    assert p[..|t.head|] == t.head;
    assert p[|t.head|..|t.head| + |j|] == j;
  }

  /** A slice of a slice. */
  lemma SliceOfSlice(s: string, c: nat, t: string, o: nat, x: string)
    requires c + |t| <= |s| && s[c..c + |t|] == t
    requires o + |x| <= |t| && t[o..o + |x|] == x
    ensures s[c + o..c + o + |x|] == x
  {
    assert forall k :: 0 <= k < |x| ==> s[c + o + k] == t[o + k] == x[k];
  }

  /** Whatever sits inside the context sits, shifted by the head, inside the prompt. */
  lemma InsideContext(t: PromptTemplate, query: string, j: string, o: nat, x: string)
    requires o + |x| <= |j| && j[o..o + |x|] == x
    ensures |t.head| + |j| <= |t.head + j + t.questionHead + query + t.answerHead|
    ensures (t.head + j + t.questionHead + query + t.answerHead)[|t.head| + o..|t.head| + o + |x|] == x
  {
    var p := t.head + j + t.questionHead + query + t.answerHead;
    assert p == t.head + (j + (t.questionHead + (query + t.answerHead)));
    assert p[|t.head|..|t.head| + |j|] == j;
    SliceOfSlice(p, |t.head|, j, o, x);
  }

  /** A chunk of a context joined with any separator sits, shifted by the head, inside the filled template. */
  lemma ChunkInside(t: PromptTemplate, sep: string, query: string, chunks: seq<string>, i: nat)
    requires i < |chunks|
    ensures |t.head| + JoinOffset(sep, chunks, i) + |chunks[i]| + |t.questionHead| <= |t.head| + |Join(sep, chunks)| + |t.questionHead|
    ensures |t.head| + |Join(sep, chunks)| + |t.questionHead| <= |t.head + Join(sep, chunks) + t.questionHead + query + t.answerHead|
    ensures (t.head + Join(sep, chunks) + t.questionHead + query + t.answerHead)
              [|t.head| + JoinOffset(sep, chunks, i)..|t.head| + JoinOffset(sep, chunks, i) + |chunks[i]|]
            == chunks[i]
  {
    JoinItemAt(sep, chunks, i);
    InsideContext(t, query, Join(sep, chunks), JoinOffset(sep, chunks, i), chunks[i]);
  }

  /**
   * Every context chunk appears in the prompt, at its place in the joined
   * context, and entirely before the question.
   */
  lemma ChunkBeforeQuestion(t: PromptTemplate, query: string, chunks: seq<string>, i: nat)
    requires i < |chunks|
    ensures ContextStart(t) + JoinOffset(t.delimiter, chunks, i) + |chunks[i]| + |t.questionHead| <= QueryStart(t, query, chunks)
    ensures QueryStart(t, query, chunks) <= |Fill(t, query, chunks)|
    ensures Fill(t, query, chunks)[ContextStart(t) + JoinOffset(t.delimiter, chunks, i)
                                   ..ContextStart(t) + JoinOffset(t.delimiter, chunks, i) + |chunks[i]|]
            == chunks[i]
  {
    ChunkInside(t, t.delimiter, query, chunks, i);
  }
}
