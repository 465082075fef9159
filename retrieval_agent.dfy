/**
 * The retrieval agent (agents/retrieval_agent.py). It owns a flat vector
 * index and the parallel list of (text, metadata) records, both append-only.
 * An EMBED_REQUEST embeds a batch, creates the index lazily, appends, saves
 * to disk and acknowledges with INGEST_COMPLETE; a RETRIEVAL_REQUEST answers
 * with the texts of the min(3, n) nearest vectors. The embedding model and
 * the distance are abstract; the disk is two files that can be missing,
 * unreadable or hold a value.
 */
module Retrieval {
  import opened Wrappers
  import opened Mcp
  import opened Nearest

  type Vector = seq<real>

  /** A flat L2 index: its dimension and the vectors added so far (`ntotal` is their number). */
  datatype FlatIndex = FlatIndex(dim: nat, vectors: seq<Vector>)

  /** One entry of `chunks_with_metadata`: a pair made by `zip`. */
  datatype Record = Record(text: string, metadata: Value)

  /** A file on disk. */
  datatype File<T> = Missing | Unreadable | Holds(content: T)

  /** The two persisted artifacts: the serialized index and the pickled records. */
  datatype Store = Store(indexFile: File<FlatIndex>, recordsFile: File<seq<Record>>)

  /** Which of the two writes of a save raises, if any. */
  datatype SaveFault = NoFault | IndexWriteFails | RecordsWriteFails

  /** The embedding model (batch encoding is encoding each text) and the distance the index ranks by. */
  datatype Embedder = Embedder(encode: string -> Vector, distance: (Vector, Vector) -> real)

  /** The agent's mutable state: `index` (None until created or loaded), `chunks_with_metadata`, the disk. */
  datatype RetrievalState = RetrievalState(index: Option<FlatIndex>, records: seq<Record>, store: Store)

  /** `index.ntotal`, with an absent index counted as empty. */
  function NTotal(index: Option<FlatIndex>): nat
  {
    if index.Some? then |index.value.vectors| else 0
  }

  /** The parallel-sequence invariant: exactly one record per stored vector. */
  predicate Consistent(st: RetrievalState)
  {
    NTotal(st.index) == |st.records|
  }

  /**
   * The startup load: only when both files exist, the index is read first
   * and the records second; a read that raises is caught and leaves what was
   * read before it in place.
   */
  function Load(store: Store): (Option<FlatIndex>, seq<Record>)
  {
    if store.indexFile.Missing? || store.recordsFile.Missing? then (None, [])
    else match store.indexFile
      case Holds(idx) => (if store.recordsFile.Holds? then (Some(idx), store.recordsFile.content) else (Some(idx), []))
      case _ => (None, [])
  }

  function InitialState(store: Store): RetrievalState
  {
    RetrievalState(Load(store).0, Load(store).1, store)
  }

  /** The save after an embed: the index file is written, then the records file; a failed write leaves its file unreadable. */
  function Save(store: Store, index: FlatIndex, records: seq<Record>, fault: SaveFault): Store
  {
    match fault
    case NoFault => Store(Holds(index), Holds(records))
    case IndexWriteFails => store.(indexFile := Unreadable)
    case RecordsWriteFails => Store(Holds(index), Unreadable)
  }

  /** What a successful save writes, a restart loads back. */
  lemma SaveLoadRoundTrip(store: Store, index: FlatIndex, records: seq<Record>)
    ensures InitialState(Save(store, index, records, NoFault)) == RetrievalState(Some(index), records, Save(store, index, records, NoFault))
  {
  }

  /**
   * A partial load: a readable index with unreadable records (as a failed
   * records write leaves them) sets the index and keeps no records, so the
   * invariant fails as soon as the index holds a vector.
   */
  lemma PartialLoadBreaksInvariant(store: Store, index: FlatIndex, records: seq<Record>)
    requires |index.vectors| > 0
    ensures InitialState(Save(store, index, records, RecordsWriteFails)).index == Some(index)
    ensures InitialState(Save(store, index, records, RecordsWriteFails)).records == []
    ensures !Consistent(InitialState(Save(store, index, records, RecordsWriteFails)))
  {
  }

  /** `list(zip(chunks, metadata))`: pairs up to the shorter of the two lengths. */
  function Zip(chunks: seq<string>, metadata: seq<Value>): (r: seq<Record>)
    ensures |r| == if |chunks| <= |metadata| then |chunks| else |metadata|
    ensures forall i :: 0 <= i < |r| ==> r[i] == Record(chunks[i], metadata[i])
  {
    var n := if |chunks| <= |metadata| then |chunks| else |metadata|;
    seq(n, i requires 0 <= i < n => Record(chunks[i], metadata[i]))
  }

  /** `model.encode(chunks)`. */
  function EncodeAll(e: Embedder, chunks: seq<string>): (r: seq<Vector>)
    ensures |r| == |chunks| && forall i :: 0 <= i < |chunks| ==> r[i] == e.encode(chunks[i])
  {
    seq(|chunks|, i requires 0 <= i < |chunks| => e.encode(chunks[i]))
  }

  /** `index.add(vectors)`: refused when a vector's dimension is not the index's. */
  function IndexAdd(idx: FlatIndex, vs: seq<Vector>): (r: Result<FlatIndex, string>)
    ensures r.Success? <==> forall i :: 0 <= i < |vs| ==> |vs[i]| == idx.dim
    ensures r.Success? ==> r.value.dim == idx.dim && r.value.vectors == idx.vectors + vs
  {
    if forall i :: 0 <= i < |vs| ==> |vs[i]| == idx.dim then Success(FlatIndex(idx.dim, idx.vectors + vs))
    else Failure("AssertionError: vector dimension does not match the index")
  }

  /** The EMBED_REQUEST branch, in the order the source runs its steps. */
  function EmbedStep(e: Embedder, st: RetrievalState, p: Payload, freshId: Uuid): (r: (RetrievalState, Reply))
    ensures r.1.Emit? ==>
              r.1.msg == NewMessage(Participant.RetrievalAgent, Participant.Coordinator, IngestComplete, map[], freshId)
  {
    if "chunks" !in p then (st, Raised("KeyError: 'chunks'"))
    else if "metadata" !in p then (st, Raised("KeyError: 'metadata'"))
    else if !Truthy(p["chunks"]) then (st, Silent)
    else if AsStrings(p["chunks"]).None? then (st, Raised("TypeError: chunks must be a list of strings"))
    else
      var chunks := AsStrings(p["chunks"]).value;
      var embeddings := EncodeAll(e, chunks);
      var idx := if st.index.Some? then st.index.value else FlatIndex(|embeddings[0]|, []);
      var initialized := st.(index := Some(idx));
      var metadata := Iterate(p["metadata"]);
      if metadata.None? then (initialized, Raised("TypeError: 'metadata' is not iterable"))
      else
        var extended := initialized.(records := st.records + Zip(chunks, metadata.value));
        match IndexAdd(idx, embeddings)
        case Failure(err) => (extended, Raised(err))
        case Success(grown) =>
          (extended.(index := Some(grown)),
           Emit(NewMessage(Participant.RetrievalAgent, Participant.Coordinator, IngestComplete, map[], freshId)))
  }

  /** The save that follows a successful embed; it changes only the disk and never the reply. */
  function SaveAfterEmbed(st: RetrievalState, reply: Reply, fault: SaveFault): RetrievalState
  {
    if reply.Emit? && st.index.Some? then st.(store := Save(st.store, st.index.value, st.records, fault)) else st
  }

  /** `getattr(message, "trace_id", None) or payload.get("trace_id")`, else a fresh UUID. */
  function ReplyTrace(m: Message, freshId: Uuid): (t: Value)
    ensures Truthy(t)
    ensures m.traceId != "" ==> t == Str(m.traceId)
    ensures m.traceId == "" && Truthy(Get(m.payload, "trace_id", Null)) ==> t == m.payload["trace_id"]
    ensures m.traceId == "" && !Truthy(Get(m.payload, "trace_id", Null)) ==> t == Str(freshId)
  {
    var first := if m.traceId != "" then Str(m.traceId) else Get(m.payload, "trace_id", Null);
    if Truthy(first) then first else Str(freshId)
  }

  function Distances(e: Embedder, q: Vector, vs: seq<Vector>): (d: seq<real>)
    ensures |d| == |vs| && forall i :: 0 <= i < |vs| ==> d[i] == e.distance(q, vs[i])
  {
    seq(|vs|, i requires 0 <= i < |vs| => e.distance(q, vs[i]))
  }

  /** `k = min(3, ntotal)`. */
  function TopK(n: nat): nat
  {
    if n < 3 then n else 3
  }

  /** The positions the index search returns for a query vector. */
  function SearchPositions(e: Embedder, idx: FlatIndex, q: Vector): seq<nat>
  {
    NearestK(Distances(e, q, idx.vectors), TopK(|idx.vectors|))
  }

  /** The `retrieved_context` list, or the error raised while computing it. */
  function RetrievedContext(e: Embedder, st: RetrievalState, query: Value): Result<seq<string>, string>
  {
    if NTotal(st.index) == 0 then Success([])
    else if !query.Str? then Failure("TypeError: the query is not a string")
    else
      var idx := st.index.value;
      var q := e.encode(query.s);
      if |q| != idx.dim then Failure("AssertionError: query dimension does not match the index")
      else
        var pos := SearchPositions(e, idx, q);
        NearestKSpec(Distances(e, q, idx.vectors), TopK(|idx.vectors|));
        if exists a :: 0 <= a < |pos| && pos[a] >= |st.records| then Failure("IndexError: list index out of range")
        else Success(seq(|pos|, a requires 0 <= a < |pos| => st.records[pos[a]].text))
  }

  /** The RETRIEVAL_REQUEST branch: it reads the state and changes nothing. */
  function QueryStep(e: Embedder, st: RetrievalState, m: Message, freshId: Uuid): (r: Reply)
    ensures r.Emit? ==>
              && r.msg.sender == Participant.RetrievalAgent && r.msg.receiver == Participant.Coordinator
              && r.msg.kind == RetrievalResponse
              && Str(r.msg.traceId) == ReplyTrace(m, freshId)
              && r.msg.payload.Keys == {"retrieved_context", "query", "trace_id"}
              && r.msg.payload["trace_id"] == Str(r.msg.traceId)
              && "query" in m.payload && r.msg.payload["query"] == m.payload["query"]
    ensures "query" !in m.payload ==> r == Raised("KeyError: 'query'")
  {
    if "query" !in m.payload then Raised("KeyError: 'query'")
    else
      var query := m.payload["query"];
      var trace := ReplyTrace(m, freshId);
      match RetrievedContext(e, st, query)
      case Failure(err) => Raised(err)
      case Success(context) =>
        if !trace.Str? then Raised("ValidationError: trace_id")
        else
          Emit(Message(Participant.RetrievalAgent, Participant.Coordinator, RetrievalResponse, trace.s,
                       map["retrieved_context" := StrList(context), "query" := query, "trace_id" := trace]))
  }

  /**
   * `process_message` as a whole. Only the two request kinds are answered,
   * always to the Coordinator; a query changes nothing; records and vectors
   * are only ever appended to, and an existing index keeps its dimension.
   */
  function RetrievalStep(e: Embedder, st: RetrievalState, m: Message, freshId: Uuid, fault: SaveFault)
    : (r: (RetrievalState, Reply))
    ensures m.kind != EmbedRequest && m.kind != RetrievalRequest ==> r == (st, Silent)
    ensures m.kind != EmbedRequest ==> r.0 == st
    ensures r.1.Emit? ==> r.1.msg.sender == Participant.RetrievalAgent && r.1.msg.receiver == Participant.Coordinator
    ensures r.1.Emit? && m.kind == EmbedRequest ==> r.1.msg.kind == IngestComplete
    ensures r.1.Emit? && m.kind == RetrievalRequest ==> r.1.msg.kind == RetrievalResponse
    ensures |st.records| <= |r.0.records| && r.0.records[..|st.records|] == st.records
    ensures st.index.Some? ==>
              && r.0.index.Some? && r.0.index.value.dim == st.index.value.dim
              && |st.index.value.vectors| <= |r.0.index.value.vectors|
              && r.0.index.value.vectors[..|st.index.value.vectors|] == st.index.value.vectors
  {
    if m.kind == EmbedRequest then
      var o := EmbedStep(e, st, m.payload, freshId);
      (SaveAfterEmbed(o.0, o.1, fault), o.1)
    else if m.kind == RetrievalRequest then (st, QueryStep(e, st, m, freshId))
    else (st, Silent)
  }

  /**
   * A RETRIEVAL_REQUEST with a query and a trace id leaves the state alone and
   * answers with the retrieved texts under the request's trace id, or raises
   * the error met while retrieving them.
   */
  lemma QueryOutcome(e: Embedder, st: RetrievalState, m: Message, freshId: Uuid, fault: SaveFault)
    requires m.kind == RetrievalRequest && "query" in m.payload && m.traceId != ""
    ensures var ctx := RetrievedContext(e, st, m.payload["query"]);
            RetrievalStep(e, st, m, freshId, fault) ==
              (st, if ctx.Failure? then Raised(ctx.error)
                   else Emit(Message(Participant.RetrievalAgent, Participant.Coordinator, RetrievalResponse, m.traceId,
                                     map["retrieved_context" := StrList(ctx.value), "query" := m.payload["query"],
                                         "trace_id" := Str(m.traceId)])))
  {
  }

  /** Every embedding of a batch has the index's dimension, or the first embedding's when there is no index yet. */
  predicate FitsIndex(e: Embedder, st: RetrievalState, chunks: seq<string>)
  {
    forall i :: 0 <= i < |chunks| ==>
      |e.encode(chunks[i])| == (if st.index.Some? then st.index.value.dim else |e.encode(chunks[0])|)
  }

  /** An EMBED_REQUEST whose chunks are empty or absent-but-falsy changes nothing and sends nothing. */
  lemma EmptyEmbedIsNoOp(e: Embedder, st: RetrievalState, m: Message, freshId: Uuid, fault: SaveFault)
    requires m.kind == EmbedRequest && "chunks" in m.payload && "metadata" in m.payload
    requires !Truthy(m.payload["chunks"])
    ensures RetrievalStep(e, st, m, freshId, fault) == (st, Silent)
  {
  }

  /**
   * A well-formed batch whose vectors all have the index's dimension: the
   * records grow by the zipped pairs, the index by the embeddings, the disk
   * holds what the save wrote, and INGEST_COMPLETE goes to the Coordinator.
   */
  lemma EmbedAppends(e: Embedder, st: RetrievalState, m: Message, freshId: Uuid, fault: SaveFault,
                     chunks: seq<string>, metadata: seq<Value>)
    requires m.kind == EmbedRequest && "chunks" in m.payload && "metadata" in m.payload
    requires m.payload["chunks"] == StrList(chunks) && chunks != []
    requires Iterate(m.payload["metadata"]) == Some(metadata)
    requires FitsIndex(e, st, chunks)
    ensures var (st', reply) := RetrievalStep(e, st, m, freshId, fault);
            && st'.records == st.records + Zip(chunks, metadata)
            && st'.index.Some?
            && st'.index.value.vectors == (if st.index.Some? then st.index.value.vectors else []) + EncodeAll(e, chunks)
            && st'.store == Save(st.store, st'.index.value, st'.records, fault)
            && reply == Emit(NewMessage(Participant.RetrievalAgent, Participant.Coordinator, IngestComplete, map[], freshId))
  {
    AsStringsStrList(chunks);
  }

  /** The index is created lazily, with the dimension of the first vector of the first non-empty batch. */
  lemma IndexCreatedWithFirstDimension(e: Embedder, st: RetrievalState, m: Message, freshId: Uuid, fault: SaveFault,
                                       chunks: seq<string>)
    requires st.index.None?
    requires m.kind == EmbedRequest && "chunks" in m.payload && "metadata" in m.payload
    requires m.payload["chunks"] == StrList(chunks) && chunks != []
    ensures RetrievalStep(e, st, m, freshId, fault).0.index.Some?
    ensures RetrievalStep(e, st, m, freshId, fault).0.index.value.dim == |e.encode(chunks[0])|
  {
    AsStringsStrList(chunks);
  }

  /**
   * The parallel lists stay in step across a successful embed exactly when
   * no chunk is dropped by `zip`, that is when there is metadata for every chunk.
   */
  lemma EmbedKeepsConsistentIff(e: Embedder, st: RetrievalState, m: Message, freshId: Uuid, fault: SaveFault,
                                chunks: seq<string>, metadata: seq<Value>)
    requires Consistent(st)
    requires m.kind == EmbedRequest && "chunks" in m.payload && "metadata" in m.payload
    requires m.payload["chunks"] == StrList(chunks) && chunks != []
    requires Iterate(m.payload["metadata"]) == Some(metadata)
    requires FitsIndex(e, st, chunks)
    ensures Consistent(RetrievalStep(e, st, m, freshId, fault).0) <==> |chunks| <= |metadata|
  {
    EmbedAppends(e, st, m, freshId, fault, chunks, metadata);
  }

  /**
   * Records are extended before the vectors are added: a batch whose vectors
   * do not fit the existing index raises with the records already grown and
   * the index unchanged, which breaks the invariant.
   */
  lemma DimensionMismatchBreaksInvariant(e: Embedder, st: RetrievalState, m: Message, freshId: Uuid, fault: SaveFault,
                                         chunks: seq<string>, metadata: seq<Value>, i: nat)
    requires Consistent(st) && st.index.Some?
    requires m.kind == EmbedRequest && "chunks" in m.payload && "metadata" in m.payload
    requires m.payload["chunks"] == StrList(chunks)
    requires Iterate(m.payload["metadata"]) == Some(metadata) && metadata != []
    requires i < |chunks| && |e.encode(chunks[i])| != st.index.value.dim
    ensures RetrievalStep(e, st, m, freshId, fault).1.Raised?
    ensures RetrievalStep(e, st, m, freshId, fault).0.index == st.index
    ensures !Consistent(RetrievalStep(e, st, m, freshId, fault).0)
  {
    AsStringsStrList(chunks);
    var embeddings := EncodeAll(e, chunks);
    assert |embeddings[i]| != st.index.value.dim;
  }

  /** A save fault changes only what is on disk, never the in-memory state or the reply. */
  lemma SaveFaultOnlyTouchesDisk(e: Embedder, st: RetrievalState, m: Message, freshId: Uuid, f1: SaveFault, f2: SaveFault)
    ensures RetrievalStep(e, st, m, freshId, f1).1 == RetrievalStep(e, st, m, freshId, f2).1
    ensures RetrievalStep(e, st, m, freshId, f1).0.index == RetrievalStep(e, st, m, freshId, f2).0.index
    ensures RetrievalStep(e, st, m, freshId, f1).0.records == RetrievalStep(e, st, m, freshId, f2).0.records
  {
  }

  /** With no index or an empty one the context is empty whatever the embedder and the query. */
  lemma EmptyIndexAnswersNothing(e: Embedder, st: RetrievalState, m: Message, freshId: Uuid)
    requires NTotal(st.index) == 0
    requires "query" in m.payload && ReplyTrace(m, freshId).Str?
    ensures QueryStep(e, st, m, freshId).Emit?
    ensures QueryStep(e, st, m, freshId).msg.payload["retrieved_context"] == List([])
  {
  }

  /**
   * On a consistent state, a string query of the index's dimension is
   * answered with the texts of the min(3, n) nearest vectors, nearest first,
   * and no vector left out is nearer than one returned.
   */
  lemma QueryReturnsNearestTexts(e: Embedder, st: RetrievalState, m: Message, freshId: Uuid)
    requires Consistent(st) && NTotal(st.index) > 0
    requires "query" in m.payload && m.payload["query"].Str?
    requires |e.encode(m.payload["query"].s)| == st.index.value.dim
    requires ReplyTrace(m, freshId).Str?
    ensures var idx := st.index.value;
            var q := e.encode(m.payload["query"].s);
            var d := Distances(e, q, idx.vectors);
            var pos := SearchPositions(e, idx, q);
            && |pos| == TopK(|idx.vectors|) && InRange(d, pos) && Ranked(d, pos)
            && (forall j, a :: 0 <= j < |d| && j !in pos && 0 <= a < |pos| ==> Closer(d, pos[a], j))
            && QueryStep(e, st, m, freshId).Emit?
            && QueryStep(e, st, m, freshId).msg.payload["retrieved_context"]
               == StrList(seq(|pos|, a requires 0 <= a < |pos| => st.records[pos[a]].text))
  {
    var idx := st.index.value;
    var q := e.encode(m.payload["query"].s);
    NearestKSpec(Distances(e, q, idx.vectors), TopK(|idx.vectors|));
  }

  /**
   * The partial-load hazard: an index restored without its records answers
   * every matching query by raising IndexError, so no RETRIEVAL_RESPONSE is sent.
   */
  lemma PartialLoadQueryRaises(e: Embedder, store: Store, index: FlatIndex, records: seq<Record>,
                               m: Message, freshId: Uuid)
    requires |index.vectors| > 0
    requires "query" in m.payload && m.payload["query"].Str?
    requires |e.encode(m.payload["query"].s)| == index.dim
    ensures QueryStep(e, InitialState(Save(store, index, records, RecordsWriteFails)), m, freshId)
            == Raised("IndexError: list index out of range")
  {
    var st := InitialState(Save(store, index, records, RecordsWriteFails));
    var q := e.encode(m.payload["query"].s);
    var d := Distances(e, q, index.vectors);
    NearestKSpec(d, TopK(|index.vectors|));
    assert SearchPositions(e, index, q)[0] >= |st.records|;
  }

  /** The agent object. */
  class RetrievalAgent {
    const name: string := "RetrievalAgent"
    const embedder: Embedder
    var index: Option<FlatIndex>
    var chunksWithMetadata: seq<Record>
    var store: Store

    function State(): RetrievalState
      reads this
    {
      RetrievalState(index, chunksWithMetadata, store)
    }

    /** The constructor: start empty, then try to load; a failed load is caught, so construction always succeeds. */
    constructor (embedder: Embedder, store: Store)
      ensures this.embedder == embedder
      ensures State() == InitialState(store)
    {
      this.embedder := embedder;
      this.store := store;
      index := None;
      chunksWithMetadata := [];
      if !store.indexFile.Missing? && !store.recordsFile.Missing? && store.indexFile.Holds? {
        index := Some(store.indexFile.content);
        if store.recordsFile.Holds? {
          chunksWithMetadata := store.recordsFile.content;
        }
      }
    }

    /** `_initialize_index`: create the index only when there is none. */
    method InitializeIndex(dim: nat)
      modifies this
      ensures index == if old(index).None? then Some(FlatIndex(dim, [])) else old(index)
      ensures chunksWithMetadata == old(chunksWithMetadata) && store == old(store)
    {
      if index.None? {
        index := Some(FlatIndex(dim, []));
      }
    }

    /** The EMBED_REQUEST branch, field by field. */
    method HandleEmbed(p: Payload, freshId: Uuid, fault: SaveFault) returns (reply: Reply)
      modifies this
      ensures State() == SaveAfterEmbed(EmbedStep(embedder, old(State()), p, freshId).0, reply, fault)
      ensures reply == EmbedStep(embedder, old(State()), p, freshId).1
    {
      if "chunks" !in p {
        return Raised("KeyError: 'chunks'");
      }
      if "metadata" !in p {
        return Raised("KeyError: 'metadata'");
      }
      if !Truthy(p["chunks"]) {
        return Silent;
      }
      var chunks := AsStrings(p["chunks"]);
      if chunks.None? {
        return Raised("TypeError: chunks must be a list of strings");
      }
      var embeddings := EncodeAll(embedder, chunks.value);
      InitializeIndex(|embeddings[0]|);
      var metadata := Iterate(p["metadata"]);
      if metadata.None? {
        return Raised("TypeError: 'metadata' is not iterable");
      }
      chunksWithMetadata := chunksWithMetadata + Zip(chunks.value, metadata.value);
      var added := IndexAdd(index.value, embeddings);
      if added.Failure? {
        return Raised(added.error);
      }
      index := Some(added.value);
      store := Save(store, added.value, chunksWithMetadata, fault);
      reply := Emit(NewMessage(Participant.RetrievalAgent, Participant.Coordinator, IngestComplete, map[], freshId));
    }

    /** `process_message`. */
    method ProcessMessage(m: Message, freshId: Uuid, fault: SaveFault) returns (reply: Reply)
      modifies this
      ensures (State(), reply) == RetrievalStep(embedder, old(State()), m, freshId, fault)
    {
      if m.kind == EmbedRequest {
        reply := HandleEmbed(m.payload, freshId, fault);
      } else if m.kind == RetrievalRequest {
        reply := QueryStep(embedder, State(), m, freshId);
      } else {
        reply := Silent;
      }
    }
  }
}
