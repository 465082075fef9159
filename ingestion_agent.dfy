/**
 * The ingestion agent (agents/ingestion_agent.py): for an INGEST_REQUEST it
 * parses and splits every listed file, tags each chunk with the base name of
 * its file, and emits one EMBED_REQUEST holding all chunks, if there are any.
 */
module Ingestion {
  import opened Wrappers
  import opened Mcp
  import opened OsPath
  import opened DocumentParser

  /** The splitter's policy constants. */
  const ChunkSize: nat := 1000
  const ChunkOverlap: nat := 200

  /** `split_text` of a splitter built with (chunk size, overlap): the chunks of a text, or the error it raises. */
  type Splitter = (nat, nat, string) -> Result<seq<string>, string>

  /** The agent's fixed collaborators: the document readers and the text splitter. */
  datatype IngestionAgent = IngestionAgent(readers: Readers, split: Splitter)

  /** The chunks of the file at `p`, or None when parsing or splitting it raises. */
  function TextChunks(agent: IngestionAgent, p: string): Option<seq<string>>
  {
    match DocumentText(p, agent.readers)
    case Failure(_) => None
    case Success(content) =>
      (match agent.split(ChunkSize, ChunkOverlap, content)
       case Success(chunks) => Some(chunks)
       case Failure(_) => None)
  }

  /** How the agent reads a path into chunks. */
  function Chunking(agent: IngestionAgent): string -> Option<seq<string>>
  {
    p => TextChunks(agent, p)
  }

  /**
   * The chunks one entry of `file_paths` contributes when paths are read by
   * `read`: None for an entry that is not a string (`parse_document` raises on it).
   */
  function FileChunks(read: string -> Option<seq<string>>, path: Value): Option<seq<string>>
  {
    if path.Str? then read(path.s) else None
  }

  /** `{"source": os.path.basename(path)}`. */
  function SourceTag(path: Value): Value
  {
    if path.Str? then Dict(map["source" := Str(Basename(path.s))]) else Null
  }

  /** One tag per chunk of a file. */
  function Tags(path: Value, n: nat): (r: seq<Value>)
    ensures |r| == n && forall i :: 0 <= i < n ==> r[i] == SourceTag(path)
  {
    seq(n, _ => SourceTag(path))
  }

  /**
   * The pair (all_chunks, all_metadata) after the loop over `paths`, when
   * files are read by `read`. The two lists always have the same length, and
   * every metadata entry is a dict.
   */
  function Collect(read: string -> Option<seq<string>>, paths: seq<Value>): (r: (seq<string>, seq<Value>))
    ensures |r.0| == |r.1|
    ensures forall i :: 0 <= i < |r.1| ==> r.1[i].Dict?
  {
    if paths == [] then ([], [])
    else AddFile(read, Collect(read, paths[..|paths| - 1]), paths[|paths| - 1])
  }

  /** The aggregate the agent builds from `file_paths`. */
  function Aggregate(agent: IngestionAgent, paths: seq<Value>): (seq<string>, seq<Value>)
  {
    Collect(Chunking(agent), paths)
  }

  /** One iteration of the loop: extend both lists with a file's chunks and tags, or leave them. */
  function AddFile(read: string -> Option<seq<string>>, acc: (seq<string>, seq<Value>), path: Value): (seq<string>, seq<Value>)
  {
    Extend(acc, path, FileChunks(read, path))
  }

  /** Extending the lists with the chunks of `path`, if it has any. */
  function Extend(acc: (seq<string>, seq<Value>), path: Value, chunks: Option<seq<string>>): (seq<string>, seq<Value>)
  {
    match chunks
    case None => acc
    case Some(c) => (acc.0 + c, acc.1 + Tags(path, |c|))
  }

  /** Extending concatenated lists extends the second of them. */
  lemma ExtendAfter(x: (seq<string>, seq<Value>), y: (seq<string>, seq<Value>), path: Value, chunks: Option<seq<string>>)
    ensures Extend((x.0 + y.0, x.1 + y.1), path, chunks) ==
            (x.0 + Extend(y, path, chunks).0, x.1 + Extend(y, path, chunks).1)
  {
    if chunks.Some? {
      assert x.0 + y.0 + chunks.value == x.0 + (y.0 + chunks.value);
      assert x.1 + y.1 + Tags(path, |chunks.value|) == x.1 + (y.1 + Tags(path, |chunks.value|));
    }
  }

  /** The handler's answer to one message. */
  function IngestStep(agent: IngestionAgent, m: Message, freshId: Uuid): (r: Reply)
    ensures m.kind != IngestRequest ==> r == Silent
    ensures r.Emit? ==>
              && r.msg.sender == Participant.IngestionAgent
              && r.msg.receiver == Participant.Coordinator
              && r.msg.kind == EmbedRequest
              && r.msg.traceId == freshId
              && Conforms(r.msg.payload, EmbedRequestPayload)
              && "file_paths" in m.payload && Iterate(m.payload["file_paths"]).Some?
              && r.msg.payload == map["chunks" := StrList(Aggregate(agent, Iterate(m.payload["file_paths"]).value).0),
                                      "metadata" := List(Aggregate(agent, Iterate(m.payload["file_paths"]).value).1)]
    ensures m.kind == IngestRequest && "file_paths" in m.payload && Iterate(m.payload["file_paths"]).Some? ==>
              && (r.Emit? <==> Aggregate(agent, Iterate(m.payload["file_paths"]).value).0 != [])
              && (r.Emit? || r == Silent)
  {
    if m.kind != IngestRequest then Silent
    else if "file_paths" !in m.payload then Raised("KeyError: 'file_paths'")
    else
      var filePaths := Iterate(m.payload["file_paths"]);
      if filePaths.None? then Raised("TypeError: 'file_paths' is not iterable")
      else
        var agg := Aggregate(agent, filePaths.value);
        if agg.0 == [] then Silent
        else
          AsStringsStrList(agg.0);
          Emit(NewMessage(Participant.IngestionAgent, Participant.Coordinator, EmbedRequest,
                          map["chunks" := StrList(agg.0), "metadata" := List(agg.1)], freshId))
  }

  /** The `for path in file_paths` loop: parse, split and tag each file, skipping files that raise. */
  method AggregateFiles(agent: IngestionAgent, paths: seq<Value>) returns (allChunks: seq<string>, allMetadata: seq<Value>)
    ensures (allChunks, allMetadata) == Aggregate(agent, paths)
  {
    ghost var read := Chunking(agent);
    allChunks, allMetadata := [], [];
    for i := 0 to |paths|
      invariant (allChunks, allMetadata) == Collect(read, paths[..i])
    {
      assert paths[..i + 1][..i] == paths[..i];
      ghost var before := (allChunks, allMetadata);
      var path := paths[i];
      if path.Str? {
        var content := ParseDocument(path.s, agent.readers);
        if content.Success? {
          var chunks := agent.split(ChunkSize, ChunkOverlap, content.value);
          if chunks.Success? {
            var metadata := Tags(path, |chunks.value|);
            allChunks := allChunks + chunks.value;
            allMetadata := allMetadata + metadata;
          }
        }
      }
      assert (allChunks, allMetadata) == AddFile(read, before, path);
    }
    assert paths[..|paths|] == paths;
  }

  /** `process_message`: the aggregation loop, then the conditional emission. */
  method ProcessMessage(agent: IngestionAgent, m: Message, freshId: Uuid) returns (r: Reply)
    ensures r == IngestStep(agent, m, freshId)
  {
    if m.kind != IngestRequest {
      return Silent;
    }
    if "file_paths" !in m.payload {
      return Raised("KeyError: 'file_paths'");
    }
    var filePaths := Iterate(m.payload["file_paths"]);
    if filePaths.None? {
      return Raised("TypeError: 'file_paths' is not iterable");
    }
    var allChunks, allMetadata := AggregateFiles(agent, filePaths.value);
    if allChunks != [] {
      r := Emit(NewMessage(Participant.IngestionAgent, Participant.Coordinator, EmbedRequest,
                           map["chunks" := StrList(allChunks), "metadata" := List(allMetadata)], freshId));
    } else {
      r := Silent;
    }
  }

  /** Batches add up: the files of `a + b` contribute what `a` contributes followed by what `b` contributes. */
  lemma {:induction false} AggregateAppend(read: string -> Option<seq<string>>, a: seq<Value>, b: seq<Value>)
    ensures Collect(read, a + b).0 == Collect(read, a).0 + Collect(read, b).0
    ensures Collect(read, a + b).1 == Collect(read, a).1 + Collect(read, b).1
  {
    if b == [] {
      assert a + b == a;
    } else {
      var b' := b[..|b| - 1];
      var last := b[|b| - 1];
      assert (a + b)[..|a + b| - 1] == a + b';
      assert (a + b)[|a + b| - 1] == last;
      assert Collect(read, a + b) == AddFile(read, Collect(read, a + b'), last);
      AggregateAppend(read, a, b');
      ExtendAfter(Collect(read, a), Collect(read, b'), last, FileChunks(read, last));
    }
  }

  /**
   * A file whose parse or split raises contributes nothing, and the files
   * around it are still processed.
   */
  lemma FailedFileContributesNothing(read: string -> Option<seq<string>>, a: seq<Value>, p: Value, b: seq<Value>)
    requires FileChunks(read, p).None?
    ensures Collect(read, a + [p] + b) == Collect(read, a + b)
  {
    AggregateAppend(read, a + [p], b);
    AggregateAppend(read, a, [p]);
    AggregateAppend(read, a, b);
    assert [p][..0] == [];
  }

  /**
   * Where chunk `i` of the aggregate comes from: file `f` of `paths`, the
   * `j`-th chunk the splitter made of it. Its metadata entry is that file's tag.
   */
  ghost function Origin(read: string -> Option<seq<string>>, paths: seq<Value>, i: nat): (o: (nat, nat))
    requires i < |Collect(read, paths).0|
    ensures o.0 < |paths| && FileChunks(read, paths[o.0]).Some?
    ensures o.1 < |FileChunks(read, paths[o.0]).value|
    ensures Collect(read, paths).0[i] == FileChunks(read, paths[o.0]).value[o.1]
    ensures Collect(read, paths).1[i] == SourceTag(paths[o.0])
  {
    var init := paths[..|paths| - 1];
    var prev := Collect(read, init);
    if i < |prev.0| then
      var o := Origin(read, init, i);
      assert paths[o.0] == init[o.0];
      o
    else
      (|paths| - 1, i - |prev.0|)
  }

  /** Lexicographic order on (file index, chunk index). */
  predicate Before(x: (nat, nat), y: (nat, nat))
  {
    x.0 < y.0 || (x.0 == y.0 && x.1 < y.1)
  }

  /** Chunks are ordered by file, then by the splitter's order within a file. */
  lemma {:induction false} OriginOrdered(read: string -> Option<seq<string>>, paths: seq<Value>, i: nat, k: nat)
    requires i < k < |Collect(read, paths).0|
    ensures Before(Origin(read, paths, i), Origin(read, paths, k))
  {
    var init := paths[..|paths| - 1];
    var prev := Collect(read, init);
    if k < |prev.0| {
      OriginOrdered(read, init, i, k);
    }
  }
}
