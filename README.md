# Agentic RAG chatbot: the message-routed pipeline in Dafny

This project models the retrieval-augmented chatbot's pipeline and proves
properties of that model. The pipeline runs on messages:

- Messages use the MCP envelope (`MCPMessage`): sender, receiver, type,
  trace id and an untyped payload.
- A `Coordinator` holds a registry of agents and routes every message,
  synchronously and recursively.
- Three agents each answer a message with at most one message back:
  - the ingestion agent parses and splits uploaded files;
  - the retrieval agent embeds chunks into a flat vector index and looks up
    the nearest chunks for a question;
  - the response agent builds a prompt and asks the language model.
- The document parser picks a reader by file extension and joins what the
  reader returns.
- The upload step of the user interface skips duplicate files and sends one
  ingestion request for the files it wrote.

Modules (one file each, in dependency order):

- `Wrappers` (`wrappers.dfy`): `Option` and `Result`.
- `Text` (`text.dfy`): `str.join`, ASCII `lower`, `rfind`, and the layout of a
  joined string.
- `OsPath` (`os_path.dfy`): `os.path.splitext`, `os.path.basename`, and the
  two-argument `os.path.join`.
- `Mcp` (`mcp.dfy`): the closed sets of participants and message kinds, the
  payload value type, validated construction with the default trace id,
  `to_dict`, and the declared payload schemas.
- `DocumentParser` (`document_parser.dfy`): extension dispatch, and the PDF,
  DOCX and PPTX joins over abstract reader outputs. `parse_pdf` and the
  nested loops of `parse_pptx` are methods with loop invariants.
- `Ingestion` (`ingestion_agent.dfy`): the per-file aggregation loop (a
  method proved against the function `Collect`), source tagging, and the
  conditional EMBED_REQUEST.
- `Nearest` (`nearest.dfy`): exact k-nearest selection over abstract
  distances, with ties broken by insertion order.
- `Retrieval` (`retrieval_agent.dfy`): the `RetrievalAgent` class. Its fields
  are the index, the parallel records and the two files on disk. It has
  lazy index creation, the EMBED and RETRIEVAL branches, and startup load and
  save that can fail.
- `Response` (`response_agent.dfy`): context selection, the fixed answers,
  the generate-or-error branch and the prompt template.
- `App` (`app.dfy`): the `Coordinator` class, whose methods change its
  registry, callback flag, UI event log, routing log and warnings;
  `Coordinator.Send` is proved equal to the pure chain function `Dispatch`.
  The file also holds the end-to-end query and ingestion chains and the
  duplicate-upload filter.

Everything external is a parameter of the model:

- The embedding model and the distance are an `Embedder` value of two
  functions.
- The language model is a function from prompt to text or error.
- The splitter is a function over (chunk size 1000, overlap 200, text).
- The format readers are the `Readers` functions.
- Each UUID and each save failure is drawn from `Env`, indexed by the number
  of messages routed before.

Behaviour of the code worth noting:

- **Trace ids in the envelope.** Every message built without an explicit
  trace id gets a fresh one. That includes the Coordinator's GENERATE_REQUEST
  and the response agent's GENERATE_RESPONSE. So the question's id survives
  to the UI in the payload's `trace_id` field, and not in the envelope
  (`App.QueryChain`).
- **Partial restart.** A restart after a failed records write restores the
  index without its records (`Retrieval.PartialLoadBreaksInvariant`). Every
  query against that state then raises (`Retrieval.PartialLoadQueryRaises`).
- **`zip` drops from the invariant.** An embed keeps one record per vector
  exactly when there is metadata for every chunk
  (`Retrieval.EmbedKeepsConsistentIff`).
- **Records grow before the add.** A dimension mismatch therefore leaves
  more records than vectors (`Retrieval.DimensionMismatchBreaksInvariant`).

## Model

| member | source | states |
|---|---|---|
| Text.Join | agents/response_agent.py:54 | `sep.join(xs)`; its meaning is stated by Text.JoinLength, Text.JoinSnoc, Text.JoinItemAt and Text.JoinSeparatorAt |
| Text.JoinLength | agents/response_agent.py:54 | n joined items have their total length plus n - 1 separators |
| Text.JoinSnoc | utils/document_parser.py:35 | appending an item to a non-empty list appends exactly one separator and that item to the joined string |
| Text.JoinItemAt | agents/response_agent.py:54 | every item occurs unchanged in the joined string, at the offset past all earlier items and their separators |
| Text.JoinSeparatorAt | agents/response_agent.py:54 | between consecutive items the joined string holds exactly one copy of the separator |
| Text.Lower | utils/document_parser.py:47 | lower-casing keeps the length and maps every character on its own |
| Text.LowerUpper | utils/document_parser.py:47 | a string and its upper-cased form lower-case to the same string, so `.PDF` and `.pdf` agree |
| Text.RFind | utils/document_parser.py:46 | the result is -1 or a position holding the character, and no later position holds it |
| OsPath.Splitext | utils/document_parser.py:46 | `os.path.splitext`; its meaning is stated by OsPath.SplitextSpec |
| OsPath.SplitextSpec | utils/document_parser.py:46 | root plus extension is the path; the extension is empty or one dot followed by neither dots nor slashes; it is non-empty exactly when the last component has a dot after a non-dot |
| OsPath.Basename | agents/ingestion_agent.py:30 | the base name holds no slash, is a suffix of the path, and is either the whole path or preceded by a slash, so it is the whole last component |
| OsPath.BasenameJoinPath | app.py:129 | the base name of an upload path is the uploaded file's own name |
| Mcp.ParseParticipant | utils/mcp.py:6-7 | a sender or receiver is accepted exactly when it is one of the five names, and it maps back to that name |
| Mcp.ParseType | utils/mcp.py:8-17 | a message type is accepted exactly when it is one of the eight kinds, and it maps back to that name |
| Mcp.ParticipantNameRoundTrip | utils/mcp.py:6-7 | every participant's name parses back to that participant |
| Mcp.TypeNameRoundTrip | utils/mcp.py:8-17 | every kind's name parses back to that kind |
| Mcp.Build | utils/mcp.py:45-53 | construction succeeds exactly when sender, receiver and type are in their sets and a given trace id is a string; it keeps the fields; without a trace id it uses the fresh UUID, which is non-empty; a failure names exactly the offending fields, `trace_id` among them exactly when a given trace id is not a string |
| Mcp.NewMessageValidates | utils/mcp.py:52 | a message built from literal names with no trace id validates, with the fresh UUID as its trace id |
| Mcp.ToDict | utils/mcp.py:55-56 | `to_dict`; its meaning is stated by Mcp.ToDictRoundTrip |
| Mcp.ToDictRoundTrip | utils/mcp.py:55-56 | `to_dict` has exactly the five fields, and validating them gives the message back |
| Mcp.PayloadNotValidated | utils/mcp.py:53 | the payload is not checked against the schemas: an INGEST_REQUEST with an empty payload validates although it lacks `file_paths` |
| DocumentParser.ChooseParser | utils/document_parser.py:46-60 | `.pdf`, `.docx`, `.pptx` and `.csv` each select their own parser and `.txt` and `.md` the plain-text one, exactly, after lower-casing; any other extension is rejected with "Unsupported file format: " followed by the extension |
| DocumentParser.CaseInsensitiveDispatch | utils/document_parser.py:46-47 | paths that agree once lower-cased get the same parser or the same error |
| DocumentParser.NoExtensionRejected | utils/document_parser.py:59-60 | a path with no extension is rejected, with the empty extension in the message |
| DocumentParser.ParsePdf | utils/document_parser.py:13-20 | the accumulation loop returns the page texts in page order, with a missing page text counted as empty |
| DocumentParser.PdfTextIsJoin | utils/document_parser.py:15-20 | the PDF text is the page texts joined with the empty separator |
| DocumentParser.PdfTextAppend | utils/document_parser.py:18-19 | the text of two runs of pages is the first run's text followed by the second's |
| DocumentParser.DocxText | utils/document_parser.py:22-25 | `parse_docx` over the paragraph texts; its meaning is stated by DocumentParser.DocxParagraphs |
| DocumentParser.DocxParagraphs | utils/document_parser.py:25 | the DOCX text holds every paragraph unchanged, in order, with exactly one newline between neighbours; its length is the paragraphs' characters plus n - 1 newlines |
| DocumentParser.CollectShapeTexts | utils/document_parser.py:30-34 | the nested loops collect the texts of the text-bearing shapes, slide by slide, in shape order |
| DocumentParser.ParsePptx | utils/document_parser.py:27-35 | the PPTX text is the collected shape texts joined by newlines |
| DocumentParser.SlideTextsMembers | utils/document_parser.py:32-34 | a text is collected from a slide exactly when some shape of that slide carries it |
| DocumentParser.ShapeTextsAppend | utils/document_parser.py:31-34 | the texts of two runs of slides are the first run's followed by the second's |
| DocumentParser.DocumentText | utils/document_parser.py:42-60 | the text `parse_document` returns or the error it raises; its meaning is stated by DocumentParser.DocumentTextByExtension, DocumentParser.ParseDocument and the join lemmas of each format |
| DocumentParser.DocumentTextByExtension | utils/document_parser.py:42-60 | for each extension, which reader runs and what is returned: a reader's error unchanged, PDF pages concatenated, DOCX paragraphs and PPTX shape texts joined with newlines, CSV and plain text as read; any other extension raises the unsupported-format error |
| DocumentParser.ParseDocument | utils/document_parser.py:42-60 | dispatch runs the chosen reader and its join; an unsupported extension raises the ValueError text |
| Ingestion.Tags | agents/ingestion_agent.py:30 | one `{"source": basename}` tag per chunk of a file |
| Ingestion.Collect | agents/ingestion_agent.py:26-35 | the aggregated chunk and metadata lists always have the same length, and every metadata entry is a dict |
| Ingestion.Aggregate | agents/ingestion_agent.py:23-35 | the agent's (all_chunks, all_metadata); its meaning is stated by Ingestion.Collect, Ingestion.AggregateFiles and the provenance lemmas, which hold for any reader and so for the agent's |
| Ingestion.AggregateFiles | agents/ingestion_agent.py:23-35 | the loop over `file_paths` builds exactly the aggregate of all successfully parsed and split files |
| Ingestion.IngestStep | agents/ingestion_agent.py:19-44 | other kinds are ignored; at most one EMBED_REQUEST is sent, to the Coordinator, and it conforms to the EMBED schema; it carries the aggregate and is sent exactly when some chunk was produced, and otherwise nothing is sent |
| Ingestion.ProcessMessage | agents/ingestion_agent.py:19-44 | the handler with its loop answers as `IngestStep` |
| Ingestion.AggregateAppend | agents/ingestion_agent.py:26-32 | the files of `a + b` contribute what `a` contributes followed by what `b` contributes |
| Ingestion.FailedFileContributesNothing | agents/ingestion_agent.py:27-35 | a file whose parse or split raises adds nothing, and the files around it are still processed |
| Ingestion.Origin | agents/ingestion_agent.py:26-32 | every aggregated chunk is chunk j of some file in the list, and its metadata is that file's source tag |
| Ingestion.OriginOrdered | agents/ingestion_agent.py:26-32 | chunks are ordered by file, then by the splitter's order within a file |
| Nearest.SortByDistanceRanked | agents/retrieval_agent.py:102 | ranking all positions orders them by ascending distance, ties by position |
| Nearest.NearestK | agents/retrieval_agent.py:101-102 | the positions `index.search` returns; its meaning is stated by Nearest.NearestKSpec |
| Nearest.NearestKSpec | agents/retrieval_agent.py:101-102 | the search gives k distinct positions in ascending rank, and no position left out ranks before one returned |
| Retrieval.Load | agents/retrieval_agent.py:32-39 | the startup load; its meaning is stated by Retrieval.SaveLoadRoundTrip, Retrieval.PartialLoadBreaksInvariant and the constructor |
| Retrieval.Save | agents/retrieval_agent.py:65-72 | the save after an embed; its meaning is stated by Retrieval.SaveLoadRoundTrip, Retrieval.SaveFaultOnlyTouchesDisk and Retrieval.EmbedAppends |
| Retrieval.SaveLoadRoundTrip | agents/retrieval_agent.py:32-39 | what a successful save writes, a restart loads back |
| Retrieval.PartialLoadBreaksInvariant | agents/retrieval_agent.py:33-39 | after a failed records write, a restart sets the index and keeps no records, which breaks the one-record-per-vector invariant |
| Retrieval.Zip | agents/retrieval_agent.py:62 | `zip` pairs chunk i with metadata i, up to the shorter length |
| Retrieval.IndexAdd | agents/retrieval_agent.py:63 | adding succeeds exactly when every vector has the index's dimension, and then appends the vectors |
| Retrieval.EmbedStep | agents/retrieval_agent.py:47-83 | the only message the EMBED branch sends is INGEST_COMPLETE to the Coordinator with an empty payload |
| Retrieval.ReplyTrace | agents/retrieval_agent.py:88-91 | the reply's trace id is the envelope id, else a truthy payload id, else the fresh UUID, and is never empty |
| Retrieval.RetrievedContext | agents/retrieval_agent.py:93-104 | the `retrieved_context` list or the error raised computing it; its meaning is stated by Retrieval.EmptyIndexAnswersNothing, Retrieval.QueryReturnsNearestTexts and Retrieval.PartialLoadQueryRaises |
| Retrieval.QueryStep | agents/retrieval_agent.py:85-119 | the RETRIEVAL branch answers the Coordinator with RETRIEVAL_RESPONSE under that trace id, with the same id in the payload and the query echoed; a missing query raises KeyError |
| Retrieval.RetrievalStep | agents/retrieval_agent.py:46-119 | only the two request kinds are answered, always to the Coordinator; only an embed changes state; records and vectors are only appended to, and an index keeps its dimension |
| Retrieval.QueryOutcome | agents/retrieval_agent.py:85-119 | a query with a trace id leaves the state alone and answers with the retrieved texts, or raises the error met retrieving them |
| Retrieval.EmptyEmbedIsNoOp | agents/retrieval_agent.py:53-55 | an EMBED_REQUEST with falsy chunks changes nothing and sends nothing |
| Retrieval.EmbedAppends | agents/retrieval_agent.py:57-83 | a fitting batch appends the zipped pairs to the records and the embeddings to the index; the disk holds what the save wrote, and INGEST_COMPLETE is sent even when the save fails |
| Retrieval.IndexCreatedWithFirstDimension | agents/retrieval_agent.py:57-59 | without an index, the first non-empty batch creates one with the dimension of its first embedding |
| Retrieval.EmbedKeepsConsistentIff | agents/retrieval_agent.py:61-63 | a successful embed keeps one record per vector exactly when there is metadata for every chunk |
| Retrieval.DimensionMismatchBreaksInvariant | agents/retrieval_agent.py:61-63 | a batch that does not fit the index raises after the records have grown, leaving the index unchanged and the invariant broken |
| Retrieval.SaveFaultOnlyTouchesDisk | agents/retrieval_agent.py:65-72 | a failing save changes neither the in-memory state nor the reply |
| Retrieval.EmptyIndexAnswersNothing | agents/retrieval_agent.py:93-95 | with no index or an empty one the context is empty, whatever the embedder and the query |
| Retrieval.QueryReturnsNearestTexts | agents/retrieval_agent.py:96-104 | on a consistent state the context is the texts of the min(3, n) nearest vectors, nearest first, and no vector left out is nearer than one returned |
| Retrieval.PartialLoadQueryRaises | agents/retrieval_agent.py:97-104 | an index restored without its records raises IndexError on every query of its dimension |
| Retrieval.RetrievalAgent.constructor | agents/retrieval_agent.py:14-39 | construction always succeeds, with the state the load yields |
| Retrieval.RetrievalAgent.InitializeIndex | agents/retrieval_agent.py:41-44 | an index is created only when there is none; records and disk are unchanged |
| Retrieval.RetrievalAgent.HandleEmbed | agents/retrieval_agent.py:47-83 | the field updates of the EMBED branch leave exactly the state, and return exactly the reply, of `EmbedStep` followed by the save |
| Retrieval.RetrievalAgent.ProcessMessage | agents/retrieval_agent.py:46-119 | the object's new state and reply are those of `RetrievalStep` |
| Response.Render | agents/response_agent.py:61 | a string query is inserted as it is, and None as "None" |
| Response.ContextValue | agents/response_agent.py:25-27 | the context is `context_chunks` unless it is absent or None, then `retrieved_context`, then `[]` |
| Response.StringsOf | agents/response_agent.py:54 | `join` accepts exactly an iterable of strings, and visits those strings |
| Response.Respond | agents/response_agent.py:20-50 | other kinds are ignored; a GENERATE_REQUEST gets exactly one GENERATE_RESPONSE to the Coordinator, with answer, sources and the request payload's trace id, unless the join raises on a non-string context |
| Response.NoContextAnswer | agents/response_agent.py:30-32 | without context the fixed apology is sent with no sources, whatever the model would say |
| Response.AnswerWithSources | agents/response_agent.py:36-39 | a model answer is passed on verbatim, with the context as its sources |
| Response.ModelErrorAnswer | agents/response_agent.py:40-42 | a model failure becomes the fixed prefix plus the error, with no sources |
| Response.StringContextAnswered | agents/response_agent.py:30-42 | a context of strings is always answered, with those strings or nothing as sources |
| Response.CreatePrompt | agents/response_agent.py:53-65 | `_create_prompt`, the source's template filled in; its meaning is stated by Response.PromptLayout and Response.ChunkBeforeQuestion |
| Response.PromptLayout | agents/response_agent.py:53-65 | the prompt is the head, the joined context, the question head, the query and the answer head, in that order |
| Response.ChunkBeforeQuestion | agents/response_agent.py:54-61 | every chunk appears in the prompt at its place in the joined context, before the question |
| App.GeneratePayload | app.py:59-63 | the GENERATE_REQUEST payload has exactly query, context_chunks (from retrieved_context, default `[]`) and trace_id, copied from the payload |
| App.OwnMessage | app.py:49-70 | the Coordinator's table: EMBED_REQUEST is forwarded unchanged to the retrieval agent; RETRIEVAL_RESPONSE is rewritten for the response agent; the two notifications become UI events only with a callback; other kinds are dropped |
| App.Agents | app.py:47-70 | the three handlers only answer with messages closer to the end of their chain, so every chain ends |
| App.Step | app.py:47-72 | one routing step only ever sends on a message closer to the end of its chain |
| App.StepFrame | app.py:36-72 | a step logs the message, keeps the registry and the callback, and changes the retrieval agent only when it is the receiver |
| App.Dispatch | app.py:36-72 | `send` followed to the end of its chain; its meaning is stated by App.DispatchLog, App.DispatchKeepsRegistrations, App.QueryChain, App.IngestChain and App.Coordinator.Send |
| App.DispatchLog | app.py:36-72 | a chain logs its messages after the earlier ones, the first message first, and at most four of them |
| App.DispatchKeepsRegistrations | app.py:36-72 | a chain changes neither the registered agents nor the callback |
| App.StepToIngestion | app.py:47-48 | a message for the registered ingestion agent goes to its handler alone |
| App.StepToRetrieval | app.py:47-48 | a message for the registered retrieval agent goes to its handler alone, which may change only its state |
| App.StepToResponse | app.py:47-48 | a message for the registered response agent goes to its handler alone |
| App.StepToCoordinator | app.py:49-70 | a message for the Coordinator is handled by its table alone |
| App.StepUnrouted | app.py:71-72 | a receiver with no agent gets one warning, no delivery and no exception |
| App.UnhandledReceiverWarns | app.py:71-72 | a message for the UI ends its chain with only the log entry and one warning |
| App.UnregisteredAgentWarns | app.py:47-72 | a message for any of the three agents while that agent is unregistered ends its chain with only the log entry and one warning naming the receiver |
| App.NotificationsNeedCallback | app.py:65-70 | without a callback, the notifications change nothing but the log |
| App.CallbackHop | app.py:65-70 | with a callback, INGEST_COMPLETE gives `("ingest_complete", {})` and GENERATE_RESPONSE gives `("final_answer", payload)`, and the chain ends |
| App.AnswerHop | app.py:47-70 | a GENERATE_REQUEST with a string context is answered, and the answer reaches the UI |
| App.GenerateHop | app.py:53-64 | a RETRIEVAL_RESPONSE is rewritten and its answer reaches the UI |
| App.QueryFailHop | app.py:47-48 | a retrieval that raises ends the chain with that error |
| App.QueryHop | app.py:47-64 | a retrieval answered with texts leads to exactly one answer event |
| App.QueryChain | app.py:36-72 | end to end, a question never changes the index and prints no warning; a failed retrieval stops with its error; otherwise four messages are routed and one `final_answer` event arrives, carrying the question's trace id and, as sources, the retrieved texts or nothing |
| App.EmbedHop | app.py:65-67 | an INGEST_COMPLETE from the retrieval agent reaches the UI, and the agent's new state is kept |
| App.ForwardEmbedHop | app.py:51-52 | an EMBED_REQUEST to the Coordinator is forwarded with its payload unchanged |
| App.SilentHop | app.py:47-48 | a message the ingestion agent answers with nothing ends the chain after routing it |
| App.IngestHop | app.py:47-67 | an ingestion answered with an EMBED_REQUEST that is then acknowledged gives four routed messages and one `ingest_complete` event |
| App.IngestChain | app.py:36-72 | end to end, an upload with no chunks routes only its request; with chunks that fit the index, four messages are routed, every chunk is stored with its tag and none is dropped by `zip`, the embeddings are appended, the invariant is kept, and one `ingest_complete` event arrives |
| App.Coordinator.constructor | app.py:26-28 | a new Coordinator has no agents and no callback |
| App.Coordinator.RegisterAgent | app.py:30-31 | the agent is filed under its name, replacing an earlier one of that name; nothing else changes |
| App.Coordinator.SetUiCallback | app.py:33-34 | only the callback changes |
| App.Coordinator.HandleOwn | app.py:49-70 | the object's own handling changes only the events and replies as the table says |
| App.Coordinator.DeliverToIngestion | app.py:47-48 | delivery to the ingestion agent logs the message and answers as its handler |
| App.Coordinator.DeliverToRetrieval | app.py:47-48 | delivery to the retrieval agent changes that object as its handler says |
| App.Coordinator.DeliverToResponse | app.py:47-48 | delivery to the response agent logs the message and answers as its handler |
| App.Coordinator.DeliverToSelf | app.py:49-70 | a message for the Coordinator goes through its table |
| App.Coordinator.DeliverNowhere | app.py:71-72 | an unroutable message adds only a log entry and a warning |
| App.Coordinator.DeliverToAgent | app.py:47-48 | a registered receiver's message goes to exactly that agent |
| App.Coordinator.Deliver | app.py:47-72 | one delivery on the object graph is one `Step` of the model |
| App.Coordinator.Send | app.py:36-72 | `send` on the objects, with its re-entrant recursion, ends in exactly the state and outcome of `Dispatch` |
| App.Uploads | app.py:128-135 | every upload is written or skipped; afterwards every path exists; the written paths are exactly the batch's paths that did not exist, each written once |
| App.UploadDecision | app.py:129-135 | an upload is skipped exactly when its path existed before or was written earlier in the same batch |
| App.UploadsInOrder | app.py:128-135 | written and skipped lists keep upload order |
| App.FilterUploads | app.py:126-135 | the upload loop computes `Uploads` |
| App.IngestRequestFor | app.py:139-150 | an INGEST_REQUEST for the written paths is built exactly when some file was written |
| App.UploadBatch | app.py:124-152 | after the batch is filtered, nothing is sent when nothing was written; otherwise the Coordinator ends as `Dispatch` of the ingestion request says |

## Left out

- The Streamlit interface is not modelled: page layout, session flags, chat
  rendering, the warnings and info boxes of the sidebar, and `st.rerun`. The
  UI callback is reduced to whether it is set, plus the list of events it
  would receive.
- `print` logging is left out, including the JSON dump before every routing.
  Only the warning for an unroutable receiver is kept, as a list of strings.
- External services and float arithmetic are abstracted:
  - The SentenceTransformer model and FAISS's float L2 distance are an
    abstract `Embedder`.
  - The search ranks by a real-valued distance and breaks ties by position.
  - The Gemini model is a function.
  - `RecursiveCharacterTextSplitter` is a function of (1000, 200, text), so
    exact chunk counts are not modelled.
- The file formats are not modelled. The pypdf, python-docx, python-pptx and
  pandas readers, `parse_txt` and `parse_csv` are abstract readers; only the
  joins over their outputs are modelled.
- The FAISS and pickle persistence formats are not modelled. The two files
  are values that can be missing, unreadable or hold a value.
- Credentials are not modelled: `genai.configure`, `GOOGLE_API_KEY` and its
  exception in the constructor.
- Uploaded file contents, write failures and the creation of `uploads` are
  not modelled. The disk is the set of existing paths.
- `agents/base_agent.py` is folded into the agents. `send_message` is each
  handler's last statement, so a handler returns the message it would send,
  and the Coordinator sends it.
- Text.Lower: only ASCII letters are case-folded. Python's Unicode `lower()`
  is not modelled.
- Mcp.Iterate: iterating over a dict is treated as a raise, not as iterating
  its keys in insertion order. This covers a dict used as `file_paths` or
  `metadata`, and a dict used as the response agent's context, which
  Response.StringsOf rejects where `str.join` would join the dict's keys.
- Response.Render: a query that is neither a string nor None renders as a
  fixed placeholder, not as Python's `str()` of the value.
- Retrieval.QueryStep: a non-string query raises a TypeError in the model.
  The source hands it to the embedding model, whose behaviour is not
  modelled.
- Response.PromptLayout and Response.ChunkBeforeQuestion are proved for any
  `PromptTemplate`. The one the source uses is `Response.Template`.
- Ingestion.AggregateAppend, Ingestion.FailedFileContributesNothing,
  Ingestion.Origin and Ingestion.OriginOrdered are proved for any reader. The
  agent's reader is `Ingestion.Chunking(agent)`, and
  `Ingestion.Aggregate(agent, ps)` is `Collect(Chunking(agent), ps)`.
- App.AnswerHop, App.GenerateHop, App.QueryHop, App.EmbedHop,
  App.ForwardEmbedHop and App.IngestHop are stated for any handlers, with the
  handler outcome they need as a precondition. The pipeline's handlers are
  pinned in App.QueryChain and App.IngestChain.
- App.Step: its contract states only that any message it sends on is closer
  to the end of the chain. What one step changes is stated by App.StepFrame
  and the App.StepTo* lemmas.
- App.IngestChain: a batch whose embeddings do not fit the index is covered
  by Retrieval.DimensionMismatchBreaksInvariant for the single step, not end
  to end.
- The payload schemas of `utils/mcp.py` are declarations (`Mcp.Fields`,
  `Mcp.Conforms`). Since the source never validates against them, the only
  property stated about them is that validation ignores them.
