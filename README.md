# notebookllm-lite core, modelled in Dafny

notebookllm-lite is a small FastAPI back end for a "notebook" assistant on
Google Cloud. It creates Discovery Engine search engines, each with its own
data store. It records the engines in a local SQLite file. It takes document
uploads, checks their extension, writes them to a per-engine Cloud Storage
bucket and imports them into the data store. It turns Discovery Engine search
replies into a query response. It also builds an overview "mind map" of an
engine's documents: it collects text from a search, has an OpenAI model
propose a tree of topics, flattens the tree into nodes and edges and renders
a Mermaid diagram.

The remote services are not called here. Each remote call is a parameter of
type `Reply<T>`: either `Ok(value)` or `Fail(NotFound | AlreadyExists |
ApiError(code))`. The class `Remote.Services` keeps the remote state the
services change: data stores, engines, buckets, blobs and the log of
state-changing requests. Each step machine has two parts:

- a pure `…Outcome` function, which states what the Python function returns
  or raises and carries the properties;
- an imperative method, which does the calls in the source's order and proves
  that its result equals the outcome. It also proves the exact request log and
  the new remote state.

The SQLite store is the class `Database.MetadataStore`, with the two tables
as sequences and their autoincrement counters. Errors are modelled as Python
does them: an exception raised inside an `except NotFound:` or
`except AlreadyExists:` handler leaves the `try` unwrapped, and the `except
Exception` clause of the same `try` never sees it.

Modules, one per source file: `Text` (the `str` operations used), `Errors`,
`Remote`, `Database`, `DatastoreService`, `GcsService`, `CreateEngine`,
`IngestionService`, `IngestDocument`, `SearchService`, `MindMap`.

## Model

| member | source | states |
|---|---|---|
| Text.Strip | services/mindmap.py:63 | `strip()` yields a text whose first and last characters are not white space, and is no longer than its input |
| Text.StripTrims | services/mindmap.py:63 | `strip()` removes only the white space around the text: the result is a piece of the input with nothing but white space before and after it |
| Text.StripIdempotent | services/mindmap.py:164 | stripping twice is stripping once |
| Text.StripKeepsOut | services/mindmap.py:164 | stripping adds no character that was absent from the text |
| Text.LastIndex | routers/ingest_document.py:69 | `rfind`: -1 or an index holding the character, and no later index holds it |
| Text.NatToStringInjective | services/gcs_service.py:73-74 | distinct timestamps print as distinct decimal strings |
| Text.SplitOnJoin | services/mindmap.py:208 | splitting a newline join of lines that hold no newline gives the lines back |
| Database.FindEngine | services/database.py:94-113 | the row found has the engine id asked for and is in the table; `None` means no row has that id |
| Database.FindEngineAppend | services/database.py:62-91 | after appending a row, an earlier row with the same id is still found first |
| Database.InsertEngine | services/database.py:62-91 | the schema's constraints (unique `engine_id`, increasing ids) are kept; a new id gets the row id `lastId + 1` and a known one returns its row's id, changing nothing; afterwards the engine is found under the id returned |
| Database.SaveEngineIdempotent | services/database.py:86-91 | saving an engine id a second time, with any name or data store, returns the first id and keeps the first row |
| Database.SharedDataStoreAllowed | services/database.py:7-41 | two engines can be saved with one data store id: `data_store_id` is not a key |
| Database.AppendDocument | services/database.py:135-159 | a document always gets a new row with the next id, even for a known `gcs_uri`; the table's id order is kept |
| Database.InsertNewestFirst | services/database.py:116-132 | inserting into a newest-first list keeps it newest first and adds exactly that row |
| Database.SortNewestFirst | services/database.py:116-132 | `ORDER BY created_at DESC`: ordered by non-increasing `created_at` and a permutation of the rows |
| Database.MetadataStore.constructor | services/database.py:7-41 | a new database has both tables empty and valid |
| Database.MetadataStore.SaveEngine | services/database.py:62-91 | a database error raises and changes nothing; otherwise the engines table becomes `InsertEngine`'s and the documents table is unchanged |
| Database.MetadataStore.GetEngine | services/database.py:94-113 | `Some` exactly when some row has the id, and then it is the only row with that id |
| Database.MetadataStore.GetAllEngines | services/database.py:116-132 | every engine, newest first, as a permutation of the table |
| Database.MetadataStore.SaveDocument | services/database.py:135-159 | a database error changes nothing; otherwise one row is appended with the next id, which is returned |
| DatastoreService.DataStoreOutcome | services/datastore_service.py:5-67 | an existing store is reused; "created" exactly when a create was issued and succeeded; the race on `AlreadyExists` is answered by a second lookup; other create errors become a `RuntimeError`; a lookup error other than `NotFound` escapes unwrapped; a returned id is the id asked for |
| DatastoreService.ReturnedMeansStoreSeen | services/datastore_service.py:19-66 | a returned result means the store was found, created, or fetched after the race |
| DatastoreService.CreateDataStore | services/datastore_service.py:5-67 | result is `DataStoreOutcome`; a create request is logged exactly when the lookup said `NotFound`; the store set grows only by a successful create |
| GcsService.BucketName | services/gcs_service.py:22-23 | a prefix of `engine_id-data_store_id` of at most 63 characters, with no upper-case letter and no `_` |
| GcsService.BucketNameUncut | services/gcs_service.py:22-23 | a name that fits in 63 characters is kept whole and ends with the data store id, lowered and with `_` as `-` |
| GcsService.BucketNameIgnoresDataStoreOfLongEngineId | services/gcs_service.py:23 | an engine id of 63 or more characters makes the bucket name ignore the data store id |
| GcsService.BucketLocation | services/gcs_service.py:38-41 | `global` maps to `us`; any other location is lowered |
| GcsService.BucketLocationCaseSensitive | services/gcs_service.py:38 | `GLOBAL` is not treated as `global`: it becomes the location `global` |
| GcsService.BucketOutcome | services/gcs_service.py:7-48 | returns the bucket name exactly when the lookup succeeded, or it said `NotFound` and the create succeeded; other lookup errors become a `RuntimeError`; a create error escapes unwrapped |
| GcsService.GetOrCreateBucket | services/gcs_service.py:7-48 | result is `BucketOutcome`; a create request is logged only after `NotFound`; only a successful create adds the bucket, at `BucketLocation` |
| GcsService.BlobNameRoundTrip | services/gcs_service.py:73-74 | `documents/{timestamp}_{filename}` parses back to its timestamp and file name |
| GcsService.GcsUriRoundTrip | services/gcs_service.py:82 | `gs://bucket/blob` parses back to its bucket and blob name |
| GcsService.UploadUriInjective | services/gcs_service.py:73-84 | two uploads get the same URI only for the same bucket, timestamp and file name |
| GcsService.UploadOutcome | services/gcs_service.py:51-87 | the URI is returned exactly when the upload succeeded; failure is a `RuntimeError` quoting the error |
| GcsService.UploadUriParsesBack | services/gcs_service.py:74-84 | the URI a successful upload returns parses back to the bucket and the blob written |
| GcsService.UploadFileToGcs | services/gcs_service.py:51-87 | result is `UploadOutcome`; one upload request is logged; the blob is stored only on success |
| CreateEngine.KeepIdChars | services/create_engine.py:36 | only allowed characters come out; a text made only of them is kept whole; one character is kept exactly when it is allowed |
| CreateEngine.KeepIdCharsAppend | services/create_engine.py:36 | filtering distributes over concatenation, so with the one-character case each character is kept or dropped in place and order is kept |
| CreateEngine.SanitizeEngineName | services/create_engine.py:35-36 | the sanitized name has only lower-case letters, digits and `-`, and is no longer than the name |
| CreateEngine.SanitizeKeepsIdChars | services/create_engine.py:35-36 | a name already made of id characters is unchanged |
| CreateEngine.SanitizeIdempotent | services/create_engine.py:35-36 | sanitizing twice is sanitizing once |
| CreateEngine.SanitizeAppend | services/create_engine.py:35-36 | sanitizing works character by character: it distributes over concatenation |
| CreateEngine.SanitizeChar | services/create_engine.py:35-36 | space and `_` become `-`; capitals are lowered; id characters are kept; everything else is dropped |
| CreateEngine.EngineId | services/create_engine.py:37 | the sanitized name, `-`, then the first 8 characters of the uuid text |
| CreateEngine.DataStoreId | services/create_engine.py:40 | `ds-` followed by the whole uuid |
| CreateEngine.EngineIdIsSanitized | services/create_engine.py:35-37 | an engine id built from a uuid text is itself a sanitized name |
| CreateEngine.EngineIdsDifferByUuid | services/create_engine.py:37 | names that sanitize alike still get distinct engine ids when the uuids' first 8 characters differ |
| CreateEngine.CreateEngineOutcome | services/create_engine.py:14-129 | client failure and data store failure become `RuntimeError`s; success is 201 after a create or 200 after `AlreadyExists` and a fetch, with the engine id and data store id generated; `NotFound` after `AlreadyExists` is a `RuntimeError`; other errors and database errors escape unwrapped |
| CreateEngine.ReturnedEngineWasRequested | services/create_engine.py:47-121 | a returned engine was requested under its generated id with the data store that was obtained |
| CreateEngine.CreateEnterpriseEngine | services/create_engine.py:14-129 | result is `CreateEngineOutcome`; the request log grows by exactly `CreateEngineRequests`; a data store is added only by a successful data store create and an engine only by a successful engine create; on success the engines table is `InsertEngine`'s for the generated ids; documents are untouched |
| CreateEngine.CreateAndSaveEngine | services/create_engine.py:55-129 | after the data store step: one create request; the engine is recorded remotely only on a successful create; the engines table gains the row only when the call returns; data stores, buckets, blobs and documents are untouched |
| CreateEngine.GetEnginesDetails | services/create_engine.py:132-179 | 404 exactly when the database lacks the engine; the row is reported as stored; the remote part is present exactly when the API found the engine, otherwise there is a warning; every other failure is a 500 |
| CreateEngine.SavedEngineHasDetails | services/create_engine.py:132-179 | after a new engine is saved, `get_engines_details` never answers 404 for it and reports exactly the row saved, under its new row id |
| IngestionService.OperationNameFor | services/ingestion_service.py:69 | the operation name is reported exactly when some documents failed |
| IngestionService.ImportOutcome | services/ingestion_service.py:51-73 | counts are returned exactly when the import succeeded; a failure is a `RuntimeError` quoting the error |
| IngestionService.IngestDocumentFromGcs | services/ingestion_service.py:13-73 | result is `ImportOutcome`; one import request for the URI is logged; nothing else changes |
| IngestionService.IngestionOutcome | services/ingestion_service.py:77-147 | every failure is an HTTP error: 400 exactly for an empty file past the bucket step, otherwise 500 with the failed step named; success names the bucket and blob written and the import's counts |
| IngestionService.ImportFollowsUpload | services/ingestion_service.py:94-131 | an import is only requested right after the upload of a non-empty file to the URI it imports |
| IngestionService.Ingestion | services/ingestion_service.py:77-147 | result is `IngestionOutcome`; the log grows by `IngestionRequests`; the blob is stored exactly when the import is reached |
| IngestionService.UploadAndImport | services/ingestion_service.py:93-147 | an empty file raises before any request; otherwise an upload request, then an import request only after a successful upload; the blob is stored only by a successful upload |
| IngestDocument.Ext | routers/ingest_document.py:69 | the extension is empty or a dot-led suffix of the last path component |
| IngestDocument.ExtOfPath | routers/ingest_document.py:69 | in any path, a last component `stem.x` whose stem is not all dots has the extension `.x` |
| IngestDocument.ExtOfDotsOnlyStem | routers/ingest_document.py:69 | a last component made only of dots before its final dot (`..pdf`, `d/.pdf`) has no extension |
| IngestDocument.ExtWithoutDot | routers/ingest_document.py:69 | a name without a dot has no extension |
| IngestDocument.UpperCaseExtensionAccepted | routers/ingest_document.py:68-75 | `report.PDF` is accepted, with the extension `.pdf` |
| IngestDocument.ValidateUpload | routers/ingest_document.py:60-75 | a missing or empty file name gives 400 "No file provided"; otherwise accepted exactly when the lowered extension is allowed; refusals are always 400 |
| IngestDocument.AcceptedNameEndsWithExtension | routers/ingest_document.py:68-75 | an accepted name, lowered, ends with its allowed extension |
| IngestDocument.LastIndexUnique | routers/ingest_document.py:69 | the last-index property determines `rfind`'s result |
| IngestDocument.ExtLower | routers/ingest_document.py:69 | lowering the name and taking the extension commute |
| IngestDocument.ValidateIgnoresCase | routers/ingest_document.py:68-75 | whether a name is accepted does not depend on the case of its letters |
| IngestDocument.ExtOfDoubleSuffix | routers/ingest_document.py:69 | only the last suffix is the extension |
| IngestDocument.ExtOfHiddenFile | routers/ingest_document.py:69 | a leading dot starts no extension, so `.pdf` is refused |
| IngestDocument.ExtOfDottedDirectory | routers/ingest_document.py:69 | a dot in a directory name is no extension |
| IngestDocument.AsHttpFailure | routers/ingest_document.py:80-85 | HTTP errors pass through; anything else becomes a 500 |
| IngestDocument.EndpointOutcome | routers/ingest_document.py:23-85 | a refused upload is answered by its 400; otherwise the answer is `ingestion`'s; the endpoint raises only HTTP errors |
| IngestDocument.IngestDocumentEndpoint | routers/ingest_document.py:23-85 | result is `EndpointOutcome`; a refused upload sends no request and changes no bucket or blob; an accepted one logs `IngestionRequests` and changes buckets and blobs exactly as `ingestion` does |
| SearchService.ResultIgnoresSegments | services/search_service.py:188-206 | the extractive segments read from a hit never reach its result |
| SearchService.HitsOfAppend | services/search_service.py:171 | results of several pages are those of each page in turn |
| SearchService.LoadSearchResponse | services/search_service.py:133-212 | the summary is the first page's or empty; one citation per API citation with its span, all citing the first reference; one result per hit of every page, in order, with title and link defaults |
| SearchService.PageResults | services/search_service.py:171-206 | the results of one page, one per hit, in order |
| SearchService.ResultFor | services/search_service.py:172-206 | one hit becomes its result: title falling back to the document name, link to `""`, every extractive answer; segments are dropped |
| SearchService.IngestDocumentsServiceAsWritten | services/search_service.py:97-128 | as written the helper always raises: a validation error on success, the remote error otherwise |
| SearchService.AsWrittenLosesSuccessfulImport | services/search_service.py:124-128 | a successful import with no failures still ends in a validation error |
| SearchService.IngestDocumentsService | services/search_service.py:118-128 | corrected: counts exactly when the import succeeded; the operation name exactly when some documents failed |
| SearchService.IngestDocumentsServiceAgreesWithImport | services/ingestion_service.py:66-70 | the corrected helper reports what the import step of `ingestion` reports |
| MindMap.PreorderAppend | services/mindmap.py:181-196 | the pre-order listing of a forest is that of its parts in turn |
| MindMap.FlattenIsPreorder | services/mindmap.py:176-197 | the flattened nodes are the pre-order listing of the tree |
| MindMap.EdgesOfAppend | services/mindmap.py:191-192 | parent edges of a concatenation are those of each part in turn |
| MindMap.RelsAreParentEdges | services/mindmap.py:191-196 | the relationships are exactly one `contains` edge per node with a truthy parent id, in node order |
| MindMap.EdgeCount | services/mindmap.py:191-196 | with non-empty ids there is one edge per node except the top-level nodes of an untruthy parent |
| MindMap.ParentsComeFirst | services/mindmap.py:181-196 | every node's parent is the given parent or a node listed earlier |
| MindMap.FlattenStep | services/mindmap.py:181-196 | flattening one more branch appends its node, its edge and its subtree |
| MindMap.FlattenMindMapTree | services/mindmap.py:176-197 | the loop-and-recursion returns the specified pre-order nodes and parent edges |
| MindMap.FlattenBranch | services/mindmap.py:182-197 | one branch gives its node, its edge from a truthy parent, then its flattened subtree |
| MindMap.EscapeLabel | services/mindmap.py:204 | no double quote remains; every other character is kept in place |
| MindMap.CreateMermaidDiagram | services/mindmap.py:200-208 | the diagram is the header, one line per node, one line per relationship, joined by newlines |
| MindMap.MermaidReadsBack | services/mindmap.py:200-208 | split at newlines, the diagram gives back the header, each node line and each edge line in order |
| MindMap.NoFenceToDrop | services/mindmap.py:157-162 | a reply without backticks loses nothing to the fence checks |
| MindMap.UnfencedReplyIsStripped | services/mindmap.py:154-164 | a reply without backticks is only stripped |
| MindMap.InsideFence | services/mindmap.py:159-162 | a fenced body loses exactly the fences |
| MindMap.FencedIsStripped | services/mindmap.py:154 | a fenced reply has no white space to strip at its ends |
| MindMap.OpeningFenceDropped | services/mindmap.py:157-160 | the opening fence is dropped and the closing one kept for the next check |
| MindMap.PlainFenceIsNotJson | services/mindmap.py:157 | a plain fence whose body does not start with `json` is not taken for a JSON fence |
| MindMap.JsonFenceRemoved | services/mindmap.py:154-164 | a JSON-fenced reply parses as its stripped body |
| MindMap.PlainFenceRemoved | services/mindmap.py:154-164 | a plain-fenced reply parses as its stripped body |
| MindMap.JsonTagDroppedFromPlainFence | services/mindmap.py:157-164 | the `json` tag after a fence is dropped with it |
| MindMap.GenerateMindmapWithOpenai | services/mindmap.py:154-173 | a model error propagates; an unparsable reply is a `ValueError`; otherwise the parsed unfenced reply |
| MindMap.Dedup | services/mindmap.py:75 | `dict.fromkeys`: same members, no repeats, no longer than the input |
| MindMap.DedupOfDistinct | services/mindmap.py:75 | a list without repeats is kept as is, in order |
| MindMap.DedupIdempotent | services/mindmap.py:75 | removing repeats twice is doing it once |
| MindMap.DedupPrefix | services/mindmap.py:75 | first occurrences keep their order: the result for a prefix is a prefix |
| MindMap.ExtractTexts | services/mindmap.py:60-69 | only non-empty stripped texts are kept |
| MindMap.CleanSnippetWithoutTags | services/mindmap.py:72 | a snippet without tags is only stripped |
| MindMap.SnippetTexts | services/mindmap.py:71-73 | only non-empty cleaned snippets are kept, with `result.snippets` taken as readable |
| MindMap.Pieces | services/mindmap.py:59-73 | every piece is non-empty |
| MindMap.JoinNonEmpty | services/mindmap.py:76 | a section whose first piece is non-empty has non-empty content |
| MindMap.SectionOf | services/mindmap.py:57-76 | a hit yields a section exactly when it has text, titled with its title, with non-empty content |
| MindMap.SectionsOf | services/mindmap.py:55-76 | at most one section per hit, each with content |
| MindMap.AllSilentStep | services/mindmap.py:55-74 | only the last hit decides whether one more hit adds text |
| MindMap.NoSectionsIff | services/mindmap.py:74-76 | no section exactly when no hit has any text |
| MindMap.SectionTitlesAreSources | services/mindmap.py:57-58 | every section's title is among the sources |
| MindMap.SourcesStep | services/mindmap.py:58 | each hit adds its title to the sources, with or without text |
| MindMap.GetDocumentContent | services/mindmap.py:41-81 | a search error propagates; otherwise the sections per hit, the titles of all hits and the section count |
| MindMap.HitSection | services/mindmap.py:56-76 | one hit gives its title, and a section exactly when it has some text |
| MindMap.ExtractTextsStep | services/mindmap.py:62-64 | one more extract adds its stripped text when non-empty |
| MindMap.SnippetTextsStep | services/mindmap.py:71-73 | one more snippet adds its cleaned text when non-empty |
| MindMap.CollectPieces | services/mindmap.py:59-73 | the three loops build the specified pieces: segments, answers, and snippets (taken as readable) only when both gave nothing |
| MindMap.AppendExtractTexts | services/mindmap.py:60-69 | the stripped, non-empty contents of the extracts are appended in order |
| MindMap.CleanSnippets | services/mindmap.py:70-73 | the snippets, stripped and without `<b>` tags, keeping the non-empty ones in order, with `result.snippets` taken as readable |
| MindMap.CentralEdgesStep | services/mindmap.py:251-252 | inserting at the front for one more branch puts its edge first |
| MindMap.MindMapOutcome | services/mindmap.py:211-271 | search errors, no sections and model errors each become their own `ValueError`; otherwise the assembled map with the number of distinct sources |
| MindMap.AssembleMindMap | services/mindmap.py:243-256 | flattening, the central edges inserted at the front, and the diagram give the specified map |
| MindMap.InsertCentralEdges | services/mindmap.py:251-252 | inserting at the front once per branch puts one central edge per branch, in reverse branch order, before the tree edges |
| MindMap.GenerateMindMap | services/mindmap.py:211-271 | result is `MindMapOutcome` |
| MindMap.CentralNodeFirst | services/mindmap.py:244-254 | the central node `0`, at level 0 with no parent and labelled with the central topic, comes first; the other nodes are the tree's pre-order listing; `total_nodes` is the number of nodes |
| MindMap.OneEdgePerNode | services/mindmap.py:243-269 | with non-empty ids there are exactly `total_nodes - 1` relationships |
| MindMap.TopLevelListed | services/mindmap.py:181-190 | every top-level branch appears among the flattened nodes |
| MindMap.EdgesOfMembers | services/mindmap.py:191-192 | every parent edge leads from a node's parent to that node |
| MindMap.EdgesJoinNodes | services/mindmap.py:243-256 | every relationship starts and ends at nodes of the map: no edge points outside it |
| MindMap.GraphEdgesJoin | services/mindmap.py:243-256 | with the central node in front of the flattened tree, each central and tree edge starts and ends at one of those nodes |

## Left out

- Remote I/O: the Discovery Engine, Cloud Storage and OpenAI calls are modelled as given replies; their request payloads beyond the identifiers are not modelled.
- Waiting: `operation.result(timeout=…)`, `time.sleep(30)` and the mind map's `generation_time` are not modelled; the upload timestamp is a parameter.
- Randomness: both `uuid.uuid4()` values are parameters.
- The OpenAI prompt and request in `generate_mindmap_with_openai` are not modelled; only the reply handling is. `json.loads` is the parameter `parse`.
- A branch missing `id` or `label`, or a JSON document that is not an object, raises `KeyError` or `AttributeError` in the source; branches are modelled as typed records, so those errors are not modelled.
- `level`, `description`, `key_points` and `children` defaults of a branch are modelled, as `flatten_mind_map_tree` passes them explicitly; the values are taken to have the types the model gives them (an integer level, a text description, a list of key points).
- `MindMapNode` and `MindMapResponse`, which services/mindmap.py:11 imports, are declared nowhere in `schemas/document.py`, so that import fails as the repository stands. The model assumes a `MindMapNode` with the fields `flatten_mind_map_tree` passes. It also assumes that the central node's omitted fields default to no parent and no key points. Likewise services/gcs_service.py:5 imports `get_document_by_id` and `delete_document_from_db`, which `services/database.py` does not define, so `gcs_service`, `ingestion_service` and the `/ingest-document` router fail at import. The model treats every module as importable; the import failures are not modelled.
- `IngestDocument.Ext` follows POSIX `os.path.splitext`, with `/` as the only separator; the Windows rules (`\` and drive letters) are not modelled.
- Failures to build `storage.Client`, `DocumentServiceClient` or `SearchServiceClient` are not modelled; the engine and data store client failures are.
- `get_document_content` reads the first page of the search reply only; the pager's later pages are not modelled there.
- The `sources` list is modelled as the set it is built from; only its size is used.
- Text operations are ASCII only: `lower`, `isalnum` and `isspace` on non-ASCII characters are not modelled.
- Credentials, settings, `main.py`, `service.py` and the other routers are not part of this model.
- Deleting engines, background tasks, retries and concurrency are not part of this model.
- The connection handling of `get_db_connection` is modelled as all-or-nothing writes; SQLite itself is not modelled.
- MindMap.UnfencedReplyIsStripped, MindMap.JsonFenceRemoved, MindMap.PlainFenceRemoved, MindMap.JsonTagDroppedFromPlainFence: stated for bodies that do not start with a backtick (and, for the unfenced case, contain none); replies with nested fences are not covered.
- MindMap.CollectPieces, MindMap.CleanSnippets: the model assumes that `result.snippets` (services/mindmap.py:71) can be read and holds each snippet's text. The search client's `SearchResult` message may not have that field; elsewhere the hit's fields are read only through `derived_struct_data`. If the field is missing, the read raises `AttributeError`. `get_document_content` re-raises it (services/mindmap.py:79-81), `generate_mind_map` turns it into "Failed to retrieve documents" (services/mindmap.py:227-228), and that happens for every hit whose segments and answers give no text. The client library is not part of this model, so that failure is not modelled; the snippet fallback is modelled as the code reads it. MindMap.SnippetTexts shares this assumption.
- MindMap.OneEdgePerNode: stated only when every branch id is non-empty, because an empty id is falsy and cuts its children's edges.

## Findings

| source | as written | input that shows it | evidently intended | confidence | as-written member | corrected member |
|---|---|---|---|---|---|---|
| services/search_service.py:124-128 | `ingest_documents_service` builds `IngestResponse` from the counts and the operation name only, but the final declaration of `IngestResponse` (schemas/document.py:69-76) also requires `bucket_name`, `gcs_uri` and `message`, so the constructor raises a validation error | an import reporting 1 success and 0 failures | return the counts, with the operation name only after failures | not executed | SearchService.IngestDocumentsServiceAsWritten, SearchService.AsWrittenLosesSuccessfulImport | SearchService.IngestDocumentsService, SearchService.IngestDocumentsServiceAgreesWithImport |
