# Document assistant backend: index registry, document table and request helpers

This project models the logic of a FastAPI service that stores uploaded
documents, builds a llama_index vector index for each document on demand, and
answers questions with page-level citations. All documents share one vector
store.

- **Index registry** (`Indexing`). A storage context is a docstore plus an
  index store keyed by index id. One copy is persisted at the bucket
  location. Another is held by a TTL cache whose key is the constant
  `"global_storage_context"`, with a 300 s TTL on an integer clock.
  `create_index_from_doc` is a state machine. It gets the cached context. If
  nothing is persisted yet, it persists an empty context. It then loads the
  index named `str(document.id)`, or, when that id is not registered, takes
  the build path: reload the persisted context, fetch and tag the pages, add
  them to the docstore, build and name the index, and persist. The state is
  the value `EngineState`; the pure transition functions `CacheGet` and
  `CreateIndexStep` specify it; the class `IndexingEngine` updates its fields
  in place and is proved equal to those functions. The query engine is an
  exact-match metadata filter plus a top-k bound over candidates in
  similarity order.
- **Document table** (`DocumentService`). The table is a sequence of rows
  with a unique, non-null URL. It covers the conditional `fetch_documents`,
  the insert-or-update keyed on the URL, and the `"http"` guard of
  `upsert_single_document`. The class `DocumentTable` holds the rows and
  updates them in place.
- **Request helpers.** These are the file-name allow-list and the
  reject-before-write upload route (`DocumentsRouter`), the S3 URL
  (`FileUtils`), the citation record and the UUID validators (`Schemas`,
  using Python's `int()` in `PyInt` and `str(UUID)` in `Uuids`), and the
  helpers in the entry module (`ErrorHandlers`). The entry-module helpers are
  the validation-error message loop, the HTTP error body, the migration-head
  comparison and the database-URL driver rewrite.

Inputs from the outside world are parameters. This covers the outcome of
downloading and reading a PDF (`fetched`), the id the database would generate
for a new row (`freshId`), the uploaded bytes, the clock (`IndexingEngine.Tick`),
and the candidates a similarity search ranks (`ranked`).

The model follows the code, including what the code does not do:
- There is no lock or single-flight guard around cache misses or builds.
- A failed build is not rolled back.
- Citations are not put in any order.
- Top-k is fixed at 3.
- Errors are not sorted into distinct kinds.
- A repeat call for a document within the TTL window rebuilds its index. The
  build path updates a freshly loaded context, never the cached one, so the
  vector store receives the document's nodes again
  (`Indexing.RepeatWithinTtlRebuilds`).

The fields `name` and `assistant_id` of `DocumentSchema` are declared
`Optional[str]` without a default. The code calls `model_dump`, which only
pydantic 2 has, and under pydantic 2 such a field must be given, though it may
be None. `Schemas.NewDocumentSchema` models that. As a result,
`upsert_single_document` as written rejects every URL that passes its guard
(`DocumentService.UpsertSingleAsWritten`). Under pydantic 1 it would fail one
line later, at `model_dump`. The rest of the model uses the evidently intended
version, which passes both fields as None (`DocumentService.UpsertSingle`);
see "## Findings".

## Model

| member | source | states |
|---|---|---|
| Indexing.CacheGet | app/engine/indexing.py:42-52 | Only the cache entry changes. A call fails iff the entry is stale and nothing is persisted at the location, and then nothing changes. A fresh entry answers the call unchanged. On a miss, the persisted context is returned and cached with the current time, so it stays fresh for the next 300 s. |
| Indexing.CacheKeyIgnoresArguments | app/engine/indexing.py:42-45 | While the entry is fresh, calls naming any two locations return the same cached context and change nothing. |
| Indexing.ExpiredEntryReloads | app/engine/indexing.py:42-45 | Once the TTL has passed, the persisted context is loaded and re-cached with the current time. |
| Indexing.IdStringInjective | app/engine/indexing.py:110 | `str(document.id)` is injective over ids, including a missing id ("None"). |
| Indexing.TagPages | app/engine/indexing.py:85-87 | Every fetched page is tagged with the document id. Text and all other metadata are kept, and the key set grows by that one key. |
| Indexing.ParseNodes | app/engine/indexing.py:130-134 | There is one node per page. Each node keeps its page's text and metadata, and its source relationship is the page's metadata. |
| Indexing.OpenContext | app/engine/indexing.py:100-109 | A fresh entry is used as it is. On a miss with a context persisted at the location, that context is used and nothing is persisted. With nothing persisted, an empty context is persisted there and used. No location other than this one is added. Other locations, the vector store and the fetch log are untouched. |
| Indexing.CreateIndexStep | app/engine/indexing.py:90-138 | On success the result has exactly one key, `str(document.id)`. The clock is untouched. The cache entry is whatever the cache lookup left: the build never updates it. |
| Indexing.Build | app/engine/indexing.py:118-137 | The build never touches the cache or the clock. It fails iff nothing is persisted at the location or the fetch fails, and then nothing is persisted and no node is added. The URL is fetched iff the location exists. On success the result has the one key, the persisted context registers that index under it, and exactly its nodes are appended to the vector store. |
| Indexing.CreateIndexNamesResult | app/engine/indexing.py:110-116 | On both paths the returned index is named `str(document.id)`. The call keeps the invariant: stores and cache are well named, and every vector-store node is tagged and has its page as source. |
| Indexing.MissingStoreIsCreatedThenBuilt | app/engine/indexing.py:100-137 | With nothing persisted and no fresh cache entry, an empty context is persisted first, the load fails and the build runs: the location then holds exactly the tagged pages and the one new index, and the URL was fetched once. |
| Indexing.MissingStoreFetchFailure | app/engine/indexing.py:100-128 | In the same situation a failed fetch is reported as such and leaves just the empty context persisted at the location. |
| Indexing.OpenMissingStore | app/engine/indexing.py:100-109 | With nothing persisted and no fresh cache entry, opening the context persists an empty one and returns it. |
| Indexing.OpenContextKeepsValid | app/engine/indexing.py:100-109 | Opening a context keeps the engine's invariant and yields a context whose indices carry the names they are stored under. |
| Indexing.BuildKeepsValid | app/engine/indexing.py:123-137 | Building keeps the invariant: the new index is stored under its own name and every node added to the vector store carries its page's metadata, tagged with the document id. |
| Indexing.BuildPathContents | app/engine/indexing.py:118-137 | An id the cached context lacks is fetched once. Its tagged pages are appended to the persisted docstore and its index is registered under the id. Its nodes are appended to the vector store, and the index is returned. Nothing else changes. |
| Indexing.FetchFailurePersistsNothing | app/engine/indexing.py:80 | A fetch failure propagates after the request. Nothing beyond the initial empty context is persisted, and the vector store is unchanged. |
| Indexing.LoadPathChangesNothing | app/engine/indexing.py:110-117 | When the cached context registers the id, the index is loaded from it. Nothing is fetched, persisted or added. |
| Indexing.RepeatWithinTtlRebuilds | app/engine/indexing.py:101-136 | Two calls inside the TTL window, with the id missing from the cached context, both fetch and both build. The vector store then holds both node lists, and the cache entry is unchanged. |
| Indexing.Advance | app/engine/indexing.py:43 | The clock moves forward by `dt` and nothing else changes. |
| Indexing.AfterExpiryLoadsBuiltIndex | app/engine/indexing.py:42-45 | After the entry expires, the next call loads the index the build persisted. It makes no second fetch and adds no nodes. |
| Indexing.IndexToQueryEngine | app/engine/indexing.py:63-68 | The query engine has exactly one exact-match filter, on the document-id key with the given id, and top-k 3. |
| Indexing.Retrieve | app/engine/indexing.py:63-68 | The result is the first min(k, number passing) candidates that pass every filter, in ranking order: a prefix of the passing candidates. |
| Indexing.PassingOf | app/engine/indexing.py:64-66 | The candidates that pass the filters are exactly the ranked candidates matching every filter, and there are as many as are counted passing. |
| Indexing.Query | app/engine/indexing.py:67-68 | A query returns the top-k candidates that pass the engine's filters: the first min(top-k, number passing) of them, in ranking order. |
| Indexing.QueryStaysInDocument | app/engine/indexing.py:63-68 | For document `u`, every retrieved node is tagged `str(u)`. Every citation built from an engine-built node names `u`. |
| Indexing.BuildDescription | app/engine/indexing.py:56-57 | The description starts with "A document with id ", then `str(document.id)`, and ends with " containing some useful information.". |
| Indexing.BuildDescriptionInjective | app/engine/indexing.py:56-57 | Two documents get the same description iff they have the same id. |
| Indexing.IndexingEngine.constructor | app/engine/indexing.py:42-45 | A new engine has the given persisted stores, an empty cache, an empty vector store, clock 0 and no fetches. |
| Indexing.IndexingEngine.Tick | app/engine/indexing.py:43 | The clock advances by `dt`. |
| Indexing.IndexingEngine.GetStorageContext | app/engine/indexing.py:42-52 | The result and the new fields are exactly those of `CacheGet` on the old state. |
| Indexing.IndexingEngine.CreateIndexFromDoc | app/engine/indexing.py:90-138 | The imperative steps produce exactly the result and new state of `CreateIndexStep`. |
| DocumentService.Filter | app/services/document.py:25-32 | The filter keeps exactly the rows that match the WHERE clause. |
| DocumentService.FetchDocuments | app/services/document.py:14-37 | The query fails iff the effective limit is negative. Otherwise the answer is one the database may give: a sub-multiset of the matching rows, as long as the effective limit allows. |
| DocumentService.AdmissibleAnswers | app/services/document.py:26-34 | Every admissible answer matches the query. A given `id` wins over `ids` and yields at most one row. `url` combines with either. A caller limit bounds the length. Without a limit the answer is exactly the matching rows in some order. |
| DocumentService.IndexOfUrl | app/models/db.py:13 | It finds the position of the row holding a URL, or reports that no row holds it. |
| DocumentService.UpsertInsertsAbsentUrl | app/services/document.py:69-77 | An absent URL inserts one row with the document's fields. The id is the given one, or the database default. |
| DocumentService.Upsert | app/services/document.py:69-77 | The upsert fails iff the URL is absent and the id to insert is taken, and then with a unique violation on `id`. On success the returned row is in the new table, holds the URL and has the document's `metadata_map`. |
| DocumentService.UpsertRejectsTakenId | app/services/document.py:69 | Inserting an id already taken raises a unique violation. |
| DocumentService.IndexOfUniqueUrl | app/models/db.py:13 | Under the constraints, the row holding a URL is the only one. |
| DocumentService.UpsertUpdatesPresentUrl | app/services/document.py:70-73 | A present URL changes only that row's `metadata_map`. Id, name and assistant id stay, and other rows are untouched. |
| DocumentService.UpsertKeepsConstraints | app/services/document.py:69-77 | After an upsert the constraints hold. Exactly one row has the URL and it is the row returned. Rows with other URLs are unchanged. |
| DocumentService.UpsertIdempotent | app/services/document.py:62-78 | Upserting the same document again returns the same row and leaves the table unchanged. |
| DocumentService.UpsertSingleGuard | app/services/document.py:47-49 | Both as written and as intended, the registration goes ahead iff the URL starts with "http", so "httpfoo" passes. |
| DocumentService.UpsertSingleAsWritten | app/services/document.py:41-57 | As written, the registration goes past the guard iff the URL starts with "http". |
| DocumentService.UpsertSingleAsWrittenAlwaysFails | app/services/document.py:50-51 | As written, every URL that passes the guard is rejected by validation, which reports `name` and `assistant_id` missing. The database is never reached. |
| DocumentService.SingleDocument | app/services/document.py:50-51 | With `name` and `assistant_id` given as None, the keyword arguments build the record with the URL, no id, name or assistant, and an empty metadata map. |
| DocumentService.UpsertSingle | app/services/document.py:41-57 | As intended, the registration runs iff the URL starts with "http". On success the row holds the URL and an empty metadata map. |
| DocumentService.ReRegisterResetsMetadata | app/services/document.py:50-55 | As intended, registering an existing URL again resets its `metadata_map` to `{}` and keeps its id. |
| DocumentService.DocumentTable.constructor | app/models/db.py:11-15 | The table starts empty and satisfies its constraints. |
| DocumentService.DocumentTable.UpsertDocumentByUrl | app/services/document.py:62-78 | The table becomes the upsert's new table and returns its row, or is left alone on an error. The constraints are kept. |
| DocumentService.DocumentTable.UpsertSingleDocument | app/services/document.py:41-57 | As intended: a rejected URL returns None and leaves the table unchanged. Otherwise the URL with an empty metadata map is upserted and the table becomes the upsert's new table. |
| DocumentsRouter.NoDotRejected | app/api/routers/documents.py:38 | A file name without "." is rejected. |
| DocumentsRouter.IsAllowedFile | app/api/routers/documents.py:37-38 | An allowed name ends, once lower-cased, with "." and one of the allowed extensions. |
| DocumentsRouter.IsAllowedFileIff | app/api/routers/documents.py:35-38 | For a name `stem.ext` where `ext` has no ".", the name is allowed iff lower-cased `ext` is pdf, txt, md, jpg, jpeg, png or gif. |
| DocumentsRouter.OnlyLastExtensionCounts | app/api/routers/documents.py:38 | "a.tar.pdf" is allowed. |
| DocumentsRouter.InnerExtensionIgnored | app/api/routers/documents.py:38 | "a.pdf.gz" is rejected. |
| DocumentsRouter.TrailingDotRejected | app/api/routers/documents.py:35-38 | A name ending in "." has an empty extension and is rejected. |
| DocumentsRouter.UpperCaseExtensionAllowed | app/api/routers/documents.py:38 | "Report.PDF" is allowed. |
| DocumentsRouter.IsAllowedFileIgnoresCase | app/api/routers/documents.py:38 | A name is allowed iff its lower-cased form is. |
| DocumentsRouter.ObjectStore.Write | app/api/routers/documents.py:77-78 | Writing stores the content at the path and changes nothing else. |
| DocumentsRouter.UploadFile | app/api/routers/documents.py:64-83 | A disallowed name gives 400 "File type not allowed", and neither S3 nor the table changes. Otherwise the content is written at `bucket/filename`, then the file's URL is registered as intended. A database error gives 500. |
| DocumentsRouter.ReuploadKeepsDocument | app/api/routers/documents.py:80-81 | With the intended registration, uploading under the same name again registers the same URL. The row and its id are kept and the table does not change. |
| FileUtils.DocumentUrl | app/utils/file_utils.py:5-6 | The URL starts with `endpoint/bucket/` and ends with `/file_name`. Its length is the three parts plus 2. |
| FileUtils.DefaultDocumentUrl | app/utils/file_utils.py:5 | With the defaults, the URL is the asset bucket's and ends with "/". |
| FileUtils.DocumentUrlInjective | app/utils/file_utils.py:6 | For one endpoint and bucket, distinct file names give distinct URLs. |
| Schemas.StrIfTruthyCases | app/schemas/base.py:44-48 | A truthy value becomes its string form; a UUID becomes its hyphenated text. A falsy value comes back unchanged. |
| Schemas.StrIfTruthyIdempotent | app/schemas/base.py:18-19 | Applying the validator twice equals applying it once. |
| Schemas.StrIfTruthy | app/schemas/base.py:18-19 | A truthy value becomes a non-empty string. A falsy value comes back unchanged. |
| Schemas.FromNode | app/schemas/base.py:50-60 | It succeeds iff there is a source node whose page label parses as an int and whose document id parses as a UUID. The page number is that int. The document id is the UUID printed back. The text and score are copied. |
| Schemas.FromTaggedNode | app/schemas/base.py:50-60 | A source tagged with `str(id)` and page label `str(n)` gives the citation for document `id`, page `n`. |
| Schemas.FromNodeRomanLabel | app/schemas/base.py:53 | The page label "iv" is not an int, so the call fails with that label. |
| Schemas.DocumentSchemaRequiresUrl | app/schemas/base.py:67-68 | Without `url` the record cannot be built, and the error names `url`. |
| Schemas.NewDocumentSchema | app/schemas/base.py:67-71 | A record is built only when `url`, `name` and `assistant_id` are all given. It keeps what was given: the URL; `name` and `assistant_id` as the given string, or None; `metadata_map` as the given dict, or None; `id` as the given UUID or the UUID a given string spells, or None. A failure reports at least one field. |
| Schemas.DocumentSchemaRequiresNameAndAssistant | app/schemas/base.py:67-71 | `name` and `assistant_id` have no default: leaving either out fails, and the error names each one left out. |
| Schemas.DocumentSchemaExplicitNones | app/schemas/base.py:67-71 | A string `url` with `name` and `assistant_id` given as None, and `metadata_map` given or left out, builds the record holding exactly those values. |
| PyInt.NatToString | app/schemas/base.py:53 | `str(n)` of a natural number is a non-empty run of digits. |
| PyInt.ParseInt | app/schemas/base.py:53 | Empty or all-whitespace text is not an int. |
| PyInt.ParseNatToString | app/schemas/base.py:53 | Reading the digits of `str(n)` gives back `n`. |
| PyInt.ParseIntString | app/schemas/base.py:53 | `int(str(n)) == n` for every integer. |
| PyInt.ParseIntRejects | app/schemas/base.py:53 | A character that is not a digit, space, sign or underscore makes `int()` fail. |
| Uuids.UuidString | app/schemas/base.py:19 | `str(UUID)` has 36 characters, with hyphens at 8, 13, 18 and 23. |
| Uuids.ParseUuid | app/schemas/base.py:39 | A text is read as a UUID iff it has 36 characters, hyphens at 8, 13, 18 and 23, and a hexadecimal digit everywhere else. |
| Uuids.ParseUuidString | app/schemas/base.py:39 | Parsing `str(u)` as a UUID gives back `u`. |
| Uuids.UuidStringInjective | app/schemas/base.py:19 | Two UUIDs print the same iff they are equal. |
| ErrorHandlers.HttpErrorResponse | main.py:113-125 | The status, `code` and `error_code` all equal the exception's status. The message is its detail. |
| ErrorHandlers.RejectedUploadResponse | main.py:113-125 | The rejected upload's error becomes the body 400 / "File type not allowed" / 400. |
| ErrorHandlers.MessageParts | main.py:131-137 | A list of errors gives one part per error, in order, each that error's part. It exists iff every error's part does. |
| ErrorHandlers.MessagePart | main.py:133-137 | A part fails iff the error has a context without "error". A part starts with `input: msg`. |
| ErrorHandlers.ValidationMessage | main.py:131-139 | The message exists iff every error's part does. One error gives exactly its part. |
| ErrorHandlers.MessagePartShape | main.py:133-137 | A part starts with `input: msg`. The "; type" suffix is present iff the error has a type. A context suffix comes last. The part fails iff a context lacks "error". |
| ErrorHandlers.MessagePartsNoneExtends | main.py:131-137 | If one error raises, the whole message raises. |
| ErrorHandlers.NoErrorsEmptyMessage | main.py:139 | No errors give the empty message. |
| ErrorHandlers.SingleErrorMessage | main.py:131-139 | One error gives exactly its part. |
| ErrorHandlers.MessageAppend | main.py:131-139 | One more error appends a blank line and its part, in error order. |
| ErrorHandlers.BuildValidationMessage | main.py:127-139 | The loop, which appends and then extends the last part, computes exactly the joined parts. It gives None when a context lacks "error". |
| ErrorHandlers.ValidationResponse | main.py:141-150 | Status, `code` and `error_code` are all 422, and the message is the joined parts. |
| ErrorHandlers.HeadSet | main.py:41 | The set holds exactly the listed heads. |
| ErrorHandlers.CheckCurrentHead | main.py:41 | When the check holds, every current head is a script head and every script head is a current head. |
| ErrorHandlers.CheckCurrentHeadIff | main.py:41 | The check is true iff every head on one side is a head on the other. |
| ErrorHandlers.CheckCurrentHeadIgnoresOrder | main.py:41 | Reordering or repeating the heads does not change the check. |
| ErrorHandlers.SyncDatabaseUrl | main.py:63-65 | A URL without the asyncpg scheme is returned unchanged. |
| ErrorHandlers.SyncDatabaseUrlKeepsOtherUrls | main.py:63-65 | A URL without the asyncpg scheme is unchanged. |
| ErrorHandlers.SyncDatabaseUrlSwapsScheme | main.py:63-65 | An asyncpg URL gets the psycopg2 scheme and keeps everything after it. |
| ErrorHandlers.SyncDatabaseUrlFirstOccurrence | main.py:63-65 | Text before the first occurrence is kept. The occurrence is replaced and the rewrite continues after it, so every occurrence is replaced. |

## Findings

| source | as written | input that shows it | evidently intended | confidence | as-written member | corrected member |
|---|---|---|---|---|---|---|
| app/services/document.py:51 | `DocumentSchema(url=doc_url, metadata_map={})` leaves out `name` and `assistant_id`, which have no default under pydantic 2 (app/schemas/base.py:69-70). Validation fails, so no document is ever registered. An upload writes the file to S3 and then answers 500. | `doc_url = "https://s3.x/assets/a.pdf"` | Pass `name=None, assistant_id=None`, so that the URL is upserted with an empty metadata map. | high; not executed | DocumentService.UpsertSingleAsWritten | DocumentService.UpsertSingle |

## Left out

- Downloading, temporary files and PDF parsing: the fetch is the parameter `fetched`, a list of pages or a failure reason.
- Chunking, embedding, similarity ranking, scores and answer synthesis: each page becomes one node, candidates arrive already ranked, and scores are opaque values.
- Indexing.ParseNodes: does not model splitting a page into several chunks; a page is one node.
- Indexing.CreateIndexFromDoc: the index is registered under the document id in one step. The random id `from_documents` assigns before `set_index_id` renames it is not modelled.
- The docstore is a sequence that pages are appended to. Keying by document id is not modelled, because the reader's page ids are fresh on every fetch.
- Exceptions other than FileNotFoundError from loading a context, errors while persisting, and a corrupt persisted store are not modelled.
- The `vector_store` and `fs` arguments of `get_storage_context` are not modelled. The cache ignores them, as it ignores the location.
- Concurrency: the code is async but has no locking, so races are not modelled.
- The `/index` handler beyond its filter, the query route and the assistant registration are HTTP plumbing and a foreign service.
- S3 write failures, streaming the upload, and `jsonable_encoder` are I/O and plumbing.
- The database's default for a new row's id is the parameter `freshId`. `created_at` and `updated_at` are not modelled.
- Lifespan, logging setup, migrations and server start are left out; only the head comparison and the URL rewrite are modelled.
- `app.db.pg_vector`, `app.engine.index`, `app.core.constants`, `app.models.base` and `update_assistant_to_document` are not part of this model. The value of the document-id key, "db_document_id", is taken as given; nothing depends on it.
- Uuids.ParseUuid: accepts only the 36-character hyphenated form. The other spellings a UUID field also takes (no hyphens, braces, `urn:uuid:`) are not modelled.
- PyInt.ParseInt: only ASCII digits and ASCII whitespace are modelled, not the Unicode digits and spaces Python's `int()` also accepts.
- Strings.Lower: lower-cases ASCII letters only. For the allow-list this is exact, since no allowed extension contains a letter that a non-ASCII character lower-cases to.
- ErrorHandlers.ErrorDetail: the input and the context's error are their rendered strings; how Python formats other values is not modelled.
- The upload with no file name, which FastAPI rejects before the route runs, is not modelled.
