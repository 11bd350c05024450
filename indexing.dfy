/**
 * The index registry of the engine: a storage context (a docstore and an
 * index store keyed by index id) persisted at a location, one copy of it
 * held by a TTL cache under a constant key, the shared vector store every
 * build writes its nodes to, and the load-or-build step run for a document.
 */
module Indexing {
  import opened Wrappers
  import opened Uuids
  import opened Nodes
  import opened Schemas
  import opened Strings

  /**
   * An index as the index store records it: its id and the nodes it was built
   * from. The vector store keeps the text, so the persisted index struct holds
   * no node list; `nodes` is the set of vector-store nodes the index owns,
   * carried here so that a loaded index can be queried.
   */
  datatype IndexStruct = IndexStruct(indexId: string, nodes: seq<Node>)

  /** A llama_index storage context: the documents added so far and the index store. */
  datatype StorageContext = StorageContext(docstore: seq<Page>, indexStore: map<string, IndexStruct>)

  /** `StorageContext.from_defaults()` without a location: nothing stored. */
  const EmptyContext: StorageContext := StorageContext([], map[])

  /** `timedelta(minutes=5).total_seconds()`: the TTL of the cache, in seconds. */
  const Ttl: int := 300

  /** The one key under which every call of `get_storage_context` is cached. */
  const CacheKey: string := "global_storage_context"

  /** The TTL cache's only entry: the cached context and when it was stored. */
  datatype CacheEntry = CacheEntry(context: StorageContext, storedAt: int)

  /**
   * Everything the engine's calls read or change: the contexts persisted by
   * location, the cache entry, the shared vector store, the cache's clock, and
   * the URLs fetched so far (the network requests the build path makes).
   */
  datatype EngineState = EngineState(
    stores: map<string, StorageContext>,
    cache: Option<CacheEntry>,
    vectorStore: seq<Node>,
    now: int,
    fetches: seq<string>)

  /** Why a call fails: no context persisted at a location, or the PDF fetch raised. */
  datatype IndexError = FileNotFound(dir: string) | FetchFailed(reason: string)

  /** The outcome of one call and the state after it. */
  datatype Step<T> = Step(result: Result<T, IndexError>, state: EngineState)

  /** `str(document.id)`: the hyphenated UUID, or "None" for a document without an id. */
  function IdString(id: Option<Uuid>): string
  {
    match id
    case None => "None"
    case Some(u) => UuidString(u)
  }

  /** Distinct ids (including a missing one) print differently. */
  lemma IdStringInjective(a: Option<Uuid>, b: Option<Uuid>)
    ensures IdString(a) == IdString(b) <==> a == b
  {
    if a.Some? && b.Some? {
      UuidStringInjective(a.value, b.value);
    }
  }

  /* ---------------------------------------------------------------- cache */

  /** The cache entry exists and has not expired: cachetools' `timer() < expires`. */
  predicate Fresh(s: EngineState)
  {
    s.cache.Some? && s.now < s.cache.value.storedAt + Ttl
  }

  /**
   * `get_storage_context` behind its TTL cache. A fresh entry answers the call
   * whatever the location; otherwise the context persisted at `dir` is loaded
   * and cached with the current time. A missing location raises
   * FileNotFoundError, which the cache does not store.
   */
  function CacheGet(s: EngineState, dir: string): (r: Step<StorageContext>)
    ensures r.state.(cache := s.cache) == s
    ensures r.result.Err? <==> !Fresh(s) && dir !in s.stores
    ensures r.result.Err? ==> r.state == s && r.result.error == FileNotFound(dir)
    ensures r.result.Ok? ==> Fresh(r.state) && r.state.cache.value.context == r.result.value
    ensures r.result.Ok? && !Fresh(s) ==>
      r.result.value == s.stores[dir] && r.state.cache == Some(CacheEntry(s.stores[dir], s.now))
    ensures Fresh(s) ==> r == Step(Ok(s.cache.value.context), s)
  {
    if Fresh(s) then Step(Ok(s.cache.value.context), s)
    else if dir in s.stores then
      var ctx := s.stores[dir];
      Step(Ok(ctx), s.(cache := Some(CacheEntry(ctx, s.now))))
    else Step(Err(FileNotFound(dir)), s)
  }

  /**
   * The key is a constant: while the entry is fresh every call returns the
   * same context and changes nothing, whatever location it names.
   */
  lemma CacheKeyIgnoresArguments(s: EngineState, dir1: string, dir2: string)
    requires Fresh(s)
    ensures CacheGet(s, dir1) == CacheGet(s, dir2) == Step(Ok(s.cache.value.context), s)
  {
  }

  /** Once the entry has expired, the next call reloads the persisted context. */
  lemma ExpiredEntryReloads(s: EngineState, dir: string)
    requires s.cache.Some? && s.now >= s.cache.value.storedAt + Ttl
    requires dir in s.stores
    ensures CacheGet(s, dir).result == Ok(s.stores[dir])
    ensures CacheGet(s, dir).state.cache == Some(CacheEntry(s.stores[dir], s.now))
  {
  }

  /* ---------------------------------------------------------------- fetch */

  /** `extra_info={DB_DOC_ID_KEY: str(document.id)}`: the reader tags every page with the id. */
  function TagPages(pages: seq<Page>, key: string): (r: seq<Page>)
    ensures |r| == |pages|
    ensures forall i :: 0 <= i < |r| ==> DbDocIdKey in r[i].metadata && r[i].metadata[DbDocIdKey] == key
    ensures forall i :: 0 <= i < |r| ==> r[i].text == pages[i].text
    ensures forall i, k :: 0 <= i < |r| && k in pages[i].metadata && k != DbDocIdKey ==>
      k in r[i].metadata && r[i].metadata[k] == pages[i].metadata[k]
    ensures forall i :: 0 <= i < |r| ==> r[i].metadata.Keys == pages[i].metadata.Keys + {DbDocIdKey}
  {
    if pages == [] then []
    else [Page(pages[0].text, pages[0].metadata[DbDocIdKey := key])] + TagPages(pages[1..], key)
  }

  /**
   * The nodes `VectorStoreIndex.from_documents` makes of the pages, one per
   * page: each keeps its page's text and metadata, and its source
   * relationship points back at that page.
   */
  function ParseNodes(pages: seq<Page>): (r: seq<Node>)
    ensures |r| == |pages|
    ensures forall i :: 0 <= i < |r| ==> r[i].source == Some(pages[i].metadata) && r[i].metadata == pages[i].metadata
    ensures forall i :: 0 <= i < |r| ==> r[i].text == pages[i].text
  {
    if pages == [] then []
    else [Node(pages[0].text, pages[0].metadata, Some(pages[0].metadata))] + ParseNodes(pages[1..])
  }

  /* ------------------------------------------------------- load or build */

  /**
   * The first half of `create_index_from_doc`: get the cached context; when
   * the location holds nothing, create an empty context and persist it there.
   */
  function OpenContext(s: EngineState, dir: string): (r: (StorageContext, EngineState))
    ensures r.1.vectorStore == s.vectorStore && r.1.fetches == s.fetches && r.1.now == s.now
    ensures r.1.cache == CacheGet(s, dir).state.cache
    ensures forall d :: d in s.stores ==> d in r.1.stores && r.1.stores[d] == s.stores[d]
    ensures !Fresh(s) ==> dir in r.1.stores
    ensures Fresh(s) ==> r.0 == s.cache.value.context && r.1.stores == s.stores
    ensures dir !in s.stores && !Fresh(s) ==> r.0 == EmptyContext && r.1.stores[dir] == EmptyContext
    ensures dir in s.stores && !Fresh(s) ==> r.0 == s.stores[dir] && r.1.stores == s.stores
    ensures r.1.stores.Keys <= s.stores.Keys + {dir}
  {
    var g := CacheGet(s, dir);
    if g.result.Ok? then (g.result.value, g.state)
    else (EmptyContext, g.state.(stores := g.state.stores[dir := EmptyContext]))
  }

  /**
   * The build path: reload the context persisted at `dir`, fetch the
   * document, add its tagged pages to the docstore, build the index over them
   * (its nodes go to the shared vector store), name it `key` and persist the
   * context. A fetch failure escapes after the request and persists nothing.
   */
  function Build(s: EngineState, dir: string, key: string, url: string,
                 fetched: Result<seq<Page>, string>): (r: Step<map<string, IndexStruct>>)
    ensures r.state.cache == s.cache && r.state.now == s.now
    ensures r.result.Err? ==> r.state.stores == s.stores && r.state.vectorStore == s.vectorStore
    ensures r.result.Err? <==> dir !in s.stores || fetched.Err?
    ensures r.result.Ok? ==>
      && r.result.value.Keys == {key}
      && r.state.stores.Keys == s.stores.Keys && dir in r.state.stores
      && key in r.state.stores[dir].indexStore && r.state.stores[dir].indexStore[key] == r.result.value[key]
      && r.state.vectorStore == s.vectorStore + r.result.value[key].nodes
    ensures (dir in s.stores) == (r.state.fetches == s.fetches + [url])
  {
    if dir !in s.stores then Step(Err(FileNotFound(dir)), s)
    else
      var loaded := s.stores[dir];
      var s1 := s.(fetches := s.fetches + [url]);
      match fetched
      case Err(e) => Step(Err(FetchFailed(e)), s1)
      case Ok(raw) =>
        var pages := TagPages(raw, key);
        var nodes := ParseNodes(pages);
        var index := IndexStruct(key, nodes);
        var built := StorageContext(loaded.docstore + pages, loaded.indexStore[key := index]);
        Step(Ok(map[key := index]), s1.(stores := s1.stores[dir := built], vectorStore := s1.vectorStore + nodes))
  }

  /**
   * `create_index_from_doc` for a document, the location `dir`
   * (`settings.S3_BUCKET_NAME`) and the outcome
   * `fetched` of fetching and reading its URL: load the index named
   * `str(document.id)` from the cached context, or build it when that context
   * does not register the id.
   */
  function CreateIndexStep(s: EngineState, dir: string, doc: DocumentSchema,
                           fetched: Result<seq<Page>, string>): (r: Step<map<string, IndexStruct>>)
    ensures r.result.Ok? ==> r.result.value.Keys == {IdString(doc.id)}
    ensures r.state.now == s.now
    ensures r.state.cache == CacheGet(s, dir).state.cache
  {
    var key := IdString(doc.id);
    var (ctx, s1) := OpenContext(s, dir);
    if key in ctx.indexStore then Step(Ok(map[key := ctx.indexStore[key]]), s1)
    else Build(s1, dir, key, doc.url, fetched)
  }

  /** Every index store maps each id to an index of that name. */
  predicate WellNamed(ctx: StorageContext)
  {
    forall k :: k in ctx.indexStore ==> ctx.indexStore[k].indexId == k
  }

  /**
   * The engine's invariant: persisted and cached contexts are well named,
   * and every node in the vector store is tagged with a document id and
   * carries its page's metadata as its source.
   */
  predicate Valid(s: EngineState)
  {
    && (forall d :: d in s.stores ==> WellNamed(s.stores[d]))
    && (s.cache.Some? ==> WellNamed(s.cache.value.context))
    && (forall n :: n in s.vectorStore ==> n.source == Some(n.metadata) && DbDocIdKey in n.metadata)
  }

  /**
   * On both paths the result maps `str(document.id)` to an index of that name,
   * and a call keeps the engine's invariant.
   */
  lemma CreateIndexNamesResult(s: EngineState, dir: string, doc: DocumentSchema,
                               fetched: Result<seq<Page>, string>)
    requires Valid(s)
    ensures var r := CreateIndexStep(s, dir, doc, fetched);
      && Valid(r.state)
      && (r.result.Ok? ==> r.result.value[IdString(doc.id)].indexId == IdString(doc.id))
  {
    var key := IdString(doc.id);
    OpenContextKeepsValid(s, dir);
    var (ctx, s1) := OpenContext(s, dir);
    if key !in ctx.indexStore {
      BuildKeepsValid(s1, dir, key, doc.url, fetched);
    }
  }

  /** Opening a context keeps the invariant and returns a well-named context. */
  lemma OpenContextKeepsValid(s: EngineState, dir: string)
    requires Valid(s)
    ensures WellNamed(OpenContext(s, dir).0) && Valid(OpenContext(s, dir).1)
  {
    if !Fresh(s) && dir !in s.stores {
      OpenMissingStore(s, dir);
    }
  }

  /** Building keeps the invariant, and the built index carries the name it is stored under. */
  lemma BuildKeepsValid(s: EngineState, dir: string, key: string, url: string,
                        fetched: Result<seq<Page>, string>)
    requires Valid(s)
    ensures var r := Build(s, dir, key, url, fetched);
      && Valid(r.state)
      && (r.result.Ok? ==> key in r.result.value && r.result.value[key].indexId == key)
  {
    if dir in s.stores && fetched.Ok? {
      var pages := TagPages(fetched.value, key);
      var nodes := ParseNodes(pages);
      forall n | n in nodes
        ensures n.source == Some(n.metadata) && DbDocIdKey in n.metadata
      {
        var i :| 0 <= i < |nodes| && nodes[i] == n;
        assert DbDocIdKey in pages[i].metadata;
      }
    }
  }

  /**
   * When nothing is persisted at `dir` and the cache cannot answer, opening
   * the context persists an empty one there and uses it.
   */
  lemma OpenMissingStore(s: EngineState, dir: string)
    requires dir !in s.stores && !Fresh(s)
    ensures OpenContext(s, dir) == (EmptyContext, s.(stores := s.stores[dir := EmptyContext]))
  {
  }

  /**
   * With nothing persisted at `dir` and no fresh cache entry, the empty
   * context persisted first does not register the id, so the build path runs
   * on it: the location ends up holding exactly the tagged pages and the one
   * new index.
   */
  lemma MissingStoreIsCreatedThenBuilt(s: EngineState, dir: string, doc: DocumentSchema, raw: seq<Page>)
    requires dir !in s.stores && !Fresh(s)
    ensures var r := CreateIndexStep(s, dir, doc, Ok(raw));
      var key := IdString(doc.id);
      var pages := TagPages(raw, key);
      var index := IndexStruct(key, ParseNodes(pages));
      && r.result == Ok(map[key := index])
      && r.state.fetches == s.fetches + [doc.url]
      && r.state.stores == s.stores[dir := StorageContext(pages, map[key := index])]
  {
    var key := IdString(doc.id);
    OpenMissingStore(s, dir);
    var s1 := s.(stores := s.stores[dir := EmptyContext]);
    assert CreateIndexStep(s, dir, doc, Ok(raw)) == Build(s1, dir, key, doc.url, Ok(raw));
    var pages := TagPages(raw, key);
    assert EmptyContext.docstore + pages == pages;
  }

  /**
   * With nothing persisted at `dir` and no fresh cache entry, a failed fetch
   * leaves just the empty context persisted there.
   */
  lemma MissingStoreFetchFailure(s: EngineState, dir: string, doc: DocumentSchema, reason: string)
    requires dir !in s.stores && !Fresh(s)
    ensures var r := CreateIndexStep(s, dir, doc, Err(reason));
      && r.result == Err(FetchFailed(reason))
      && r.state.fetches == s.fetches + [doc.url]
      && r.state.stores == s.stores[dir := EmptyContext]
  {
    OpenMissingStore(s, dir);
  }

  /**
   * When the cached context does not register the document's id, the call
   * fetches the document once, appends its tagged pages to the docstore
   * persisted at `dir`, registers the new index under the id there, appends
   * its nodes to the shared vector store, and returns that index. Nothing
   * else changes: other locations, and the cache entry left as the cache
   * lookup set it.
   */
  lemma BuildPathContents(s: EngineState, dir: string, doc: DocumentSchema, pages: seq<Page>)
    requires dir in s.stores
    requires CacheGet(s, dir).result.Ok? && IdString(doc.id) !in CacheGet(s, dir).result.value.indexStore
    ensures var r := CreateIndexStep(s, dir, doc, Ok(pages));
      var key := IdString(doc.id);
      var tagged := TagPages(pages, key);
      var index := IndexStruct(key, ParseNodes(tagged));
      && r.result == Ok(map[key := index])
      && r.state.fetches == s.fetches + [doc.url]
      && r.state.vectorStore == s.vectorStore + index.nodes
      && r.state.stores == s.stores[dir := StorageContext(s.stores[dir].docstore + tagged,
                                                          s.stores[dir].indexStore[key := index])]
      && r.state.cache == CacheGet(s, dir).state.cache
  {
  }

  /**
   * A failed fetch escapes after the request was made, with nothing persisted
   * and nothing added to the vector store beyond what opening the context did.
   */
  lemma FetchFailurePersistsNothing(s: EngineState, dir: string, doc: DocumentSchema, reason: string)
    requires dir in s.stores || !Fresh(s)
    requires IdString(doc.id) !in OpenContext(s, dir).0.indexStore
    ensures var r := CreateIndexStep(s, dir, doc, Err(reason));
      && r.result == Err(FetchFailed(reason))
      && r.state.stores == OpenContext(s, dir).1.stores
      && r.state.vectorStore == s.vectorStore
      && r.state.fetches == s.fetches + [doc.url]
  {
  }

  /**
   * When the cached context registers the id, the index is loaded from it:
   * nothing is fetched, persisted or added to the vector store.
   */
  lemma LoadPathChangesNothing(s: EngineState, dir: string, doc: DocumentSchema,
                               fetched: Result<seq<Page>, string>)
    requires CacheGet(s, dir).result.Ok?
    requires IdString(doc.id) in CacheGet(s, dir).result.value.indexStore
    ensures var r := CreateIndexStep(s, dir, doc, fetched);
      var key := IdString(doc.id);
      && r.result == Ok(map[key := CacheGet(s, dir).result.value.indexStore[key]])
      && r.state == CacheGet(s, dir).state
  {
  }

  /**
   * The build path updates a freshly loaded context, never the cached one:
   * two calls for the same document inside the TTL window, with the cached
   * context not registering its id, both fetch and both build, so the shared
   * vector store receives the document's nodes twice.
   */
  lemma RepeatWithinTtlRebuilds(s: EngineState, dir: string, doc: DocumentSchema,
                                pages1: seq<Page>, pages2: seq<Page>)
    requires Fresh(s) && dir in s.stores
    requires IdString(doc.id) !in s.cache.value.context.indexStore
    ensures var r1 := CreateIndexStep(s, dir, doc, Ok(pages1));
      var r2 := CreateIndexStep(r1.state, dir, doc, Ok(pages2));
      var key := IdString(doc.id);
      && r1.result.Ok? && r2.result.Ok?
      && r2.state.cache == s.cache
      && r2.state.fetches == s.fetches + [doc.url, doc.url]
      && r2.state.vectorStore == s.vectorStore + ParseNodes(TagPages(pages1, key)) + ParseNodes(TagPages(pages2, key))
  {
    var r1 := CreateIndexStep(s, dir, doc, Ok(pages1));
    BuildPathContents(s, dir, doc, pages1);
    assert Fresh(r1.state);
    BuildPathContents(r1.state, dir, doc, pages2);
  }

  /** The clock advancing by `dt` seconds. */
  function Advance(s: EngineState, dt: nat): (r: EngineState)
    ensures r.now == s.now + dt && r.(now := s.now) == s
  {
    s.(now := s.now + dt)
  }

  /**
   * Once the entry has expired, the context the build persisted is reloaded
   * and the index it registered is loaded without another fetch.
   */
  lemma AfterExpiryLoadsBuiltIndex(s: EngineState, dir: string, doc: DocumentSchema,
                                   pages: seq<Page>, dt: nat, fetched: Result<seq<Page>, string>)
    requires Fresh(s) && dir in s.stores
    requires IdString(doc.id) !in s.cache.value.context.indexStore
    requires s.now + dt >= s.cache.value.storedAt + Ttl
    ensures var r1 := CreateIndexStep(s, dir, doc, Ok(pages));
      var r2 := CreateIndexStep(Advance(r1.state, dt), dir, doc, fetched);
      var key := IdString(doc.id);
      && r2.result == Ok(map[key := IndexStruct(key, ParseNodes(TagPages(pages, key)))])
      && r2.state.fetches == s.fetches + [doc.url]
      && r2.state.vectorStore == r1.state.vectorStore
  {
    var r1 := CreateIndexStep(s, dir, doc, Ok(pages));
    BuildPathContents(s, dir, doc, pages);
    var s2 := Advance(r1.state, dt);
    assert !Fresh(s2);
    assert CacheGet(s2, dir).result == Ok(s2.stores[dir]);
  }

  /* ---------------------------------------------------------------- query */

  /** `ExactMatchFilter(key, value)`: the node's metadata maps `key` to `value`. */
  datatype ExactMatchFilter = ExactMatchFilter(key: string, value: string)

  /** The query engine `index.as_query_engine(...)` returns: its index, filters and top-k. */
  datatype QueryEngine = QueryEngine(index: IndexStruct, filters: seq<ExactMatchFilter>, similarityTopK: nat)

  /** `index_to_query_engine`: one exact-match filter on the document id, top 3. */
  function IndexToQueryEngine(docId: string, index: IndexStruct): (r: QueryEngine)
    ensures r.index == index && r.similarityTopK == 3
    ensures |r.filters| == 1 && r.filters[0].key == DbDocIdKey && r.filters[0].value == docId
  {
    QueryEngine(index, [ExactMatchFilter(DbDocIdKey, docId)], 3)
  }

  /** A node passes the filters when its metadata matches every one of them. */
  predicate PassesFilters(n: Node, filters: seq<ExactMatchFilter>)
  {
    forall f :: f in filters ==> f.key in n.metadata && n.metadata[f.key] == f.value
  }

  /** How many of the candidates pass the filters. */
  function CountPassing(ranked: seq<NodeWithScore>, filters: seq<ExactMatchFilter>): nat
  {
    if ranked == [] then 0
    else (if PassesFilters(ranked[0].node, filters) then 1 else 0) + CountPassing(ranked[1..], filters)
  }

  /** The candidates that pass the filters, in ranking order. */
  function PassingOf(ranked: seq<NodeWithScore>, filters: seq<ExactMatchFilter>): (r: seq<NodeWithScore>)
    ensures |r| == CountPassing(ranked, filters)
    ensures forall x :: x in r <==> x in ranked && PassesFilters(x.node, filters)
  {
    if ranked == [] then []
    else if PassesFilters(ranked[0].node, filters) then [ranked[0]] + PassingOf(ranked[1..], filters)
    else PassingOf(ranked[1..], filters)
  }

  /** `xs` is `ys` with some elements removed, order kept. */
  predicate Subsequence<T(==)>(xs: seq<T>, ys: seq<T>)
  {
    if xs == [] then true
    else if ys == [] then false
    else if xs[0] == ys[0] then Subsequence(xs[1..], ys[1..])
    else Subsequence(xs, ys[1..])
  }

  /**
   * A vector-store query with metadata filters and a top-k bound, over the
   * candidates in similarity order (the ranking is computed outside the
   * model): the first `k` candidates that pass every filter.
   */
  function Retrieve(filters: seq<ExactMatchFilter>, k: nat, ranked: seq<NodeWithScore>): (r: seq<NodeWithScore>)
    ensures |r| <= k
    ensures |r| == if k < CountPassing(ranked, filters) then k else CountPassing(ranked, filters)
    ensures forall x :: x in r ==> x in ranked && PassesFilters(x.node, filters)
    ensures Subsequence(r, ranked)
    ensures r == PassingOf(ranked, filters)[..|r|]
  {
    if k == 0 || ranked == [] then []
    else if PassesFilters(ranked[0].node, filters) then [ranked[0]] + Retrieve(filters, k - 1, ranked[1..])
    else Retrieve(filters, k, ranked[1..])
  }

  /** The query engine's retrieval: its filters and its top-k over the candidates. */
  function Query(engine: QueryEngine, ranked: seq<NodeWithScore>): (r: seq<NodeWithScore>)
    ensures |r| <= engine.similarityTopK
    ensures |r| == if engine.similarityTopK < CountPassing(ranked, engine.filters) then engine.similarityTopK
                   else CountPassing(ranked, engine.filters)
    ensures forall x :: x in r ==> x in ranked && PassesFilters(x.node, engine.filters)
    ensures r == PassingOf(ranked, engine.filters)[..|r|]
  {
    Retrieve(engine.filters, engine.similarityTopK, ranked)
  }

  /**
   * The query engine for document `u` returns at most three nodes, all tagged
   * with `str(u)`; for a node built by the engine (its source is its own
   * metadata) every citation made of it names document `u`.
   */
  lemma {:induction false} QueryStaysInDocument(u: Uuid, index: IndexStruct, ranked: seq<NodeWithScore>)
    ensures var r := Query(IndexToQueryEngine(UuidString(u), index), ranked);
      && |r| <= 3
      && (forall x :: x in r ==> DbDocIdKey in x.node.metadata && x.node.metadata[DbDocIdKey] == UuidString(u))
      && (forall x :: x in r && x.node.source == Some(x.node.metadata) && FromNode(x).Ok? ==>
            FromNode(x).value.documentId == UuidString(u))
  {
    var engine := IndexToQueryEngine(UuidString(u), index);
    var r := Query(engine, ranked);
    forall x | x in r
      ensures DbDocIdKey in x.node.metadata && x.node.metadata[DbDocIdKey] == UuidString(u)
    {
      assert engine.filters[0] in engine.filters;
    }
    ParseUuidString(u);
  }

  /* ---------------------------------------------------------- description */

  /** `build_description_for_document`. */
  function BuildDescription(doc: DocumentSchema): (r: string)
    ensures |r| == 55 + |IdString(doc.id)|
    ensures StartsWith(r, "A document with id ")
    ensures EndsWith(r, " containing some useful information.")
    ensures r[19..19 + |IdString(doc.id)|] == IdString(doc.id)
  {
    "A document with id " + IdString(doc.id) + " containing some useful information."
  }

  /** Two documents get the same description iff they have the same id. */
  lemma BuildDescriptionInjective(a: DocumentSchema, b: DocumentSchema)
    ensures BuildDescription(a) == BuildDescription(b) <==> a.id == b.id
  {
    IdStringInjective(a.id, b.id);
    if BuildDescription(a) == BuildDescription(b) {
      var pre := "A document with id ";
      assert |IdString(a.id)| == |IdString(b.id)|;
      assert IdString(a.id) == BuildDescription(a)[|pre|..|pre| + |IdString(a.id)|];
      assert IdString(b.id) == BuildDescription(b)[|pre|..|pre| + |IdString(b.id)|];
    }
  }

  /* --------------------------------------------------------------- engine */

  /**
   * The engine's mutable parts: the persisted stores, the cache entry, the
   * shared vector store, the clock and the fetch log.
   */
  class IndexingEngine {
    var stores: map<string, StorageContext>
    var cache: Option<CacheEntry>
    var vectorStore: seq<Node>
    var now: int
    var fetches: seq<string>

    /** The engine's fields as one value. */
    function State(): EngineState
      reads this
    {
      EngineState(stores, cache, vectorStore, now, fetches)
    }

    /** A new engine over the given persisted stores: empty cache and vector store. */
    constructor (persisted: map<string, StorageContext>)
      ensures State() == EngineState(persisted, None, [], 0, [])
    {
      stores := persisted;
      cache := None;
      vectorStore := [];
      now := 0;
      fetches := [];
    }

    /** The clock advances by `dt` seconds. */
    method Tick(dt: nat)
      modifies this
      ensures State() == Advance(old(State()), dt)
    {
      now := now + dt;
    }

    /** `get_storage_context` through the TTL cache. */
    method GetStorageContext(dir: string) returns (r: Result<StorageContext, IndexError>)
      modifies this
      ensures r == CacheGet(old(State()), dir).result
      ensures State() == CacheGet(old(State()), dir).state
    {
      if cache.Some? && now < cache.value.storedAt + Ttl {
        return Ok(cache.value.context);
      }
      if dir !in stores {
        return Err(FileNotFound(dir));
      }
      var ctx := stores[dir];
      cache := Some(CacheEntry(ctx, now));
      r := Ok(ctx);
    }

    /**
     * `create_index_from_doc` with the location `dir` and the outcome
     * `fetched` of fetching and reading the document's URL.
     */
    method CreateIndexFromDoc(dir: string, doc: DocumentSchema, fetched: Result<seq<Page>, string>)
      returns (r: Result<map<string, IndexStruct>, IndexError>)
      modifies this
      ensures Step(r, State()) == CreateIndexStep(old(State()), dir, doc, fetched)
    {
      var key := IdString(doc.id);
      var got := GetStorageContext(dir);
      var ctx: StorageContext;
      if got.Ok? {
        ctx := got.value;
      } else {
        ctx := EmptyContext;
        stores := stores[dir := ctx];
      }
      if key in ctx.indexStore {
        return Ok(map[key := ctx.indexStore[key]]);
      }
      // the ValueError branch: reload the persisted context and build
      if dir !in stores {
        return Err(FileNotFound(dir));
      }
      var loaded := stores[dir];
      fetches := fetches + [doc.url];
      if fetched.Err? {
        return Err(FetchFailed(fetched.error));
      }
      var pages := TagPages(fetched.value, key);
      loaded := loaded.(docstore := loaded.docstore + pages);
      var nodes := ParseNodes(pages);
      vectorStore := vectorStore + nodes;
      var index := IndexStruct(key, nodes);
      loaded := loaded.(indexStore := loaded.indexStore[key := index]);
      stores := stores[dir := loaded];
      r := Ok(map[key := index]);
    }
  }
}
