/**
 * The API schemas: the UUID-to-string validators, the citation record built
 * from a retrieved node, and the shape of a document record.
 */
module Schemas {
  import opened Wrappers
  import opened Uuids
  import opened PyInt
  import opened Nodes

  /** The Python values a schema field can receive. */
  datatype PyValue = PyNone | PyStr(s: string) | PyUuid(u: Uuid) | PyDict(d: Metadata)

  /** Python truthiness. */
  predicate Truthy(v: PyValue)
  {
    match v
    case PyNone => false
    case PyStr(s) => s != ""
    case PyUuid(_) => true
    case PyDict(d) => d != map[]
  }

  /** `str(v)` for the values a UUID field holds. */
  function Str(v: PyValue): string
    requires !v.PyDict?
  {
    match v
    case PyNone => "None"
    case PyStr(s) => s
    case PyUuid(u) => UuidString(u)
  }

  /**
   * `lambda x: str(x) if x else x`: the map that `build_uuid_validator` installs
   * on UUID fields and that `CitationSchema.validate_document_id` applies to
   * `document_id`. It only ever sees the values a UUID field holds.
   */
  function StrIfTruthy(v: PyValue): (r: PyValue)
    requires !v.PyDict?
    ensures Truthy(v) ==> r.PyStr? && Truthy(r)
    ensures !Truthy(v) ==> r == v
  {
    if Truthy(v) then PyStr(Str(v)) else v
  }

  /** A truthy value becomes its string form; a falsy one comes back unchanged. */
  lemma StrIfTruthyCases(v: PyValue)
    requires !v.PyDict?
    ensures Truthy(v) ==> StrIfTruthy(v) == PyStr(Str(v)) && Truthy(StrIfTruthy(v))
    ensures !Truthy(v) ==> StrIfTruthy(v) == v
    ensures v.PyUuid? ==> StrIfTruthy(v) == PyStr(UuidString(v.u))
  {
    if v.PyUuid? {
      assert |UuidString(v.u)| == 36;
    }
  }

  /** Validating twice is validating once: the result is a string or a falsy value, both fixed points. */
  lemma StrIfTruthyIdempotent(v: PyValue)
    requires !v.PyDict?
    ensures !StrIfTruthy(v).PyDict?
    ensures StrIfTruthy(StrIfTruthy(v)) == StrIfTruthy(v)
  {
  }

  /** `CitationSchema`: one retrieved chunk surfaced to the caller. */
  datatype Citation = Citation(documentId: string, text: string, pageNumber: int, score: Option<real>)

  /** Why `CitationSchema.from_node` raises. */
  datatype CitationError =
    | NoSourceNode                      // AttributeError: the node has no SOURCE relationship
    | MissingMetadata(key: string)      // KeyError on the source's metadata
    | PageLabelNotInt(pageLabel: string)  // ValueError from int()
    | InvalidDocumentId(value: string)  // pydantic rejects the value as a UUID

  /**
   * `CitationSchema.from_node`: the page number is `int()` of the source's page
   * label, the document id is the source's DB_DOC_ID_KEY read as a UUID and
   * printed back by the validator, the text is the node's content and the
   * score is copied. The errors come in the order Python evaluates the lines.
   */
  function FromNode(nws: NodeWithScore): (r: Result<Citation, CitationError>)
    ensures r.Ok? <==>
      && nws.node.source.Some?
      && PageLabelKey in nws.node.source.value
      && ParseInt(nws.node.source.value[PageLabelKey]).Some?
      && DbDocIdKey in nws.node.source.value
      && ParseUuid(nws.node.source.value[DbDocIdKey]).Some?
    ensures r.Ok? ==>
      var meta := nws.node.source.value;
      && r.value.pageNumber == ParseInt(meta[PageLabelKey]).value
      && r.value.documentId == UuidString(ParseUuid(meta[DbDocIdKey]).value)
      && r.value.text == nws.node.text
      && r.value.score == nws.score
  {
    match nws.node.source
    case None => Err(NoSourceNode)
    case Some(meta) =>
      if PageLabelKey !in meta then Err(MissingMetadata(PageLabelKey))
      else match ParseInt(meta[PageLabelKey])
      case None => Err(PageLabelNotInt(meta[PageLabelKey]))
      case Some(page) =>
        if DbDocIdKey !in meta then Err(MissingMetadata(DbDocIdKey))
        else match ParseUuid(meta[DbDocIdKey])
        case None => Err(InvalidDocumentId(meta[DbDocIdKey]))
        case Some(id) =>
          StrIfTruthyCases(PyUuid(id));
          Ok(Citation(Str(StrIfTruthy(PyUuid(id))), nws.node.text, page, nws.score))
  }

  /**
   * A node cut from a page the engine tagged with `str(document.id)` and
   * numbered `n` yields a citation naming that document and page `n`.
   */
  lemma FromTaggedNode(nws: NodeWithScore, id: Uuid, n: int)
    requires nws.node.source.Some?
    requires nws.node.source.value[PageLabelKey := IntToString(n)][DbDocIdKey := UuidString(id)] == nws.node.source.value
    ensures FromNode(nws) == Ok(Citation(UuidString(id), nws.node.text, n, nws.score))
  {
    var meta := nws.node.source.value;
    assert meta[PageLabelKey] == IntToString(n) by {
      assert PageLabelKey != DbDocIdKey;
    }
    ParseIntString(n);
    ParseUuidString(id);
  }

  /** A page label `int()` cannot read, such as the Roman "iv", makes `from_node` raise. */
  lemma FromNodeRomanLabel(nws: NodeWithScore)
    requires nws.node.source.Some? && nws.node.source.value.Keys == {PageLabelKey, DbDocIdKey}
    requires nws.node.source.value[PageLabelKey] == "iv"
    ensures FromNode(nws) == Err(PageLabelNotInt("iv"))
  {
    ParseIntRejects("iv", 'i');
  }

  /** `DocumentSchema`: `Base`'s optional `id` plus the document fields. */
  datatype DocumentSchema = DocumentSchema(
    id: Option<Uuid>,
    url: string,
    name: Option<string>,
    assistantId: Option<string>,
    metadataMap: Option<Metadata>)

  /** One failing field of a pydantic validation. */
  datatype FieldError = Missing(field: string) | WrongType(field: string)

  /**
   * A field annotated `Optional[str]` with no default: pydantic 2 requires it
   * to be given, and accepts None or a string.
   */
  function NullableStr(fields: map<string, PyValue>, key: string): Result<Option<string>, FieldError>
  {
    if key !in fields then Err(Missing(key))
    else if fields[key].PyNone? then Ok(None)
    else if fields[key].PyStr? then Ok(Some(fields[key].s))
    else Err(WrongType(key))
  }

  function OptionalUuid(fields: map<string, PyValue>, key: string): Result<Option<Uuid>, FieldError>
  {
    if key !in fields || fields[key].PyNone? then Ok(None)
    else match fields[key]
      case PyUuid(u) => Ok(Some(u))
      case PyStr(s) => (match ParseUuid(s) case Some(u) => Ok(Some(u)) case None => Err(WrongType(key)))
      case _ => Err(WrongType(key))
  }

  function OptionalDict(fields: map<string, PyValue>, key: string): Result<Option<Metadata>, FieldError>
  {
    if key !in fields || fields[key].PyNone? then Ok(None)
    else if fields[key].PyDict? then Ok(Some(fields[key].d))
    else Err(WrongType(key))
  }

  function RequiredStr(fields: map<string, PyValue>, key: string): Result<string, FieldError>
  {
    if key !in fields then Err(Missing(key))
    else if fields[key].PyStr? then Ok(fields[key].s)
    else Err(WrongType(key))
  }

  function ErrorsOf<T>(r: Result<T, FieldError>): seq<FieldError>
  {
    if r.Err? then [r.error] else []
  }

  /**
   * Building a `DocumentSchema` from keyword arguments: every failing field is
   * reported, in declaration order; otherwise the record holds what was given.
   * `id` and `metadata_map` have the default None; `url`, `name` and
   * `assistant_id` have no default and must be given, the last two possibly as
   * None.
   */
  function NewDocumentSchema(fields: map<string, PyValue>): (r: Result<DocumentSchema, seq<FieldError>>)
    ensures r.Ok? ==> "url" in fields && fields["url"] == PyStr(r.value.url) && "name" in fields && "assistant_id" in fields
    ensures r.Ok? ==> r.value.name == (if fields["name"].PyStr? then Some(fields["name"].s) else None)
    ensures r.Ok? ==> r.value.assistantId == (if fields["assistant_id"].PyStr? then Some(fields["assistant_id"].s) else None)
    ensures r.Ok? ==> r.value.metadataMap == (if "metadata_map" in fields && fields["metadata_map"].PyDict? then Some(fields["metadata_map"].d) else None)
    ensures r.Ok? && "id" in fields && fields["id"].PyUuid? ==> r.value.id == Some(fields["id"].u)
    ensures r.Ok? && "id" in fields && fields["id"].PyStr? ==> r.value.id == ParseUuid(fields["id"].s)
    ensures r.Ok? && ("id" !in fields || fields["id"].PyNone?) ==> r.value.id == None
    ensures r.Err? ==> r.error != []
  {
    var id := OptionalUuid(fields, "id");
    var url := RequiredStr(fields, "url");
    var name := NullableStr(fields, "name");
    var assistantId := NullableStr(fields, "assistant_id");
    var metadataMap := OptionalDict(fields, "metadata_map");
    var errors := ErrorsOf(id) + ErrorsOf(url) + ErrorsOf(name) + ErrorsOf(assistantId) + ErrorsOf(metadataMap);
    if errors == [] then
      Ok(DocumentSchema(id.value, url.value, name.value, assistantId.value, metadataMap.value))
    else Err(errors)
  }

  /** `url` is required: without it construction fails, and says so. */
  lemma DocumentSchemaRequiresUrl(fields: map<string, PyValue>)
    requires "url" !in fields
    ensures NewDocumentSchema(fields).Err? && Missing("url") in NewDocumentSchema(fields).error
  {
  }

  /**
   * `name` and `assistant_id` have no default: left out, each is reported
   * missing, after any error for `id` and `url`.
   */
  lemma DocumentSchemaRequiresNameAndAssistant(fields: map<string, PyValue>)
    requires "name" !in fields || "assistant_id" !in fields
    ensures NewDocumentSchema(fields).Err?
    ensures "name" !in fields ==> Missing("name") in NewDocumentSchema(fields).error
    ensures "assistant_id" !in fields ==> Missing("assistant_id") in NewDocumentSchema(fields).error
  {
  }

  /**
   * Given as None, `name` and `assistant_id` are accepted: a string `url` with
   * both set to None (and `id` and `metadata_map` given or left to their
   * default) builds the record holding exactly those values.
   */
  lemma DocumentSchemaExplicitNones(url: string, meta: Option<Metadata>)
    ensures var base := map["url" := PyStr(url), "name" := PyNone, "assistant_id" := PyNone];
      var fields := if meta.Some? then base["metadata_map" := PyDict(meta.value)] else base;
      NewDocumentSchema(fields) == Ok(DocumentSchema(None, url, None, None, meta))
  {
  }
}
