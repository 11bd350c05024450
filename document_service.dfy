/**
 * The document table and the service functions over it: the conditional
 * fetch, and the insert-or-update keyed on the unique, non-null URL.
 */
module DocumentService {
  import opened Wrappers
  import opened Uuids
  import opened Nodes
  import opened Strings
  import opened Schemas

  /**
   * A row of the `document` table. `DocumentSchema.from_orm` copies these
   * fields, so the service functions return rows.
   */
  datatype DocumentRow = DocumentRow(
    id: Uuid,
    url: string,
    name: Option<string>,
    assistantId: Option<string>,
    metadataMap: Option<Metadata>)

  /** What the database raises. */
  datatype DbError =
    | UniqueViolation(column: string)  // an INSERT whose id is already taken
    | NegativeLimit(limit: int)        // LIMIT must not be negative

  /** The table's constraints: `url` is unique, and so is the primary key `id`. */
  predicate TableConstraints(rows: seq<DocumentRow>)
  {
    && (forall i, j :: 0 <= i < j < |rows| ==> rows[i].url != rows[j].url)
    && (forall i, j :: 0 <= i < j < |rows| ==> rows[i].id != rows[j].id)
  }

  // ---------------------------------------------------------------- fetch_documents

  /** The keyword arguments of `fetch_documents`. */
  datatype FetchQuery = FetchQuery(
    id: Option<Uuid>,
    ids: Option<seq<Uuid>>,
    url: Option<string>,
    limit: Option<int>)

  /** The WHERE clause: `id` wins over `ids`, and `url` combines with either. */
  predicate Matches(row: DocumentRow, q: FetchQuery)
  {
    && (q.id.Some? ==> row.id == q.id.value)
    && (q.id.None? && q.ids.Some? ==> row.id in q.ids.value)
    && (q.url.Some? ==> row.url == q.url.value)
  }

  /** The LIMIT clause: a lookup by `id` overrides the caller's limit with 1. */
  function EffectiveLimit(q: FetchQuery): Option<int>
  {
    if q.id.Some? then Some(1) else q.limit
  }

  function Filter(rows: seq<DocumentRow>, q: FetchQuery): (r: seq<DocumentRow>)
    ensures forall x :: x in r <==> x in rows && Matches(x, q)
    ensures |r| <= |rows|
  {
    if |rows| == 0 then []
    else (if Matches(rows[0], q) then [rows[0]] else []) + Filter(rows[1..], q)
  }

  /**
   * Every answer the database may give: the statement has no ORDER BY, so the
   * rows come in any order, and a LIMIT keeps any that many of the matching rows.
   */
  ghost predicate Admissible(rows: seq<DocumentRow>, q: FetchQuery, result: seq<DocumentRow>)
  {
    var matching := Filter(rows, q);
    && multiset(result) <= multiset(matching)
    && |result| == match EffectiveLimit(q)
                   case None => |matching|
                   case Some(n) => if n < |matching| then n else |matching|
  }

  /**
   * `fetch_documents`: one of the admissible answers, the matching rows in
   * table order cut to the limit, or the error a negative limit raises.
   */
  function FetchDocuments(rows: seq<DocumentRow>, q: FetchQuery): (r: Result<seq<DocumentRow>, DbError>)
    ensures r.Err? <==> EffectiveLimit(q).Some? && EffectiveLimit(q).value < 0
    ensures r.Ok? ==> Admissible(rows, q, r.value)
  {
    var matching := Filter(rows, q);
    match EffectiveLimit(q)
    case None => Ok(matching)
    case Some(n) =>
      if n < 0 then Err(NegativeLimit(n))
      else if n < |matching| then
        assert matching == matching[..n] + matching[n..];
        Ok(matching[..n])
      else Ok(matching)
  }

  /**
   * What holds of EVERY answer the database may give: each row matches the
   * query (so has the requested id, lies in `ids` when only `ids` is given,
   * and has the requested url), a lookup by id yields at most one row, a
   * limit bounds the length, and without a limit the answer is exactly the
   * matching rows, in some order.
   */
  lemma AdmissibleAnswers(rows: seq<DocumentRow>, q: FetchQuery, result: seq<DocumentRow>)
    requires Admissible(rows, q, result)
    ensures forall x :: x in result ==> x in rows && Matches(x, q)
    ensures forall x :: x in result && q.id.Some? ==> x.id == q.id.value
    ensures forall x :: x in result && q.id.None? && q.ids.Some? ==> x.id in q.ids.value
    ensures forall x :: x in result && q.url.Some? ==> x.url == q.url.value
    ensures q.id.Some? ==> |result| <= 1
    ensures q.id.None? && q.limit.Some? ==> |result| <= q.limit.value
    ensures EffectiveLimit(q).None? ==> multiset(result) == multiset(Filter(rows, q))
  {
    var matching := Filter(rows, q);
    forall x | x in result ensures x in matching {
      assert x in multiset(result);
    }
    if EffectiveLimit(q).None? {
      SubMultisetOfEqualSize(multiset(result), multiset(matching));
    }
  }

  lemma SubMultisetOfEqualSize<T>(a: multiset<T>, b: multiset<T>)
    requires a <= b && |a| == |b|
    ensures a == b
  {
    assert b == a + (b - a);
    assert |b - a| == 0;
    assert b - a == multiset{};
  }

  // ---------------------------------------------------------------- upsert_document_by_url

  /** The position of the row holding `url`, if any. */
  function IndexOfUrl(rows: seq<DocumentRow>, url: string): (r: Option<nat>)
    ensures r.Some? ==> r.value < |rows| && rows[r.value].url == url
    ensures r.None? ==> forall k :: 0 <= k < |rows| ==> rows[k].url != url
  {
    if |rows| == 0 then None
    else if rows[|rows| - 1].url == url then Some(|rows| - 1)
    else IndexOfUrl(rows[..|rows| - 1], url)
  }

  predicate HasId(rows: seq<DocumentRow>, id: Uuid)
  {
    exists k :: 0 <= k < |rows| && rows[k].id == id
  }

  /** A successful upsert: the new table and the row RETURNING gives. */
  datatype Upserted = Upserted(rows: seq<DocumentRow>, row: DocumentRow)

  /**
   * `INSERT ... ON CONFLICT (url) DO UPDATE SET metadata_map = ... RETURNING *`.
   * A URL already present updates that row's `metadata_map` (to None as well,
   * since the update set is dumped without excluding None); otherwise a row is
   * inserted with the document's id, or `freshId` (the database default) when
   * it has none, and an id already taken raises.
   */
  function Upsert(rows: seq<DocumentRow>, doc: DocumentSchema, freshId: Uuid): (r: Result<Upserted, DbError>)
    ensures r.Err? <==> IndexOfUrl(rows, doc.url).None? && HasId(rows, if doc.id.Some? then doc.id.value else freshId)
    ensures r.Err? ==> r.error == UniqueViolation("id")
    ensures r.Ok? ==> r.value.row in r.value.rows && r.value.row.url == doc.url && r.value.row.metadataMap == doc.metadataMap
  {
    match IndexOfUrl(rows, doc.url)
    case Some(i) =>
      var row := rows[i].(metadataMap := doc.metadataMap);
      assert rows[i := row][i] == row;
      Ok(Upserted(rows[i := row], row))
    case None =>
      var id := if doc.id.Some? then doc.id.value else freshId;
      if HasId(rows, id) then Err(UniqueViolation("id"))
      else
        var row := DocumentRow(id, doc.url, doc.name, doc.assistantId, doc.metadataMap);
        Ok(Upserted(rows + [row], row))
  }

  /** An absent URL inserts exactly one new row, at the end, holding the document's fields. */
  lemma UpsertInsertsAbsentUrl(rows: seq<DocumentRow>, doc: DocumentSchema, freshId: Uuid)
    requires forall k :: 0 <= k < |rows| ==> rows[k].url != doc.url
    requires !HasId(rows, if doc.id.Some? then doc.id.value else freshId)
    ensures var row := DocumentRow(if doc.id.Some? then doc.id.value else freshId,
                                   doc.url, doc.name, doc.assistantId, doc.metadataMap);
            Upsert(rows, doc, freshId) == Ok(Upserted(rows + [row], row))
  {
  }

  /** An insert whose id is already taken raises and leaves the table alone. */
  lemma UpsertRejectsTakenId(rows: seq<DocumentRow>, doc: DocumentSchema, freshId: Uuid)
    requires forall k :: 0 <= k < |rows| ==> rows[k].url != doc.url
    requires HasId(rows, if doc.id.Some? then doc.id.value else freshId)
    ensures Upsert(rows, doc, freshId) == Err(UniqueViolation("id"))
  {
  }

  /** Under the constraints, the row holding a URL is the only one. */
  lemma IndexOfUniqueUrl(rows: seq<DocumentRow>, i: nat)
    requires TableConstraints(rows) && i < |rows|
    ensures IndexOfUrl(rows, rows[i].url) == Some(i)
  {
    var r := IndexOfUrl(rows, rows[i].url);
    assert r.Some?;
    var j := r.value;
    assert rows[j].url == rows[i].url;
    assert j == i;
  }

  /**
   * A URL already present keeps its row where it is and changes only that
   * row's `metadata_map`: id, name and assistant id stay, and every other row
   * is untouched.
   */
  lemma UpsertUpdatesPresentUrl(rows: seq<DocumentRow>, doc: DocumentSchema, freshId: Uuid, i: nat)
    requires TableConstraints(rows) && i < |rows| && rows[i].url == doc.url
    ensures Upsert(rows, doc, freshId).Ok?
    ensures var u := Upsert(rows, doc, freshId).value;
      && |u.rows| == |rows|
      && u.row == u.rows[i] == rows[i].(metadataMap := doc.metadataMap)
      && u.row.id == rows[i].id && u.row.name == rows[i].name && u.row.assistantId == rows[i].assistantId
      && forall k :: 0 <= k < |rows| && k != i ==> u.rows[k] == rows[k]
  {
    IndexOfUniqueUrl(rows, i);
  }

  /**
   * After an upsert the constraints still hold, exactly one row has the URL
   * and it is the row returned, and the rows with other URLs are the same as
   * before.
   */
  lemma UpsertKeepsConstraints(rows: seq<DocumentRow>, doc: DocumentSchema, freshId: Uuid)
    requires TableConstraints(rows)
    requires Upsert(rows, doc, freshId).Ok?
    ensures var u := Upsert(rows, doc, freshId).value;
      && TableConstraints(u.rows)
      && u.row in u.rows && u.row.url == doc.url
      && (forall k :: 0 <= k < |u.rows| && u.rows[k].url == doc.url ==> u.rows[k] == u.row)
      && (forall x :: x in rows && x.url != doc.url ==> x in u.rows)
      && (forall x :: x in u.rows && x.url != doc.url ==> x in rows)
  {
    var u := Upsert(rows, doc, freshId).value;
    match IndexOfUrl(rows, doc.url)
    case Some(i) =>
      assert u.rows == rows[i := u.row] && u.rows[i] == u.row;
      forall x | x in rows && x.url != doc.url ensures x in u.rows {
        var k :| 0 <= k < |rows| && rows[k] == x;
        assert u.rows[k] == x;
      }
    case None =>
      assert u.rows == rows + [u.row];
      assert !HasId(rows, u.row.id);
  }

  /** Upserting the same document again changes nothing and returns the same row. */
  lemma UpsertIdempotent(rows: seq<DocumentRow>, doc: DocumentSchema, freshId: Uuid, otherId: Uuid)
    requires TableConstraints(rows)
    requires Upsert(rows, doc, freshId).Ok?
    ensures var u := Upsert(rows, doc, freshId).value;
      Upsert(u.rows, doc, otherId) == Ok(u)
  {
    var u := Upsert(rows, doc, freshId).value;
    UpsertKeepsConstraints(rows, doc, freshId);
    var i :| 0 <= i < |u.rows| && u.rows[i] == u.row;
    IndexOfUniqueUrl(u.rows, i);
    assert u.rows[i := u.row] == u.rows;
  }

  // ---------------------------------------------------------------- upsert_single_document

  /** Why `upsert_single_document` as written fails: validation, or the database. */
  datatype UpsertFailure = Invalid(errors: seq<FieldError>) | Db(e: DbError)

  /** The keyword arguments line 51 passes: the URL and an empty metadata map. */
  function SingleDocumentFieldsAsWritten(docUrl: string): map<string, PyValue>
  {
    map["url" := PyStr(docUrl), "metadata_map" := PyDict(map[])]
  }

  /**
   * `upsert_single_document` as written: the guard, then `DocumentSchema(url=...,
   * metadata_map={})`, whose validation fails before the upsert is reached.
   */
  function UpsertSingleAsWritten(rows: seq<DocumentRow>, docUrl: string, freshId: Uuid): (r: Option<Result<Upserted, UpsertFailure>>)
    ensures r.Some? <==> StartsWith(docUrl, "http")
  {
    if docUrl == "" || !StartsWith(docUrl, "http") then None
    else match NewDocumentSchema(SingleDocumentFieldsAsWritten(docUrl))
      case Err(errors) => Some(Err(Invalid(errors)))
      case Ok(doc) =>
        match Upsert(rows, doc, freshId)
        case Ok(u) => Some(Ok(u))
        case Err(e) => Some(Err(Db(e)))
  }

  /**
   * As written, every URL that passes the guard is rejected by validation,
   * naming `name` and `assistant_id`, and the table is never touched.
   */
  lemma UpsertSingleAsWrittenAlwaysFails(rows: seq<DocumentRow>, docUrl: string, freshId: Uuid)
    requires StartsWith(docUrl, "http")
    ensures UpsertSingleAsWritten(rows, docUrl, freshId) == Some(Err(Invalid([Missing("name"), Missing("assistant_id")])))
  {
    var fields := SingleDocumentFieldsAsWritten(docUrl);
    assert docUrl != "";
    assert "id" !in fields && "name" !in fields && "assistant_id" !in fields;
    assert ErrorsOf(OptionalUuid(fields, "id")) == [] && ErrorsOf(RequiredStr(fields, "url")) == [];
    assert ErrorsOf(OptionalDict(fields, "metadata_map")) == [];
    assert ErrorsOf(NullableStr(fields, "name")) == [Missing("name")];
    assert ErrorsOf(NullableStr(fields, "assistant_id")) == [Missing("assistant_id")];
    var none: seq<FieldError> := [];
    assert none + none + [Missing("name")] + [Missing("assistant_id")] + none == [Missing("name"), Missing("assistant_id")];
  }

  /** The evidently intended keyword arguments: `name` and `assistant_id` given as None. */
  function SingleDocumentFields(docUrl: string): map<string, PyValue>
  {
    SingleDocumentFieldsAsWritten(docUrl)["name" := PyNone]["assistant_id" := PyNone]
  }

  /**
   * The record the intended arguments build: the URL, no id, name or
   * assistant, and an empty metadata map.
   */
  function SingleDocument(docUrl: string): (d: DocumentSchema)
    ensures NewDocumentSchema(SingleDocumentFields(docUrl)) == Ok(d)
  {
    DocumentSchema(None, docUrl, None, None, Some(map[]))
  }

  /**
   * `upsert_single_document` with the intended arguments: None for an empty
   * URL or one that does not start with "http", else the upsert of
   * SingleDocument.
   */
  function UpsertSingle(rows: seq<DocumentRow>, docUrl: string, freshId: Uuid): (r: Option<Result<Upserted, DbError>>)
    ensures r.Some? <==> StartsWith(docUrl, "http")
    ensures r.Some? && r.value.Ok? ==> r.value.value.row.url == docUrl && r.value.value.row.metadataMap == Some(map[])
  {
    if docUrl == "" || !StartsWith(docUrl, "http") then None
    else Some(Upsert(rows, SingleDocument(docUrl), freshId))
  }

  /**
   * The guard checks only the prefix: a URL is taken iff it starts with "http"
   * ("httpfoo" is taken, "" and "ftp://x" are not), as written and as intended.
   */
  lemma UpsertSingleGuard(rows: seq<DocumentRow>, docUrl: string, freshId: Uuid)
    ensures UpsertSingle(rows, docUrl, freshId).Some? <==> StartsWith(docUrl, "http")
    ensures UpsertSingleAsWritten(rows, docUrl, freshId).Some? <==> StartsWith(docUrl, "http")
    ensures UpsertSingle(rows, "httpfoo", freshId).Some?
  {
    assert "httpfoo"[..4] == "http";
  }

  /** Registering a URL again resets its metadata map to {} and keeps its id. */
  lemma ReRegisterResetsMetadata(rows: seq<DocumentRow>, docUrl: string, freshId: Uuid, i: nat)
    requires TableConstraints(rows) && i < |rows| && rows[i].url == docUrl
    requires StartsWith(docUrl, "http")
    ensures UpsertSingle(rows, docUrl, freshId).Some?
    ensures var r := UpsertSingle(rows, docUrl, freshId).value;
      && r.Ok?
      && r.value.row.id == rows[i].id
      && r.value.row.metadataMap == Some(map[])
      && |r.value.rows| == |rows|
  {
    UpsertUpdatesPresentUrl(rows, SingleDocument(docUrl), freshId, i);
  }

  /** The document table, updated in place by the upserts. */
  class DocumentTable {
    var rows: seq<DocumentRow>

    predicate Valid()
      reads this
    {
      TableConstraints(rows)
    }

    constructor ()
      ensures Valid() && rows == []
    {
      rows := [];
    }

    /** `upsert_document_by_url`: run the upsert, then commit its new table. */
    method UpsertDocumentByUrl(doc: DocumentSchema, freshId: Uuid) returns (r: Result<DocumentRow, DbError>)
      requires Valid()
      modifies this
      ensures Valid()
      ensures Upsert(old(rows), doc, freshId).Ok? ==>
        rows == Upsert(old(rows), doc, freshId).value.rows && r == Ok(Upsert(old(rows), doc, freshId).value.row)
      ensures Upsert(old(rows), doc, freshId).Err? ==>
        rows == old(rows) && r == Err(Upsert(old(rows), doc, freshId).error)
    {
      var u := Upsert(rows, doc, freshId);
      if u.Ok? {
        UpsertKeepsConstraints(rows, doc, freshId);
        rows := u.value.rows;
        r := Ok(u.value.row);
      } else {
        r := Err(u.error);
      }
    }

    /** `upsert_single_document`: the URL guard, then UpsertDocumentByUrl. */
    method UpsertSingleDocument(docUrl: string, freshId: Uuid) returns (r: Option<Result<DocumentRow, DbError>>)
      requires Valid()
      modifies this
      ensures Valid()
      ensures UpsertSingle(old(rows), docUrl, freshId).None? ==> r.None? && rows == old(rows)
      ensures UpsertSingle(old(rows), docUrl, freshId).Some? ==> (
        && r.Some?
        && match UpsertSingle(old(rows), docUrl, freshId).value
           case Ok(u) => rows == u.rows && r.value == Ok(u.row)
           case Err(e) => rows == old(rows) && r.value == Err(e))
    {
      if docUrl == "" || !StartsWith(docUrl, "http") {
        r := None;
      } else {
        var doc := SingleDocument(docUrl);
        var res := UpsertDocumentByUrl(doc, freshId);
        r := Some(res);
      }
    }
  }
}
