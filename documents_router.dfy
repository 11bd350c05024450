/**
 * The upload route: the file-name allow-list, and the guard that rejects a
 * disallowed name before anything is written.
 */
module DocumentsRouter {
  import opened Wrappers
  import opened Strings
  import opened Config
  import opened FileUtils
  import opened Uuids
  import opened DocumentService
  import opened HttpErrors

  /** `ALLOWED_EXTENSIONS`. */
  const AllowedExtensions: seq<string> := ["pdf", "txt", "md", "jpg", "jpeg", "png", "gif"]

  /** `filename.rsplit(".", 1)[1]`: the text after the last ".". */
  function LastExtension(filename: string): string
    requires '.' in filename
  {
    filename[LastIndexOf(filename, '.').value + 1..]
  }

  /** `is_allowed_file`: there is a "." and the lower-cased text after the last one is allowed. */
  function IsAllowedFile(filename: string): (r: bool)
    ensures r ==> exists e :: e in AllowedExtensions && EndsWith(Lower(filename), "." + e)
  {
    if '.' in filename then
      var ext := LastExtension(filename);
      LowerEndsWithExtension(filename, LastIndexOf(filename, '.').value);
      Lower(ext) in AllowedExtensions
    else false
  }

  /** The lower-cased name ends with "." and the lower-cased text after its `i`-th character, a ".". */
  lemma LowerEndsWithExtension(filename: string, i: nat)
    requires i < |filename| && filename[i] == '.'
    ensures EndsWith(Lower(filename), "." + Lower(filename[i + 1..]))
  {
    var stem, ext := filename[..i], filename[i + 1..];
    assert filename == stem + ("." + ext);
    LowerConcat(stem, "." + ext);
    LowerConcat(".", ext);
    var tail := "." + Lower(ext);
    assert Lower(".") + Lower(ext) == tail;
    assert (Lower(stem) + tail)[|Lower(stem)|..] == tail;
  }


  /** The last "." of `stem + "." + ext` is the one before `ext` when `ext` has none. */
  lemma {:induction false} LastDotBeforeExtension(f: string, i: nat)
    requires i < |f| && f[i] == '.' && '.' !in f[i + 1..]
    ensures LastIndexOf(f, '.') == Some(i)
    decreases |f|
  {
    if i < |f| - 1 {
      assert f[i + 1..][|f| - 2 - i] == f[|f| - 1];
      assert f[..|f| - 1][i + 1..] == f[i + 1..|f| - 1];
      assert '.' !in f[..|f| - 1][i + 1..];
      LastDotBeforeExtension(f[..|f| - 1], i);
    }
  }

  /** A name without a "." is rejected. */
  lemma NoDotRejected(filename: string)
    requires '.' !in filename
    ensures !IsAllowedFile(filename)
  {
  }

  /**
   * For a name split at its last "." into `stem` and `ext`, the name is allowed
   * iff `ext`, lower-cased, is one of pdf, txt, md, jpg, jpeg, png, gif: only
   * the text after the last "." counts, in any case, and a name ending in "."
   * has the empty extension and is rejected.
   */
  lemma IsAllowedFileIff(stem: string, ext: string)
    requires '.' !in ext
    ensures IsAllowedFile(stem + "." + ext) <==> Lower(ext) in AllowedExtensions
  {
    var f := stem + "." + ext;
    assert f[|stem|] == '.' && f[|stem| + 1..] == ext;
    LastDotBeforeExtension(f, |stem|);
  }

  /** Only the last extension counts: "a.tar.pdf" is allowed. */
  lemma OnlyLastExtensionCounts()
    ensures IsAllowedFile("a.tar.pdf")
  {
    IsAllowedFileIff("a.tar", "pdf");
    assert "a.tar" + "." + "pdf" == "a.tar.pdf";
    assert Lower("pdf") == "pdf" by {
      assert LowerChar('p') == 'p' && LowerChar('d') == 'd' && LowerChar('f') == 'f';
    }
    assert AllowedExtensions[0] == "pdf";
  }

  /** An allowed extension followed by another one is rejected: "a.pdf.gz". */
  lemma InnerExtensionIgnored()
    ensures !IsAllowedFile("a.pdf.gz")
  {
    IsAllowedFileIff("a.pdf", "gz");
    assert "a.pdf" + "." + "gz" == "a.pdf.gz";
    assert Lower("gz") == "gz" by {
      assert LowerChar('g') == 'g' && LowerChar('z') == 'z';
    }
    assert forall e <- AllowedExtensions :: e[0] != 'g' || |e| != 2;
  }

  /** A name ending in "." has an empty extension and is rejected. */
  lemma TrailingDotRejected(stem: string)
    ensures !IsAllowedFile(stem + ".")
  {
    IsAllowedFileIff(stem, "");
    assert stem + "." + "" == stem + ".";
  }

  /** Upper-case extensions pass: "Report.PDF" is allowed. */
  lemma UpperCaseExtensionAllowed()
    ensures IsAllowedFile("Report.PDF")
  {
    IsAllowedFileIff("Report", "PDF");
    assert "Report" + "." + "PDF" == "Report.PDF";
    assert Lower("PDF") == "pdf" by {
      assert LowerChar('P') == 'p' && LowerChar('D') == 'd' && LowerChar('F') == 'f';
    }
    assert AllowedExtensions[0] == "pdf";
  }

  /** Lower-casing a name split at its last "." splits the lower-cased name there too. */
  lemma LowerSplit(stem: string, ext: string)
    requires '.' !in ext
    ensures Lower(stem + "." + ext) == Lower(stem) + "." + Lower(ext)
    ensures '.' !in Lower(ext)
  {
    LowerConcat(stem + ".", ext);
    LowerConcat(stem, ".");
    LowerKeepsDots(ext);
  }

  /** The check ignores case: a name is allowed iff its lower-cased form is. */
  lemma IsAllowedFileIgnoresCase(filename: string)
    ensures IsAllowedFile(Lower(filename)) == IsAllowedFile(filename)
  {
    LowerKeepsDots(filename);
    if '.' in filename {
      var i := LastIndexOf(filename, '.').value;
      var stem, ext := filename[..i], filename[i + 1..];
      assert filename == stem + "." + ext;
      IsAllowedFileIff(stem, ext);
      LowerSplit(stem, ext);
      IsAllowedFileIff(Lower(stem), Lower(ext));
      LowerIdempotent(ext);
    }
  }

  /** The S3 objects written by the upload route, by "bucket/key" path. */
  class ObjectStore {
    var objects: map<string, seq<bv8>>

    constructor ()
      ensures objects == map[]
    {
      objects := map[];
    }

    method Write(path: string, content: seq<bv8>)
      modifies this
      ensures objects == old(objects)[path := content]
    {
      objects := objects[path := content];
    }
  }

  /**
   * `POST /upload`: a disallowed name raises 400 before anything is written;
   * otherwise the file goes to the asset bucket and its URL is registered with
   * `upsert_single_document`. A database error escapes the route and is
   * answered 500.
   */
  method UploadFile(settings: Settings, s3: ObjectStore, table: DocumentTable,
                    filename: string, content: seq<bv8>, freshId: Uuid)
    returns (r: Result<Option<DocumentRow>, HttpError>)
    requires table.Valid()
    modifies s3, table
    ensures table.Valid()
    ensures !IsAllowedFile(filename) ==>
      && r == Err(HttpError(400, "File type not allowed"))
      && s3.objects == old(s3.objects) && table.rows == old(table.rows)
    ensures IsAllowedFile(filename) ==>
      && s3.objects == old(s3.objects)[settings.s3AssetBucketName + "/" + filename := content]
      && match UpsertSingle(old(table.rows), DocumentUrl(settings, fileName := filename), freshId)
         case None => r == Ok(None) && table.rows == old(table.rows)
         case Some(Ok(u)) => r == Ok(Some(u.row)) && table.rows == u.rows
         case Some(Err(_)) => r == Err(HttpError(500, "Internal Server Error")) && table.rows == old(table.rows)
  {
    if !IsAllowedFile(filename) {
      return Err(HttpError(400, "File type not allowed"));
    }
    s3.Write(settings.s3AssetBucketName + "/" + filename, content);
    var url := DocumentUrl(settings, fileName := filename);
    var doc := table.UpsertSingleDocument(url, freshId);
    match doc
    case None => r := Ok(None);
    case Some(Ok(row)) => r := Ok(Some(row));
    case Some(Err(_)) => r := Err(HttpError(500, "Internal Server Error"));
  }

  /**
   * Uploading a file under a name already uploaded registers the same URL
   * again: the document keeps its row and id, and the table does not change.
   */
  lemma ReuploadKeepsDocument(rows: seq<DocumentRow>, settings: Settings, filename: string, id1: Uuid, id2: Uuid)
    requires TableConstraints(rows)
    requires UpsertSingle(rows, DocumentUrl(settings, fileName := filename), id1).Some?
    requires UpsertSingle(rows, DocumentUrl(settings, fileName := filename), id1).value.Ok?
    ensures var u := UpsertSingle(rows, DocumentUrl(settings, fileName := filename), id1).value.value;
      UpsertSingle(u.rows, DocumentUrl(settings, fileName := filename), id2) == Some(Ok(u))
  {
    var url := DocumentUrl(settings, fileName := filename);
    UpsertIdempotent(rows, SingleDocument(url), id1, id2);
  }
}
