/**
 * The application's entry module: the bodies its two exception handlers
 * answer with, the migration-head comparison run at start-up, and the
 * rewrite of the database URL to the synchronous driver.
 */
module ErrorHandlers {
  import opened Wrappers
  import opened Strings
  import opened HttpErrors

  /* ------------------------------------------------------- HTTP responses */

  /** A JSON error response: the HTTP status and the body's three fields. */
  datatype JsonResponse = JsonResponse(statusCode: int, code: int, message: string, errorCode: int)

  /** `http_exception_handler`: the status is echoed in `code` and `error_code`, the detail is the message. */
  function HttpErrorResponse(exc: HttpError): (r: JsonResponse)
    ensures r.statusCode == r.code == r.errorCode == exc.statusCode
    ensures r.message == exc.detail
  {
    JsonResponse(exc.statusCode, exc.statusCode, exc.detail, exc.statusCode)
  }

  /** `status.HTTP_422_UNPROCESSABLE_ENTITY`. */
  const UnprocessableEntity: int := 422

  /* ---------------------------------------------------- validation errors */

  /**
   * One entry of `exc.errors()`: the rendered input, the message, the `type`
   * entry if the dict has one, and the `ctx` dict if it has one.
   */
  datatype ErrorDetail = ErrorDetail(
    input: string,
    msg: string,
    errorType: Option<string>,
    ctx: Option<map<string, string>>)

  /** The part a validation error starts with: `"{input}: {msg}"`. */
  function Header(e: ErrorDetail): string
  {
    e.input + ": " + e.msg
  }

  /** The header followed by `"; {type}"` when the error has a type. */
  function WithType(e: ErrorDetail): string
  {
    if e.errorType.Some? then Header(e) + "; " + e.errorType.value else Header(e)
  }

  /**
   * The part of the message for one error: the header, then `"; {type}"` if
   * the error has a type, then `".  {ctx['error']}"` if it has a context.
   * None when the context has no "error" entry: the handler raises KeyError.
   */
  function MessagePart(e: ErrorDetail): (r: Option<string>)
    ensures r.None? <==> e.ctx.Some? && "error" !in e.ctx.value
    ensures r.Some? ==> StartsWith(r.value, Header(e))
  {
    WithTypeShape(e);
    match e.ctx
    case None => Some(WithType(e))
    case Some(c) => if "error" in c then Some(WithType(e) + ".  " + c["error"]) else None
  }

  /** The parts for a list of errors, in order; None as soon as one of them raises. */
  function MessageParts(errors: seq<ErrorDetail>): (r: Option<seq<string>>)
    ensures r.Some? ==> |r.value| == |errors|
    ensures r.Some? <==> forall i :: 0 <= i < |errors| ==> MessagePart(errors[i]).Some?
    ensures r.Some? ==> forall i :: 0 <= i < |errors| ==> r.value[i] == MessagePart(errors[i]).value
  {
    if errors == [] then Some([])
    else
      match MessageParts(errors[..|errors| - 1])
      case None => None
      case Some(parts) =>
        match MessagePart(errors[|errors| - 1])
        case None => None
        case Some(p) => Some(parts + [p])
  }

  /** The message `validation_exception_handler` builds: the parts joined by a blank line. */
  function ValidationMessage(errors: seq<ErrorDetail>): (r: Option<string>)
    ensures r.Some? <==> forall i :: 0 <= i < |errors| ==> MessagePart(errors[i]).Some?
    ensures r.Some? && |errors| == 1 ==> r.value == MessagePart(errors[0]).value
  {
    match MessageParts(errors)
    case None => None
    case Some(parts) => Some(Join(parts, "\n\n"))
  }

  /** The type suffix follows the header, and starts with ';', iff the error has a type. */
  lemma WithTypeShape(e: ErrorDetail)
    ensures StartsWith(WithType(e), Header(e))
    ensures e.errorType.Some? ==> WithType(e)[|Header(e)|..] == "; " + e.errorType.value
    ensures e.errorType.None? ==> WithType(e) == Header(e)
  {
    var h := Header(e);
    if e.errorType.Some? {
      var w := h + "; " + e.errorType.value;
      assert w[..|h|] == h;
      assert w[|h|..] == "; " + e.errorType.value;
    }
  }

  /**
   * Each part starts with `"{input}: {msg}"`. The type suffix is there iff the
   * error has a type (it is the only suffix that starts with ';'); a context
   * suffix `".  {error}"` comes last, after any type suffix. The part is None
   * exactly when a context lacks its "error" entry.
   */
  lemma MessagePartShape(e: ErrorDetail)
    ensures MessagePart(e).None? <==> e.ctx.Some? && "error" !in e.ctx.value
    ensures MessagePart(e).Some? ==>
      var p := MessagePart(e).value;
      && StartsWith(p, Header(e))
      && (e.errorType.Some? <==> |p| > |Header(e)| && p[|Header(e)|] == ';')
      && (e.errorType.Some? ==> StartsWith(p[|Header(e)|..], "; " + e.errorType.value))
      && (e.ctx.Some? ==> EndsWith(p, ".  " + e.ctx.value["error"]))
      && (e.errorType.None? && e.ctx.None? ==> p == Header(e))
  {
    WithTypeShape(e);
    var h := Header(e);
    var w := WithType(e);
    if e.ctx.Some? && "error" in e.ctx.value {
      var tail := ".  " + e.ctx.value["error"];
      var p := w + tail;
      assert w + ".  " + e.ctx.value["error"] == p;
      assert p[..|w|] == w;
      assert p[|w|..] == tail;
      assert p[..|h|] == w[..|h|];
      assert p[|h|..] == w[|h|..] + tail;
      if e.errorType.Some? {
        assert p[|h|..][..|"; " + e.errorType.value|] == "; " + e.errorType.value;
      } else {
        assert p[|h|] == tail[0];
      }
    }
  }

  /** A prefix that raises makes the whole list raise. */
  lemma {:induction false} MessagePartsNoneExtends(errors: seq<ErrorDetail>, i: nat)
    requires i <= |errors| && MessageParts(errors[..i]) == None
    ensures MessageParts(errors) == None
    decreases |errors| - i
  {
    if i < |errors| {
      assert errors[..i + 1][..i] == errors[..i];
      MessagePartsNoneExtends(errors, i + 1);
    } else {
      assert errors[..i] == errors;
    }
  }

  /** The parts of one more error: the earlier parts, then its own. */
  lemma MessagePartsStep(errors: seq<ErrorDetail>, i: nat)
    requires i < |errors|
    ensures MessageParts(errors[..i + 1]) ==
      match (MessageParts(errors[..i]), MessagePart(errors[i]))
      case (Some(parts), Some(p)) => Some(parts + [p])
      case _ => None
  {
    assert errors[..i + 1][..i] == errors[..i] && errors[..i + 1][i] == errors[i];
  }

  /** No errors give the empty message. */
  lemma NoErrorsEmptyMessage()
    ensures ValidationMessage([]) == Some("")
  {
  }

  /** One error gives exactly its part. */
  lemma SingleErrorMessage(e: ErrorDetail)
    ensures ValidationMessage([e]) == MessagePart(e)
  {
    var es := [e];
    assert es[..|es| - 1] == [] && es[|es| - 1] == e;
    assert MessageParts([]) == Some([]);
  }

  /**
   * One part per error, in error order: one more error adds a blank line and
   * its part at the end of the message.
   */
  lemma MessageAppend(errors: seq<ErrorDetail>, e: ErrorDetail)
    requires errors != []
    ensures ValidationMessage(errors + [e]) ==
      match (ValidationMessage(errors), MessagePart(e))
      case (Some(m), Some(p)) => Some(m + "\n\n" + p)
      case _ => None
  {
    assert (errors + [e])[..|errors|] == errors;
    if MessageParts(errors).Some? && MessagePart(e).Some? {
      JoinAppend(MessageParts(errors).value, MessagePart(e).value, "\n\n");
    }
  }

  /**
   * `validation_exception_handler`'s loop: append the header of each error,
   * then extend the last part with the type and the context suffixes. None
   * when a context lacks its "error" entry.
   */
  method BuildValidationMessage(errors: seq<ErrorDetail>) returns (r: Option<string>)
    ensures r == ValidationMessage(errors)
  {
    var msgParts: seq<string> := [];
    var i := 0;
    while i < |errors|
      invariant 0 <= i <= |errors|
      invariant MessageParts(errors[..i]) == Some(msgParts)
    {
      var e := errors[i];
      ghost var done := msgParts;
      MessagePartsStep(errors, i);
      msgParts := msgParts + [e.input + ": " + e.msg];
      if e.errorType.Some? {
        msgParts := msgParts[..|msgParts| - 1] + [msgParts[|msgParts| - 1] + "; " + e.errorType.value];
      }
      assert msgParts == done + [WithType(e)];
      if e.ctx.Some? {
        if "error" !in e.ctx.value {
          MessagePartsNoneExtends(errors, i + 1);
          return None;
        }
        msgParts := msgParts[..|msgParts| - 1] + [msgParts[|msgParts| - 1] + ".  " + e.ctx.value["error"]];
      }
      assert msgParts == done + [MessagePart(e).value];
      i := i + 1;
    }
    assert errors[..i] == errors;
    r := Some(Join(msgParts, "\n\n"));
  }

  /**
   * `validation_exception_handler`'s response: status, `code` and
   * `error_code` are all 422 and the message is the joined parts; None when
   * building the message raises.
   */
  function ValidationResponse(errors: seq<ErrorDetail>): (r: Option<JsonResponse>)
    ensures r.Some? <==> ValidationMessage(errors).Some?
    ensures r.Some? ==> r.value.statusCode == r.value.code == r.value.errorCode == UnprocessableEntity
    ensures r.Some? ==> r.value.message == ValidationMessage(errors).value
  {
    match ValidationMessage(errors)
    case None => None
    case Some(m) => Some(JsonResponse(UnprocessableEntity, UnprocessableEntity, m, UnprocessableEntity))
  }

  /** A disallowed upload is answered 400 with the body naming the reason. */
  lemma RejectedUploadResponse()
    ensures HttpErrorResponse(HttpError(400, "File type not allowed"))
      == JsonResponse(400, 400, "File type not allowed", 400)
  {
  }

  /* ------------------------------------------------------ migration heads */

  /** `set(heads)`. */
  function HeadSet(heads: seq<string>): (r: set<string>)
    ensures forall h :: h in r <==> h in heads
  {
    set h | h in heads
  }

  /** `check_current_head`: the database's heads and the scripts' heads are equal as sets. */
  function CheckCurrentHead(current: seq<string>, script: seq<string>): (r: bool)
    ensures r ==> forall h :: h in current ==> h in script
    ensures r ==> forall h :: h in script ==> h in current
  {
    HeadSet(current) == HeadSet(script)
  }

  /** The heads agree iff every head on one side is a head on the other. */
  lemma CheckCurrentHeadIff(current: seq<string>, script: seq<string>)
    ensures CheckCurrentHead(current, script) <==> forall h :: h in current <==> h in script
  {
    if forall h :: h in current <==> h in script {
      assert HeadSet(current) == HeadSet(script);
    }
  }

  /** Order and repetition of the heads do not matter. */
  lemma CheckCurrentHeadIgnoresOrder(current: seq<string>, current2: seq<string>, script: seq<string>)
    requires multiset(current2) == multiset(current) || (forall h :: h in current2 <==> h in current)
    ensures CheckCurrentHead(current2, script) == CheckCurrentHead(current, script)
  {
    if multiset(current2) == multiset(current) {
      forall h ensures h in current2 <==> h in current {
        assert h in current2 <==> h in multiset(current2);
        assert h in current <==> h in multiset(current);
      }
    }
    assert HeadSet(current2) == HeadSet(current);
  }

  /* --------------------------------------------------------- database URL */

  /** The async driver's scheme in `DATABASE_URL`. */
  const AsyncpgScheme: string := "postgresql+asyncpg://"

  /** The synchronous driver's scheme the migration check uses. */
  const Psycopg2Scheme: string := "postgresql+psycopg2://"

  /** `settings.DATABASE_URL.replace("postgresql+asyncpg://", "postgresql+psycopg2://")`. */
  function SyncDatabaseUrl(url: string): (r: string)
    ensures !Contains(url, AsyncpgScheme) ==> r == url
  {
    var r := ReplaceAll(url, AsyncpgScheme, Psycopg2Scheme);
    if Contains(url, AsyncpgScheme) then r
    else
      ReplaceAllWithoutOccurrence(url, AsyncpgScheme, Psycopg2Scheme);
      r
  }

  /** A URL without the async scheme is left as it is. */
  lemma SyncDatabaseUrlKeepsOtherUrls(url: string)
    requires !Contains(url, AsyncpgScheme)
    ensures SyncDatabaseUrl(url) == url
  {
    ReplaceAllWithoutOccurrence(url, AsyncpgScheme, Psycopg2Scheme);
  }

  /** An async URL gets the synchronous scheme and keeps everything after it. */
  lemma SyncDatabaseUrlSwapsScheme(rest: string)
    requires !Contains(rest, AsyncpgScheme)
    ensures SyncDatabaseUrl(AsyncpgScheme + rest) == Psycopg2Scheme + rest
  {
    var url := AsyncpgScheme + rest;
    assert OccursAt(url, AsyncpgScheme, 0);
    ReplaceAllAtFirstOccurrence(url, AsyncpgScheme, Psycopg2Scheme, 0);
    assert url[|AsyncpgScheme|..] == rest;
    ReplaceAllWithoutOccurrence(rest, AsyncpgScheme, Psycopg2Scheme);
  }

  /**
   * Every occurrence is replaced, left to right: text before the first
   * occurrence is kept, the occurrence becomes the synchronous scheme, and the
   * rewrite goes on after it.
   */
  lemma SyncDatabaseUrlFirstOccurrence(url: string, i: nat)
    requires OccursAt(url, AsyncpgScheme, i)
    requires forall j: nat :: j < i ==> !OccursAt(url, AsyncpgScheme, j)
    ensures SyncDatabaseUrl(url) == url[..i] + Psycopg2Scheme + SyncDatabaseUrl(url[i + |AsyncpgScheme|..])
  {
    ReplaceAllAtFirstOccurrence(url, AsyncpgScheme, Psycopg2Scheme, i);
  }
}
