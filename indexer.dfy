/**
 * The older build-finished handler kept for compatibility: it always uses
 * the Typesense backend, and turns every server, client or system failure
 * into a logged warning so that the documentation build still succeeds.
 */
module Indexer {
  import opened Wrappers
  import opened Config
  import opened Documents
  import opened Typesense
  import opened Extension

  /** The warning `_log_indexing_error` writes, by the first class the exception belongs to. */
  datatype LogCategory =
    | AuthenticationFailed
    | ServerUnavailable
    | TimedOut
    | NetworkError
    | ClientError
    | SystemError
    | Unexpected

  /** Exceptions deriving from the Typesense client's base error. */
  predicate IsClientError(k: ExcKind)
  {
    k == RequestUnauthorized || k == ServiceUnavailable || k == Timeout || k == HTTPStatus0 ||
    k == ObjectNotFound || k == OtherClientError
  }

  /** `_log_indexing_error`: the `isinstance` tests in their order. */
  function Category(k: ExcKind): (c: LogCategory)
    ensures c == AuthenticationFailed <==> k == RequestUnauthorized
    ensures c == TimedOut <==> k == Timeout || k == HTTPStatus0
    ensures c == NetworkError <==> k == ConnectionError || k == TimeoutError
    ensures c == ClientError <==> k == ObjectNotFound || k == OtherClientError
    ensures c == SystemError <==> k == OtherOSError
  {
    if k == RequestUnauthorized then AuthenticationFailed
    else if k == ServiceUnavailable then ServerUnavailable
    else if k == Timeout || k == HTTPStatus0 then TimedOut
    else if k == ConnectionError || k == TimeoutError then NetworkError
    else if IsClientError(k) then ClientError
    else if IsOSError(k) then SystemError
    else Unexpected
  }

  /** The exception classes the handler's `except` clause names. */
  predicate Caught(k: ExcKind)
  {
    k == RequestUnauthorized || k == ServiceUnavailable || k == Timeout || k == HTTPStatus0 ||
    k == ConnectionError || k == TimeoutError || IsClientError(k) || IsOSError(k)
  }

  /**
   * Every exception the handler catches gets a specific warning: the
   * "unexpected error" branch is never reached from it, and only an
   * exception from outside both hierarchies is not caught.
   */
  lemma CaughtIsCategorised(k: ExcKind)
    ensures Caught(k) <==> k != OtherException
    ensures Caught(k) <==> Category(k) != Unexpected
  {
  }

  /** How the handler ends. */
  datatype Outcome =
    | Skipped
    | Indexed(count: nat)
    | Logged(category: LogCategory, exc: Exc)
    | Propagated(exc: Exc)

  /**
   * `index_documents`: skipped after a failed build, with indexing off or
   * without an admin key; otherwise one fresh backend indexes the site and
   * a caught exception becomes a warning.
   */
  function LegacyRun(s: Settings, buildFailed: bool, w: World): (r: Outcome)
  {
    if buildFailed || !s.enableIndexing || s.apiKey == "" then Skipped
    else Handled(IndexAllRun(s.dropExisting, s.collectionName, None, w.server, SiteDocs(s, w)).result)
  }

  /** The `try` around `index_all`: a count, a warning, or an exception that goes on. */
  function Handled(result: Result<nat>): (r: Outcome)
  {
    if result.Returned? then Indexed(result.value)
    else if Caught(result.exc.kind) then Logged(Category(result.exc.kind), result.exc)
    else Propagated(result.exc)
  }

  /** `index_documents`; the backend it builds is returned so that its requests can be read. */
  method LegacyIndexDocuments(s: Settings, buildFailed: bool, w: World) returns (r: Outcome, built: Option<Backend>)
    ensures r == LegacyRun(s, buildFailed, w)
    ensures built.Some? <==> !buildFailed && s.enableIndexing && s.apiKey != ""
    ensures built.Some? ==>
              fresh(built.value) && built.value.trace == IndexAllRun(s.dropExisting, s.collectionName, None, w.server, SiteDocs(s, w)).events
  {
    if buildFailed || !s.enableIndexing || s.apiKey == "" {
      return Skipped, None;
    }
    var backend := new Backend(s);
    var count := backend.IndexAll(w.server, w.files, w.matches, w.hash);
    built := Some(backend);
    match count
    case Returned(n) =>
      r := Indexed(n);
    case Raised(e) =>
      if Caught(e.kind) {
        r := Logged(Category(e.kind), e);
      } else {
        r := Propagated(e);
      }
  }

  /**
   * Graceful degradation: the build fails only through an exception from
   * outside the Typesense client and `OSError`, and every warning is a
   * specific one.
   */
  lemma HandledNeverUnexpected(result: Result<nat>)
    ensures Handled(result).Propagated? ==> Handled(result).exc.kind == OtherException
    ensures Handled(result).Logged? ==> Handled(result).category != Unexpected
  {
    if result.Raised? {
      CaughtIsCategorised(result.exc.kind);
    }
  }

  /** A server that cannot be reached gives 0 documents and no warning. */
  lemma UnreachableServerIndexesNothing(s: Settings, w: World)
    requires s.enableIndexing && s.apiKey != ""
    requires ConnectionRun(None, w.server.health).result == Returned(false)
    ensures LegacyRun(s, false, w) == Indexed(0)
  {
  }
}
