/**
 * `UnhandledErrorMiddleware`: the last handler of the pipeline, which turns
 * any error into a status code and a `{type, messsage}` body.
 */
module UnhandledErrorMiddleware {
  import opened Errors
  import opened Http

  /** The (status, type) pair of each error kind; anything unclassified is a server error. */
  function Classify(kind: ErrorKind): (c: (int, string))
    ensures c.0 in {BAD_REQUEST, NOT_FOUND, CONFLICT, INTERNAL_SERVER_ERROR}
  {
    match kind
    case InvalidObjectId => (BAD_REQUEST, "Invalid object Id")
    case InvalidRequestParameters => (BAD_REQUEST, "Invalid pagination parameters")
    case DuplicateItem => (CONFLICT, "Duplicate item error")
    case PathNotFound => (NOT_FOUND, "Path not found")
    case Unclassified => (INTERNAL_SERVER_ERROR, "Server error")
  }

  /**
   * The handler: defaults to 500 'Server error', overwritten by the first
   * matching class test; the body copies `err.messsage`, not `err.message`.
   */
  method HandleError(err: AppError) returns (reply: Reply)
    ensures reply.status == Classify(err.kind).0
    ensures reply.body == ErrorJson(Classify(err.kind).1, err.messsage)
  {
    var statusCode := INTERNAL_SERVER_ERROR;
    var errorType := "Server error";

    if err.kind == InvalidObjectId {
      statusCode := BAD_REQUEST;
      errorType := "Invalid object Id";
    } else if err.kind == InvalidRequestParameters {
      statusCode := BAD_REQUEST;
      errorType := "Invalid pagination parameters";
    } else if err.kind == DuplicateItem {
      statusCode := CONFLICT;
      errorType := "Duplicate item error";
    } else if err.kind == PathNotFound {
      statusCode := NOT_FOUND;
      errorType := "Path not found";
    }

    reply := Reply(statusCode, ErrorJson(errorType, err.messsage));
  }

  /** Distinct kinds that share a status are told apart by their type. */
  lemma ClassifyInjective(k1: ErrorKind, k2: ErrorKind)
    requires k1 != k2
    ensures Classify(k1) != Classify(k2)
  {
  }

  /** Only a path-not-found error gives 404, only a duplicate gives 409, only an unclassified error gives 500. */
  lemma StatusDeterminesKind(kind: ErrorKind)
    ensures Classify(kind).0 == NOT_FOUND <==> kind == PathNotFound
    ensures Classify(kind).0 == CONFLICT <==> kind == DuplicateItem
    ensures Classify(kind).0 == INTERNAL_SERVER_ERROR <==> kind == Unclassified
    ensures Classify(kind).0 == BAD_REQUEST <==> kind in {InvalidObjectId, InvalidRequestParameters}
  {
  }
}
