/** `NotFoundMiddleware`: every request that no route matched is passed on as a PathNotFoundError. */
module NotFoundMiddleware {
  import opened Wrappers
  import opened Errors
  import opened Http
  import UnhandledErrorMiddleware

  const Prefix := "Path not found - "

  /** The argument the middleware gives to `next`; it never writes a reply itself. */
  function HandleNotFound(req: Request): (arg: NextArg)
    ensures arg.Fail? && arg.err.kind == PathNotFound && arg.err.name == "PathNotFoundError"
    ensures arg.err.message == Prefix + req.originalUrl
  {
    Fail(NewPathNotFoundError(Some(Prefix + req.originalUrl)))
  }

  /** Only `originalUrl` matters: the method, the query and the body do not. */
  lemma DependsOnlyOnUrl(r1: Request, r2: Request)
    requires r1.originalUrl == r2.originalUrl
    ensures HandleNotFound(r1) == HandleNotFound(r2)
  {
  }

  /** With the error handler behind it, an unmatched path answers 404 'Path not found'. */
  lemma UnmatchedPathIs404(req: Request)
    ensures UnhandledErrorMiddleware.Classify(HandleNotFound(req).err.kind) == (NOT_FOUND, "Path not found")
  {
  }
}
