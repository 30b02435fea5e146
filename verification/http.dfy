/**
 * What the Express application answers before and after its routes: the block-list of
 * sensitive paths, the 404 fallback and the final error handler.
 */
module Http {
  import opened Wrappers

  /** The public view of an account that registration, login and profile replies carry. */
  datatype Summary = Summary(id: string, username: string, email: string,
                             firstName: string, lastName: string, role: string)

  /** The JSON bodies the server sends. */
  datatype Body =
    | ErrorBody(error: string)
    | ValidationBody(error: string, details: seq<string>)
    | DuplicateBody(error: string, field: Option<string>)
    | ServerErrorBody(error: string, stack: Option<string>)
    | NotFoundBody(error: string, path: string, verb: string)
    | MessageBody(message: string)
    | RegisteredBody(message: string, account: Summary, extra: seq<string>)
    | LoginBody(message: string, user: Summary, sessionId: string)
    | ProfileBody(user: Summary)
    | DefaultErrorPage

  /**
   * A response: a status and a body, or nothing at all when a handler throws outside any
   * `try` (Express 4 does not catch a rejected promise, so the request is never answered).
   */
  datatype Reply = Reply(status: nat, body: Body) | NoReply

  // ---------------------------------------------------------------- block-list

  /** The files the first middleware refuses to expose. */
  const SensitivePaths: seq<string> := ["/server.js", "/.env", "/package.json", "/package-lock.json"]

  const Forbidden: Reply := Reply(403, ErrorBody("Access forbidden"))

  /** The first middleware: a 403 for a sensitive path (compared exactly), otherwise on to the next layer. */
  function BlockSensitive(path: string): (r: Option<Reply>)
    ensures r.Some? <==> path in SensitivePaths
    ensures r.Some? ==> r.value.Reply? && r.value.status == 403
  {
    if path in SensitivePaths then Some(Forbidden) else None
  }

  /** The block-list compares the path exactly: a different spelling of a listed file is passed on. */
  lemma BlockListIsExact()
    ensures BlockSensitive("/server.js").Some?
    ensures BlockSensitive("/SERVER.JS").None? && BlockSensitive("/server.js/").None?
  {
  }

  /** The 404 handler, reached by any request no earlier layer answered. */
  function NotFoundReply(originalUrl: string, verb: string): (r: Reply)
    ensures r.Reply? && r.status == 404 && r.body.NotFoundBody?
    ensures r.body.path == originalUrl && r.body.verb == verb
  {
    Reply(404, NotFoundBody("Route not found", originalUrl, verb))
  }

  // ---------------------------------------------------------------- error handler

  /** The error object an earlier layer passes to `next(err)`. */
  datatype AppError = AppError(name: string, code: Option<int>, status: Option<nat>,
                               message: string, stack: string,
                               fieldMessages: seq<string>, keyPattern: Option<seq<string>>)

  /** `process.env.NODE_ENV`. */
  datatype NodeEnv = Production | Development | OtherEnv

  const DuplicateKeyCode: int := 11000

  /**
   * The last middleware. A duplicate-key error without a key pattern makes the handler itself
   * throw, and Express's built-in final handler answers 500 with its default page.
   */
  function HandleError(err: AppError, env: NodeEnv): (r: Reply)
    ensures r.Reply?
    ensures r.status in {400, 401, 500} || Some(r.status) == err.status
    ensures err.name == "ValidationError" ==> r == Reply(400, ValidationBody("Validation Error", err.fieldMessages))
    ensures env == Production && r.body.ServerErrorBody? ==> r.body.error == "Internal server error" && r.body.stack.None?
    ensures r.body.ServerErrorBody? && r.body.stack.Some? ==> env == Development
    // a duplicate key: 400 naming the first indexed field, or Express's own 500 page without a key pattern
    ensures err.name != "ValidationError" && err.code == Some(DuplicateKeyCode) ==>
              (err.keyPattern.None? ==> r == Reply(500, DefaultErrorPage))
              && (err.keyPattern.Some? ==>
                    r.status == 400 && r.body.DuplicateBody? && r.body.error == "Duplicate entry"
                    && (r.body.field.Some? <==> err.keyPattern.value != [])
                    && (r.body.field.Some? ==> r.body.field.value == err.keyPattern.value[0]))
    // a rejected token
    ensures err.name == "JsonWebTokenError" && err.code != Some(DuplicateKeyCode) ==>
              r == Reply(401, ErrorBody("Invalid token"))
    // everything else: `err.status || 500`, the message hidden in production, the stack only in development
    ensures err.name != "ValidationError" && err.code != Some(DuplicateKeyCode) && err.name != "JsonWebTokenError" ==>
              r.body.ServerErrorBody?
              && (err.status.Some? && err.status.value != 0 ==> r.status == err.status.value)
              && (err.status.None? || err.status.value == 0 ==> r.status == 500)
              && r.body.error == (if env == Production then "Internal server error" else err.message)
              && (r.body.stack.Some? <==> env == Development)
              && (r.body.stack.Some? ==> r.body.stack.value == err.stack)
  {
    if err.name == "ValidationError" then
      Reply(400, ValidationBody("Validation Error", err.fieldMessages))
    else if err.code == Some(DuplicateKeyCode) then
      match err.keyPattern
      case None => Reply(500, DefaultErrorPage)
      case Some(keys) => Reply(400, DuplicateBody("Duplicate entry", if keys == [] then None else Some(keys[0])))
    else if err.name == "JsonWebTokenError" then
      Reply(401, ErrorBody("Invalid token"))
    else
      var status := if err.status.Some? && err.status.value != 0 then err.status.value else 500;
      Reply(status,
            ServerErrorBody(if env == Production then "Internal server error" else err.message,
                            if env == Development then Some(err.stack) else None))
  }

  /** In production an unclassified error never reveals its message or its stack. */
  lemma ProductionHidesInternals(err: AppError)
    requires err.name != "ValidationError" && err.code != Some(DuplicateKeyCode) && err.name != "JsonWebTokenError"
    ensures HandleError(err, Production).body == ServerErrorBody("Internal server error", None)
  {
  }

  /** Outside production the message is passed through unchanged, whatever the status. */
  lemma NonProductionShowsMessage(err: AppError, env: NodeEnv)
    requires env != Production
    requires err.name != "ValidationError" && err.code != Some(DuplicateKeyCode) && err.name != "JsonWebTokenError"
    ensures HandleError(err, env).body.error == err.message
  {
  }
}
