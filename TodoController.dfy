/**
 * `TodoController`: five request handlers, each a chain of guards followed
 * by calls to the todo service. The service is an oracle: `answer` gives
 * the outcome of each call, and `serviceLog` records the calls made, so
 * that "the service is not called" can be stated.
 */
module TodoController {
  import opened Wrappers
  import opened Js
  import opened JsParse
  import opened Errors
  import opened Lib
  import opened Http
  import opened ErrorObject
  import BaseMiddleware

  /** The `options` record handed to `getAllTodoItems`. */
  datatype PageOptions = PageOptions(page: Num, limit: Num)

  datatype ServiceCall =
    | GetAllTodoItems(options: PageOptions)
    | GetTodoItem(id: Value)
    | CreateTodoItem(title: Value, description: Value)
    | UpdateTodoItem(id: Value, title: Value, description: Value, completed: Value)
    | DeleteTodoItem(id: Value)

  /** What an awaited service call did: resolved to a value or threw. */
  datatype Outcome = Returned(value: Value) | Threw(err: AppError)

  datatype HandlerResult =
    | Responded(reply: Reply)   // `res.status(code).json(body)`
    | Forwarded(err: AppError)  // `next(err)`
    | Rejected                  // an exception escapes the handler

  /** `req.params.id`. */
  function ParamId(req: Request): (id: Value)
    ensures "id" in req.params ==> id == Str(req.params["id"])
    ensures "id" !in req.params ==> id == Undefined
  {
    if "id" in req.params then Str(req.params["id"]) else Undefined
  }

  /**
   * The options of `getAll`: page 1 and limit 10, each replaced by
   * `parseInt(value, 10)` when the query value is truthy.
   */
  function RequestedOptions(query: map<string, Value>): (o: PageOptions)
    ensures Truthy(QueryGet(query, "page")) ==> o.page == ParseInt(QueryGet(query, "page"))
    ensures !Truthy(QueryGet(query, "page")) ==> o.page == Int(1)
    ensures Truthy(QueryGet(query, "limit")) ==> o.limit == ParseInt(QueryGet(query, "limit"))
    ensures !Truthy(QueryGet(query, "limit")) ==> o.limit == Int(10)
  {
    var page := QueryGet(query, "page");
    var limit := QueryGet(query, "limit");
    PageOptions(if Truthy(page) then ParseInt(page) else Int(1),
                if Truthy(limit) then ParseInt(limit) else Int(10))
  }

  /**
   * The catch block of `getSpecific`, `add` and `delete`:
   * `res.status(422).json(convertErrorToObject(err))`. The reply is sent
   * only when the conversion returns, that is for an error with at most one
   * own property; otherwise the TypeError escapes the handler.
   */
  function ServiceErrorResult(err: AppError): (r: HandlerResult)
    ensures r == Rejected <==> |err.ownKeys| >= 2
    ensures err.ownKeys == [] ==> r == Responded(Reply(UNPROCESSABLE_ENTITY, Json(Object(map[]))))
    ensures |err.ownKeys| == 1 ==> r == Responded(Reply(UNPROCESSABLE_ENTITY, Json(Undefined)))
  {
    match ConvertErrorToObject(err)
    case Converted(v) => Responded(Reply(UNPROCESSABLE_ENTITY, Json(v)))
    case ThrewTypeError => Rejected
  }

  class TodoController {
    const answer: ServiceCall -> Outcome
    const objectIdIsValid: Value -> bool
    var serviceLog: seq<ServiceCall>

    constructor (answer: ServiceCall -> Outcome, objectIdIsValid: Value -> bool)
      ensures this.answer == answer && this.objectIdIsValid == objectIdIsValid
      ensures serviceLog == []
    {
      this.answer := answer;
      this.objectIdIsValid := objectIdIsValid;
      serviceLog := [];
    }

    /** One awaited service call. */
    method CallService(call: ServiceCall) returns (outcome: Outcome)
      modifies this
      ensures serviceLog == old(serviceLog) + [call]
      ensures outcome == answer(call)
    {
      serviceLog := serviceLog + [call];
      outcome := answer(call);
    }

    /** `getAll`: 200 with the service's page; a service error goes to `next`. */
    method GetAll(req: Request) returns (r: HandlerResult)
      modifies this
      ensures var call := GetAllTodoItems(RequestedOptions(req.query));
        && serviceLog == old(serviceLog) + [call]
        && r == match answer(call)
                case Returned(v) => Responded(Reply(OK, Json(v)))
                case Threw(e) => Forwarded(e)
    {
      var options := PageOptions(Int(1), Int(10));
      var page := QueryGet(req.query, "page");
      var limit := QueryGet(req.query, "limit");
      if Truthy(page) {
        options := options.(page := ParseInt(page));
      }
      if Truthy(limit) {
        options := options.(limit := ParseInt(limit));
      }

      var outcome := CallService(GetAllTodoItems(options));
      match outcome
      case Returned(v) => r := Responded(Reply(OK, Json(v)));
      case Threw(e) => r := Forwarded(e);
    }

    /** `getSpecific`: 400 on an invalid id before any service call; 200 with the item; a service error goes to the catch block. */
    method GetSpecific(req: Request) returns (r: HandlerResult)
      modifies this
      ensures var id := ParamId(req);
        if !IsValidObjectId(id, objectIdIsValid) then
          serviceLog == old(serviceLog) && r == Responded(Reply(BAD_REQUEST, MessageBody("Invalid Id!")))
        else
          && serviceLog == old(serviceLog) + [GetTodoItem(id)]
          && r == match answer(GetTodoItem(id))
                  case Returned(v) => Responded(Reply(OK, Json(v)))
                  case Threw(e) => ServiceErrorResult(e)
    {
      var id := ParamId(req);
      if !IsValidObjectId(id, objectIdIsValid) {
        return Responded(Reply(BAD_REQUEST, MessageBody("Invalid Id!")));
      }
      var outcome := CallService(GetTodoItem(id));
      match outcome
      case Returned(v) => r := Responded(Reply(OK, Json(v)));
      case Threw(e) => r := ServiceErrorResult(e);
    }

    /** `add`: 400 without a truthy title; else 201 with the created item, passing on only title and description. */
    method Add(req: Request) returns (r: HandlerResult)
      modifies this
      ensures if !Truthy(req.body) || !Truthy(Get(req.body, "title")) then
          serviceLog == old(serviceLog) && r == Responded(Reply(BAD_REQUEST, MessageBody("No title specified!")))
        else
          var call := CreateTodoItem(Get(req.body, "title"), Get(req.body, "description"));
          && serviceLog == old(serviceLog) + [call]
          && r == match answer(call)
                  case Returned(v) => Responded(Reply(CREATED, Json(v)))
                  case Threw(e) => ServiceErrorResult(e)
    {
      var body := req.body;
      if !Truthy(body) || !Truthy(Get(body, "title")) {
        return Responded(Reply(BAD_REQUEST, MessageBody("No title specified!")));
      }
      var outcome := CallService(CreateTodoItem(Get(body, "title"), Get(body, "description")));
      match outcome
      case Returned(v) => r := Responded(Reply(CREATED, Json(v)));
      case Threw(e) => r := ServiceErrorResult(e);
    }

    /**
     * `update`: the empty-body test comes before the id test; an item the
     * service does not find gives 404 and no update call; a service error
     * escapes (the catch block calls the non-existent `res.estatus`).
     */
    method Update(req: Request) returns (r: HandlerResult)
      modifies this
      ensures var body, id := req.body, ParamId(req);
        if !Truthy(body) || OwnKeyCount(body) == 0 then
          serviceLog == old(serviceLog) && r == Responded(Reply(BAD_REQUEST, MessageBody("Empty body parameter!")))
        else if !IsValidObjectId(id, objectIdIsValid) then
          serviceLog == old(serviceLog) && r == Responded(Reply(BAD_REQUEST, MessageBody("Invalid Id!")))
        else match answer(GetTodoItem(id))
          case Threw(_) => serviceLog == old(serviceLog) + [GetTodoItem(id)] && r == Rejected
          case Returned(item) =>
            if !Truthy(item) then
              && serviceLog == old(serviceLog) + [GetTodoItem(id)]
              && r == Responded(Reply(NOT_FOUND, MessageBody("No item found to update!")))
            else
              var call := UpdateTodoItem(id, Get(body, "title"), Get(body, "description"), Get(body, "completed"));
              && serviceLog == old(serviceLog) + [GetTodoItem(id), call]
              && r == match answer(call)
                      case Returned(u) => Responded(Reply(OK, Json(u)))
                      case Threw(_) => Rejected
    {
      var body := req.body;
      if !Truthy(body) || OwnKeyCount(body) == 0 {
        return Responded(Reply(BAD_REQUEST, MessageBody("Empty body parameter!")));
      }
      var id := ParamId(req);
      if !IsValidObjectId(id, objectIdIsValid) {
        return Responded(Reply(BAD_REQUEST, MessageBody("Invalid Id!")));
      }
      var found := CallService(GetTodoItem(id));
      if found.Threw? {
        return Rejected;
      }
      if !Truthy(found.value) {
        return Responded(Reply(NOT_FOUND, MessageBody("No item found to update!")));
      }
      var updated := CallService(UpdateTodoItem(id, Get(body, "title"), Get(body, "description"), Get(body, "completed")));
      if updated.Threw? {
        return Rejected;
      }
      r := Responded(Reply(OK, Json(updated.value)));
    }

    /** `delete`: 400 on an invalid id before any service call; 200 with the result; a service error goes to the catch block. */
    method Delete(req: Request) returns (r: HandlerResult)
      modifies this
      ensures var id := ParamId(req);
        if !IsValidObjectId(id, objectIdIsValid) then
          serviceLog == old(serviceLog) && r == Responded(Reply(BAD_REQUEST, MessageBody("Invalid Id!")))
        else
          && serviceLog == old(serviceLog) + [DeleteTodoItem(id)]
          && r == match answer(DeleteTodoItem(id))
                  case Returned(v) => Responded(Reply(OK, Json(v)))
                  case Threw(e) => ServiceErrorResult(e)
    {
      var id := ParamId(req);
      if !IsValidObjectId(id, objectIdIsValid) {
        return Responded(Reply(BAD_REQUEST, MessageBody("Invalid Id!")));
      }
      var outcome := CallService(DeleteTodoItem(id));
      match outcome
      case Returned(v) => r := Responded(Reply(OK, Json(v)));
      case Threw(e) => r := ServiceErrorResult(e);
    }
  }

  // ---------------------------------------------------------------------------
  // Properties of the options record

  /**
   * A domain error thrown by the service never gets its 422 reply in
   * `getSpecific`, `add` or `delete`: converting it throws.
   */
  lemma DomainServiceErrorsEscape(message: Option<string>)
    ensures ServiceErrorResult(NewInvalidRequestParametersError(message)) == Rejected
    ensures ServiceErrorResult(NewDuplicateItemError(message)) == Rejected
    ensures ServiceErrorResult(NewPathNotFoundError(message)) == Rejected
    ensures ServiceErrorResult(NewInvalidObjectIdError(message)) == Rejected
  {
    DomainErrorsThrow(message);
  }

  /** An absent or empty `page`/`limit` keeps the default. */
  lemma EmptyQueryValuesKeepDefaults()
    ensures RequestedOptions(map[]) == PageOptions(Int(1), Int(10))
    ensures RequestedOptions(map["page" := Str(""), "limit" := Str("")]) == PageOptions(Int(1), Int(10))
  {
  }

  /**
   * Behind the pagination middleware (the route for GET /), `getAll` always
   * hands the service integer options; when the middleware let the request
   * through they are not negative, and an unparseable or absent page or
   * limit arrives as 1 or 10.
   */
  lemma OptionsAfterValidation(query: map<string, Value>)
    requires BaseMiddleware.ValidationVerdict(query) == Proceed
    ensures var o := RequestedOptions(BaseMiddleware.ValidatedQuery(query));
      && o.page.Int? && o.page.i >= 0
      && o.limit.Int? && o.limit.i >= 0
      && (ParseInt(QueryGet(query, "page")) == NaN ==> o.page == Int(1))
      && (ParseInt(QueryGet(query, "limit")) == NaN ==> o.limit == Int(10))
  {
    BaseMiddleware.ValidatedParametersParse(query);
    BaseMiddleware.PageDefaulted(query);
    BaseMiddleware.LimitDefaulted(query);
  }
}
