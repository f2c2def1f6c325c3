# Todo REST service: request, pagination and error layer

A Dafny model of the layer of a small Express/MongoDB todo service that sits
between HTTP and the document store:

- the pagination middleware `BaseMiddleware.validatePaginatedParameters`,
  including the `parseInt(s, 10)` semantics it relies on (section 19.2.5 of
  ECMA-262, 2022 edition);
- the five handlers of `TodoController` as guard chains over an abstract
  todo service that records its calls;
- the page window of `TodoRepository.getAll`, over a store that is a
  sequence of records;
- the error classes, the error-to-status middleware and the not-found
  middleware;
- the helpers `isValidObjectId` and `mapResponse` of `lib/index.js`.

Files, one module each: `Wrappers.dfy` (Option, Result), `Js.dfy`
(JavaScript values: truthiness, `Object.keys(..).length`, property access,
`String(..)`), `ParseInt.dfy` (module `JsParse`), `Errors.dfy`,
`ErrorObject.dfy` (`convertErrorToObject` of `src/lib/error.js`), `Lib.dfy`,
`Http.dfy` (request, `next` log, replies), `BaseMiddleware.dfy`,
`UnhandledErrorMiddleware.dfy`, `NotFoundMiddleware.dfy`,
`TodoRepository.dfy`, `TodoController.dfy`.

Modelling choices:

- A JavaScript value is `Js.Value`: `Undefined`, `Null`, `Bool`, `Number`,
  `Str` or `Object`. A Number is NaN or a mathematical integer.
- The request is a class whose `query` map the middleware rewrites in
  place. `next` is a class that logs each call it receives.
- The service is an oracle `answer: ServiceCall -> Outcome`, held by the
  controller, and `serviceLog` records every call in order. A handler that
  must not reach the service leaves the log unchanged.
- `mongoose.Types.ObjectId.isValid` is the uninterpreted parameter
  `objectIdIsValid`.
- The source declares the error classes in two directories.
  `src/middlewares/base.middleware.js` takes `InvalidRequestParametersError`
  from `src/errors`, while `src/middlewares/unhandled-error.middleware.js`
  tests `instanceof` against the classes of `src/utils/errors`. The model
  uses one `ErrorKind` for both, so an error's class is decided by its kind.
  Whether the two `InvalidRequestParametersError` classes are the same object
  at run time depends on files this model does not include
  (`src/errors/invalid-request-params.error.js` is not part of this model).
- The aggregation store has to be told what to do with a negative `$skip`
  and with a `$limit` that is not positive. MongoDB rejects both, so
  `TodoRepository.Aggregate` returns a `Failure` for them.

Behaviour of the code worth noting (the model follows the code):

- The middleware rejects `page < 0` and `limit < 0`, not `< 1` as a
  positive page number would suggest. Page 0 and limit 0 pass validation,
  and the store then rejects them (`PageZeroRejectedByStore`,
  `LimitZeroRejectedByStore`).
- `getSpecific` answers 200 with whatever the service returns, `null`
  included. It never answers 404, although the test "should return
  NOT_FOUND" (test/controllers/todo/todo.controller.test.js:147) is named
  for one; that test asserts no status.
- `add` answers 201 and sends no `Location` header.
- The catch blocks of `getSpecific`, `add` and `delete` would answer 422
  with `convertErrorToObject(err)`, where the tests expect 500 (for example
  test/controllers/todo/todo.controller.test.js:162-184). The reply is sent
  only for an error with at most one own property: the conversion's reducer
  returns undefined, so its second step throws a TypeError and the handler
  rejects instead. Every error built by the four domain constructors has
  own `message` and `name` properties, so for those no reply is sent
  (`DomainServiceErrorsEscape`).
- The error body is `{type, messsage: err.messsage}`. No error class sets
  the misspelled property, so the error's real `message` is never sent.

## Model

| member | source | states |
|---|---|---|
| `JsParse.ParseIntString` | src/middlewares/base.middleware.js:11-12 | parseInt(s, 10) on a string: white space and line terminators are trimmed, an optional sign is read, then the longest run of digits; the result is NaN exactly when no digit follows the white space and the sign, and is negative only after a '-' |
| `JsParse.ParseInt` | src/controllers/todo.controller.js:12-18 | parseInt(v, 10) on any value: only strings and Numbers can give an integer, and a Number reads back as itself |
| `JsParse.ParseIntString_IntString` | src/middlewares/base.middleware.js:11-12 | parseInt(String(n), 10) == n for every integer n |
| `JsParse.ParseIntAgreesWithToString` | src/middlewares/base.middleware.js:11-12 | parseInt on any value equals the string algorithm applied to ToString of that value; undefined, null, booleans, NaN and objects give NaN |
| `JsParse.StopsAtFirstNonDigit` | src/middlewares/base.middleware.js:11-12 | an optional sign, then digits, then anything that does not start with a digit, parses to the signed value of those digits |
| `JsParse.SkipsLeadingWhitespace` | src/middlewares/base.middleware.js:11-12 | leading white space and line terminators do not change the result |
| `JsParse.ParseIntTrailingGarbage` | src/middlewares/base.middleware.js:11-20 | "2abc" parses to 2, so it counts as a number |
| `JsParse.ParseIntMinusZero` | src/middlewares/base.middleware.js:22 | "-0" parses to zero, which is not below zero |
| `BaseMiddleware.ValidatePaginatedParameters` | src/middlewares/base.middleware.js:8-31 | the new query is ValidatedQuery of the old one; exactly one call, ValidationVerdict of the old query, is added to `next`'s log |
| `BaseMiddleware.PageDefaulted` | src/middlewares/base.middleware.js:11-16 | afterwards `page` is present; it is 1 when the old value parsed to NaN (absent, empty or non-numeric) and otherwise the original value |
| `BaseMiddleware.LimitDefaulted` | src/middlewares/base.middleware.js:12-20 | afterwards `limit` is present; it is 10 when the old value parsed to NaN and otherwise the original value |
| `BaseMiddleware.OtherKeysUnchanged` | src/middlewares/base.middleware.js:11-20 | no key other than `page` and `limit` is added, removed or changed |
| `BaseMiddleware.ParseableValueKept` | src/middlewares/base.middleware.js:11-16 | `page=2abc` stays as the string "2abc" |
| `BaseMiddleware.VerdictCases` | src/middlewares/base.middleware.js:22-30 | `next` gets an error iff page or limit parses below zero; a negative page gives InvalidRequestParameters "Invalid page"; otherwise a negative limit gives "Invalid limit" |
| `BaseMiddleware.ZeroPasses` | src/middlewares/base.middleware.js:22-28 | page and limit of 0 or NaN pass validation |
| `BaseMiddleware.NegativeExamples` | src/middlewares/base.middleware.js:22-28 | `page=-1` gives "Invalid page", `limit=-1` gives "Invalid limit", and both together give "Invalid page" |
| `BaseMiddleware.Idempotent` | src/middlewares/base.middleware.js:11-30 | running the middleware again on its own output changes nothing and gives the same verdict |
| `BaseMiddleware.ValidatedParametersParse` | src/middlewares/base.middleware.js:11-30 | after the middleware, page and limit always parse to integers, and to non-negative ones when the request goes on |
| `TodoController.RequestedOptions` | src/controllers/todo.controller.js:10-18 | page starts at 1 and limit at 10; each is replaced by parseInt of the query value only when that value is truthy |
| `TodoController.EmptyQueryValuesKeepDefaults` | src/controllers/todo.controller.js:10-18 | absent or empty query values keep page 1 and limit 10 |
| `TodoController.OptionsAfterValidation` | src/routes/todo.route.js:11-13 | behind the middleware, getAll hands the service non-negative integer options, with 1 and 10 for values that did not parse |
| `TodoController.TodoController.GetAll` | src/controllers/todo.controller.js:9-25 | exactly one service call, with the requested options; 200 with its result, or its error passed to `next` |
| `TodoController.ServiceErrorResult` | src/controllers/todo.controller.js:39-41 | the catch block answers 422 with `{}` for an error with no own property and with `undefined` for one with a single own property; with two or more the conversion throws and the handler rejects |
| `TodoController.DomainServiceErrorsEscape` | src/controllers/todo.controller.js:57-59 | an error from any of the four domain constructors gets no 422 reply: the handler rejects |
| `TodoController.TodoController.GetSpecific` | src/controllers/todo.controller.js:27-43 | an invalid id gives 400 {message:"Invalid Id!"} with no service call; otherwise one getTodoItem call, then 200 with its result, or on a service error the catch block's result |
| `TodoController.TodoController.Add` | src/controllers/todo.controller.js:45-61 | a missing body or a falsy title gives 400 {message:"No title specified!"} with no service call; otherwise one create call with only title and description, then 201 with its result, or on a service error the catch block's result |
| `TodoController.TodoController.Update` | src/controllers/todo.controller.js:63-97 | empty body gives 400 "Empty body parameter!" before the id is checked; an invalid id gives 400 "Invalid Id!"; both without a service call; a falsy item gives 404 "No item found to update!" with no update call; otherwise the update call gets only title, description and completed and its result is sent with 200; a service error escapes |
| `TodoController.TodoController.Delete` | src/controllers/todo.controller.js:99-116 | an invalid id gives 400 "Invalid Id!" with no service call; otherwise one delete call, then 200 with its result, or on a service error the catch block's result |
| `TodoRepository.Offset` | src/repositories/todo.repository.js:6 | the offset is (page - 1) * limit, and NaN when either input is NaN |
| `TodoRepository.Window` | src/repositories/todo.repository.js:11-17 | the window has at most `take` records, exactly min(take, records after skip) of them, and they are the records from position `skip` on, in order |
| `TodoRepository.Aggregate` | src/repositories/todo.repository.js:7-27 | the store answers exactly when skip is a non-negative integer and limit a positive integer |
| `TodoRepository.ShapeResult` | src/repositories/todo.repository.js:28-34 | next_page and prev_page are ""; no count document gives 0; absent data gives [] |
| `TodoRepository.GetAll` | src/repositories/todo.repository.js:5-37 | succeeds iff the offset is a non-negative integer and the limit is positive; then count is the collection size, the data has at most `limit` records and the page links are empty |
| `TodoRepository.ValidRequestsSucceed` | src/repositories/todo.repository.js:5-37 | every page >= 1 with every limit >= 1 is answered |
| `TodoRepository.PageContents` | src/repositories/todo.repository.js:6-17 | the data is the records at offset, offset + 1, ... in store order, as many as the limit allows and the store still has |
| `TodoRepository.CountIndependentOfWindow` | src/repositories/todo.repository.js:18-32 | count is the collection size whatever page and limit are |
| `TodoRepository.PastTheEndIsEmpty` | src/repositories/todo.repository.js:12-33 | an offset at or past the end gives an empty page, not an error |
| `TodoRepository.FirstPage` | src/repositories/todo.repository.js:6-17 | page 1 is the first min(limit, n) records |
| `TodoRepository.ThreeRecords` | test/repositories/todo.repository.js:61-74 | 3 stored records give count 3 and all three records; this is the test's intent, with page 1 in place of the page the test does not pass |
| `TodoRepository.MissingPageRejected` | src/repositories/todo.repository.js:6-12 | without a page the offset is NaN and the store rejects the request, whatever the limit (the input the three-records test actually passes) |
| `TodoRepository.EmptyFacetDefaults` | src/repositories/todo.repository.js:32-33 | an empty count facet and absent data give count 0 and data [] |
| `TodoRepository.PageZeroRejectedByStore` | src/repositories/todo.repository.js:6-12 | page 0 makes a negative `$skip`, which the store rejects |
| `TodoRepository.LimitZeroRejectedByStore` | src/repositories/todo.repository.js:15 | limit 0 makes `$limit: 0`, which the store rejects |
| `TodoRepository.PagesTileTheStore` | src/repositories/todo.repository.js:6-17 | pages 1 to k, concatenated, are exactly the first k * limit records of the collection |
| `UnhandledErrorMiddleware.Classify` | src/middlewares/unhandled-error.middleware.js:6-21 | the mapping is total and its status is always one of 400, 404, 409, 500 |
| `UnhandledErrorMiddleware.HandleError` | src/middlewares/unhandled-error.middleware.js:5-24 | the reply's status and type are those of the error's kind: 400 'Invalid object Id', 400 'Invalid pagination parameters', 409 'Duplicate item error', 404 'Path not found', otherwise 500 'Server error'; the body carries `err.messsage`, not `err.message` |
| `UnhandledErrorMiddleware.StatusDeterminesKind` | src/middlewares/unhandled-error.middleware.js:6-21 | 404 only for path-not-found, 409 only for duplicates, 500 only for unclassified errors, 400 only for the two request errors |
| `UnhandledErrorMiddleware.ClassifyInjective` | src/middlewares/unhandled-error.middleware.js:6-21 | distinct kinds get distinct (status, type) pairs |
| `NotFoundMiddleware.HandleNotFound` | src/middlewares/not-found.middleware.js:3-5 | it always passes a PathNotFoundError to `next`, with message "Path not found - " followed by the original URL |
| `NotFoundMiddleware.DependsOnlyOnUrl` | src/middlewares/not-found.middleware.js:3-4 | two requests with the same original URL give the same result |
| `NotFoundMiddleware.UnmatchedPathIs404` | src/middlewares/unhandled-error.middleware.js:18-20 | with the error handler behind it, an unmatched path gives 404 'Path not found' |
| `Lib.IsValidObjectId` | lib/index.js:3-9 | a falsy id is invalid without asking the library; a truthy id is valid exactly when `ObjectId.isValid` says so |
| `Lib.MapResponse` | lib/index.js:11-23 | `message` is present iff it is truthy; `data` iff it is truthy and has at least one own key; no other key exists |
| `Lib.MapResponseMessageOnly` | lib/index.js:11-23 | mapResponse("Invalid Id!") and the other guard texts give just {message: text} |
| `Errors.OrDefault` | src/utils/errors/invalid-request-params.error.js:3 | the `or` of message and fallback: a missing or empty message gives the fallback, any other message is kept |
| `Errors.NewInvalidRequestParametersError` | src/utils/errors/invalid-request-params.error.js:2-6 | name 'InvalidRequestParametersError'; a missing or empty message becomes "Invalid request parameters"; any other message is kept; `message` and `name` are own properties |
| `Errors.NewDuplicateItemError` | src/utils/errors/duplicate-item.error.js:2-6 | name 'DuplicateItemError'; a missing or empty message becomes "Duplicate item, unique index failed."; any other message is kept; `message` and `name` are own properties |
| `Errors.NewPathNotFoundError` | src/utils/errors/path-not-found.error.js:2-6 | name 'PathNotFoundError'; a missing or empty message becomes "Path not found!"; any other message is kept; `message` and `name` are own properties |
| `Errors.NewInvalidObjectIdError` | src/errors/invalid-objectId.error.js:2-6 | name 'InvalidObjectIdError'; a missing or empty message becomes "Invalid objectId passed!"; any other message is kept; `message` and `name` are own properties |
| `ErrorObject.Reduce` | src/lib/error.js:2-4 | the fold over the own property names: none gives back the start value; once the accumulator is undefined the next step throws; one name gives undefined; two or more always throw |
| `ErrorObject.ConvertErrorToObject` | src/lib/error.js:1-5 | no own property gives the empty object, one gives undefined, and the conversion throws exactly when there are two or more |
| `ErrorObject.DomainErrorsThrow` | src/lib/error.js:1-5 | converting an error from any of the four domain constructors throws |
| `Errors.MessagesNeverEmpty` | src/utils/errors/path-not-found.error.js:3 | no constructed error has an empty message |

## Left out

- Server bootstrap, route wiring, CORS, body parsing, configuration and the database connection (`src/index.js`, `index.js`, `src/routes`, `src/config`, `config`). Their own 404 and error handlers in `src/index.js` are left out too. `OptionsAfterValidation` only assumes the order of the GET / route.
- The store calls `getById`, `create`, `update` and `delete`, and the whole service layer. They are the controller's oracle `answer`. Each outcome depends only on the call, not on what earlier calls did to the store.
- The schemas and their uniqueness option, which is misspelled `unqiue` and so does not take effect. The model has no uniqueness rule.
- `Error.captureStackTrace` and the own `stack` property it adds in V8. It is not part of ECMA-262; the domain errors' `ownKeys` are `message` and `name` only. A `stack` would only lengthen the list, so the conversion throws for them either way. For a foreign error, `ownKeys` is whatever the error carries, `stack` included.
- Update's catch path calls the non-existent `res.estatus`. It is `Rejected`, an exception escaping the handler, and no reply is modelled.
- `async`/`await` timing. Each handler is a sequence of calls.
- JavaScript numbers beyond integers: fractions, -0 as distinct from 0, values above 2^53 and exponent notation. `parseInt` yields the exact mathematical integer.
- Query values that the query-string parser makes into arrays or nested objects. A query value is a string, or the Number the middleware writes back.
- Error messages that are not strings: every constructor takes an optional string.
- `Lib.IsValidObjectId`: `ObjectId.isValid` is uninterpreted, so nothing is proved about which strings are valid ids.
- `TodoRepository.Aggregate`: this is an assumption about MongoDB, not code from the repository. It covers `$facet`, `$skip`, `$limit` and `$count`, plus the rejection of a negative skip and a non-positive limit. Errors of the store's connection are not modelled.
