/**
 * `BaseMiddleware.validatePaginatedParameters`: parse `page` and `limit`
 * from the query string, write the defaults 1 and 10 back when a value
 * does not parse, and reject a negative page, then a negative limit.
 */
module BaseMiddleware {
  import opened Wrappers
  import opened Js
  import opened JsParse
  import opened Errors
  import opened Http

  /** The JavaScript comparison `n < 0`: false for NaN. */
  predicate IsNegative(n: Num) {
    n.Int? && n.i < 0
  }

  const DefaultPage := Number(Int(1))
  const DefaultLimit := Number(Int(10))

  /** The query object after the middleware's write-backs. */
  function ValidatedQuery(query: map<string, Value>): map<string, Value> {
    var q := if ParseInt(QueryGet(query, "page")) == NaN then query["page" := DefaultPage] else query;
    if ParseInt(QueryGet(query, "limit")) == NaN then q["limit" := DefaultLimit] else q
  }

  /** The argument of the single `next` call. */
  function ValidationVerdict(query: map<string, Value>): NextArg {
    if IsNegative(ParseInt(QueryGet(query, "page"))) then
      Fail(NewInvalidRequestParametersError(Some("Invalid page")))
    else if IsNegative(ParseInt(QueryGet(query, "limit"))) then
      Fail(NewInvalidRequestParametersError(Some("Invalid limit")))
    else
      Proceed
  }

  method ValidatePaginatedParameters(req: Request, next: NextLog)
    modifies req, next
    ensures req.query == ValidatedQuery(old(req.query))
    ensures next.calls == old(next.calls) + [ValidationVerdict(old(req.query))]
  {
    var page := ParseInt(QueryGet(req.query, "page"));
    var limit := ParseInt(QueryGet(req.query, "limit"));

    if page == NaN {
      req.query := req.query["page" := DefaultPage];
    }
    if limit == NaN {
      req.query := req.query["limit" := DefaultLimit];
    }

    if IsNegative(page) {
      next.Call(Fail(NewInvalidRequestParametersError(Some("Invalid page"))));
      return;
    }
    if IsNegative(limit) {
      next.Call(Fail(NewInvalidRequestParametersError(Some("Invalid limit"))));
      return;
    }
    next.Call(Proceed);
  }

  // ---------------------------------------------------------------------------
  // Properties of the specification

  /**
   * `page` is always present afterwards: set to 1 when it did not parse
   * (absent, empty or non-numeric), otherwise left as the original value.
   */
  lemma PageDefaulted(query: map<string, Value>)
    ensures "page" in ValidatedQuery(query)
    ensures ParseInt(QueryGet(query, "page")) == NaN ==> ValidatedQuery(query)["page"] == DefaultPage
    ensures ParseInt(QueryGet(query, "page")) != NaN ==>
      "page" in query && ValidatedQuery(query)["page"] == query["page"]
  {
  }

  /** The same for `limit`, with default 10. */
  lemma LimitDefaulted(query: map<string, Value>)
    ensures "limit" in ValidatedQuery(query)
    ensures ParseInt(QueryGet(query, "limit")) == NaN ==> ValidatedQuery(query)["limit"] == DefaultLimit
    ensures ParseInt(QueryGet(query, "limit")) != NaN ==>
      "limit" in query && ValidatedQuery(query)["limit"] == query["limit"]
  {
  }

  /** No other query key is added, removed or changed. */
  lemma OtherKeysUnchanged(query: map<string, Value>, key: string)
    requires key != "page" && key != "limit"
    ensures key in ValidatedQuery(query) <==> key in query
    ensures key in query ==> ValidatedQuery(query)[key] == query[key]
  {
  }

  /** A parseable value such as "2abc" is kept as the original string. */
  lemma ParseableValueKept()
    ensures ValidatedQuery(map["page" := Str("2abc")])["page"] == Str("2abc")
  {
    ParseIntTrailingGarbage();
  }

  /** The three outcomes, with the page checked before the limit. */
  lemma VerdictCases(query: map<string, Value>)
    ensures ValidationVerdict(query).Fail? <==>
      IsNegative(ParseInt(QueryGet(query, "page"))) || IsNegative(ParseInt(QueryGet(query, "limit")))
    ensures IsNegative(ParseInt(QueryGet(query, "page"))) ==>
      ValidationVerdict(query).err.kind == InvalidRequestParameters &&
      ValidationVerdict(query).err.message == "Invalid page"
    ensures !IsNegative(ParseInt(QueryGet(query, "page"))) && IsNegative(ParseInt(QueryGet(query, "limit"))) ==>
      ValidationVerdict(query).err.kind == InvalidRequestParameters &&
      ValidationVerdict(query).err.message == "Invalid limit"
  {
  }

  /** The comparisons are strict: zero (also "-0") passes, and so does NaN. */
  lemma ZeroPasses(query: map<string, Value>)
    requires ParseInt(QueryGet(query, "page")) in {NaN, Int(0)}
    requires ParseInt(QueryGet(query, "limit")) in {NaN, Int(0)}
    ensures ValidationVerdict(query) == Proceed
  {
  }

  /** `?page=-1` and `?limit=-1` are rejected; with both, the page error wins. */
  lemma NegativeExamples()
    ensures ValidationVerdict(map["page" := Str("-1")]) == Fail(NewInvalidRequestParametersError(Some("Invalid page")))
    ensures ValidationVerdict(map["limit" := Str("-1")]) == Fail(NewInvalidRequestParametersError(Some("Invalid limit")))
    ensures ValidationVerdict(map["page" := Str("-1"), "limit" := Str("-1")]) ==
      Fail(NewInvalidRequestParametersError(Some("Invalid page")))
  {
    ParseIntMinusOne();
  }

  /** Running the middleware a second time changes nothing and gives the same verdict. */
  lemma Idempotent(query: map<string, Value>)
    ensures ValidatedQuery(ValidatedQuery(query)) == ValidatedQuery(query)
    ensures ValidationVerdict(ValidatedQuery(query)) == ValidationVerdict(query)
  {
    var v := ValidatedQuery(query);
    PageDefaulted(query);
    LimitDefaulted(query);
    assert ParseInt(QueryGet(v, "page")) != NaN;
    assert ParseInt(QueryGet(v, "limit")) != NaN;
  }

  /** After the middleware, both parameters parse to numbers, never NaN. */
  lemma ValidatedParametersParse(query: map<string, Value>)
    ensures ParseInt(QueryGet(ValidatedQuery(query), "page")).Int?
    ensures ParseInt(QueryGet(ValidatedQuery(query), "limit")).Int?
    ensures ValidationVerdict(query) == Proceed ==>
      ParseInt(QueryGet(ValidatedQuery(query), "page")).i >= 0 &&
      ParseInt(QueryGet(ValidatedQuery(query), "limit")).i >= 0
  {
    PageDefaulted(query);
    LimitDefaulted(query);
  }
}
