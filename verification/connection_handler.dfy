/**
 * `handle_request`: parse, run the safety gate, send one canned response.
 * The parser is external; its result is the `request` argument (None where
 * `http_request_parse` returns NULL). The record of what the handler did
 * includes whether it called `free` on the parsed request and whether it
 * closed the connection.
 */
module ConnectionHandler {
  import opened Common
  import opened SafetyGate
  import opened ResponseEmitter

  /** A parsed request; the path is the only field the handler reads. */
  datatype Request = Request(path: string)

  /** What one call of the handler did. */
  datatype Disposition = Disposition(
    outcome: Outcome,
    emission: Emission,
    requestFreed: bool,
    connectionClosed: bool)

  /** The status line of each canned response. */
  function StatusCode(o: Outcome): int
  {
    match o
    case BadRequest => 400
    case Forbidden => 403
    case NotFound => 404
  }

  /** The HTML page of each canned response. */
  function Page(o: Outcome): string
  {
    match o
    case BadRequest => BadRequestBody
    case Forbidden => ForbiddenBody
    case NotFound => NotFoundBody
  }

  /** The path of the parsed request, if there is one. */
  function PathOf(request: Option<Request>): Option<string>
  {
    if request.Some? then Some(request.value.path) else None
  }

  /**
   * `handle_request`. The 400 and 403 branches call `free` before
   * returning; the 404 branch does not. No branch closes the connection,
   * and the helper's result is ignored. `websiteDirectory` is never read.
   */
  function HandleRequest(request: Option<Request>, websiteDirectory: string, failAt: Option<nat>): (d: Disposition)
    ensures Policy(PathOf(request), d.outcome)
    ensures |d.emission.issued| > 0 && d.emission.issued[0] == StartResponse(StatusCode(d.outcome))
    ensures d.emission.issued <= Canned(StatusCode(d.outcome), Page(d.outcome))
    ensures d.emission.ok <==> !FailsWithin(failAt, 4)
    ensures d.requestFreed <==> d.outcome != NotFound
    ensures !d.connectionClosed
  {
    var o := Classify(PathOf(request));
    match o
    case BadRequest => Disposition(o, RespondBadRequest(failAt), true, false)
    case Forbidden => Disposition(o, RespondForbidden(failAt), true, false)
    case NotFound => Disposition(o, RespondNotFound(failAt), false, false)
  }

  /** The handler sends exactly the helper matching its outcome. */
  lemma HelperMatchesOutcome(request: Option<Request>, websiteDirectory: string, failAt: Option<nat>)
    ensures var d := HandleRequest(request, websiteDirectory, failAt);
      d.emission == Emit(Canned(StatusCode(d.outcome), Page(d.outcome)), failAt)
  {
  }

  /** The parsed request is left allocated exactly when it exists and the answer is 404. */
  lemma ParsedRequestLeaksOnlyOnNotFound(request: Option<Request>, websiteDirectory: string, failAt: Option<nat>)
    ensures var d := HandleRequest(request, websiteDirectory, failAt);
      (request.Some? && !d.requestFreed) <==> d.outcome == NotFound
  {
  }

  /**
   * The answer depends only on the request: the document root is never
   * read, and the same request on another connection (with another oracle)
   * gets the same status and the same cleanup, and, when its writes
   * succeed, the same bytes.
   */
  lemma SameRequestSameAnswer(request: Option<Request>, dir1: string, dir2: string, failAt1: Option<nat>, failAt2: Option<nat>)
    ensures HandleRequest(request, dir1, failAt1).outcome == HandleRequest(request, dir2, failAt2).outcome
    ensures HandleRequest(request, dir1, failAt1).requestFreed == HandleRequest(request, dir2, failAt2).requestFreed
    ensures HandleRequest(request, dir1, None) == HandleRequest(request, dir2, None)
  {
  }

  /** Scenario: `GET /../x` is answered 403 with the exact Forbidden page. */
  lemma TraversalScenario()
    ensures HandleRequest(Some(Request("/../x")), "www", None) ==
      Disposition(Forbidden, Emission(Canned(403, ForbiddenBody), true), true, false)
  {
    assert OccursAt("/../x", "..", 1);
  }

  /** Scenario: `GET /index.html` is answered 404 and the request is not freed. */
  lemma NotFoundScenario()
    ensures HandleRequest(Some(Request("/index.html")), "www", None) ==
      Disposition(NotFound, Emission(Canned(404, NotFoundBody), true), false, false)
  {
    PlainPathNotFound();
  }

  /** Scenario: an unparsable request is answered 400; a write failure at the header cuts the response short. */
  lemma UnparsableScenario()
    ensures HandleRequest(None, "www", Some(1)) ==
      Disposition(BadRequest, Emission([StartResponse(400), SendHeader("Content-Type", "text/html")], false), true, false)
  {
  }
}
