/**
 * The canned-response helpers `respond_bad_request`, `respond_forbidden`
 * and `respond_not_found`. Each chains four calls into the HTTP library
 * with a short-circuiting `&&`. The library is an oracle: `failAt` is the
 * index of the first call that returns false, or None when every call
 * succeeds. An emission records the calls actually issued and the helper's
 * boolean result.
 */
module ResponseEmitter {
  import opened Common

  /** One call into the HTTP library. */
  datatype Step =
    | StartResponse(status: int)
    | SendHeader(name: string, value: string)
    | EndHeaders
    | SendString(text: string)

  /** The calls issued, in order, and the value the `&&` chain returned. */
  datatype Emission = Emission(issued: seq<Step>, ok: bool)

  const BadRequestBody: string := "<center><h1>400 Bad Request</h1><hr></center>"
  const ForbiddenBody: string := "<center><h1>403 Forbidden</h1><hr></center>"
  const NotFoundBody: string := "<center><h1>404 Not Found</h1><hr></center>"

  /** The fixed four-call sequence of a canned HTML response. */
  function Canned(status: int, body: string): seq<Step>
  {
    [StartResponse(status), SendHeader("Content-Type", "text/html"), EndHeaders, SendString(body)]
  }

  /** The oracle makes one of the first `n` calls fail. */
  predicate FailsWithin(failAt: Option<nat>, n: nat)
  {
    failAt.Some? && failAt.value < n
  }

  /**
   * The oracle as seen by the calls after the first one. `Emit` never
   * shifts `Some(0)`: a failure at the first call ends the chain there.
   */
  function Shift(failAt: Option<nat>): Option<nat>
  {
    if failAt.Some? && failAt.value > 0 then Some(failAt.value - 1) else failAt
  }

  /**
   * Issues `steps` in order, stopping right after the first call that
   * fails: the meaning of `s0 && s1 && ... && sn` in C.
   */
  function Emit(steps: seq<Step>, failAt: Option<nat>): (e: Emission)
    ensures e.issued <= steps
    ensures |steps| > 0 ==> |e.issued| > 0
    ensures e.ok <==> !FailsWithin(failAt, |steps|)
    ensures e.ok ==> e.issued == steps
    ensures !e.ok ==> |e.issued| == failAt.value + 1
  {
    if |steps| == 0 then Emission([], true)
    else if failAt == Some(0) then Emission([steps[0]], false)
    else
      var rest := Emit(steps[1..], Shift(failAt));
      Emission([steps[0]] + rest.issued, rest.ok)
  }

  /** `respond_bad_request`: status 400 with the "400 Bad Request" page. */
  function RespondBadRequest(failAt: Option<nat>): (e: Emission)
    ensures |e.issued| > 0 && e.issued[0] == StartResponse(400)
    ensures e.issued <= [StartResponse(400), SendHeader("Content-Type", "text/html"), EndHeaders, SendString(BadRequestBody)]
    ensures e.ok <==> !FailsWithin(failAt, 4)
    ensures e.ok ==> |e.issued| == 4
    ensures !e.ok ==> |e.issued| == failAt.value + 1
  {
    Emit(Canned(400, BadRequestBody), failAt)
  }

  /** `respond_forbidden`: status 403 with the "403 Forbidden" page. */
  function RespondForbidden(failAt: Option<nat>): (e: Emission)
    ensures |e.issued| > 0 && e.issued[0] == StartResponse(403)
    ensures e.issued <= [StartResponse(403), SendHeader("Content-Type", "text/html"), EndHeaders, SendString(ForbiddenBody)]
    ensures e.ok <==> !FailsWithin(failAt, 4)
    ensures e.ok ==> |e.issued| == 4
    ensures !e.ok ==> |e.issued| == failAt.value + 1
  {
    Emit(Canned(403, ForbiddenBody), failAt)
  }

  /** `respond_not_found`: status 404 with the "404 Not Found" page. */
  function RespondNotFound(failAt: Option<nat>): (e: Emission)
    ensures |e.issued| > 0 && e.issued[0] == StartResponse(404)
    ensures e.issued <= [StartResponse(404), SendHeader("Content-Type", "text/html"), EndHeaders, SendString(NotFoundBody)]
    ensures e.ok <==> !FailsWithin(failAt, 4)
    ensures e.ok ==> |e.issued| == 4
    ensures !e.ok ==> |e.issued| == failAt.value + 1
  {
    Emit(Canned(404, NotFoundBody), failAt)
  }

  /** A failure at call `k` of a chain leaves exactly calls 0..k issued. */
  lemma EmitStopsAtFailure(steps: seq<Step>, k: nat)
    requires k < |steps|
    ensures Emit(steps, Some(k)) == Emission(steps[..k + 1], false)
  {
  }

  /** An oracle that fails only after the chain has ended does not affect it. */
  lemma LateFailureIsHarmless(steps: seq<Step>, k: nat)
    requires |steps| <= k
    ensures Emit(steps, Some(k)) == Emit(steps, None)
  {
  }
}
