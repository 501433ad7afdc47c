/** What an endpoint call does with the HTTP library's callback
    `(error, response, body)`: reject on a transport error, parse a JSON body
    when the content type says so, and settle the call by status code. */
module Responses {
  import opened Values
  import opened ContentType

  /** The error object the HTTP library reports (DNS failure, refused
      connection, ...). The client never looks inside it. */
  datatype TransportError = TransportError(description: string)

  /** A response as the client reads it. The request sets `encoding: null`,
      so the raw body is a byte buffer. */
  datatype HttpResponse = HttpResponse(statusCode: int, contentType: Option<string>, rawBody: seq<bv8>)

  /** The first two arguments of the HTTP library's callback. */
  datatype Reply = Failed(error: TransportError) | Answered(response: HttpResponse)

  /** The body handed back to the caller: the raw buffer, or what
      `JSON.parse` made of it. */
  datatype Body = Raw(bytes: seq<bv8>) | Parsed(value: Value)

  /** Why a call's promise is rejected. */
  datatype Rejection =
    | MissingParameter(message: string)
    | Transport(error: TransportError)
    | HttpFailure(response: HttpResponse, body: Body)

  /** How a call's promise settles: resolved with `{response}` or
      `{response, body}`, or rejected. */
  datatype Outcome = Resolved(response: HttpResponse, body: Option<Body>) | Rejected(reason: Rejection)

  predicate IsSuccessStatus(code: int) {
    200 <= code <= 299
  }

  /** The body after the optional parse. `parsed` is what `JSON.parse`
      returns on the raw body, `None` when it throws; the exception is
      swallowed and the raw body kept. */
  function DecodedBody(response: HttpResponse, parsed: Option<Value>): (b: Body)
    ensures b.Parsed? <==> IsJsonContentType(response.contentType) && parsed.Some?
    ensures b.Parsed? ==> b.value == parsed.value
    ensures b.Raw? ==> b.bytes == response.rawBody
  {
    if IsJsonContentType(response.contentType) && parsed.Some? then Parsed(parsed.value)
    else Raw(response.rawBody)
  }

  /** How the promise of an issued request settles. */
  function Classify(reply: Reply, parsed: Option<Value>): (r: Outcome)
    ensures reply.Failed? ==> r == Rejected(Transport(reply.error))
    ensures reply.Answered? ==> (r.Resolved? <==> IsSuccessStatus(reply.response.statusCode))
    ensures r.Resolved? ==> r.response == reply.response
    ensures r.Resolved? ==> (r.body.None? <==> reply.response.statusCode == 204)
    ensures r.Resolved? && r.body.Some? ==> r.body.value == DecodedBody(reply.response, parsed)
    ensures reply.Answered? && r.Rejected? ==>
      r.reason == HttpFailure(reply.response, DecodedBody(reply.response, parsed))
  {
    match reply
    case Failed(e) => Rejected(Transport(e))
    case Answered(response) =>
      var body := DecodedBody(response, parsed);
      if response.statusCode == 204 then Resolved(response, None)
      else if 200 <= response.statusCode && response.statusCode <= 299 then Resolved(response, Some(body))
      else Rejected(HttpFailure(response, body))
  }

  /** A classified reply never looks like the client's own validation
      failure: that rejection only arises before any request is sent. */
  lemma ClassifyNeverMissingParameter(reply: Reply, parsed: Option<Value>)
    ensures !(Classify(reply, parsed).Rejected? && Classify(reply, parsed).reason.MissingParameter?)
  {
  }

  /** The parse result matters only for a JSON content type. */
  lemma ParseIgnoredUnlessJson(reply: Reply, p1: Option<Value>, p2: Option<Value>)
    requires reply.Answered? && !IsJsonContentType(reply.response.contentType)
    ensures Classify(reply, p1) == Classify(reply, p2)
  {
  }

  /** A failed parse degrades to the raw body; it is never an error of its
      own. */
  lemma ParseFailureKeepsRawBody(response: HttpResponse)
    ensures var r := Classify(Answered(response), None);
      (r.Resolved? <==> IsSuccessStatus(response.statusCode)) &&
      (r.Resolved? && r.body.Some? ==> r.body.value == Raw(response.rawBody)) &&
      (r.Rejected? ==> r.reason == HttpFailure(response, Raw(response.rawBody)))
  {
  }
}
