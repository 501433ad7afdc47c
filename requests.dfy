/** The request an endpoint call issues, stated declaratively: which query
    parameters and headers it carries, and when the call is refused before
    anything is sent. The client's step-by-step assembly is proved equal to
    Plan (module Client). */
module Requests {
  import opened Values
  import opened Endpoints
  import opened Responses

  /** The client's auth token object: `value`, `headerOrQueryName` and
      `isQuery`, each whatever the caller stored (`Undefined` when absent). */
  datatype Token = Token(value: Value, headerOrQueryName: Value, isQuery: Value)

  /** The `{}` a client starts with when no token is given. */
  const EmptyToken := Token(Undefined, Undefined, Undefined)

  /** An endpoint's `parameters` bag: its own properties, and the
      `$queryParameters` object when one is given (`None` when it is absent
      or falsy). */
  datatype Params = Params(fields: map<string, Value>, queryParameters: Option<map<string, Value>>)

  /** `if (parameters === undefined) parameters = {}`: a call without a bag
      behaves as one with `{}`, which defines no field and carries no
      `$queryParameters`. */
  function Bag(parameters: Option<Params>): (b: Params)
    ensures parameters.Some? ==> b == parameters.value
    ensures parameters.None? ==> (forall f :: !Defined(b, f)) && b.queryParameters.None?
  {
    if parameters.Some? then parameters.value else Params(map[], None)
  }

  /** The object handed to the HTTP library. */
  datatype Request = Request(
    httpMethod: string,
    uri: string,
    qs: map<string, Value>,
    headers: map<string, Value>,
    body: Value,
    formData: Option<map<string, Value>>,
    json: bool)

  const BearerPrefix: string := "Bearer "
  const AuthorizationHeader: string := "Authorization"
  const MissingPrefix: string := "Missing required  parameter: "

  /** The rejection message of a missing required parameter (the source's
      message has two spaces after "required"). */
  function MissingMessage(name: string): string {
    MissingPrefix + name
  }

  /** `parameters[f] !== undefined`: an absent property reads as undefined. */
  predicate Defined(p: Params, f: string) {
    f in p.fields && p.fields[f] != Undefined
  }

  /** What the token adds to the query string. */
  function TokenQuery(t: Token): map<string, Value> {
    if Truthy(t.isQuery) then map[ToJsString(t.headerOrQueryName) := t.value] else map[]
  }

  /** What the token adds to the headers. */
  function TokenHeaders(t: Token): map<string, Value> {
    if Truthy(t.isQuery) then map[]
    else if Truthy(t.headerOrQueryName) then map[ToJsString(t.headerOrQueryName) := t.value]
    else map[AuthorizationHeader := Str(BearerPrefix + ToJsString(t.value))]
  }

  /** The endpoint's own fields that the bag defines, copied unchanged. */
  function CopiedFields(e: Endpoint, p: Params): map<string, Value> {
    map f | f in QueryNames(e.steps) && Defined(p, f) :: p.fields[f]
  }

  /** The `Accept-Language` header an endpoint sets from `acceptLanguage`. */
  function LanguageHeader(e: Endpoint, p: Params): map<string, Value> {
    if HasAcceptLanguage(e.steps) && Defined(p, AcceptLanguageParam)
    then map[AcceptLanguageHeader := p.fields[AcceptLanguageParam]]
    else map[]
  }

  function Overrides(p: Params): map<string, Value> {
    if p.queryParameters.Some? then p.queryParameters.value else map[]
  }

  /** The first required parameter, in statement order, that the bag leaves
      undefined. */
  function FirstMissing(steps: seq<Step>, p: Params): Option<string> {
    if |steps| == 0 then None
    else if steps[0].Require? && !Defined(p, steps[0].name) then Some(steps[0].name)
    else FirstMissing(steps[1..], p)
  }

  /** The planned call: refused when a required parameter is missing, and
      otherwise a GET of `domain + path` whose query is, from lowest to
      highest precedence, the token, the endpoint's fields and
      `$queryParameters`, and whose headers are the token's and then
      `Accept-Language`. */
  function Plan(domain: string, t: Token, e: Endpoint, p: Params): Result<Request, Rejection> {
    match FirstMissing(e.steps, p)
    case Some(name) => Failure(MissingParameter(MissingMessage(name)))
    case None =>
      Success(Request(
        "GET", domain + e.path,
        TokenQuery(t) + CopiedFields(e, p) + Overrides(p),
        TokenHeaders(t) + LanguageHeader(e, p),
        Undefined, None, false))
  }

  /** Plan, unfolded for its two outcomes. */
  lemma PlanCases(domain: string, t: Token, e: Endpoint, p: Params)
    ensures FirstMissing(e.steps, p).Some? ==>
      Plan(domain, t, e, p) == Failure(MissingParameter(MissingMessage(FirstMissing(e.steps, p).value)))
    ensures FirstMissing(e.steps, p).None? ==>
      Plan(domain, t, e, p) == Success(Request(
        "GET", domain + e.path,
        TokenQuery(t) + CopiedFields(e, p) + Overrides(p),
        TokenHeaders(t) + LanguageHeader(e, p),
        Undefined, None, false))
  {
  }

  // ----- the token goes to exactly one place

  lemma TokenPlacedOnce(t: Token)
    ensures |TokenQuery(t)| + |TokenHeaders(t)| == 1
    ensures Truthy(t.isQuery) ==>
      TokenQuery(t) == map[ToJsString(t.headerOrQueryName) := t.value] && TokenHeaders(t) == map[]
    ensures !Truthy(t.isQuery) && Truthy(t.headerOrQueryName) ==>
      TokenQuery(t) == map[] && TokenHeaders(t) == map[ToJsString(t.headerOrQueryName) := t.value]
    ensures !Truthy(t.isQuery) && !Truthy(t.headerOrQueryName) ==>
      TokenQuery(t) == map[] &&
      TokenHeaders(t) == map[AuthorizationHeader := Str(BearerPrefix + ToJsString(t.value))]
  {
  }

  /** A client built without a token sends `Authorization: Bearer undefined`. */
  lemma EmptyTokenSendsBearerUndefined()
    ensures TokenQuery(EmptyToken) == map[]
    ensures TokenHeaders(EmptyToken) == map[AuthorizationHeader := Str("Bearer undefined")]
  {
    assert BearerPrefix + ToJsString(Undefined) == "Bearer undefined";
  }

  // ----- the required-parameter guard

  lemma {:induction false} FirstMissingAt(steps: seq<Step>, p: Params, i: nat)
    requires i < |steps| && steps[i].Require? && !Defined(p, steps[i].name)
    requires forall j :: 0 <= j < i && steps[j].Require? ==> Defined(p, steps[j].name)
    ensures FirstMissing(steps, p) == Some(steps[i].name)
    decreases i
  {
    if i > 0 {
      FirstMissingAt(steps[1..], p, i - 1);
    }
  }

  lemma {:induction false} NoneMissing(steps: seq<Step>, p: Params)
    requires forall j :: 0 <= j < |steps| && steps[j].Require? ==> Defined(p, steps[j].name)
    ensures FirstMissing(steps, p) == None
    decreases |steps|
  {
    if |steps| > 0 {
      NoneMissing(steps[1..], p);
    }
  }

  /** The guard refuses exactly the bags that leave a required parameter
      undefined, and names one of them. */
  lemma {:induction false} FirstMissingIff(steps: seq<Step>, p: Params)
    ensures FirstMissing(steps, p).Some? <==> exists n :: n in RequiredNames(steps) && !Defined(p, n)
    ensures FirstMissing(steps, p).Some? ==>
      FirstMissing(steps, p).value in RequiredNames(steps) && !Defined(p, FirstMissing(steps, p).value)
    decreases |steps|
  {
    if |steps| > 0 {
      var rest := steps[1..];
      FirstMissingIff(rest, p);
      assert RequiredNames(steps) ==
        (if steps[0].Require? then {steps[0].name} else {}) + RequiredNames(rest) by {
        forall n ensures n in RequiredNames(steps) <==>
          n in (if steps[0].Require? then {steps[0].name} else {}) + RequiredNames(rest) {
          if n in RequiredNames(rest) {
            var i :| 0 <= i < |rest| && rest[i].Require? && rest[i].name == n;
            assert steps[i + 1] == rest[i];
          }
          if n in RequiredNames(steps) {
            var i :| 0 <= i < |steps| && steps[i].Require? && steps[i].name == n;
            if i > 0 {
              assert rest[i - 1] == steps[i];
            }
          }
        }
      }
    }
  }

  lemma PlanRefusedIffMissing(domain: string, t: Token, e: Endpoint, p: Params)
    ensures Plan(domain, t, e, p).Failure? <==> exists n :: n in RequiredNames(e.steps) && !Defined(p, n)
    ensures Plan(domain, t, e, p).Failure? ==>
      exists n :: n in RequiredNames(e.steps) && !Defined(p, n) &&
        Plan(domain, t, e, p).error == MissingParameter(MissingMessage(n))
  {
    FirstMissingIff(e.steps, p);
  }

  /** The three `*Get` endpoints: an undefined `id` is refused with
      "Missing required  parameter: id"; a defined one reaches the query
      unless `$queryParameters` overrides it. */
  lemma GetEndpointsGuardId(domain: string, t: Token, e: Endpoint, p: Params)
    requires e in GetEndpoints
    ensures Plan(domain, t, e, p).Failure? <==> !Defined(p, "id")
    ensures !Defined(p, "id") ==>
      Plan(domain, t, e, p) == Failure(MissingParameter("Missing required  parameter: id"))
    ensures Defined(p, "id") && "id" !in Overrides(p) ==>
      "id" in Plan(domain, t, e, p).value.qs && Plan(domain, t, e, p).value.qs["id"] == p.fields["id"]
  {
    GetEndpointsRequireId(e);
    FirstMissingIff(e.steps, p);
    assert MissingMessage("id") == "Missing required  parameter: id";
  }

  /** Every other endpoint always issues its request. */
  lemma ListingEndpointsNeverRefuse(domain: string, t: Token, e: Endpoint, p: Params)
    requires e in ListingEndpoints
    ensures Plan(domain, t, e, p).Success?
  {
    ListingEndpointsRequireNothing(e);
    FirstMissingIff(e.steps, p);
  }

  /** A call made without a bag: the `*Get` endpoints refuse it for want of
      `id`, and every other endpoint sends the token alone. */
  lemma AbsentBag(domain: string, t: Token, e: Endpoint)
    requires e in AllEndpoints
    ensures e in GetEndpoints ==>
      Plan(domain, t, e, Bag(None)) == Failure(MissingParameter("Missing required  parameter: id"))
    ensures e in ListingEndpoints ==>
      Plan(domain, t, e, Bag(None)) ==
        Success(Request("GET", domain + e.path, TokenQuery(t), TokenHeaders(t), Undefined, None, false))
  {
    var p := Bag(None);
    if e in GetEndpoints {
      GetEndpointsGuardId(domain, t, e, p);
    }
    if e in ListingEndpoints {
      ListingEndpointsNeverRefuse(domain, t, e, p);
      EmptyBagSendsToken(domain, t, e);
    }
  }

  lemma EmptyBagSendsToken(domain: string, t: Token, e: Endpoint)
    requires Plan(domain, t, e, Bag(None)).Success?
    ensures Plan(domain, t, e, Bag(None)) ==
      Success(Request("GET", domain + e.path, TokenQuery(t), TokenHeaders(t), Undefined, None, false))
  {
    var p := Bag(None);
    assert CopiedFields(e, p) == map[];
    assert LanguageHeader(e, p) == map[];
    assert TokenQuery(t) + map[] + map[] == TokenQuery(t);
    assert TokenHeaders(t) + map[] == TokenHeaders(t);
  }

  // ----- what the issued request carries

  lemma IssuedRequestIsPlainGet(domain: string, t: Token, e: Endpoint, p: Params)
    requires Plan(domain, t, e, p).Success?
    ensures var r := Plan(domain, t, e, p).value;
      r.httpMethod == "GET" && r.uri == domain + e.path &&
      r.body == Undefined && r.formData == None && !r.json
  {
  }

  /** Later writes win: `$queryParameters` over the endpoint's fields, and
      those over a query-placed token. Nothing else enters the query. */
  lemma QueryPrecedence(domain: string, t: Token, e: Endpoint, p: Params, k: string)
    requires Plan(domain, t, e, p).Success?
    ensures var q := Plan(domain, t, e, p).value.qs;
      && (k in q <==> k in Overrides(p) || (k in QueryNames(e.steps) && Defined(p, k)) || k in TokenQuery(t))
      && (k in Overrides(p) ==> q[k] == Overrides(p)[k])
      && (k !in Overrides(p) && k in QueryNames(e.steps) && Defined(p, k) ==> q[k] == p.fields[k])
      && (k !in Overrides(p) && !(k in QueryNames(e.steps) && Defined(p, k)) && k in TokenQuery(t) ==>
            q[k] == TokenQuery(t)[k])
  {
  }

  /** A listed field reaches the query exactly when the bag defines it, when
      neither `$queryParameters` nor a query-placed token writes that key. */
  lemma FieldCopiedIffDefined(domain: string, t: Token, e: Endpoint, p: Params, f: string)
    requires Plan(domain, t, e, p).Success?
    requires f in QueryNames(e.steps) && f !in Overrides(p) && f !in TokenQuery(t)
    ensures var q := Plan(domain, t, e, p).value.qs;
      (f in q <==> Defined(p, f)) && (f in q ==> q[f] == p.fields[f])
  {
    QueryPrecedence(domain, t, e, p, f);
  }

  /** A defined listed field keeps its value in the query unless
      `$queryParameters` names it; it overwrites a query-placed token of the
      same name. */
  lemma FieldValueUnchanged(domain: string, t: Token, e: Endpoint, p: Params, f: string)
    requires Plan(domain, t, e, p).Success?
    requires f in QueryNames(e.steps) && Defined(p, f) && f !in Overrides(p)
    ensures var q := Plan(domain, t, e, p).value.qs;
      f in q && q[f] == p.fields[f]
  {
    QueryPrecedence(domain, t, e, p, f);
  }

  /** `acceptLanguage` becomes the `Accept-Language` header and not a query
      parameter; it overwrites a token header of the same name. */
  lemma AcceptLanguageIsAHeader(domain: string, t: Token, e: Endpoint, p: Params)
    requires WellFormed(e) && Plan(domain, t, e, p).Success?
    requires AcceptLanguageParam !in Overrides(p) && AcceptLanguageParam !in TokenQuery(t)
    ensures var r := Plan(domain, t, e, p).value;
      && AcceptLanguageParam !in r.qs
      && (HasAcceptLanguage(e.steps) && Defined(p, AcceptLanguageParam) ==>
            AcceptLanguageHeader in r.headers &&
            r.headers[AcceptLanguageHeader] == p.fields[AcceptLanguageParam])
      && (!(HasAcceptLanguage(e.steps) && Defined(p, AcceptLanguageParam)) ==>
            r.headers == TokenHeaders(t))
  {
  }

  /** `$queryParameters` never touches the headers, nor whether the call is
      refused. */
  lemma OverridesLeaveHeadersAlone(domain: string, t: Token, e: Endpoint, p: Params, p': Params)
    requires p.fields == p'.fields
    ensures Plan(domain, t, e, p).Success? <==> Plan(domain, t, e, p').Success?
    ensures Plan(domain, t, e, p).Success? ==>
      Plan(domain, t, e, p).value.headers == Plan(domain, t, e, p').value.headers
    ensures Plan(domain, t, e, p).Failure? ==> Plan(domain, t, e, p) == Plan(domain, t, e, p')
  {
    FirstMissingIff(e.steps, p);
    FirstMissingIff(e.steps, p');
    assert FirstMissing(e.steps, p) == FirstMissing(e.steps, p') by {
      FirstMissingSameFields(e.steps, p, p');
    }
  }

  lemma {:induction false} FirstMissingSameFields(steps: seq<Step>, p: Params, p': Params)
    requires p.fields == p'.fields
    ensures FirstMissing(steps, p) == FirstMissing(steps, p')
    decreases |steps|
  {
    if |steps| > 0 {
      FirstMissingSameFields(steps[1..], p, p');
    }
  }
}
