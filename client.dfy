/** The `SystranGeographicApi` client object: its domain and its token, the
    constructor that validates them, `setToken`, and the body that every
    `getGeographic*` method shares, run here for an endpoint descriptor. */
module Client {
  import opened Values
  import opened Endpoints
  import opened Responses
  import opened Requests

  /** The constructor's one argument: nothing, a domain string, or an
      options object with optional `domain` and `token`. */
  datatype Options =
    | NoOptions
    | DomainText(text: string)
    | Settings(domain: Option<string>, token: Option<Token>)

  /** What a successful construction stores. */
  datatype Config = Config(domain: string, token: Token)

  const DomainMessage: string := "Domain parameter must be specified as a string."

  /** The constructor's checks: the domain, taken from a string argument or
      from `options.domain`, must be present and non-empty; the token is
      `options.token` when there is one, and `{}` otherwise. */
  function Configure(options: Options): (r: Result<Config, string>)
    ensures r.Failure? ==> r.error == DomainMessage
    ensures r.Success? ==> r.value.domain != ""
    ensures options.NoOptions? ==> r.Failure?
    ensures options.DomainText? ==>
      (r.Success? <==> options.text != "") &&
      (r.Success? ==> r.value == Config(options.text, EmptyToken))
    ensures options.Settings? ==>
      (r.Success? <==> options.domain.Some? && options.domain.value != "") &&
      (r.Success? ==> r.value.domain == options.domain.value &&
                      r.value.token == if options.token.Some? then options.token.value else EmptyToken)
  {
    var requested := match options
      case NoOptions => None
      case DomainText(d) => Some(d)
      case Settings(d, _) => d;
    var domain := if requested.Some? && requested.value != "" then requested.value else "";
    if |domain| == 0 then Failure(DomainMessage)
    else
      var token := if options.Settings? && options.token.Some? then options.token.value else EmptyToken;
      Success(Config(domain, token))
  }

  /** The endpoint fields copied by the first `i` statements. */
  ghost function NamesBefore(steps: seq<Step>, i: nat): set<string>
    requires i <= |steps|
  {
    set j | 0 <= j < i && steps[j].Copy? :: steps[j].name
  }

  ghost predicate LanguageBefore(steps: seq<Step>, i: nat)
    requires i <= |steps|
  {
    exists j :: 0 <= j < i && steps[j] == AcceptLanguage
  }

  /** The query-string part the first `i` statements have written, one
      statement at a time. */
  ghost function CopiedBefore(steps: seq<Step>, i: nat, p: Params): map<string, Value>
    requires i <= |steps|
  {
    if i == 0 then map[]
    else
      var m := CopiedBefore(steps, i - 1, p);
      var s := steps[i - 1];
      if s.Copy? && Defined(p, s.name) then m[s.name := p.fields[s.name]] else m
  }

  /** The header part the first `i` statements have written. */
  ghost function LanguageHeaderBefore(steps: seq<Step>, i: nat, p: Params): map<string, Value>
    requires i <= |steps|
  {
    if i == 0 then map[]
    else
      var m := LanguageHeaderBefore(steps, i - 1, p);
      if steps[i - 1] == AcceptLanguage && Defined(p, AcceptLanguageParam)
      then m[AcceptLanguageHeader := p.fields[AcceptLanguageParam]]
      else m
  }

  /** Written one statement at a time, the copied fields are the defined
      ones among those named so far. */
  lemma {:induction false} CopiedBeforeIsFiltered(steps: seq<Step>, i: nat, p: Params)
    requires i <= |steps|
    ensures CopiedBefore(steps, i, p) == map f | f in NamesBefore(steps, i) && Defined(p, f) :: p.fields[f]
  {
    if i > 0 {
      CopiedBeforeIsFiltered(steps, i - 1, p);
      assert NamesBefore(steps, i) ==
        NamesBefore(steps, i - 1) + (if steps[i - 1].Copy? then {steps[i - 1].name} else {});
    }
  }

  lemma {:induction false} LanguageHeaderBeforeIsLast(steps: seq<Step>, i: nat, p: Params)
    requires i <= |steps|
    ensures LanguageHeaderBefore(steps, i, p) ==
      if LanguageBefore(steps, i) && Defined(p, AcceptLanguageParam)
      then map[AcceptLanguageHeader := p.fields[AcceptLanguageParam]]
      else map[]
  {
    if i > 0 {
      LanguageHeaderBeforeIsLast(steps, i - 1, p);
      assert LanguageBefore(steps, i) <==> LanguageBefore(steps, i - 1) || steps[i - 1] == AcceptLanguage;
    }
  }

  lemma AllStepsRun(e: Endpoint, p: Params)
    ensures CopiedBefore(e.steps, |e.steps|, p) == CopiedFields(e, p)
    ensures LanguageHeaderBefore(e.steps, |e.steps|, p) == LanguageHeader(e, p)
  {
    CopiedBeforeIsFiltered(e.steps, |e.steps|, p);
    LanguageHeaderBeforeIsLast(e.steps, |e.steps|, p);
    assert NamesBefore(e.steps, |e.steps|) == QueryNames(e.steps);
    assert LanguageBefore(e.steps, |e.steps|) == HasAcceptLanguage(e.steps);
  }

  lemma UpdateUnion(a: map<string, Value>, b: map<string, Value>, k: string, v: Value)
    ensures (a + b)[k := v] == a + b[k := v]
  {
  }

  /** The endpoint statements of a `getGeographic*` method, run in order on
      the tables the token placement produced. */
  method RunSteps(e: Endpoint, p: Params, query0: map<string, Value>, headers0: map<string, Value>)
    returns (missing: Option<string>, query: map<string, Value>, headers: map<string, Value>)
    ensures missing == FirstMissing(e.steps, p)
    ensures missing.None? ==> query == query0 + CopiedFields(e, p)
    ensures missing.None? ==> headers == headers0 + LanguageHeader(e, p)
  {
    query, headers := query0, headers0;
    var steps := e.steps;
    var i := 0;
    while i < |steps|
      invariant 0 <= i <= |steps|
      invariant query == query0 + CopiedBefore(steps, i, p)
      invariant headers == headers0 + LanguageHeaderBefore(steps, i, p)
      invariant forall j :: 0 <= j < i && steps[j].Require? ==> Defined(p, steps[j].name)
    {
      match steps[i] {
        case Copy(f) =>
          if f in p.fields && p.fields[f] != Undefined {
            UpdateUnion(query0, CopiedBefore(steps, i, p), f, p.fields[f]);
            query := query[f := p.fields[f]];
          }
        case Require(f) =>
          if !(f in p.fields && p.fields[f] != Undefined) {
            FirstMissingAt(steps, p, i);
            return Some(f), query, headers;
          }
        case AcceptLanguage =>
          if AcceptLanguageParam in p.fields && p.fields[AcceptLanguageParam] != Undefined {
            UpdateUnion(headers0, LanguageHeaderBefore(steps, i, p), AcceptLanguageHeader, p.fields[AcceptLanguageParam]);
            headers := headers[AcceptLanguageHeader := p.fields[AcceptLanguageParam]];
          }
      }
      i := i + 1;
    }
    NoneMissing(steps, p);
    AllStepsRun(e, p);
    missing := None;
  }

  /** The `Object.keys(parameters.$queryParameters).forEach` merge: every
      key is written in turn, so each overrides what was already there. */
  method MergeQueryParameters(query0: map<string, Value>, extra: map<string, Value>)
    returns (query: map<string, Value>)
    ensures query == query0 + extra
  {
    query := query0;
    var pending := extra.Keys;
    while pending != {}
      invariant pending <= extra.Keys
      invariant query == query0 + (map k | k in extra.Keys - pending :: extra[k])
      decreases pending
    {
      var k :| k in pending;
      query := query[k := extra[k]];
      pending := pending - {k};
    }
    assert (map k | k in extra.Keys - pending :: extra[k]) == extra;
  }

  /** `if (parameters.$queryParameters)`: the merge runs only when the bag
      carries them. */
  method ApplyOverrides(query0: map<string, Value>, p: Params) returns (query: map<string, Value>)
    ensures query == query0 + Overrides(p)
  {
    if p.queryParameters.Some? {
      query := MergeQueryParameters(query0, p.queryParameters.value);
    } else {
      query := query0;
      assert query0 + Overrides(p) == query0;
    }
  }

  class SystranGeographicApi {
    var domain: string
    var token: Token

    ghost predicate Valid()
      reads this
    {
      domain != ""
    }

    constructor (config: Config)
      requires config.domain != ""
      ensures Valid() && domain == config.domain && token == config.token
    {
      domain := config.domain;
      token := config.token;
    }

    /** `new SystranGeographicApi(options)`, which throws instead of
        returning a client when Configure refuses the options. */
    static method Create(options: Options) returns (r: Result<SystranGeographicApi, string>)
      ensures Configure(options).Failure? ==> r == Failure(Configure(options).error)
      ensures Configure(options).Success? ==>
        r.Success? && fresh(r.value) && r.value.Valid() &&
        r.value.domain == Configure(options).value.domain &&
        r.value.token == Configure(options).value.token
    {
      var config := Configure(options);
      if config.Failure? {
        return Failure(config.error);
      }
      var client := new SystranGeographicApi(config.value);
      r := Success(client);
    }

    /** `setToken(value, headerOrQueryName, isQuery)`: the three token
        fields are overwritten, the domain is left alone. */
    method SetToken(value: Value, headerOrQueryName: Value, isQuery: Value)
      modifies this
      ensures token == Token(value, headerOrQueryName, isQuery)
      ensures domain == old(domain)
      ensures Valid() <==> old(Valid())
    {
      token := Token(value, headerOrQueryName, isQuery);
    }

    /** The token placement at the head of every `getGeographic*` method,
        onto empty query and header tables. */
    method PlaceToken() returns (query: map<string, Value>, headers: map<string, Value>)
      ensures query == TokenQuery(token) && headers == TokenHeaders(token)
    {
      query, headers := map[], map[];
      if Truthy(token.isQuery) {
        query := query[ToJsString(token.headerOrQueryName) := token.value];
      } else if Truthy(token.headerOrQueryName) {
        headers := headers[ToJsString(token.headerOrQueryName) := token.value];
      } else {
        headers := headers[AuthorizationHeader := Str(BearerPrefix + ToJsString(token.value))];
      }
    }

    /** The request-building part of a `getGeographic*` method: start from
        empty query and header tables, place the token, run the endpoint's
        statements in order (returning early on a missing required
        parameter) and merge `$queryParameters` last. */
    method BuildRequest(e: Endpoint, parameters: Option<Params>) returns (r: Result<Request, Rejection>)
      requires Valid()
      ensures r == Plan(domain, token, e, Bag(parameters))
      ensures r.Success? ==> domain != "" && r.value.uri == domain + e.path
    {
      var p := Bag(parameters);
      PlanCases(domain, token, e, p);
      var query, headers := PlaceToken();

      var missing;
      missing, query, headers := RunSteps(e, p, query, headers);
      if missing.Some? {
        return Failure(MissingParameter(MissingMessage(missing.value)));
      }

      query := ApplyOverrides(query, p);

      var body := Undefined;
      var form: map<string, Value> := map[];
      var formData := if |form| > 0 then Some(form) else None;
      var json := body.Null? || body.Arr? || body.Obj?;
      r := Success(Request("GET", domain + e.path, query, headers, body, formData, json));
    }

    /** A whole `getGeographic*` call. `reply` stands for what the HTTP
        library reports for the issued request and `parsed` for what
        `JSON.parse` makes of its body; neither is consulted when the call
        is refused, and then nothing is sent. */
    method Call(e: Endpoint, parameters: Option<Params>, reply: Reply, parsed: Option<Value>)
      returns (sent: Option<Request>, outcome: Outcome)
      requires Valid()
      ensures Plan(domain, token, e, Bag(parameters)).Failure? ==>
        sent == None && outcome == Rejected(Plan(domain, token, e, Bag(parameters)).error)
      ensures Plan(domain, token, e, Bag(parameters)).Success? ==>
        sent == Some(Plan(domain, token, e, Bag(parameters)).value) && outcome == Classify(reply, parsed)
    {
      var request := BuildRequest(e, parameters);
      if request.Failure? {
        return None, Rejected(request.error);
      }
      sent := Some(request.value);
      outcome := Classify(reply, parsed);
    }
  }
}
