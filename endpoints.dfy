/** The fourteen `getGeographic*` methods of the client differ only in their
    path and in the list of parameters they copy. Each is described here by
    an endpoint descriptor: the path, and the parameter-handling statements
    of its body in source order. */
module Endpoints {
  import opened Values

  /** Every path is the root followed by the endpoint's own part. */
  const GeographicRoot: string := "/geographic/"

  const AcceptLanguageParam: string := "acceptLanguage"
  const AcceptLanguageHeader: string := "Accept-Language"

  /** One statement between the token placement and the final merge:
      - Copy(f): `if (parameters[f] !== undefined) queryParameters[f] = parameters[f]`
      - Require(f): `if (parameters[f] === undefined)` reject with "Missing required  parameter: f"
      - AcceptLanguage: `if (parameters['acceptLanguage'] !== undefined) headers['Accept-Language'] = ...` */
  datatype Step = Copy(name: string) | Require(name: string) | AcceptLanguage

  datatype Endpoint = Endpoint(path: string, steps: seq<Step>)

  /** The parameters an endpoint may copy into the query string. */
  function QueryNames(steps: seq<Step>): set<string> {
    set i | 0 <= i < |steps| && steps[i].Copy? :: steps[i].name
  }

  /** The parameters an endpoint refuses to go without. */
  function RequiredNames(steps: seq<Step>): set<string> {
    set i | 0 <= i < |steps| && steps[i].Require? :: steps[i].name
  }

  predicate HasAcceptLanguage(steps: seq<Step>) {
    exists i :: 0 <= i < |steps| && steps[i] == AcceptLanguage
  }

  /** What every generated endpoint satisfies: its path is under
      `/geographic/`, `acceptLanguage` is never copied into the query, and
      each required parameter is copied to the query before it is
      checked. */
  ghost predicate WellFormed(e: Endpoint) {
    && StartsWith(e.path, GeographicRoot)
    && AcceptLanguageParam !in QueryNames(e.steps)
    && (forall i :: 0 <= i < |e.steps| && e.steps[i].Require? ==>
          exists j :: 0 <= j < i && e.steps[j] == Copy(e.steps[i].name))
  }

  /** Runs of statements that several endpoints share, in source order. */
  const PositionSteps: seq<Step> := [Copy("latitude"), Copy("longitude"), Copy("radius")]
  const AddressSteps: seq<Step> :=
    [Copy("address"), Copy("country"), Copy("state"), Copy("county"), Copy("city"), Copy("postalCode")]
  const PagingSteps: seq<Step> := [Copy("limit"), Copy("offset"), AcceptLanguage, Copy("callback")]

  /** The statements of the location-based list endpoints. */
  const LocationSteps: seq<Step> := PositionSteps + AddressSteps + PagingSteps

  /** The statements of the three lookups by identifier. */
  const ByIdSteps: seq<Step> := [Copy("id"), Require("id"), AcceptLanguage, Copy("callback")]

  const BoundingBoxSteps: seq<Step> :=
    [Copy("maximumLatitude"), Copy("maximumLongitude"), Copy("minimumLatitude"), Copy("minimumLongitude")]
  const PoiTextSteps: seq<Step> := [Copy("filter"), Copy("name"), Copy("mainType"), Copy("type")]
  const PoiRankingSteps: seq<Step> := [
    Copy("street"), Copy("rankBy"), Copy("openNow"), Copy("minimumRating"), Copy("maximumRating"),
    Copy("minimumPrice"), Copy("maximumPrice")]

  const PoiList := Endpoint(GeographicRoot + "poi/list",
    PositionSteps + BoundingBoxSteps + PoiTextSteps + AddressSteps + PoiRankingSteps + PagingSteps)
  const PoiGet := Endpoint(GeographicRoot + "poi/get", ByIdSteps)
  const PoiTypes := Endpoint(GeographicRoot + "poi/types", [AcceptLanguage, Copy("callback")])
  const SupportedLanguages := Endpoint(GeographicRoot + "supportedLanguages", [Copy("callback")])
  const ApiVersion := Endpoint(GeographicRoot + "apiVersion", [Copy("callback")])
  const DestinationsList := Endpoint(GeographicRoot + "destinations/list", LocationSteps)
  const DestinationsGet := Endpoint(GeographicRoot + "destinations/get", ByIdSteps)
  const InspirationsList := Endpoint(GeographicRoot + "inspirations/list", LocationSteps)
  const InspirationsDossiersList := Endpoint(GeographicRoot + "inspirations/dossiers/list", LocationSteps)
  const InspirationsEventsList := Endpoint(GeographicRoot + "inspirations/events/list", LocationSteps)
  const InspirationsNewsInBriefList := Endpoint(GeographicRoot + "inspirations/newsInBrief/list", LocationSteps)
  const InspirationsSlideShowsList := Endpoint(GeographicRoot + "inspirations/slideShows/list", LocationSteps)
  const InspirationsTestsList := Endpoint(GeographicRoot + "inspirations/tests/list", LocationSteps)
  const InspirationsGet := Endpoint(GeographicRoot + "inspirations/get", ByIdSteps)

  const GetEndpoints: set<Endpoint> := {PoiGet, DestinationsGet, InspirationsGet}

  const ListingEndpoints: set<Endpoint> := {
    PoiList, PoiTypes, SupportedLanguages, ApiVersion, DestinationsList, InspirationsList,
    InspirationsDossiersList, InspirationsEventsList, InspirationsNewsInBriefList,
    InspirationsSlideShowsList, InspirationsTestsList}

  const AllEndpoints: set<Endpoint> := GetEndpoints + ListingEndpoints

  /** The three `*Get` endpoints require exactly `id`, and copy it first. */
  lemma GetEndpointsRequireId(e: Endpoint)
    requires e in GetEndpoints
    ensures RequiredNames(e.steps) == {"id"}
    ensures "id" in QueryNames(e.steps)
    ensures HasAcceptLanguage(e.steps)
  {
    assert e.steps == ByIdSteps;
    assert ByIdSteps[1].Require?;
    assert ByIdSteps[0] == Copy("id");
    assert ByIdSteps[2] == AcceptLanguage;
  }

  /** No other endpoint requires anything. */
  lemma ListingEndpointsRequireNothing(e: Endpoint)
    requires e in ListingEndpoints
    ensures RequiredNames(e.steps) == {}
  {
    SharedStepsWellFormed();
    RequiredNamesConcat(PositionSteps, AddressSteps);
    RequiredNamesConcat(PositionSteps + AddressSteps, PagingSteps);
    var s1 := PositionSteps + BoundingBoxSteps;
    RequiredNamesConcat(PositionSteps, BoundingBoxSteps);
    RequiredNamesConcat(s1, PoiTextSteps);
    RequiredNamesConcat(s1 + PoiTextSteps, AddressSteps);
    RequiredNamesConcat(s1 + PoiTextSteps + AddressSteps, PoiRankingSteps);
    RequiredNamesConcat(s1 + PoiTextSteps + AddressSteps + PoiRankingSteps, PagingSteps);
    assert RequiredNames(PoiTypes.steps) == {} by {
      assert PoiTypes.steps[0] == AcceptLanguage;
    }
  }

  /** WellFormed, for the statements alone. */
  ghost predicate StepsWellFormed(steps: seq<Step>) {
    && (forall i :: 0 <= i < |steps| && steps[i].Copy? ==> steps[i].name != AcceptLanguageParam)
    && (forall i :: 0 <= i < |steps| && steps[i].Require? ==>
          exists j :: 0 <= j < i && steps[j] == Copy(steps[i].name))
  }

  lemma WellFormedUnderRoot(tail: string, steps: seq<Step>)
    requires StepsWellFormed(steps)
    ensures WellFormed(Endpoint(GeographicRoot + tail, steps))
  {
    assert (GeographicRoot + tail)[..|GeographicRoot|] == GeographicRoot;
  }

  lemma {:induction false} StepsWellFormedConcat(a: seq<Step>, b: seq<Step>)
    requires StepsWellFormed(a) && StepsWellFormed(b)
    ensures StepsWellFormed(a + b)
  {
    var c := a + b;
    forall i | 0 <= i < |c| && c[i].Require?
      ensures exists j :: 0 <= j < i && c[j] == Copy(c[i].name)
    {
      if i < |a| {
        var j :| 0 <= j < i && a[j] == Copy(a[i].name);
        assert c[j] == a[j];
      } else {
        assert c[i] == b[i - |a|];
        var j :| 0 <= j < i - |a| && b[j] == Copy(b[i - |a|].name);
        assert c[j + |a|] == b[j];
      }
    }
    forall i | 0 <= i < |c| && c[i].Copy? ensures c[i].name != AcceptLanguageParam {
      if i < |a| {
        assert c[i] == a[i];
      } else {
        assert c[i] == b[i - |a|];
      }
    }
  }

  lemma PositionStepsWellFormed()
    ensures StepsWellFormed(PositionSteps) && RequiredNames(PositionSteps) == {}
  {
  }

  lemma AddressStepsWellFormed()
    ensures StepsWellFormed(AddressSteps) && RequiredNames(AddressSteps) == {}
  {
  }

  lemma PagingStepsWellFormed()
    ensures StepsWellFormed(PagingSteps) && RequiredNames(PagingSteps) == {}
  {
  }

  lemma BoundingBoxStepsWellFormed()
    ensures StepsWellFormed(BoundingBoxSteps) && RequiredNames(BoundingBoxSteps) == {}
  {
  }

  lemma PoiTextStepsWellFormed()
    ensures StepsWellFormed(PoiTextSteps) && RequiredNames(PoiTextSteps) == {}
  {
  }

  lemma PoiRankingStepsWellFormed()
    ensures StepsWellFormed(PoiRankingSteps) && RequiredNames(PoiRankingSteps) == {}
  {
  }

  lemma ByIdStepsWellFormed()
    ensures StepsWellFormed(ByIdSteps)
  {
    assert ByIdSteps[0] == Copy("id");
  }

  lemma SharedStepsWellFormed()
    ensures StepsWellFormed(PositionSteps) && StepsWellFormed(AddressSteps)
    ensures StepsWellFormed(PagingSteps) && StepsWellFormed(BoundingBoxSteps)
    ensures StepsWellFormed(PoiTextSteps) && StepsWellFormed(PoiRankingSteps)
    ensures StepsWellFormed(ByIdSteps)
    ensures RequiredNames(PositionSteps) == {} && RequiredNames(AddressSteps) == {}
    ensures RequiredNames(PagingSteps) == {} && RequiredNames(BoundingBoxSteps) == {}
    ensures RequiredNames(PoiTextSteps) == {} && RequiredNames(PoiRankingSteps) == {}
  {
    PositionStepsWellFormed();
    AddressStepsWellFormed();
    PagingStepsWellFormed();
    BoundingBoxStepsWellFormed();
    PoiTextStepsWellFormed();
    PoiRankingStepsWellFormed();
    ByIdStepsWellFormed();
  }

  lemma RequiredNamesConcat(a: seq<Step>, b: seq<Step>)
    ensures RequiredNames(a + b) == RequiredNames(a) + RequiredNames(b)
  {
    var c := a + b;
    forall n | n in RequiredNames(c) ensures n in RequiredNames(a) + RequiredNames(b) {
      var i :| 0 <= i < |c| && c[i].Require? && c[i].name == n;
      if i >= |a| {
        assert b[i - |a|] == c[i];
      }
    }
    forall n | n in RequiredNames(a) ensures n in RequiredNames(c) {
      var i :| 0 <= i < |a| && a[i].Require? && a[i].name == n;
      assert c[i] == a[i];
    }
    forall n | n in RequiredNames(b) ensures n in RequiredNames(c) {
      var i :| 0 <= i < |b| && b[i].Require? && b[i].name == n;
      assert c[i + |a|] == b[i];
    }
  }

  lemma LocationStepsWellFormed()
    ensures StepsWellFormed(LocationSteps)
  {
    SharedStepsWellFormed();
    StepsWellFormedConcat(PositionSteps, AddressSteps);
    StepsWellFormedConcat(PositionSteps + AddressSteps, PagingSteps);
  }

  lemma PoiListStepsWellFormed()
    ensures StepsWellFormed(PoiList.steps)
  {
    SharedStepsWellFormed();
    var s1 := PositionSteps + BoundingBoxSteps;
    StepsWellFormedConcat(PositionSteps, BoundingBoxSteps);
    StepsWellFormedConcat(s1, PoiTextSteps);
    StepsWellFormedConcat(s1 + PoiTextSteps, AddressSteps);
    StepsWellFormedConcat(s1 + PoiTextSteps + AddressSteps, PoiRankingSteps);
    StepsWellFormedConcat(s1 + PoiTextSteps + AddressSteps + PoiRankingSteps, PagingSteps);
  }

  lemma GetEndpointsWellFormed(e: Endpoint)
    requires e in GetEndpoints
    ensures WellFormed(e)
  {
    SharedStepsWellFormed();
    var tail := e.path[|GeographicRoot|..];
    assert e.path == GeographicRoot + tail;
    WellFormedUnderRoot(tail, e.steps);
  }

  lemma ListingEndpointsWellFormed(e: Endpoint)
    requires e in ListingEndpoints
    ensures WellFormed(e)
  {
    LocationStepsWellFormed();
    PoiListStepsWellFormed();
    assert StepsWellFormed(PoiTypes.steps);
    assert StepsWellFormed(ApiVersion.steps);
    var tail := e.path[|GeographicRoot|..];
    assert e.path == GeographicRoot + tail;
    WellFormedUnderRoot(tail, e.steps);
  }

  /** Every endpoint of the client satisfies WellFormed. */
  lemma AllEndpointsWellFormed(e: Endpoint)
    requires e in AllEndpoints
    ensures WellFormed(e)
  {
    if e in GetEndpoints {
      GetEndpointsWellFormed(e);
    } else {
      ListingEndpointsWellFormed(e);
    }
  }
}
