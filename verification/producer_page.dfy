/** The producer dashboard (src/pages/Producer.tsx): the estimate form, the
    city gazetteer behind it, and the match buttons. */
module ProducerPage {
  import opened Optional
  import opened Text
  import opened Seqs
  import opened SampleData
  import opened Ranking
  import opened MockApi
  import opened AppContext
  import opened JsObject

  /** A latitude and a longitude in degrees. */
  datatype Coords = Coords(lat: real, lng: real)

  /** The known cities, keyed by lower-cased name. */
  const CityCoords: map<string, Coords> := map[
    "new york" := Coords(40.7128, -74.006),
    "los angeles" := Coords(34.0522, -118.2437),
    "chicago" := Coords(41.8781, -87.6298),
    "san francisco" := Coords(37.7749, -122.4194),
    "denver" := Coords(39.7392, -104.9903),
    "seattle" := Coords(47.6062, -122.3321)
  ]

  /** Where an unknown location is placed: the centre of the United States. */
  const DefaultCoords := Coords(39.8283, -98.5795)

  predicate ValidCoords(c: Coords) {
    -90.0 <= c.lat <= 90.0 && -180.0 <= c.lng <= 180.0
  }

  /** The coordinates the form uses for a typed location: the city's when
      its lower-cased name is a known city, the default otherwise. Only
      the gazetteer's own entries are looked up. */
  function ResolveCoords(location: string): (c: Coords)
    ensures ValidCoords(c)
    ensures c in CityCoords.Values || c == DefaultCoords
  {
    var key := Lower(location);
    if key in CityCoords then CityCoords[key] else DefaultCoords
  }

  /** The lookup ignores case: names equal up to case land on the same
      point. */
  lemma ResolveIgnoresCase(a: string, b: string)
    requires Lower(a) == Lower(b)
    ensures ResolveCoords(a) == ResolveCoords(b)
  {
  }

  /** A known city, typed in lower case, lands on its own entry; a
      location no city matches lands on the default. */
  lemma ResolveKnownAndUnknown(location: string)
    ensures location in CityCoords ==> ResolveCoords(location) == CityCoords[location]
    ensures Lower(location) !in CityCoords ==> ResolveCoords(location) == DefaultCoords
  {
    if location in CityCoords {
      LowerOfLowerCity(location);
    }
  }

  /** Every key of the gazetteer is already lower case. */
  lemma LowerOfLowerCity(key: string)
    requires key in CityCoords
    ensures Lower(key) == key
  {
    forall i | 0 <= i < |key|
      ensures !IsUpper(key[i])
    {
    }
  }

  /** `Denver`, typed with any capitals, is found; with a leading space it
      is not. */
  lemma DenverExamples()
    ensures ResolveCoords("Denver") == Coords(39.7392, -104.9903)
    ensures ResolveCoords(" denver") == DefaultCoords
  {
    assert Lower("Denver") == "denver";
    assert Lower(" denver") == " denver";
  }

  /** The lookup as written: `cityCoords[key] || default`, then indices 0
      and 1. An inherited member is truthy, so it is kept, and indexing it
      gives undefined: `None` stands for a latitude and longitude that are
      both undefined. Only `constructor` and `__proto__` can be reached,
      because the key is lower-cased first. */
  function AsWrittenCoords(location: string): (c: Option<Coords>)
    ensures c.None? <==> Lower(location) in PrototypeMembers
    ensures c.None? <==> Lower(location) == "constructor" || Lower(location) == "__proto__"
  {
    LowerCasedKeyReachesMember(location);
    match Get(CityCoords, Lower(location))
    case Own(coords) => Some(coords)
    case Inherited => None
    case Absent => Some(DefaultCoords)
  }

  /** The discrepancy: for `Constructor` the written lookup loses the
      coordinates, where the default was meant. On every other input it
      agrees with `ResolveCoords`. */
  lemma AsWrittenLosesConstructor()
    ensures AsWrittenCoords("Constructor").None?
    ensures ResolveCoords("Constructor") == DefaultCoords
  {
    assert Lower("Constructor") == "constructor";
  }

  lemma AsWrittenAgreesElsewhere(location: string)
    requires Lower(location) !in PrototypeMembers
    ensures AsWrittenCoords(location) == Some(ResolveCoords(location))
  {
  }

  /** The form's fields. */
  datatype ProducerForm = ProducerForm(
    location: string,
    energyType: EnergyType,
    capacity: Option<real>,
    description: Option<string>
  )

  /** The dashboard's own state. */
  datatype ProducerView = ProducerView(
    matchedEngineers: seq<Engineer>,
    matchedSuppliers: seq<Supplier>,
    showMatches: bool
  )

  const InitialView := ProducerView([], [], false)

  datatype MatchKind = EngineerMatches | SupplierMatches

  /** `onSubmit`: hides the matches, estimates the typed location and
      records the estimate as the current one and as the newest
      opportunity. */
  function OnSubmit(app: AppState, view: ProducerView, form: ProducerForm, random: real, now: nat): (r: (AppState, ProducerView))
    requires 0.0 <= random < 1.0
    ensures r.1 == view.(showMatches := false)
    ensures r.0.currentPrediction.Some?
    ensures r.0.opportunities == [r.0.currentPrediction.value] + app.opportunities
    ensures r.0.userRole == app.userRole
    ensures var p := r.0.currentPrediction.value;
              && Coords(p.lat, p.lng) == ResolveCoords(form.location)
              && p.location == form.location
              && p.energyType == form.energyType
              && p.id == "pred-" + DecimalString(now)
    ensures var c := ResolveCoords(form.location);
            r.0.currentPrediction.value
              == GetPrediction(PredictionRequest(c.lat, c.lng, form.energyType, form.capacity, form.description, form.location), random, now)
  {
    var c := ResolveCoords(form.location);
    var request := PredictionRequest(c.lat, c.lng, form.energyType, form.capacity, form.description, form.location);
    var p := GetPrediction(request, random, now);
    (AddOpportunity(SetCurrentPrediction(app, Some(p)), p), view.(showMatches := false))
  }

  /** `handleFindMatches`: without a current estimate nothing changes;
      otherwise the requested list is refreshed, the other kept, and the
      matches are shown. */
  function HandleFindMatches(app: AppState, view: ProducerView, kind: MatchKind): (r: ProducerView)
    ensures app.currentPrediction.None? ==> r == view
    ensures app.currentPrediction.Some? ==> r.showMatches
    ensures kind == EngineerMatches ==> r.matchedSuppliers == view.matchedSuppliers
    ensures kind == SupplierMatches ==> r.matchedEngineers == view.matchedEngineers
    ensures app.currentPrediction.Some? && kind == EngineerMatches ==>
              r.matchedEngineers == GetMatchedEngineers(app.currentPrediction.value)
    ensures app.currentPrediction.Some? && kind == SupplierMatches ==>
              r.matchedSuppliers == GetMatchedSuppliers(app.currentPrediction.value)
    ensures app.currentPrediction.Some? && kind == EngineerMatches ==>
              var p := app.currentPrediction.value;
              && |r.matchedEngineers| <= MaxMatches
              && SortedByDistance(r.matchedEngineers, p.lat, p.lng)
              && forall e :: e in r.matchedEngineers ==>
                   e in SampleEngineers && HasRelevant(e.skills, Lookup(SkillMap, EnergyTypeName(p.energyType)))
    ensures app.currentPrediction.Some? && kind == SupplierMatches ==>
              var p := app.currentPrediction.value;
              && |r.matchedSuppliers| <= MaxMatches
              && forall s :: s in r.matchedSuppliers ==>
                   s in SampleSuppliers && HasRelevant(s.materials, Lookup(MaterialMap, EnergyTypeName(p.energyType)))
  {
    match app.currentPrediction
    case None => view
    case Some(p) =>
      match kind
      case EngineerMatches => view.(matchedEngineers := GetMatchedEngineers(p), showMatches := true)
      case SupplierMatches =>
        var s := GetMatchedSuppliers(p);
        SubsequenceMembers(s, SampleSuppliers);
        view.(matchedSuppliers := s, showMatches := true)
  }

  /** Submitting and then asking for engineers lists relevant engineers of
      the submitted energy type, nearest the resolved location first. */
  lemma SubmitThenFindEngineers(app: AppState, view: ProducerView, form: ProducerForm, random: real, now: nat)
    requires 0.0 <= random < 1.0
    ensures var (app', view') := OnSubmit(app, view, form, random, now);
            var c := ResolveCoords(form.location);
            var r := HandleFindMatches(app', view', EngineerMatches);
            && r.showMatches
            && r.matchedSuppliers == view.matchedSuppliers
            && r.matchedEngineers == GetMatchedEngineers(app'.currentPrediction.value)
            && r.matchedEngineers
                 == MatchEngineers(SampleEngineers, Lookup(SkillMap, EnergyTypeName(form.energyType)), c.lat, c.lng)
            && |r.matchedEngineers| <= MaxMatches
            && SortedByDistance(r.matchedEngineers, c.lat, c.lng)
            && forall e :: e in r.matchedEngineers ==> HasRelevant(e.skills, Lookup(SkillMap, EnergyTypeName(form.energyType)))
  {
  }

  /** `handleExpressInterest`: the current estimate's id, or the empty id
      when there is none, paired with the chosen engineer or supplier. */
  function HandleExpressInterest(app: AppState, counterpartId: string): (r: InterestRequest)
    ensures r.userId == counterpartId
    ensures app.currentPrediction.None? ==> r.opportunityId == ""
    ensures app.currentPrediction.Some? ==> r.opportunityId == app.currentPrediction.value.id
    ensures ExpressInterest(r.opportunityId, r.userId).success
  {
    var id := if app.currentPrediction.Some? then app.currentPrediction.value.id else "";
    InterestRequest(id, counterpartId)
  }

  /** After a submission the interest always names the submitted estimate. */
  lemma InterestAfterSubmitNamesEstimate(app: AppState, view: ProducerView, form: ProducerForm, random: real, now: nat, counterpartId: string)
    requires 0.0 <= random < 1.0
    ensures var (app', _) := OnSubmit(app, view, form, random, now);
            HandleExpressInterest(app', counterpartId).opportunityId == "pred-" + DecimalString(now)
  {
  }
}
