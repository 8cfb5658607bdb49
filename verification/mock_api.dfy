/** The prediction and matching engine (src/api/mockApi.ts), with every API
    call as a synchronous pure function. The simulated network delay and the
    console logging are left out; `Math.random()` and `Date.now()` become the
    parameters `random` and `now`. */
module MockApi {
  import opened Optional
  import opened SampleData
  import opened Text
  import opened Seqs
  import opened Ranking
  import opened JsObject

  /** What the producer form submits for an estimate. */
  datatype PredictionRequest = PredictionRequest(
    lat: real,
    lng: real,
    energyType: EnergyType,
    capacity: Option<real>,
    description: Option<string>,
    location: string
  )

  /** The `{ success }` acknowledgement of the interest and quote calls. */
  datatype Ack = Ack(success: bool)

  /** Both matchers return at most this many entries (`slice(0, 4)`). */
  const MaxMatches: nat := 4

  /** The representative output of each energy type, in tenths of a kW:
      solar 4.5, wind 10.0, hydro 7.5, geothermal 15.0. */
  function BasePotential(t: EnergyType): Tenths {
    match t
    case Solar => 45
    case Wind => 100
    case Hydro => 75
    case Geothermal => 150
  }

  /** `(Math.random() - 0.5) * 2`: a perturbation in [-1, 1). */
  function Variance(random: real): (v: real)
    requires 0.0 <= random < 1.0
    ensures -1.0 <= v < 1.0
  {
    (random - 0.5) * 2.0
  }

  /** The whole number nearest to `x`, halves rounded up: `toFixed(1)` on a
      quantity already counted in tenths. */
  function RoundHalfUp(x: real): (n: int)
    ensures n as real - 0.5 <= x < n as real + 0.5
  {
    (x + 0.5).Floor
  }

  /** `parseFloat((potential + variance).toFixed(1))`, in tenths. */
  function PredictedKW(t: EnergyType, random: real): (p: Tenths)
    requires 0.0 <= random < 1.0
    ensures BasePotential(t) - 10 <= p <= BasePotential(t) + 10
    ensures p as real - 0.5 <= BasePotential(t) as real + 10.0 * Variance(random) < p as real + 0.5
  {
    RoundHalfUp(BasePotential(t) as real + 10.0 * Variance(random))
  }

  /** The confidence tier of a predicted output against the baseline of its
      energy type: above the baseline is High, above 0.7 of it is Medium.
      Both comparisons are strict, so an output equal to the baseline is
      Medium and one equal to 0.7 of it is Low. */
  function ConfidenceFor(predicted: Tenths, t: EnergyType): (c: Confidence)
    ensures c == High <==> predicted > BasePotential(t)
    ensures c == Medium <==> 7 * BasePotential(t) < 10 * predicted <= 10 * BasePotential(t)
    ensures c == Low <==> 10 * predicted <= 7 * BasePotential(t)
  {
    var base := BasePotential(t);
    if predicted > base then High
    else if 10 * predicted > 7 * base then Medium
    else Low
  }

  /** Point `i` of the trend series, `predicted * (0.6 + 0.1 * i)` rounded to
      tenths: the nearest whole number of tenths, halves rounded up. */
  function SparkPoint(predicted: Tenths, i: nat): (v: Tenths)
    ensures 10 * v - 5 <= predicted * (6 + i) < 10 * v + 5
  {
    (predicted * (6 + i) + 5) / 10
  }

  /** No point is lower than an earlier one. */
  ghost predicate NonDecreasing(s: seq<int>) {
    SortedBy(s, (v: int) => v as real)
  }

  lemma SparkPointMonotone(predicted: Tenths, i: nat, j: nat)
    requires predicted >= 0 && i <= j
    ensures SparkPoint(predicted, i) <= SparkPoint(predicted, j)
  {
    assert predicted * (6 + i) <= predicted * (6 + j) by {
      assert predicted * (6 + j) == predicted * (6 + i) + predicted * (j - i);
      assert predicted * (j - i) >= 0;
    }
  }

  /** The five-point trend series built from one predicted value: each point
      is the nearest tenth to 0.6, 0.7, 0.8, 0.9 and 1.0 times the value. */
  function Sparkline(predicted: Tenths): (s: seq<Tenths>)
    ensures |s| == 5
    ensures forall i :: 0 <= i < 5 ==> 10 * s[i] - 5 <= predicted * (6 + i) < 10 * s[i] + 5
    ensures s[4] == predicted
    ensures predicted >= 0 ==> NonDecreasing(s)
  {
    var s := seq(5, i requires 0 <= i < 5 => SparkPoint(predicted, i));
    assert predicted >= 0 ==> NonDecreasing(s) by {
      if predicted >= 0 {
        forall i, j | 0 <= i <= j < 5
          ensures s[i] <= s[j]
        {
          SparkPointMonotone(predicted, i, j);
        }
      }
    }
    s
  }

  /** `getPrediction`: the estimate for one request. */
  function GetPrediction(request: PredictionRequest, random: real, now: nat): (r: Prediction)
    requires 0.0 <= random < 1.0
    ensures r.id == "pred-" + DecimalString(now)
    ensures r.lat == request.lat && r.lng == request.lng
    ensures r.energyType == request.energyType && r.location == request.location
    ensures BasePotential(request.energyType) - 10 <= r.predictedKW <= BasePotential(request.energyType) + 10
    ensures r.predictedKW > 0
    ensures r.confidence == High <==> r.predictedKW > BasePotential(request.energyType)
    ensures r.confidence == Medium <==> r.predictedKW <= BasePotential(request.energyType)
    ensures r.confidence != Low
    ensures |r.sampleSparkline| == 5 && r.sampleSparkline[4] == r.predictedKW
    ensures NonDecreasing(r.sampleSparkline)
    ensures request.description.Some? && request.description.value != "" ==>
              r.description == request.description.value
    ensures request.description.None? || request.description.value == "" ==>
              r.description == EnergyTypeName(request.energyType) + " project"
    ensures r.createdBy.None?
    ensures r.predictedKW == PredictedKW(request.energyType, random)
    ensures r.confidence == ConfidenceFor(r.predictedKW, request.energyType)
    ensures r.sampleSparkline == Sparkline(r.predictedKW)
  {
    var predicted := PredictedKW(request.energyType, random);
    var description :=
      if request.description.Some? && request.description.value != "" then request.description.value
      else EnergyTypeName(request.energyType) + " project";
    Prediction(
      "pred-" + DecimalString(now),
      request.lat,
      request.lng,
      request.energyType,
      predicted,
      ConfidenceFor(predicted, request.energyType),
      description,
      request.location,
      Sparkline(predicted),
      None)
  }

  /** The tiers at a few outputs: 4.5 kW solar sits on its baseline and is
      Medium, 5.0 kW solar is High, 2.0 kW solar and 7.0 kW wind are at or
      below 0.7 of their baselines and are Low. */
  lemma ConfidenceExamples()
    ensures ConfidenceFor(45, Solar) == Medium
    ensures ConfidenceFor(50, Solar) == High
    ensures ConfidenceFor(20, Solar) == Low
    ensures ConfidenceFor(70, Wind) == Low
    ensures ConfidenceFor(71, Wind) == Medium
  {
  }

  /** Estimates made at different instants carry different ids. */
  lemma PredictionIdsDistinct(a: PredictionRequest, b: PredictionRequest, randomA: real, randomB: real, nowA: nat, nowB: nat)
    requires 0.0 <= randomA < 1.0 && 0.0 <= randomB < 1.0
    requires nowA != nowB
    ensures GetPrediction(a, randomA, nowA).id != GetPrediction(b, randomB, nowB).id
  {
    var idA := GetPrediction(a, randomA, nowA).id;
    var idB := GetPrediction(b, randomB, nowB).id;
    DecimalStringInjective(nowA, nowB);
    assert idA[5..] == DecimalString(nowA);
    assert idB[5..] == DecimalString(nowB);
  }

  /** The relevant skills of each energy type (`skillMap`). */
  const SkillMap: map<string, seq<string>> := map[
    "solar" := ["Solar Installation", "Solar Design", "PV Systems"],
    "wind" := ["Wind Energy", "Turbine Installation"],
    "hydro" := ["Hydro Systems", "Civil Engineering"],
    "geothermal" := ["Geothermal Systems"]
  ]

  /** The relevant materials of each energy type (`materialMap`). */
  const MaterialMap: map<string, seq<string>> := map[
    "solar" := ["Solar Panels", "Inverters", "Batteries"],
    "wind" := ["Turbine Blades", "Wind Turbines", "Generators"],
    "hydro" := ["Turbines", "Piping", "Control Valves"],
    "geothermal" := ["Heat Pumps", "Piping"]
  ]

  /** The terms a taxonomy lists under a key it holds. The matchers only
      look up the names of the four energy types, which both taxonomies
      hold (`TaxonomiesCoverEveryType`); `TermsOf` gives the lookup on any
      key. */
  function Lookup(m: map<string, seq<string>>, key: string): seq<string> {
    if key in m then m[key] else []
  }

  /** `map[key] || []` on the object literal `map`: an own entry gives its
      terms, an absent key none. A key naming a prototype member yields
      that member, which is truthy and not an array; `None` stands for it. */
  function TermsOf(m: map<string, seq<string>>, key: string): (r: Option<seq<string>>)
    ensures key in m ==> r == Some(m[key])
    ensures r.None? <==> key !in m && key in PrototypeMembers
    ensures key !in m && key !in PrototypeMembers ==> r == Some([])
  {
    match Get(m, key)
    case Own(terms) => Some(terms)
    case Inherited => None
    case Absent => Some([])
  }

  /** Both taxonomies cover every energy type with at least one term, so
      the matchers' lookup of an energy type's name is its own entry. */
  lemma TaxonomiesCoverEveryType(t: EnergyType)
    ensures EnergyTypeName(t) in SkillMap && |Lookup(SkillMap, EnergyTypeName(t))| > 0
    ensures EnergyTypeName(t) in MaterialMap && |Lookup(MaterialMap, EnergyTypeName(t))| > 0
    ensures TermsOf(SkillMap, EnergyTypeName(t)) == Some(Lookup(SkillMap, EnergyTypeName(t)))
    ensures TermsOf(MaterialMap, EnergyTypeName(t)) == Some(Lookup(MaterialMap, EnergyTypeName(t)))
  {
  }

  /** `values.some(v => terms.some(t => v.includes(t)))`: some value contains
      some term as a case-sensitive substring. */
  predicate HasRelevant(values: seq<string>, terms: seq<string>) {
    exists v, t :: v in values && t in terms && Contains(v, t)
  }

  /** The engineers with a relevant skill, in catalog order. */
  function RelevantEngineers(catalog: seq<Engineer>, terms: seq<string>): seq<Engineer> {
    Filter(catalog, (e: Engineer) => HasRelevant(e.skills, terms))
  }

  /** The suppliers with a relevant material, in catalog order. */
  function RelevantSuppliers(catalog: seq<Supplier>, terms: seq<string>): seq<Supplier> {
    Filter(catalog, (s: Supplier) => HasRelevant(s.materials, terms))
  }

  /** Filtering a catalog with a known first entry. */
  lemma RelevantEngineersCons(e: Engineer, rest: seq<Engineer>, terms: seq<string>)
    ensures RelevantEngineers([e] + rest, terms)
         == (if HasRelevant(e.skills, terms) then [e] else []) + RelevantEngineers(rest, terms)
  {
    FilterCons(e, rest, (e: Engineer) => HasRelevant(e.skills, terms));
  }

  lemma RelevantSuppliersCons(s: Supplier, rest: seq<Supplier>, terms: seq<string>)
    ensures RelevantSuppliers([s] + rest, terms)
         == (if HasRelevant(s.materials, terms) then [s] else []) + RelevantSuppliers(rest, terms)
  {
    FilterCons(s, rest, (s: Supplier) => HasRelevant(s.materials, terms));
  }

  /** The engineer matcher over any catalog: relevant engineers, nearest
      first, at most four. */
  function MatchEngineers(catalog: seq<Engineer>, terms: seq<string>, lat: real, lng: real): (r: seq<Engineer>)
    ensures |r| <= MaxMatches
    ensures forall e :: e in r ==> e in catalog && HasRelevant(e.skills, terms)
    ensures SortedByDistance(r, lat, lng)
    ensures forall e :: e in catalog && HasRelevant(e.skills, terms) && e !in r ==>
              |r| == MaxMatches && SqDistance(r[|r| - 1], lat, lng) <= SqDistance(e, lat, lng)
    ensures r <= SortByDistance(RelevantEngineers(catalog, terms), lat, lng)
  {
    var relevant := RelevantEngineers(catalog, terms);
    var sorted := SortByDistance(relevant, lat, lng);
    var r := Take(sorted, MaxMatches);
    PrefixSortedByDistance(r, sorted, lat, lng);
    forall e | e in r
      ensures e in catalog && HasRelevant(e.skills, terms)
    {
      assert e in multiset(sorted);
    }
    forall e | e in catalog && HasRelevant(e.skills, terms) && e !in r
      ensures |r| == MaxMatches && SqDistance(r[|r| - 1], lat, lng) <= SqDistance(e, lat, lng)
    {
      assert e in multiset(relevant);
      OmittedIsNoNearer(sorted, lat, lng, MaxMatches, e);
    }
    r
  }

  /** The supplier matcher over any catalog: the first four relevant
      suppliers, in catalog order. */
  function MatchSuppliers(catalog: seq<Supplier>, terms: seq<string>): (r: seq<Supplier>)
    ensures |r| <= MaxMatches
    ensures IsSubsequence(r, catalog)
    ensures forall s :: s in r ==> HasRelevant(s.materials, terms)
    ensures forall s :: s in catalog && HasRelevant(s.materials, terms) && s !in r ==> |r| == MaxMatches
    ensures r <= RelevantSuppliers(catalog, terms)
  {
    var relevant := RelevantSuppliers(catalog, terms);
    var r := Take(relevant, MaxMatches);
    PrefixIsSubsequence(r, relevant);
    SubsequenceTransitive(r, relevant, catalog);
    SubsequenceMembers(r, relevant);
    r
  }

  /** When the relevant engineers are few, the matcher returns all of them,
      ranked. */
  lemma MatchEngineersOfFew(catalog: seq<Engineer>, terms: seq<string>, lat: real, lng: real, ranked: seq<Engineer>)
    requires SortByDistance(RelevantEngineers(catalog, terms), lat, lng) == ranked
    requires |ranked| <= MaxMatches
    ensures MatchEngineers(catalog, terms, lat, lng) == ranked
  {
  }

  /** When the relevant engineers are few, the matcher returns every one of
      them, whatever the distances. */
  lemma MatchEngineersKeepsAllOfFew(catalog: seq<Engineer>, terms: seq<string>, lat: real, lng: real)
    requires |RelevantEngineers(catalog, terms)| <= MaxMatches
    ensures multiset(MatchEngineers(catalog, terms, lat, lng)) == multiset(RelevantEngineers(catalog, terms))
  {
    var relevant := RelevantEngineers(catalog, terms);
    var sorted := SortByDistance(relevant, lat, lng);
    assert |sorted| == |multiset(sorted)| == |relevant|;
  }

  /** Among engineers at the same distance, the matcher returns the first
      ones in catalog order. */
  lemma MatchEngineersKeepsCatalogOrderOnTies(catalog: seq<Engineer>, terms: seq<string>, lat: real, lng: real, d: real)
    ensures AtDistance(MatchEngineers(catalog, terms, lat, lng), lat, lng, d)
         <= AtDistance(RelevantEngineers(catalog, terms), lat, lng, d)
  {
    var relevant := RelevantEngineers(catalog, terms);
    var sorted := SortByDistance(relevant, lat, lng);
    SortByDistanceIsStable(relevant, lat, lng, d);
    FilterOfPrefix(MatchEngineers(catalog, terms, lat, lng), sorted, e => SqDistance(e, lat, lng) == d);
  }

  /** The message of the TypeError thrown by `.some` on a value that is not
      an array. */
  const NotAFunction := "relevantSkills.some is not a function"
  const MaterialsNotAFunction := "relevantMaterials.some is not a function"

  /** The engineer matcher from the lookup `skillMap[key] || []` on: a
      prototype member in place of the terms throws as soon as the filter
      tests the first skill of some engineer. */
  function MatchEngineersByKey(catalog: seq<Engineer>, m: map<string, seq<string>>, key: string, lat: real, lng: real): (r: Result<seq<Engineer>>)
    ensures r.Err? <==> key !in m && key in PrototypeMembers && exists e :: e in catalog && |e.skills| > 0
    ensures r.Err? ==> r.message == NotAFunction
    ensures r.Ok? ==> |r.value| <= MaxMatches && SortedByDistance(r.value, lat, lng)
    ensures r.Ok? ==> forall e :: e in r.value ==> e in catalog
    ensures key in m ==> r == Ok(MatchEngineers(catalog, m[key], lat, lng))
  {
    match TermsOf(m, key)
    case Some(terms) => Ok(MatchEngineers(catalog, terms, lat, lng))
    case None => if exists e :: e in catalog && |e.skills| > 0 then Err(NotAFunction) else Ok([])
  }

  /** The supplier matcher from the lookup `materialMap[key] || []`. */
  function MatchSuppliersByKey(catalog: seq<Supplier>, m: map<string, seq<string>>, key: string): (r: Result<seq<Supplier>>)
    ensures r.Err? <==> key !in m && key in PrototypeMembers && exists s :: s in catalog && |s.materials| > 0
    ensures r.Err? ==> r.message == MaterialsNotAFunction
    ensures r.Ok? ==> |r.value| <= MaxMatches && IsSubsequence(r.value, catalog)
    ensures key in m ==> r == Ok(MatchSuppliers(catalog, m[key]))
  {
    match TermsOf(m, key)
    case Some(terms) => Ok(MatchSuppliers(catalog, terms))
    case None => if exists s :: s in catalog && |s.materials| > 0 then Err(MaterialsNotAFunction) else Ok([])
  }

  /** A key without an entry of its own: unless it names a prototype
      member, it yields no matches rather than an error; a prototype
      member's name throws whenever some catalog entry has a skill or a
      material to test. */
  lemma UnmappedTypeHasNoMatches(catalogE: seq<Engineer>, catalogS: seq<Supplier>, m: map<string, seq<string>>, key: string, lat: real, lng: real)
    requires key !in m
    ensures key !in PrototypeMembers ==> MatchEngineersByKey(catalogE, m, key, lat, lng) == Ok([])
    ensures key !in PrototypeMembers ==> MatchSuppliersByKey(catalogS, m, key) == Ok([])
    ensures key in PrototypeMembers ==>
              (MatchEngineersByKey(catalogE, m, key, lat, lng).Err? <==> exists e :: e in catalogE && |e.skills| > 0)
    ensures key in PrototypeMembers ==>
              (MatchSuppliersByKey(catalogS, m, key).Err? <==> exists s :: s in catalogS && |s.materials| > 0)
  {
  }

  /** With the seed catalogs, an energy type named `constructor` would
      throw in both matchers. */
  lemma ConstructorKeyThrows(lat: real, lng: real)
    ensures MatchEngineersByKey(SampleEngineers, SkillMap, "constructor", lat, lng).Err?
    ensures MatchSuppliersByKey(SampleSuppliers, MaterialMap, "constructor").Err?
  {
    ConstructorIsNoEntry();
    var e := SampleEngineers[0];
    assert e in SampleEngineers && |e.skills| > 0;
    var s := SampleSuppliers[0];
    assert s in SampleSuppliers && |s.materials| > 0;
  }

  lemma ConstructorIsNoEntry()
    ensures TermsOf(SkillMap, "constructor") == None
    ensures TermsOf(MaterialMap, "constructor") == None
  {
    assert "constructor" in PrototypeMembers;
    assert "constructor" !in SkillMap.Keys;
    assert "constructor" !in MaterialMap.Keys;
  }

  /** A catalog with no relevant supplier yields no supplier match. */
  lemma NoRelevantSupplierNoMatch(catalog: seq<Supplier>, terms: seq<string>)
    requires forall s :: s in catalog ==> !HasRelevant(s.materials, terms)
    ensures MatchSuppliers(catalog, terms) == []
  {
    var r := MatchSuppliers(catalog, terms);
    NonEmptyHasHead(r);
  }

  /** A catalog with no relevant engineer yields no engineer match. */
  lemma NoRelevantEngineerNoMatch(catalog: seq<Engineer>, terms: seq<string>, lat: real, lng: real)
    requires forall e :: e in catalog ==> !HasRelevant(e.skills, terms)
    ensures MatchEngineers(catalog, terms, lat, lng) == []
  {
    var r := MatchEngineers(catalog, terms, lat, lng);
    NonEmptyHasHead(r);
  }

  /** `getMatchedEngineers`: matches for an opportunity from the engineer catalog. */
  function GetMatchedEngineers(p: Prediction): (r: seq<Engineer>)
    ensures |r| <= MaxMatches
    ensures forall e :: e in r ==> e in SampleEngineers
    ensures forall e :: e in r ==> HasRelevant(e.skills, Lookup(SkillMap, EnergyTypeName(p.energyType)))
    ensures SortedByDistance(r, p.lat, p.lng)
    ensures MatchEngineersByKey(SampleEngineers, SkillMap, EnergyTypeName(p.energyType), p.lat, p.lng) == Ok(r)
  {
    TaxonomiesCoverEveryType(p.energyType);
    MatchEngineers(SampleEngineers, Lookup(SkillMap, EnergyTypeName(p.energyType)), p.lat, p.lng)
  }

  /** `getMatchedSuppliers`: matches for an opportunity from the supplier catalog. */
  function GetMatchedSuppliers(p: Prediction): (r: seq<Supplier>)
    ensures |r| <= MaxMatches
    ensures IsSubsequence(r, SampleSuppliers)
    ensures forall s :: s in r ==> HasRelevant(s.materials, Lookup(MaterialMap, EnergyTypeName(p.energyType)))
    ensures MatchSuppliersByKey(SampleSuppliers, MaterialMap, EnergyTypeName(p.energyType)) == Ok(r)
  {
    TaxonomiesCoverEveryType(p.energyType);
    MatchSuppliers(SampleSuppliers, Lookup(MaterialMap, EnergyTypeName(p.energyType)))
  }

  /** `getOpportunities`, `getEngineers`, `getSuppliers`: copies of the catalogs. */
  function GetOpportunities(): seq<Prediction> {
    SamplePredictions
  }

  function GetEngineers(): seq<Engineer> {
    SampleEngineers
  }

  function GetSuppliers(): seq<Supplier> {
    SampleSuppliers
  }

  /** The arguments of an `expressInterest` call: an opportunity and the
      user taking an interest in it. */
  datatype InterestRequest = InterestRequest(opportunityId: string, userId: string)

  /** `expressInterest`: acknowledges the pairing of an opportunity and a user. */
  function ExpressInterest(opportunityId: string, userId: string): (a: Ack)
    ensures a.success
  {
    Ack(true)
  }

  /** `requestMaterials`: acknowledges a quote request to a supplier. */
  function RequestMaterials(opportunityId: string, supplierId: string): (a: Ack)
    ensures a.success
  {
    Ack(true)
  }
}
