/** The engineer dashboard (src/pages/Engineer.tsx): the opportunity list
    narrowed by a text search, an energy-type filter and a confidence
    filter, and the interest button. */
module EngineerPage {
  import opened Optional
  import opened Text
  import opened Seqs
  import opened SampleData
  import opened MockApi

  /** A select box: 'all' or one value. */
  datatype Choice<T> = All | Only(value: T)

  /** The user id the dashboard sends with every expression of interest. */
  const DemoUserId := "engineer-demo"

  /** The location or the description mentions the term, ignoring case. */
  predicate MatchesSearch(p: Prediction, term: string) {
    ContainsIgnoreCase(p.location, term) || ContainsIgnoreCase(p.description, term)
  }

  /** The search criterion: inactive when empty. */
  predicate SearchOk(p: Prediction, search: string) {
    search == "" || MatchesSearch(p, search)
  }

  /** The energy select: inactive on 'all'. */
  predicate EnergyOk(p: Prediction, energy: Choice<EnergyType>) {
    energy.All? || p.energyType == energy.value
  }

  /** The confidence select: inactive on 'all'. */
  predicate ConfidenceOk(p: Prediction, confidence: Choice<Confidence>) {
    confidence.All? || p.confidence == confidence.value
  }

  /** An opportunity passes every active criterion. */
  predicate Keep(p: Prediction, search: string, energy: Choice<EnergyType>, confidence: Choice<Confidence>) {
    SearchOk(p, search) && EnergyOk(p, energy) && ConfidenceOk(p, confidence)
  }

  /** `filterOpportunities`: three filters applied in turn, each only when
      its criterion is active. */
  function FilterOpportunities(opps: seq<Prediction>, search: string, energy: Choice<EnergyType>, confidence: Choice<Confidence>): (r: seq<Prediction>)
    ensures IsSubsequence(r, opps)
    ensures |r| <= |opps|
    ensures forall p :: multiset(r)[p] == if Keep(p, search, energy, confidence) then multiset(opps)[p] else 0
    ensures forall p :: p in r <==> p in opps && Keep(p, search, energy, confidence)
  {
    var bySearch := if search != "" then Filter(opps, (p: Prediction) => MatchesSearch(p, search)) else opps;
    var byEnergy := if energy.Only? then Filter(bySearch, (p: Prediction) => p.energyType == energy.value) else bySearch;
    var r := if confidence.Only? then Filter(byEnergy, (p: Prediction) => p.confidence == confidence.value) else byEnergy;
    FilterOpportunitiesIsOneFilter(opps, search, energy, confidence);
    r
  }

  /** The staged filters select the same list as one filter by the
      conjunction of the criteria. */
  lemma FilterOpportunitiesIsOneFilter(opps: seq<Prediction>, search: string, energy: Choice<EnergyType>, confidence: Choice<Confidence>)
    ensures (var bySearch := if search != "" then Filter(opps, (p: Prediction) => MatchesSearch(p, search)) else opps;
             var byEnergy := if energy.Only? then Filter(bySearch, (p: Prediction) => p.energyType == energy.value) else bySearch;
             if confidence.Only? then Filter(byEnergy, (p: Prediction) => p.confidence == confidence.value) else byEnergy)
         == Filter(opps, (p: Prediction) => Keep(p, search, energy, confidence))
  {
    var s := (p: Prediction) => SearchOk(p, search);
    var e := (p: Prediction) => EnergyOk(p, energy);
    var c := (p: Prediction) => ConfidenceOk(p, confidence);
    var se := (p: Prediction) => SearchOk(p, search) && EnergyOk(p, energy);
    var sec := (p: Prediction) => Keep(p, search, energy, confidence);
    var bySearch := if search != "" then Filter(opps, (p: Prediction) => MatchesSearch(p, search)) else opps;
    if search != "" {
      FilterExtensional(opps, (p: Prediction) => MatchesSearch(p, search), s);
    } else {
      FilterKeepsAll(opps, s);
    }
    assert bySearch == Filter(opps, s);
    var byEnergy := if energy.Only? then Filter(bySearch, (p: Prediction) => p.energyType == energy.value) else bySearch;
    if energy.Only? {
      FilterExtensional(bySearch, (p: Prediction) => p.energyType == energy.value, e);
    } else {
      FilterKeepsAll(bySearch, e);
    }
    assert byEnergy == Filter(bySearch, e);
    FilterFilter(opps, s, e, se);
    var r := if confidence.Only? then Filter(byEnergy, (p: Prediction) => p.confidence == confidence.value) else byEnergy;
    if confidence.Only? {
      FilterExtensional(byEnergy, (p: Prediction) => p.confidence == confidence.value, c);
    } else {
      FilterKeepsAll(byEnergy, c);
    }
    assert r == Filter(byEnergy, c);
    FilterFilter(opps, se, c, sec);
  }

  /** With no criterion active the list is shown unchanged. */
  lemma NoCriterionShowsAll(opps: seq<Prediction>)
    ensures FilterOpportunities(opps, "", All, All) == opps
  {
  }

  /** The search ignores case: terms that agree up to case select the same
      opportunities. */
  lemma SearchIgnoresCase(opps: seq<Prediction>, t: string, t': string, energy: Choice<EnergyType>, confidence: Choice<Confidence>)
    requires Lower(t) == Lower(t')
    ensures FilterOpportunities(opps, t, energy, confidence) == FilterOpportunities(opps, t', energy, confidence)
  {
    forall p: Prediction
      ensures MatchesSearch(p, t) == MatchesSearch(p, t')
    {
      ContainsIgnoreCaseUpToCase(p.location, p.location, t, t');
      ContainsIgnoreCaseUpToCase(p.description, p.description, t, t');
    }
    assert |t| == |Lower(t)| == |t'|;
    FilterOpportunitiesIsOneFilter(opps, t, energy, confidence);
    FilterOpportunitiesIsOneFilter(opps, t', energy, confidence);
    FilterExtensional(opps, (p: Prediction) => Keep(p, t, energy, confidence), (p: Prediction) => Keep(p, t', energy, confidence));
  }

  /** Searching for an opportunity's own location, in any case, finds it
      among the others of its type and tier. */
  lemma SearchByLocationFinds(opps: seq<Prediction>, p: Prediction, t: string)
    requires p in opps && Lower(t) == Lower(p.location)
    ensures p in FilterOpportunities(opps, t, Only(p.energyType), Only(p.confidence))
  {
    ContainsSelf(Lower(p.location));
    assert MatchesSearch(p, t);
  }

  /** `handleExpressInterest`: nothing happens without a selected
      opportunity; otherwise interest in it is expressed as the demo
      engineer, and acknowledged. */
  function HandleExpressInterest(selected: Option<Prediction>): (r: Option<InterestRequest>)
    ensures r.None? <==> selected.None?
    ensures r.Some? ==> r.value.opportunityId == selected.value.id && r.value.userId == DemoUserId
    ensures r.Some? ==> ExpressInterest(r.value.opportunityId, r.value.userId).success
  {
    match selected
    case None => None
    case Some(p) => Some(InterestRequest(p.id, DemoUserId))
  }
}
