/** The shared application state (src/contexts/AppContext.tsx): the chosen
    role, the producer's latest estimate and the list of opportunities,
    newest first. */
module AppContext {
  import opened Optional
  import opened SampleData
  import opened Seqs

  /** The three roles a visitor can take; `None` is the source's `null`. */
  datatype Role = ProducerRole | EngineerRole | SupplierRole

  datatype AppState = AppState(
    userRole: Option<Role>,
    currentPrediction: Option<Prediction>,
    opportunities: seq<Prediction>
  )

  /** What `useApp` reports when called outside the provider. */
  const OutsideProviderError := "useApp must be used within AppProvider"

  /** The provider's initial state: no role, no estimate, no opportunities. */
  function Initial(): (s: AppState)
    ensures s.userRole.None? && s.currentPrediction.None? && |s.opportunities| == 0
  {
    AppState(None, None, [])
  }

  /** `addOpportunity`: the new opportunity goes in front of the earlier ones. */
  function AddOpportunity(s: AppState, p: Prediction): (r: AppState)
    ensures |r.opportunities| == |s.opportunities| + 1
    ensures r.opportunities[0] == p && r.opportunities[1..] == s.opportunities
    ensures multiset(r.opportunities) == multiset(s.opportunities) + multiset{p}
    ensures r.userRole == s.userRole && r.currentPrediction == s.currentPrediction
  {
    s.(opportunities := [p] + s.opportunities)
  }

  /** `setUserRole`: replaces the role and nothing else. */
  function SetUserRole(s: AppState, role: Option<Role>): (r: AppState)
    ensures r.userRole == role
    ensures r.currentPrediction == s.currentPrediction && r.opportunities == s.opportunities
  {
    s.(userRole := role)
  }

  /** `setCurrentPrediction`: replaces the estimate and nothing else. */
  function SetCurrentPrediction(s: AppState, p: Option<Prediction>): (r: AppState)
    ensures r.currentPrediction == p
    ensures r.userRole == s.userRole && r.opportunities == s.opportunities
  {
    s.(currentPrediction := p)
  }

  /** `useApp`: the state, when there is a provider above the caller. */
  function UseApp(context: Option<AppState>): (r: Result<AppState>)
    ensures r.Ok? <==> context.Some?
    ensures r.Ok? ==> r.value == context.value
    ensures r.Err? ==> r.message == OutsideProviderError
  {
    match context
    case None => Err(OutsideProviderError)
    case Some(s) => Ok(s)
  }

  /** `ps` back to front. */
  function Reverse<T>(ps: seq<T>): (r: seq<T>)
    ensures |r| == |ps|
    ensures forall i :: 0 <= i < |ps| ==> r[i] == ps[|ps| - 1 - i]
  {
    if |ps| == 0 then [] else Reverse(ps[1..]) + [ps[0]]
  }

  /** Adds `ps` one after the other, in the order given. */
  function AddAll(s: AppState, ps: seq<Prediction>): AppState
    decreases |ps|
  {
    if |ps| == 0 then s else AddAll(AddOpportunity(s, ps[0]), ps[1..])
  }

  /** The opportunity list is a log, newest first: after a series of
      additions it holds the added opportunities in reverse order of
      addition, in front of the earlier ones, and no other field moved. */
  lemma {:induction false} AddAllPrependsReversed(s: AppState, ps: seq<Prediction>)
    ensures AddAll(s, ps).opportunities == Reverse(ps) + s.opportunities
    ensures AddAll(s, ps).userRole == s.userRole
    ensures AddAll(s, ps).currentPrediction == s.currentPrediction
    decreases |ps|
  {
    if |ps| > 0 {
      var s' := AddOpportunity(s, ps[0]);
      AddAllPrependsReversed(s', ps[1..]);
      AppendAssociative(Reverse(ps[1..]), [ps[0]], s.opportunities);
    }
  }

  /** Starting from the provider's state, the list shows exactly the added
      opportunities, the latest first. */
  lemma LatestOpportunityFirst(ps: seq<Prediction>)
    requires |ps| > 0
    ensures AddAll(Initial(), ps).opportunities == Reverse(ps)
    ensures AddAll(Initial(), ps).opportunities[0] == ps[|ps| - 1]
  {
    AddAllPrependsReversed(Initial(), ps);
    assert Reverse(ps) + [] == Reverse(ps);
  }
}
