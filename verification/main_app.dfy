/** The application shell (src/pages/MainApp.tsx): landing page, role
    selector and the page of the chosen role, with the buttons that move
    between them. */
module MainApp {
  import opened Optional
  import opened AppContext

  datatype View = LandingView | RoleSelectorView | AppView

  /** What the shell remembers: its view and whether the pitch dialog is
      open, next to the shared state that holds the role. */
  datatype Shell = Shell(view: View, pitchOpen: bool, app: AppState)

  /** The shell as the provider first shows it. */
  function InitialShell(): (s: Shell)
    ensures s.view == LandingView && !s.pitchOpen && s.app.userRole.None?
  {
    Shell(LandingView, false, Initial())
  }

  /** `handleStartDemo`. */
  function StartDemo(s: Shell): (r: Shell)
    ensures r.view == RoleSelectorView && r.app == s.app && r.pitchOpen == s.pitchOpen
  {
    s.(view := RoleSelectorView)
  }

  /** `handleSelectRole`: the role is recorded and its page shown. */
  function SelectRole(s: Shell, role: Role): (r: Shell)
    ensures r.view == AppView && r.app.userRole == Some(role)
    ensures r.app.currentPrediction == s.app.currentPrediction && r.app.opportunities == s.app.opportunities
  {
    s.(view := AppView, app := SetUserRole(s.app, Some(role)))
  }

  /** `handleBackToRoles`: the role is cleared, the selector shown. */
  function BackToRoles(s: Shell): (r: Shell)
    ensures r.view == RoleSelectorView && r.app.userRole.None?
    ensures r.app.currentPrediction == s.app.currentPrediction && r.app.opportunities == s.app.opportunities
  {
    s.(view := RoleSelectorView, app := SetUserRole(s.app, None))
  }

  /** `handleBackToLanding`: the role is cleared, the landing page shown. */
  function BackToLanding(s: Shell): (r: Shell)
    ensures r.view == LandingView && r.app.userRole.None?
    ensures r.app.currentPrediction == s.app.currentPrediction && r.app.opportunities == s.app.opportunities
  {
    s.(view := LandingView, app := SetUserRole(s.app, None))
  }

  /** The buttons of the shell. */
  datatype Event = StartDemoPressed | RolePicked(role: Role) | ChangeRolePressed
                 | BackToHomePressed | ViewPitchPressed | PitchClosed

  /** Which buttons each view puts on screen: Start on the landing page;
      Back to Home and the three role cards on the selector; Change Role,
      View Pitch and the dialog's close on a role page. */
  predicate Offered(v: View, e: Event) {
    match e
    case StartDemoPressed => v == LandingView
    case RolePicked(_) => v == RoleSelectorView
    case BackToHomePressed => v == RoleSelectorView
    case ChangeRolePressed => v == AppView
    case ViewPitchPressed => v == AppView
    case PitchClosed => v == AppView
  }

  /** One press; a button not on screen cannot be pressed. */
  function Step(s: Shell, e: Event): (r: Shell)
    ensures !Offered(s.view, e) ==> r == s
    ensures r.app.currentPrediction == s.app.currentPrediction && r.app.opportunities == s.app.opportunities
    ensures e.RolePicked? && s.view == RoleSelectorView ==> r.view == AppView && r.app.userRole == Some(e.role)
    ensures (e == ChangeRolePressed || e == BackToHomePressed) && Offered(s.view, e) ==> r.app.userRole.None?
    ensures (e == ViewPitchPressed || e == PitchClosed) ==> r.view == s.view && r.app == s.app
    ensures Offered(s.view, e) && e == ViewPitchPressed ==> r.pitchOpen
    ensures Offered(s.view, e) && e == PitchClosed ==> !r.pitchOpen
  {
    if !Offered(s.view, e) then s
    else match e
      case StartDemoPressed => StartDemo(s)
      case RolePicked(role) => SelectRole(s, role)
      case ChangeRolePressed => BackToRoles(s)
      case BackToHomePressed => BackToLanding(s)
      case ViewPitchPressed => s.(pitchOpen := true)
      case PitchClosed => s.(pitchOpen := false)
  }

  /** The shell shows a role page exactly when a role is chosen. */
  ghost predicate Consistent(s: Shell) {
    s.view == AppView <==> s.app.userRole.Some?
  }

  /** The role pages the shell renders: the one of the chosen role, on the
      app view only. */
  function RolePages(s: Shell): (r: set<Role>)
    ensures forall role :: role in r <==> s.view == AppView && s.app.userRole == Some(role)
  {
    if s.view == AppView && s.app.userRole.Some? then {s.app.userRole.value} else {}
  }

  /** Every press keeps the shell consistent. */
  lemma StepKeepsConsistent(s: Shell, e: Event)
    requires Consistent(s)
    ensures Consistent(Step(s, e))
  {
  }

  function Run(s: Shell, events: seq<Event>): Shell
    decreases |events|
  {
    if |events| == 0 then s else Run(Step(s, events[0]), events[1..])
  }

  /** From the first screen, after any presses, the app view renders
      exactly one role page and the other views none. */
  lemma {:induction false} OneRolePageOnAppView(events: seq<Event>)
    ensures var s := Run(InitialShell(), events);
            (s.view == AppView ==> |RolePages(s)| == 1) && (s.view != AppView ==> RolePages(s) == {})
  {
    RunKeepsConsistent(InitialShell(), events);
  }

  lemma {:induction false} RunKeepsConsistent(s: Shell, events: seq<Event>)
    requires Consistent(s)
    ensures Consistent(Run(s, events))
    decreases |events|
  {
    if |events| > 0 {
      StepKeepsConsistent(s, events[0]);
      RunKeepsConsistent(Step(s, events[0]), events[1..]);
    }
  }

  /** Leaving a role page and coming back with another role keeps the
      producer's estimate and the opportunity list. */
  lemma SwitchingRoleKeepsData(s: Shell, role: Role)
    requires s.view == AppView
    ensures var r := Run(s, [ChangeRolePressed, RolePicked(role)]);
            && r.view == AppView && r.app.userRole == Some(role)
            && r.app.currentPrediction == s.app.currentPrediction
            && r.app.opportunities == s.app.opportunities
  {
    var s1 := Step(s, ChangeRolePressed);
    assert Run(s, [ChangeRolePressed, RolePicked(role)]) == Run(s1, [RolePicked(role)]);
    assert Run(s1, [RolePicked(role)]) == Run(Step(s1, RolePicked(role)), []);
  }
}
