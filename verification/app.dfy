/**
 * The top-level flow: two nullable cells, the chosen university and the student id,
 * decide whether the selector, the login form or the dashboard is mounted.
 */
module AppFlow {
  import opened Wrappers
  import opened Types
  import LoginForm

  datatype Screen = SelectorScreen | LoginScreen | DashboardScreen

  datatype FlowState = FlowState(university: Option<University>, studentId: Option<string>)

  /** The four handlers the screens are given. */
  datatype Action =
    | SelectUniversity(uni: University)   // handleUniSelect, given to the selector
    | Login(id: string)                  // handleLogin, given to the login form
    | BackToSelector                     // handleBackToSelector, given to the login form
    | Logout                             // handleLogout, given to the dashboard

  const Initial := FlowState(None, None)

  /** JavaScript truthiness of a `string | null` cell: null and "" are both falsy. */
  predicate Truthy(s: Option<string>) {
    s.Some? && s.value != ""
  }

  /** The view controller: the first falsy cell decides the screen. */
  function ScreenOf(st: FlowState): (sc: Screen)
    ensures sc == SelectorScreen <==> st.university.None?
    ensures sc == LoginScreen <==> st.university.Some? && !Truthy(st.studentId)
    ensures sc == DashboardScreen <==> st.university.Some? && Truthy(st.studentId)
  {
    if st.university.None? then SelectorScreen
    else if !Truthy(st.studentId) then LoginScreen
    else DashboardScreen
  }

  /** The screen on which each handler can be invoked. */
  function HandlerScreen(a: Action): Screen {
    match a
    case SelectUniversity(_) => SelectorScreen
    case Login(_) => LoginScreen
    case BackToSelector => LoginScreen
    case Logout => DashboardScreen
  }

  /** What each handler writes to the two cells. */
  function Apply(st: FlowState, a: Action): FlowState {
    match a
    case SelectUniversity(uni) => st.(university := Some(uni))
    case Login(id) => st.(studentId := Some(id))
    case BackToSelector => st.(university := None)
    case Logout => FlowState(None, None)
  }

  /**
   * A session run from the initial state: each handler is invoked from the screen that
   * exposes it, and the login form hands over only ids it accepted.
   */
  ghost predicate IsSession(trace: seq<Action>)
    decreases |trace|
  {
    if trace == [] then true
    else
      var a := trace[|trace| - 1];
      var before := trace[..|trace| - 1];
      IsSession(before) &&
      ScreenOf(Run(before)) == HandlerScreen(a) &&
      (a.Login? ==> LoginForm.Accepts(a.id))
  }

  function Run(trace: seq<Action>): FlowState
    decreases |trace|
  {
    if trace == [] then Initial
    else Apply(Run(trace[..|trace| - 1]), trace[|trace| - 1])
  }

  /** A student id is only ever held together with a university, and only an accepted one. */
  ghost predicate Consistent(st: FlowState) {
    st.studentId.Some? ==> st.university.Some? && LoginForm.Accepts(st.studentId.value)
  }

  /** The initial state has neither cell set, so the selector is shown. */
  lemma InitialScreen()
    ensures ScreenOf(Initial) == SelectorScreen && Consistent(Initial)
  {
  }

  /** One handler, invoked from its own screen, keeps the state consistent. */
  lemma StepPreservesConsistency(st: FlowState, a: Action)
    requires Consistent(st)
    requires ScreenOf(st) == HandlerScreen(a)
    requires a.Login? ==> LoginForm.Accepts(a.id)
    ensures Consistent(Apply(st, a))
  {
    if a.BackToSelector? {
      assert st.studentId.Some? ==> Truthy(st.studentId);
    }
  }

  /** In every session, `studentId` set implies `university` set. */
  lemma {:induction false} SessionConsistent(trace: seq<Action>)
    requires IsSession(trace)
    ensures Consistent(Run(trace))
    decreases |trace|
  {
    if trace != [] {
      var before := trace[..|trace| - 1];
      SessionConsistent(before);
      StepPreservesConsistency(Run(before), trace[|trace| - 1]);
    }
  }

  /** In a session the screen is decided by nullness alone: "" never reaches the id cell. */
  lemma SessionScreens(trace: seq<Action>)
    requires IsSession(trace)
    ensures var st := Run(trace);
      (ScreenOf(st) == LoginScreen <==> st.university.Some? && st.studentId.None?) &&
      (ScreenOf(st) == DashboardScreen <==> st.university.Some? && st.studentId.Some?)
  {
    SessionConsistent(trace);
  }

  /** Logging out from the dashboard returns to the selector with both cells cleared. */
  lemma LogoutResets(st: FlowState)
    ensures Apply(st, Logout) == Initial && ScreenOf(Apply(st, Logout)) == SelectorScreen
  {
  }

  /** The root component's two state cells and its four handlers. */
  class App {
    var university: Option<University>
    var studentId: Option<string>

    function State(): FlowState
      reads this
    {
      FlowState(university, studentId)
    }

    /** The flow invariant: an id is held only with a university, and only an accepted one. */
    ghost predicate Valid()
      reads this
    {
      Consistent(State())
    }

    /** The screen the component renders. */
    function CurrentScreen(): Screen
      reads this
    {
      ScreenOf(State())
    }

    constructor ()
      ensures Valid()
      ensures university == None && studentId == None
      ensures State() == Initial && CurrentScreen() == SelectorScreen
    {
      university := None;
      studentId := None;
    }

    /** Given to the selector. */
    method HandleUniSelect(uni: University)
      requires Valid() && CurrentScreen() == HandlerScreen(SelectUniversity(uni))
      modifies this
      ensures Valid()
      ensures university == Some(uni) && studentId == old(studentId)
      ensures State() == Apply(old(State()), SelectUniversity(uni))
    {
      StepPreservesConsistency(State(), SelectUniversity(uni));
      university := Some(uni);
    }

    /** Given to the login form, which calls it only with an id it accepted. */
    method HandleLogin(id: string)
      requires Valid() && CurrentScreen() == HandlerScreen(Login(id)) && LoginForm.Accepts(id)
      modifies this
      ensures Valid()
      ensures studentId == Some(id) && university == old(university)
      ensures State() == Apply(old(State()), Login(id))
    {
      StepPreservesConsistency(State(), Login(id));
      studentId := Some(id);
    }

    /** Given to the dashboard. */
    method HandleLogout()
      requires Valid() && CurrentScreen() == HandlerScreen(Logout)
      modifies this
      ensures Valid()
      ensures studentId == None && university == None
      ensures State() == Apply(old(State()), Logout)
    {
      studentId := None;
      university := None;
    }

    /** Given to the login form. */
    method HandleBackToSelector()
      requires Valid() && CurrentScreen() == HandlerScreen(BackToSelector)
      modifies this
      ensures Valid()
      ensures university == None && studentId == old(studentId) == None
      ensures State() == Apply(old(State()), BackToSelector)
    {
      StepPreservesConsistency(State(), BackToSelector);
      university := None;
    }
  }
}
