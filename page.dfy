/**
 * The page: a login gate, then a welcome screen, then the scrubber with the user's name
 * and the invite generator. Two state variables decide everything that is shown.
 */
module Page {
  import opened Wrappers

  /** The user record returned by a successful login; `details` is opaque and kept as text. */
  datatype User = User(userName: string, details: string, accessCode: string)

  /** The page state: `user` (None while no truthy user is set) and `showWelcome`. */
  datatype PageState = PageState(user: Option<User>, showWelcome: bool)

  /**
   * What the page renders: the login overlay, the welcome screen (with the name it greets),
   * the scrubber, and the persistent UI: the name banner and the invite generator, which
   * receives the user's access code as its admin code.
   */
  datatype Screens = Screens(
    loginOverlay: bool,
    welcome: Option<string>,
    drone: bool,
    banner: Option<string>,
    inviteAdminCode: Option<string>)

  function Visible(s: PageState): Screens
  {
    match s.user
    case None => Screens(true, None, false, None, None)
    case Some(u) =>
      Screens(false,
              if s.showWelcome then Some(u.userName) else None,
              true,
              if s.showWelcome then None else Some(u.userName),
              if s.showWelcome then None else Some(u.accessCode))
  }

  /**
   * The visibility rules: the gate exactly without a user; the scrubber exactly with one;
   * the welcome screen exactly with a user while `showWelcome`; banner and generator exactly
   * with a user afterwards, the generator holding the user's own access code.
   */
  lemma VisibilityRules(s: PageState)
    ensures Visible(s).loginOverlay <==> s.user.None?
    ensures Visible(s).drone <==> s.user.Some?
    ensures Visible(s).welcome.Some? <==> s.user.Some? && s.showWelcome
    ensures Visible(s).banner.Some? <==> s.user.Some? && !s.showWelcome
    ensures Visible(s).inviteAdminCode.Some? <==> s.user.Some? && !s.showWelcome
    ensures Visible(s).inviteAdminCode.Some? ==> Visible(s).inviteAdminCode.value == s.user.value.accessCode
    ensures Visible(s).welcome.Some? ==> Visible(s).welcome.value == s.user.value.userName
  {
  }

  /**
   * The gate and the content are never shown together, nor the welcome screen and the
   * persistent UI; with the content shown, exactly one of welcome screen and banner is.
   */
  lemma ScreensExclusive(s: PageState)
    ensures Visible(s).loginOverlay != Visible(s).drone
    ensures !(Visible(s).welcome.Some? && Visible(s).inviteAdminCode.Some?)
    ensures Visible(s).drone ==> Visible(s).welcome.Some? || Visible(s).banner.Some?
    ensures !(Visible(s).welcome.Some? && Visible(s).banner.Some?)
  {
  }

  /** The two things that change the page: a login reported by the gate, and the welcome screen's end. */
  datatype Event = Login(userData: Option<User>) | WelcomeComplete

  /**
   * Which events can happen: a login only while the gate is shown (it is the gate's
   * callback), the welcome screen's completion only while it is shown (its timer is torn
   * down with it).
   */
  predicate Enabled(s: PageState, e: Event)
  {
    match e
    case Login(_) => Visible(s).loginOverlay
    case WelcomeComplete => Visible(s).welcome.Some?
  }

  /** `handleLogin(userData)` and the welcome screen's `onComplete`. */
  function Step(s: PageState, e: Event): PageState
  {
    match e
    case Login(d) => PageState(d, true)
    case WelcomeComplete => PageState(s.user, false)
  }

  /** The state after a sequence of events. */
  function Run(s: PageState, events: seq<Event>): PageState
    decreases |events|
  {
    if events == [] then s else Run(Step(s, events[0]), events[1..])
  }

  /** Every event of the sequence is enabled when it happens. */
  predicate Possible(s: PageState, events: seq<Event>)
    decreases |events|
  {
    events == [] || (Enabled(s, events[0]) && Possible(Step(s, events[0]), events[1..]))
  }

  /** The state on first render: no user, no welcome screen. */
  const INITIAL: PageState := PageState(None, false)

  /**
   * No event ever clears the user: once a user is set, every possible continuation keeps
   * that same user, so the gate never comes back.
   */
  lemma {:induction false} UserNeverReset(s: PageState, events: seq<Event>)
    requires s.user.Some? && Possible(s, events)
    ensures Run(s, events).user == s.user
    ensures !Visible(Run(s, events)).loginOverlay
    decreases |events|
  {
    if events != [] {
      UserNeverReset(Step(s, events[0]), events[1..]);
    }
  }

  /** The component `Home`: the state variables `user` and `showWelcome`. */
  class Home {
    var user: Option<User>
    var showWelcome: bool

    function State(): PageState
      reads this
    {
      PageState(user, showWelcome)
    }

    constructor ()
      ensures State() == INITIAL
    {
      user, showWelcome := None, false;
    }

    /** `handleLogin(userData)`: sets the user and asks for the welcome screen. */
    method HandleLogin(userData: Option<User>)
      modifies this
      ensures user == userData && showWelcome
      ensures State() == Step(old(State()), Login(userData))
    {
      user := userData;
      showWelcome := true;
    }

    /** The welcome screen's `onComplete`: hides it, leaves the user alone. */
    method OnWelcomeComplete()
      modifies this`showWelcome
      ensures !showWelcome && user == old(user)
      ensures State() == Step(old(State()), WelcomeComplete)
    {
      showWelcome := false;
    }
  }

  /**
   * A successful login from the first render: the welcome screen greets the user, the
   * scrubber is mounted behind it, and once it completes the banner and the generator
   * (with the user's access code) appear.
   */
  method LoginThenWelcome(u: User) returns (during: Screens, after: Screens)
    ensures !during.loginOverlay && during.welcome == Some(u.userName) && during.drone
    ensures during.inviteAdminCode == None
    ensures !after.loginOverlay && after.welcome == None && after.drone
    ensures after.banner == Some(u.userName) && after.inviteAdminCode == Some(u.accessCode)
  {
    var home := new Home();
    home.HandleLogin(Some(u));
    during := Visible(home.State());
    home.OnWelcomeComplete();
    after := Visible(home.State());
  }
}
