/** The app shell: two state cells (the current screen and the profile
    handed to the edit screen), one transition `navigate`, and the render rule
    that picks the mounted screen and the highlighted navigation button. */
module Navigation {
  import opened Types

  /** The shell's two state cells as one value. */
  datatype NavState = NavState(currentScreen: ScreenName, editingProfile: Option<Profile>)

  /** `useState('Analyze')` and `useState(null)`. */
  const InitialState: NavState := NavState(Analyze, None)

  /** `navigate(screen, params)`, where `profile` stands for `params?.profile`.
      The profile is stored only for the edit screen and is never cleared. */
  function Navigated(s: NavState, screen: ScreenName, profile: Option<Profile>): (r: NavState)
    ensures r.currentScreen == screen
    ensures screen == EditProfile && profile.Some? ==> r.editingProfile == profile
    ensures r.editingProfile != s.editingProfile ==> screen == EditProfile && profile.Some?
    ensures s.editingProfile.Some? ==> r.editingProfile.Some?
  {
    NavState(screen, if screen == EditProfile && profile.Some? then profile else s.editingProfile)
  }

  /** Repeating a navigation changes nothing more. */
  lemma NavigateIdempotent(s: NavState, screen: ScreenName, profile: Option<Profile>)
    ensures Navigated(Navigated(s, screen, profile), screen, profile) == Navigated(s, screen, profile)
  {
  }

  /** One call of `navigate`. */
  datatype NavCall = NavCall(screen: ScreenName, profile: Option<Profile>)

  predicate Supplies(c: NavCall) { c.screen == EditProfile && c.profile.Some? }

  /** The state after a sequence of `navigate` calls, in order. */
  function Replay(s: NavState, calls: seq<NavCall>): NavState
    decreases |calls|
  {
    if calls == [] then s else Replay(Navigated(s, calls[0].screen, calls[0].profile), calls[1..])
  }

  /** The index of the last call that navigated to the edit screen with a
      profile, or -1 when no call did. */
  function LatestSupplier(calls: seq<NavCall>): (i: int)
    ensures -1 <= i < |calls|
    ensures 0 <= i ==> IsLatestSupplier(calls, i)
    ensures i < 0 ==> forall j :: 0 <= j < |calls| ==> !Supplies(calls[j])
    decreases |calls|
  {
    if calls == [] then -1
    else if Supplies(calls[|calls| - 1]) then |calls| - 1
    else
      var init := calls[..|calls| - 1];
      assert forall j :: 0 <= j < |init| ==> init[j] == calls[j];
      LatestSupplier(init)
  }

  /** Call `i` supplies a profile to the edit screen and no later call does. */
  predicate IsLatestSupplier(calls: seq<NavCall>, i: int)
  {
    0 <= i < |calls| && Supplies(calls[i]) && forall j :: i < j < |calls| ==> !Supplies(calls[j])
  }

  /** The profile of the last call that navigated to the edit screen with a
      profile, or `fallback` when no call did. */
  function LastSupplied(calls: seq<NavCall>, fallback: Option<Profile>): (r: Option<Profile>)
    ensures (exists i :: 0 <= i < |calls| && Supplies(calls[i])) ==>
      exists i :: IsLatestSupplier(calls, i) && r == calls[i].profile
    ensures (forall i :: 0 <= i < |calls| ==> !Supplies(calls[i])) ==> r == fallback
    ensures (exists i :: 0 <= i < |calls| && Supplies(calls[i])) ==> r.Some?
  {
    var i := LatestSupplier(calls);
    if 0 <= i then calls[i].profile else fallback
  }

  lemma {:induction false} ReplayAppend(s: NavState, a: seq<NavCall>, b: seq<NavCall>)
    ensures Replay(s, a + b) == Replay(Replay(s, a), b)
    decreases |a|
  {
    if a != [] {
      assert (a + b)[1..] == a[1..] + b;
      ReplayAppend(Navigated(s, a[0].screen, a[0].profile), a[1..], b);
    } else {
      assert a + b == b;
    }
  }

  /** After any sequence of calls the screen is the one last requested, and
      the stored profile is the one most recently supplied to the edit screen
      (or the one stored before, if none was). */
  lemma {:induction false} ReplayFinal(s: NavState, calls: seq<NavCall>)
    ensures calls != [] ==> Replay(s, calls).currentScreen == calls[|calls| - 1].screen
    ensures Replay(s, calls).editingProfile == LastSupplied(calls, s.editingProfile)
    decreases |calls|
  {
    if calls != [] {
      var init, last := calls[..|calls| - 1], calls[|calls| - 1];
      assert calls == init + [last];
      ReplayAppend(s, init, [last]);
      ReplayFinal(s, init);
      assert Replay(Replay(s, init), [last]) == Navigated(Replay(s, init), last.screen, last.profile);
    }
  }

  /** Replaying a whole sequence of navigations a second time leaves the
      state where the first replay put it. */
  lemma ReplayTwice(s: NavState, calls: seq<NavCall>)
    ensures Replay(s, calls + calls) == Replay(s, calls)
  {
    var once := Replay(s, calls);
    ReplayAppend(s, calls, calls);
    ReplayFinal(s, calls);
    ReplayFinal(once, calls);
  }

  /** The content area, lines 43 to 47: whether the given screen's content is
      mounted. */
  function IsMounted(slot: ScreenName, s: NavState): (b: bool)
    ensures b ==> slot == s.currentScreen
    ensures slot == s.currentScreen && slot != EditProfile ==> b
    ensures slot == EditProfile ==> (b <==> s.currentScreen == EditProfile && s.editingProfile.Some?)
  {
    match slot
    case Analyze => s.currentScreen == Analyze
    case Register => s.currentScreen == Register
    case ProfileList => s.currentScreen == ProfileList
    case EditProfile => s.currentScreen == EditProfile && s.editingProfile.Some?
  }

  /** At most one screen is mounted, and it is the current one; the only
      state with nothing mounted is the edit screen without a stored profile. */
  lemma MountedIsCurrent(s: NavState, a: ScreenName, b: ScreenName)
    ensures IsMounted(a, s) && IsMounted(b, s) ==> a == b
    ensures IsMounted(a, s) ==> a == s.currentScreen
    ensures (forall slot :: !IsMounted(slot, s)) <==> s.currentScreen == EditProfile && s.editingProfile.None?
  {
    if s.currentScreen != EditProfile || s.editingProfile.Some? {
      assert IsMounted(s.currentScreen, s);
    }
  }

  /** From the initial state, the edit screen shows content exactly when the
      last call asked for it and some call, at any earlier time, supplied a
      profile: a stale profile is shown when the latest visit supplied none. */
  lemma EditMountedAfter(calls: seq<NavCall>)
    ensures IsMounted(EditProfile, Replay(InitialState, calls)) <==>
      calls != [] && calls[|calls| - 1].screen == EditProfile &&
      exists i :: 0 <= i < |calls| && Supplies(calls[i])
  {
    ReplayFinal(InitialState, calls);
  }

  /** The concrete stale case: edit p, go to Analyze, come back to the edit
      screen without a profile, and p is shown again. */
  lemma StaleProfileShown(p: Profile)
    ensures Replay(InitialState, [NavCall(EditProfile, Some(p)), NavCall(Analyze, None), NavCall(EditProfile, None)])
      == NavState(EditProfile, Some(p))
  {
    var calls := [NavCall(EditProfile, Some(p)), NavCall(Analyze, None), NavCall(EditProfile, None)];
    ReplayFinal(InitialState, calls);
    assert calls[..2][..1] == [calls[0]];
  }

  /** The three buttons of the bottom bar; there is none for the edit screen. */
  datatype NavButton = Analizar | Registrar | Perfiles

  function Target(b: NavButton): (screen: ScreenName)
    ensures screen != EditProfile
  {
    match b
    case Analizar => Analyze
    case Registrar => Register
    case Perfiles => ProfileList
  }

  function IsActive(b: NavButton, s: NavState): (active: bool)
    ensures s.currentScreen == EditProfile ==> !active
  {
    s.currentScreen == Target(b)
  }

  /** Exactly one button is highlighted on the three main screens, none on
      the edit screen; pressing a button highlights it and keeps the stored
      profile. */
  lemma ActiveButton(s: NavState, b: NavButton, c: NavButton)
    ensures s.currentScreen == EditProfile ==> !IsActive(b, s)
    ensures IsActive(b, s) && IsActive(c, s) ==> b == c
    ensures s.currentScreen != EditProfile ==> exists d :: IsActive(d, s)
    ensures IsActive(b, Navigated(s, Target(b), None))
    ensures Navigated(s, Target(b), None).editingProfile == s.editingProfile
  {
    match s.currentScreen
    case Analyze => assert IsActive(Analizar, s);
    case Register => assert IsActive(Registrar, s);
    case ProfileList => assert IsActive(Perfiles, s);
    case EditProfile =>
  }

  /** The shell component and its two state cells. */
  class App {
    var currentScreen: ScreenName
    var editingProfile: Option<Profile>

    function State(): NavState
      reads this
    {
      NavState(currentScreen, editingProfile)
    }

    constructor ()
      ensures State() == InitialState
    {
      currentScreen := Analyze;
      editingProfile := None;
    }

    /** `navigate`: store the profile first (edit screen only), then switch. */
    method Navigate(screen: ScreenName, profile: Option<Profile>)
      modifies this
      ensures State() == Navigated(old(State()), screen, profile)
    {
      if screen == EditProfile && profile.Some? {
        editingProfile := profile;
      }
      currentScreen := screen;
    }

    /** A bottom-bar button: `navigate(<its screen>)` without params. */
    method Press(b: NavButton)
      modifies this
      ensures State() == Navigated(old(State()), Target(b), None)
      ensures IsActive(b, State())
    {
      Navigate(Target(b), None);
    }

    predicate Mounted(slot: ScreenName)
      reads this
    {
      IsMounted(slot, State())
    }
  }
}
