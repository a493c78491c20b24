/** The two routing decisions derived from the session store: the gate of
    the root layout, re-evaluated on every store or route change, and the
    start route `/`. Both are pure functions of the hydration flag, the
    token and (for the gate) the current route segments. */
module Routing {
  import opened Js

  /** Redirect targets. */
  datatype Href = LoginPage | HomePage

  function Path(h: Href): string {
    match h
    case LoginPage => "/login"
    case HomePage => "/home"
  }

  /** The route group holding the screens for signed-out users. */
  const AuthGroup: string := "(auth)"

  /** The route segments a redirect target lives at: `/login` is a screen
      of the `(auth)` group, `/home` one of the `(app)` group. */
  function Segments(h: Href): seq<string> {
    match h
    case LoginPage => ["(auth)", "login"]
    case HomePage => ["(app)", "home"]
  }

  /** The URL of a redirect target is its screen's segment: the route group
      in parentheses does not appear in the URL. */
  lemma PathIsScreenSegment(h: Href)
    ensures |Segments(h)| == 2
    ensures Path(h) == "/" + Segments(h)[1]
    ensures StartsWith(Segments(h)[0], "(")
  {
  }

  /** `useSegments()[0] ?? ""`. */
  function FirstSegment(segments: seq<string>): string {
    if |segments| == 0 then "" else segments[0]
  }

  /** The current route is inside the `(auth)` group. */
  predicate InAuth(segments: seq<string>) {
    StartsWith(FirstSegment(segments), AuthGroup)
  }

  /** `inAuth` holds exactly when there is a first segment and it begins
      with `(auth)`; the root route, with no segment, is outside. */
  lemma InAuthMeaning(segments: seq<string>)
    ensures InAuth(segments) <==>
      |segments| > 0 && |AuthGroup| <= |segments[0]| && segments[0][..|AuthGroup|] == AuthGroup
    ensures !InAuth([])
  {
  }

  /** The gate: no decision before hydration; afterwards a redirect exactly
      when the route group disagrees with the session, towards the group
      that agrees with it. */
  function AuthGate(isHydrated: bool, token: Option<string>, segments: seq<string>): (r: Option<Href>)
    ensures !isHydrated ==> r.None?
    ensures isHydrated ==> (r.None? <==> (Present(token) <==> !InAuth(segments)))
    ensures r == Some(LoginPage) ==> !Present(token) && !InAuth(segments)
    ensures r == Some(HomePage) ==> Present(token) && InAuth(segments)
  {
    var inAuth := InAuth(segments);
    if !isHydrated then None
    else
      var isAuth := Present(token);
      if !isAuth && !inAuth then Some(LoginPage)
      else if isAuth && inAuth then Some(HomePage)
      else None
  }

  /** The gate sees the token only through its truthiness: an empty token
      is the same as none. */
  lemma GateSeesOnlyPresence(isHydrated: bool, t1: Option<string>, t2: Option<string>, segments: seq<string>)
    requires Present(t1) == Present(t2)
    ensures AuthGate(isHydrated, t1, segments) == AuthGate(isHydrated, t2, segments)
  {
  }

  /** Once hydrated, a signed-out user outside `(auth)` is sent to the login
      screen, and only such a user is. */
  lemma GateSendsToLogin(token: Option<string>, segments: seq<string>)
    ensures AuthGate(true, token, segments) == Some(LoginPage) <==>
      (token.None? || token.value == "") && !InAuth(segments)
  {
  }

  /** Once hydrated, a signed-in user inside `(auth)` is sent home, and
      only such a user is. */
  lemma GateSendsHome(token: Option<string>, segments: seq<string>)
    ensures AuthGate(true, token, segments) == Some(HomePage) <==>
      token.Some? && token.value != "" && InAuth(segments)
  {
  }

  /** Following the gate's redirect lands on a route where the gate makes
      no further decision: the gate cannot loop. */
  lemma GateSettles(token: Option<string>, segments: seq<string>)
    ensures match AuthGate(true, token, segments)
      case None => true
      case Some(h) => AuthGate(true, token, Segments(h)).None?
  {
  }

  /** `Index`, the start route: nothing before hydration, then `/home` for a
      signed-in user and `/login` otherwise. */
  function Index(isHydrated: bool, token: Option<string>): (r: Option<Href>)
    ensures r.None? <==> !isHydrated
    ensures r == Some(HomePage) <==> isHydrated && token.Some? && token.value != ""
    ensures r == Some(LoginPage) <==> isHydrated && (token.None? || token.value == "")
  {
    if !isHydrated then None
    else Some(if Present(token) then HomePage else LoginPage)
  }

  /** The start route and the gate agree: wherever `Index` sends the user,
      the gate lets them stay. */
  lemma IndexAgreesWithGate(token: Option<string>)
    ensures Index(true, token).Some?
    ensures AuthGate(true, token, Segments(Index(true, token).value)).None?
  {
  }

  /** At the root route the gate either stays silent or makes the same
      redirect as `Index`. */
  lemma RootAgreement(isHydrated: bool, token: Option<string>)
    ensures AuthGate(isHydrated, token, []).None? || AuthGate(isHydrated, token, []) == Index(isHydrated, token)
  {
  }
}
