/** The root layout's authentication guard: the redirect the second effect performs, and
    whether the layout renders at all. */
module RootLayout {

  import opened Outcomes

  /** The shipped value of the development switch that turns the guard off. */
  const BypassAuth: bool := true

  /** The two places `router.replace` can send the user. */
  datatype Target = Login | Tabs

  const AuthGroup: string := "(auth)"

  /** `segments[0] === '(auth)'`; an empty route has no first segment and is outside. */
  predicate InAuthGroup(segments: seq<string>)
    ensures segments == [] ==> !InAuthGroup(segments)
    ensures InAuthGroup(segments) ==> segments[0] == AuthGroup
    ensures |segments| > 0 && segments[0] == AuthGroup ==> InAuthGroup(segments)
  {
    |segments| > 0 && segments[0] == AuthGroup
  }

  /** The route segments each target leads to: `/(auth)/login` and `/(tabs)`. */
  function TargetSegments(t: Target): (segments: seq<string>)
    ensures InAuthGroup(segments) <==> t == Login
  {
    match t
    case Login => [AuthGroup, "login"]
    case Tabs => ["(tabs)"]
  }

  /** The redirect the effect performs for the current flags, user and route, `None` when
      it returns without calling `router.replace`. */
  function Redirect(bypass: bool, initialized: bool, hasUser: bool, segments: seq<string>): (r: Option<Target>)
    ensures bypass ==> r == None
    ensures !initialized ==> r == None
    ensures r == None <==> bypass || !initialized || hasUser != InAuthGroup(segments)
    ensures r == Some(Login) ==> !hasUser && !InAuthGroup(segments)
    ensures r == Some(Tabs) ==> hasUser && InAuthGroup(segments)
  {
    if bypass then None
    else if !initialized then None
    else
      var inAuthGroup := InAuthGroup(segments);
      if !hasUser && !inAuthGroup then Some(Login)
      else if hasUser && inAuthGroup then Some(Tabs)
      else None
  }

  /** Once the redirect is followed, the effect runs again on the new route and stays put. */
  lemma RedirectIsStable(bypass: bool, initialized: bool, hasUser: bool, segments: seq<string>)
    requires Redirect(bypass, initialized, hasUser, segments).Some?
    ensures Redirect(bypass, initialized, hasUser,
                     TargetSegments(Redirect(bypass, initialized, hasUser, segments).value)) == None
  {
  }

  /** With the switch as shipped the guard never redirects, whatever the store holds.
      Kept to document the shipped configuration; it follows directly from `Redirect`'s
      first postcondition and is not proof work. */
  lemma ShippedGuardNeverRedirects(initialized: bool, hasUser: bool, segments: seq<string>)
    ensures Redirect(BypassAuth, initialized, hasUser, segments) == None
  {
  }

  /** `return null` before the tree: only when the guard is on and auth is not ready. */
  predicate RendersNothing(bypass: bool, initialized: bool)
    ensures bypass ==> !RendersNothing(bypass, initialized)
    ensures initialized ==> !RendersNothing(bypass, initialized)
    ensures !bypass && !initialized ==> RendersNothing(bypass, initialized)
  {
    !bypass && !initialized
  }

  /** A redirect only ever happens while the layout renders its navigator. Kept to
      document how the redirect relates to the `return null` guard; it follows directly
      from `Redirect`'s first two postconditions and is not proof work. */
  lemma RedirectOnlyWhileRendered(bypass: bool, initialized: bool, hasUser: bool, segments: seq<string>)
    ensures Redirect(bypass, initialized, hasUser, segments).Some? ==> !RendersNothing(bypass, initialized)
  {
  }
}
