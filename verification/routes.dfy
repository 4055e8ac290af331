/**
 The route guards of ola-frontend/src/App.tsx and the route table they protect. A guard looks
 at the session state and either renders its page or redirects.
 */
module Routes {

  import opened Common
  import opened UserSlice
  import opened AuthForms

  datatype Guard = Render | Redirect(path: string)

  /** `user?.role === 'driver'`. */
  predicate IsDriver(st: UserState)
  {
    st.user.Some? && st.user.value.role == "driver"
  }

  /** `UserRoute`: pages for signed-in riders. */
  function UserRoute(st: UserState): (g: Guard)
    ensures g == Render <==> Truthy(st.token) && !IsDriver(st)
    ensures !Truthy(st.token) ==> g == Redirect("/login")
    ensures Truthy(st.token) && IsDriver(st) ==> g == Redirect("/driver")
  {
    if !Truthy(st.token) then Redirect("/login")
    else if IsDriver(st) then Redirect("/driver")
    else Render
  }

  /** `DriverRoute`: pages for signed-in drivers; a token without a user counts as not a
      driver. */
  function DriverRoute(st: UserState): (g: Guard)
    ensures g == Render <==> Truthy(st.token) && IsDriver(st)
    ensures !Truthy(st.token) ==> g == Redirect("/login")
    ensures Truthy(st.token) && !IsDriver(st) ==> g == Redirect("/")
  {
    if !Truthy(st.token) then Redirect("/login")
    else if !IsDriver(st) then Redirect("/")
    else Render
  }

  /** `PublicOnlyRoute`: the login and register pages, shown unless both a token and a user are
      present. */
  function PublicOnlyRoute(st: UserState): (g: Guard)
    ensures g == Render <==> !(Truthy(st.token) && st.user.Some?)
    ensures Truthy(st.token) && IsDriver(st) ==> g == Redirect("/driver")
    ensures Truthy(st.token) && st.user.Some? && !IsDriver(st) ==> g == Redirect("/")
  {
    if Truthy(st.token) && st.user.Some? then
      if st.user.value.role == "driver" then Redirect("/driver") else Redirect("/")
    else Render
  }

  /** No guarded page renders without a token. */
  lemma NoRenderWithoutToken(st: UserState)
    requires !Truthy(st.token)
    ensures UserRoute(st) == Redirect("/login") && DriverRoute(st) == Redirect("/login")
    ensures PublicOnlyRoute(st) == Render
  {
  }

  /** With a token, exactly one of the rider and driver guards renders. */
  lemma ExactlyOneProtectedRenders(st: UserState)
    requires Truthy(st.token)
    ensures (UserRoute(st) == Render) != (DriverRoute(st) == Render)
  {
  }

  /** The paths the app routes. */
  const ROUTED_PATHS: set<string> := {"/", "/booking", "/bookings", "/login", "/register", "/driver"}

  /** The route table: the guard of each path, and `None` for a path no route matches. */
  function GuardAt(path: string, st: UserState): (g: Option<Guard>)
    ensures g.Some? <==> path in ROUTED_PATHS
    ensures (path in ROUTED_PATHS && !Truthy(st.token)) ==>
      g.value == (if path == "/login" || path == "/register" then Render else Redirect("/login"))
  {
    if path == "/" || path == "/booking" || path == "/bookings" then Some(UserRoute(st))
    else if path == "/login" || path == "/register" then Some(PublicOnlyRoute(st))
    else if path == "/driver" then Some(DriverRoute(st))
    else None
  }

  /** Every redirect lands on a routed page whose guard renders: no guard sends the browser
      round a loop. */
  lemma RedirectsSettle(path: string, st: UserState)
    ensures GuardAt(path, st).Some? && GuardAt(path, st).value.Redirect? ==>
      GuardAt(GuardAt(path, st).value.path, st) == Some(Render)
  {
  }

  /** A successful login navigates to a page whose guard renders for the session it stored. */
  lemma LoginLandsOnOwnHome(s: Session, email: string, password: string, reply: LoginReply,
                            codec: Codec, missingUserError: string)
    requires LoginSubmit(s, email, password, reply, codec, missingUserError).navigatedTo.Some?
    ensures var r := LoginSubmit(s, email, password, reply, codec, missingUserError);
      GuardAt(r.navigatedTo.value, r.session.state) == Some(Render)
  {
  }
}
