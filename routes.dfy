/** Route gating (`client/src/App.tsx`): which page a path renders, or
    where it redirects, for the current session user. */
module Routes {
  import opened Common
  import opened Store

  datatype Page =
    | AuthPage
    | ClientDashboardPage
    | TrainerDashboardPage
    | WorkoutsPage
    | ActiveWorkoutPage(workoutId: string)
    | NutritionPage
    | SchedulePage
    | ChatPage
    | ProfilePage
    | NotFoundPage

  /** What the router does with a path: render a page (inside the shared
      `Layout` or full screen), or redirect. */
  datatype Outcome = Render(page: Page, inLayout: bool) | Redirect(target: string)

  /** The landing route of a role. */
  function RoleHome(role: UserRole): (path: string)
    ensures path == "/trainer" <==> role == Trainer
    ensures path == "/dashboard" <==> role == Client
  {
    match role
    case Trainer => "/trainer"
    case Client => assert "/dashboard"[1] != "/trainer"[1]; "/dashboard"
  }

  /** `ProtectedRoute`: no session goes to `/auth`; a session whose role
      differs from the required one goes to its own role home; otherwise the
      page renders inside `Layout`. */
  function ProtectedRoute(user: Option<User>, required: Option<UserRole>, page: Page): (o: Outcome)
    ensures user.None? ==> o == Redirect("/auth")
    ensures user.Some? && required.Some? && required.value != user.value.role ==>
              o == Redirect(RoleHome(user.value.role))
    ensures user.Some? && (required.None? || required.value == user.value.role) ==>
              o == Render(page, true)
  {
    if user.None? then Redirect("/auth")
    else if required.Some? && user.value.role != required.value then Redirect(RoleHome(user.value.role))
    else Render(page, true)
  }

  /** The tracker's path for workout `id`, the pattern `/workout/:id/active`. */
  function ActiveWorkoutPath(id: string): string
  {
    "/workout/" + id + "/active"
  }

  /** The id captured by the pattern `/workout/:id/active`: a non-empty
      segment without `/`. */
  function ActiveWorkoutId(path: string): (id: Option<string>)
    ensures id.Some? ==> path == ActiveWorkoutPath(id.value)
    ensures id.Some? ==> id.value != "" && '/' !in id.value
  {
    var prefix, suffix := "/workout/", "/active";
    if |path| > |prefix| + |suffix| && path[..|prefix|] == prefix && path[|path| - |suffix|..] == suffix then
      var id := path[|prefix|..|path| - |suffix|];
      if '/' in id then None
      else
        assert path == path[..|prefix|] + id + path[|path| - |suffix|..];
        Some(id)
    else None
  }

  lemma ActiveWorkoutPathMatches(id: string)
    requires id != "" && '/' !in id
    ensures ActiveWorkoutId(ActiveWorkoutPath(id)) == Some(id)
  {
    var path := ActiveWorkoutPath(id);
    assert path[..9] == "/workout/";
    assert path[|path| - 7..] == "/active";
    assert path[9..|path| - 7] == id;
  }

  /** The `Switch` in `Router`: the first route whose pattern matches the
      path decides. */
  function Resolve(path: string, user: Option<User>): (o: Outcome)
    ensures o.Render? && o.inLayout ==> user.Some?
    ensures o.Render? && o.page == ClientDashboardPage ==> user.Some? && user.value.role == Client
    ensures o.Render? && o.page == TrainerDashboardPage ==> user.Some? && user.value.role == Trainer
    ensures o.Redirect? ==> if user.Some? then o.target == RoleHome(user.value.role) else o.target == "/auth"
  {
    if path == "/auth" || path == "/signup" then Render(AuthPage, false)
    else if path == "/" then
      (if user.Some? then Redirect(RoleHome(user.value.role)) else Redirect("/auth"))
    else if path == "/dashboard" then ProtectedRoute(user, Some(Client), ClientDashboardPage)
    else if path == "/trainer" then ProtectedRoute(user, Some(Trainer), TrainerDashboardPage)
    else if path == "/workouts" then ProtectedRoute(user, None, WorkoutsPage)
    else if ActiveWorkoutId(path).Some? then Render(ActiveWorkoutPage(ActiveWorkoutId(path).value), false)
    else if path == "/nutrition" then ProtectedRoute(user, None, NutritionPage)
    else if path == "/schedule" then ProtectedRoute(user, None, SchedulePage)
    else if path == "/chat" then ProtectedRoute(user, None, ChatPage)
    else if path == "/profile" then ProtectedRoute(user, None, ProfilePage)
    else Render(NotFoundPage, false)
  }

  /** The page a role lands on. */
  function HomePage(role: UserRole): Page
  {
    if role == Trainer then TrainerDashboardPage else ClientDashboardPage
  }

  /** A user's role home renders that role's dashboard, inside `Layout`. */
  lemma RoleHomeRenders(u: User)
    ensures Resolve(RoleHome(u.role), Some(u)) == Render(HomePage(u.role), true)
  {
    assert ActiveWorkoutId("/trainer").None?;
    assert ActiveWorkoutId("/dashboard").None?;
  }

  /** Without a session, every protected route redirects to `/auth`,
      whatever role it requires. */
  lemma {:induction false} LoggedOutRedirectsToAuth(path: string)
    requires path in ["/", "/dashboard", "/trainer", "/workouts", "/nutrition", "/schedule", "/chat", "/profile"]
    ensures Resolve(path, None) == Redirect("/auth")
  {
    assert ActiveWorkoutId(path).None?;
  }

  /** `/` sends a session to its role home and everyone else to `/auth`. */
  lemma RootRedirect(user: Option<User>)
    ensures Resolve("/", user) == if user.Some? then Redirect(RoleHome(user.value.role)) else Redirect("/auth")
  {
  }

  /** The active-workout screen is not gated: it renders, full screen, with
      or without a session. */
  lemma ActiveWorkoutUngated(id: string, user: Option<User>)
    requires id != "" && '/' !in id
    ensures Resolve(ActiveWorkoutPath(id), user) == Render(ActiveWorkoutPage(id), false)
  {
    ActiveWorkoutPathMatches(id);
    var path := ActiveWorkoutPath(id);
    assert path[..9] == "/workout/";
    assert path[|path| - 7..] == "/active";
    assert path != "/auth" && path != "/signup" && path != "/" && path != "/dashboard" && path != "/trainer" && path != "/workouts";
  }

  /** No redirect loop: wherever the router redirects, the target renders
      for the same session. */
  lemma RedirectTargetRenders(path: string, user: Option<User>)
    requires Resolve(path, user).Redirect?
    ensures Resolve(Resolve(path, user).target, user).Render?
  {
    var t := Resolve(path, user).target;
    if user.Some? {
      assert t == RoleHome(user.value.role);
      RoleHomeRenders(user.value);
    } else {
      assert t == "/auth";
    }
  }
}
