/** The login screen (`client/src/pages/auth.tsx`). Submitting a form marks
    the screen as loading and schedules the simulated network delay; when the
    delay ends the fixed user of the chosen role becomes the session user,
    loading ends, and the app navigates to that role's home. */
module Auth {
  import opened Common
  import opened Store
  import opened Routes

  /** The fixed account each role logs in as. */
  function LoginUser(role: UserRole): (u: User)
    ensures u.role == role
    ensures u == CurrentUser() || u == TrainerUser()
  {
    if role == Client then CurrentUser() else TrainerUser()
  }

  /** Logging in as `role` lands on a page that renders for the new session:
      the role's own dashboard, inside `Layout`. */
  lemma LoginLandingRenders(role: UserRole)
    ensures Resolve(RoleHome(role), Some(LoginUser(role))) == Render(HomePage(role), true)
  {
    RoleHomeRenders(LoginUser(role));
  }

  class LoginPage {
    var isLoading: bool
    /** The role whose delayed completion is scheduled, if any. */
    var pending: Option<UserRole>
    const store: AppStore

    /** Loading exactly while a completion is scheduled. */
    ghost predicate Valid()
      reads this, store
    {
      store.Valid() && (isLoading <==> pending.Some?)
    }

    constructor (store: AppStore)
      requires store.Valid()
      ensures Valid() && this.store == store
      ensures !isLoading && pending == None
    {
      this.store := store;
      isLoading := false;
      pending := None;
    }

    /** Both submit buttons carry `disabled={isLoading}`. */
    predicate SubmitEnabled()
      reads this
    {
      !isLoading
    }

    /** `handleLogin(role)` up to the timer: a submit while the buttons are
        disabled does nothing. */
    method Submit(role: UserRole)
      requires Valid()
      modifies this`isLoading, this`pending
      ensures Valid()
      ensures old(isLoading) ==> isLoading == old(isLoading) && pending == old(pending)
      ensures !old(isLoading) ==> isLoading && pending == Some(role)
      ensures !SubmitEnabled()
    {
      if !isLoading {
        isLoading := true;
        pending := Some(role);
      }
    }

    /** The end of the simulated delay: returns where the app navigates. */
    method TimerFires() returns (dest: Option<string>)
      requires Valid()
      modifies this`isLoading, this`pending, store
      ensures Valid() && !isLoading && pending == None
      ensures old(pending).None? ==> dest == None && store.user == old(store.user)
      ensures old(pending).Some? ==>
                && store.user == Some(LoginUser(old(pending).value))
                && dest == Some(RoleHome(old(pending).value))
      ensures dest.Some? ==> Resolve(dest.value, store.user).Render?
    {
      match pending
      case None =>
        dest := None;
      case Some(role) =>
        store.SetUser(Some(LoginUser(role)));
        isLoading := false;
        pending := None;
        dest := Some(RoleHome(role));
        LoginLandingRenders(role);
    }
  }
}
