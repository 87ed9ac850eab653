/** The evaluations page (src/app/score/page.tsx): the administrator gate in
    front of the scoring dashboard. */
module ScorePage {
  import opened Wrappers
  import opened Types
  import opened Browser
  import SearchForm
  import Header

  /** Who may see the dashboard: a stored session whose user has the ADMIN role. */
  predicate MayEnter(storage: Storage): (b: bool)
    ensures b ==> AuthKey in storage
    ensures b <==> StoredAuth(storage).Some? && Header.IsAdmin(StoredAuth(storage).value)
  {
    StoredAuth(storage).Some? && HasAdminRole(StoredAuth(storage).value.user)
  }

  /** An administrator is authenticated, so the render-time redirect never
      fires for someone the gate let in. */
  lemma AdminIsAuthenticated(storage: Storage)
    requires MayEnter(storage)
    ensures SearchForm.IsAuthenticated(storage)
  {
  }

  const Denied: string := "Acceso denegado"

  class ScorePage {
    var isLoading: bool

    constructor ()
      ensures isLoading
    {
      isLoading := true;
    }

    /** `checkAuth`. No stored session, or a user without the ADMIN role: a
        denial toast and '/', and the page stays loading. An administrator:
        loading ends and nothing is shown or navigated. */
    method CheckAuth(env: Env)
      modifies this, env
      ensures MayEnter(old(env.storage)) ==> !isLoading && env.log == old(env.log)
      ensures !MayEnter(old(env.storage)) ==>
                isLoading == old(isLoading) && env.log == old(env.log) + [Toast(Denied, Error), Navigate("/", [])]
      ensures env.storage == old(env.storage) && env.authHeader == old(env.authHeader)
    {
      var auth := StoredAuth(env.storage);
      if auth.None? {
        env.Emit(Toast(Denied, Error));
        env.Emit(Navigate("/", []));
        return;
      }
      if !HasAdminRole(auth.value.user) {
        env.Emit(Toast(Denied, Error));
        env.Emit(Navigate("/", []));
        return;
      }
      isLoading := false;
    }

    /** The render: a spinner while loading; afterwards an unauthenticated
        visitor is sent to '/', anyone else sees the dashboard. */
    method Render(env: Env) returns (showsDashboard: bool)
      modifies env
      ensures showsDashboard <==> !isLoading && SearchForm.IsAuthenticated(env.storage)
      ensures env.log == old(env.log) +
        (if !isLoading && !SearchForm.IsAuthenticated(env.storage) then [Navigate("/", [])] else [])
      ensures env.storage == old(env.storage) && env.authHeader == old(env.authHeader)
    {
      if isLoading {
        return false;
      }
      if !SearchForm.IsAuthenticated(env.storage) {
        env.Emit(Navigate("/", []));
        return false;
      }
      return true;
    }
  }

  /** Past the gate, the page shows the dashboard without a redirect. */
  method GateThenRender(page: ScorePage, env: Env) returns (showsDashboard: bool)
    requires MayEnter(env.storage)
    modifies page, env
    ensures showsDashboard && env.log == old(env.log)
  {
    page.CheckAuth(env);
    AdminIsAuthenticated(env.storage);
    showsDashboard := page.Render(env);
  }
}
