/** The page header (src/component/header.tsx): when the compact search bar
    shows, who is an administrator, the logo click, and the menu entries. */
module Header {
  import opened Wrappers
  import opened Types
  import opened Browser
  import SearchStore

  /** `searchParams.has(key)`. */
  predicate HasParam(q: Query, key: string) {
    Get(q, key).Some?
  }

  /** The compact search bar shows on `/search` when a `q` or `location`
      parameter is present (an empty value counts as present). */
  predicate ShowSearch(pathname: string, q: Query): (b: bool)
    ensures b <==> pathname == "/search" &&
                   exists i :: 0 <= i < |q| && (q[i].0 == "q" || q[i].0 == "location")
  {
    pathname == "/search" && (HasParam(q, "q") || HasParam(q, "location"))
  }

  /** After a search the bar shows iff something was searched for: the query
      `handleSearch` navigates with has a parameter iff the term or the
      location is non-empty. */
  lemma SearchBarAfterSearch(term: string, loc: string)
    ensures ShowSearch("/search", SearchStore.UrlQuery(term, loc)) <==> term != "" || loc != ""
  {
  }

  /** An empty value still counts as present: `?q=` shows the bar. */
  lemma EmptyParamShowsBar()
    ensures ShowSearch("/search", [("q", "")])
    ensures !ShowSearch("/", [("q", "java")])
  {
  }

  /** `isAdmin`: the user's roles contain exactly "ADMIN". */
  function IsAdmin(auth: AuthState): (b: bool)
    ensures b <==> auth.user.Some? && auth.user.value.roles.Some? && "ADMIN" in auth.user.value.roles.value
  {
    HasAdminRole(auth.user)
  }

  /** One menu entry: its caption and what clicking it does (nothing for an
      entry without a handler). */
  datatype Entry = Entry(caption: string, action: Option<Effect>)

  /** The entries the header offers. Signed in: the profile, the evaluations
      for administrators only, the settings and sign-out. Signed out: three
      section buttons that all act as the logo, and the login button. */
  function MenuEntries(auth: AuthState): (r: seq<Entry>)
    ensures Entry("Evaluaciones", Some(Navigate("/score", []))) in r <==> IsAdmin(auth)
    ensures auth.user.Some? ==> Entry("Cerrar sesión", Some(Callback("onLogout"))) in r
    ensures auth.user.None? ==>
      && |r| == 4
      && (forall i :: 0 <= i < 3 ==> r[i].action == Some(Callback("onLogoClick")))
      && r[3] == Entry("Iniciar sesión", Some(Callback("onLoginClick")))
  {
    if auth.user.Some? then
      [Entry("Mi Perfil", Some(Callback("onProfileClick")))]
      + (if IsAdmin(auth) then [Entry("Evaluaciones", Some(Navigate("/score", [])))] else [])
      + [Entry("Configuración", None), Entry("Cerrar sesión", Some(Callback("onLogout")))]
    else
      [Entry("Empleos", Some(Callback("onLogoClick"))), Entry("Empresas", Some(Callback("onLogoClick"))),
       Entry("Salarios", Some(Callback("onLogoClick"))), Entry("Iniciar sesión", Some(Callback("onLoginClick")))]
  }

  /** `handleLogoClick`: the search is cleared first, then the parent's
      `onLogoClick` runs. */
  method HandleLogoClick(store: SearchStore.Store, env: Env)
    modifies store, env
    ensures store.State() == SearchStore.Cleared(old(store.State()))
    ensures env.log == old(env.log) + [Callback("onLogoClick")]
    ensures env.storage == old(env.storage) && env.authHeader == old(env.authHeader)
  {
    store.ClearSearch();
    env.Emit(Callback("onLogoClick"));
  }
}
