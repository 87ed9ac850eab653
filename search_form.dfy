/** The search form of the landing page (src/form/search.tsx): who may search,
    the submit guard chain, and sign-in from the login modal it opens. */
module SearchForm {
  import opened Wrappers
  import opened Types
  import opened Browser
  import SearchService
  import SearchStore

  /** Signed in iff the stored session has a user; a missing entry counts as
      `{"user": null}`. */
  predicate IsAuthenticated(storage: Storage) {
    StoredAuth(storage).Some? && StoredAuth(storage).value.user.Some?
  }

  /** A cached profile is present. */
  predicate HasProfile(storage: Storage): (b: bool)
    ensures b ==> ProfileKey in storage
    ensures b <==> exists p :: ProfileKey in storage && storage[ProfileKey] == ProfileJson(p)
  {
    StoredProfile(storage).Some?
  }

  /** The auth service path for a login or a registration. */
  function AuthEndpoint(isLogin: bool): (p: string)
    ensures p == "/auth/login" <==> isLogin
    ensures p == "/auth/register" <==> !isLogin
  {
    if isLogin then "/auth/login" else "/auth/register"
  }

  /** Which branch of `handleSubmit` a submission takes. */
  datatype Verdict = NeedsLogin | NeedsProfile | EmptyQuery | Proceed

  /** The guards in their order: authentication first, then the profile, then
      a non-empty term or location. */
  function SubmitVerdict(storage: Storage, term: string, loc: string): (v: Verdict)
    ensures v == NeedsLogin <==> !IsAuthenticated(storage)
    ensures v == NeedsProfile <==> IsAuthenticated(storage) && !HasProfile(storage)
    ensures v == EmptyQuery <==> IsAuthenticated(storage) && HasProfile(storage) && term == "" && loc == ""
    ensures v == Proceed <==> IsAuthenticated(storage) && HasProfile(storage) && (term != "" || loc != "")
  {
    if !IsAuthenticated(storage) then NeedsLogin
    else if !HasProfile(storage) then NeedsProfile
    else if term == "" && loc == "" then EmptyQuery
    else Proceed
  }

  /** A successful sign-in is what the first guard asks for, and it leaves the
      profile guard as it was. */
  lemma SignInPassesLoginGuard(storage: Storage, data: User, term: string, loc: string)
    ensures IsAuthenticated(storage[AuthKey := AuthJson(SessionFor(data))])
    ensures HasProfile(storage[AuthKey := AuthJson(SessionFor(data))]) == HasProfile(storage)
    ensures SubmitVerdict(storage[AuthKey := AuthJson(SessionFor(data))], term, loc) != NeedsLogin
  {
    var s := storage[AuthKey := AuthJson(SessionFor(data))];
    assert StoredAuth(s) == Some(SessionFor(data));
    assert ProfileKey != AuthKey;
    assert StoredProfile(s) == StoredProfile(storage);
  }

  class SearchForm {
    /** Whether the parent passed an `onSubmit` callback. */
    const hasOnSubmit: bool
    /** The login modal. */
    var isOpen: bool

    constructor (hasOnSubmit: bool)
      ensures this.hasOnSubmit == hasOnSubmit && !isOpen
    {
      this.hasOnSubmit := hasOnSubmit;
      isOpen := false;
    }

    /** `handleSubmit` with the store's term and location. Signed out: only the
        modal opens. No profile: a warning and `/profile`. Nothing to search:
        a warning. Otherwise `handleSearch` without filters, navigation to
        `/search` with the same query, and `onSubmit` last when given. */
    method HandleSubmit(store: SearchStore.Store, env: Env, outcome: Response<RawSearchResponse>)
      modifies this, store, env
      ensures var term := old(store.searchTerm);
              var loc := old(store.location);
              match SubmitVerdict(old(env.storage), term, loc) {
                case NeedsLogin =>
                  isOpen && store.State() == old(store.State()) && env.log == old(env.log)
                case NeedsProfile =>
                  && isOpen == old(isOpen) && store.State() == old(store.State())
                  && env.log == old(env.log) + [Toast("Perfil incompleto", Warning), Navigate("/profile", [])]
                case EmptyQuery =>
                  && isOpen == old(isOpen) && store.State() == old(store.State())
                  && env.log == old(env.log) + [Toast("Búsqueda vacía", Warning)]
                case Proceed =>
                  && isOpen == old(isOpen)
                  && store.State() == SearchStore.AfterSearch(old(store.State()), SearchService.SearchJobs(outcome))
                  && env.log == old(env.log)
                       + [SearchStore.SearchRequest(term, loc, NoFilters, SearchService.DefaultPage),
                          Navigate("/search", SearchStore.UrlQuery(term, loc)),
                          Navigate("/search", SearchStore.UrlQuery(term, loc))]
                       + (if hasOnSubmit then [Callback("onSubmit")] else [])
              }
      ensures env.storage == old(env.storage) && env.authHeader == old(env.authHeader)
    {
      var term := store.searchTerm;
      var loc := store.location;
      if !IsAuthenticated(env.storage) {
        isOpen := true;
        return;
      }
      if !HasProfile(env.storage) {
        env.Emit(Toast("Perfil incompleto", Warning));
        env.Emit(Navigate("/profile", []));
        return;
      }
      if term == "" && loc == "" {
        env.Emit(Toast("Búsqueda vacía", Warning));
        return;
      }
      SearchStore.HandleSearch(store, env, term, loc, None, outcome);
      env.Emit(Navigate("/search", SearchStore.UrlQuery(term, loc)));
      if hasOnSubmit {
        env.Emit(Callback("onSubmit"));
      }
    }

    /** `handleAuth` from the modal. On success the session `{user, token}` is
        stored, the Bearer header installed, the modal closed and `/profile`
        opened; on failure only an error toast appears and nothing is
        rethrown. */
    method HandleAuth(env: Env, isLogin: bool, outcome: Response<User>)
      modifies this, env
      ensures outcome.Ok? ==>
        && env.storage == old(env.storage)[AuthKey := AuthJson(SessionFor(outcome.body))]
        && env.authHeader == Some(Bearer(Interpolate(outcome.body.token)))
        && !isOpen
        && env.log == old(env.log) + [Request("POST", AuthEndpoint(isLogin), []),
                                      Toast(if isLogin then "Login Exitoso" else "Registro Exitoso", Success),
                                      Navigate("/profile", [])]
      ensures outcome.Err? ==>
        && env.storage == old(env.storage) && env.authHeader == old(env.authHeader) && isOpen == old(isOpen)
        && env.log == old(env.log) + [Request("POST", AuthEndpoint(isLogin), []),
                                      Toast(if isLogin then "Error de Login" else "Error de Registro", Error)]
      ensures outcome.Ok? ==> IsAuthenticated(env.storage)
    {
      env.Emit(Request("POST", AuthEndpoint(isLogin), []));
      match outcome {
        case Ok(data) =>
          env.SetItem(AuthKey, AuthJson(SessionFor(data)));
          env.SetHeader(Interpolate(data.token));
          env.Emit(Toast(if isLogin then "Login Exitoso" else "Registro Exitoso", Success));
          isOpen := false;
          env.Emit(Navigate("/profile", []));
          SignInPassesLoginGuard(old(env.storage), data, "", "");
        case Err(_) =>
          env.Emit(Toast(if isLogin then "Error de Login" else "Error de Registro", Error));
      }
    }
  }
}
