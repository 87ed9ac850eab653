/** The landing page's session handling (src/app/page.tsx): the session read at
    start-up, the effect that mirrors it into storage, sign-in, sign-out and
    the token probe on mount. */
module HomePage {
  import opened Wrappers
  import opened Types
  import opened Browser
  import SearchForm

  /** The session the page starts with: the stored one, or signed out. */
  function InitialAuth(storage: Storage): (a: AuthState)
    ensures StoredAuth(storage).Some? ==> a == StoredAuth(storage).value
    ensures StoredAuth(storage).None? ==> a == SignedOut
  {
    StoredAuth(storage).GetOr(SignedOut)
  }

  /** The storage mirrors the session: the key holds it iff its token is truthy. */
  predicate Synced(storage: Storage, auth: AuthState) {
    && (Truthy(auth.token) ==> AuthKey in storage && storage[AuthKey] == AuthJson(auth))
    && (!Truthy(auth.token) ==> AuthKey !in storage)
  }

  /** A reload after a mirrored session restores it when it had a token and
      starts signed out otherwise. */
  lemma ReloadRestoresSession(storage: Storage, auth: AuthState)
    requires Synced(storage, auth)
    ensures InitialAuth(storage) == (if Truthy(auth.token) then auth else SignedOut)
  {
  }

  const ValidatePath: string := "/auth/validate"

  class HomePage {
    var authState: AuthState
    /** The login modal. */
    var isOpen: bool

    /** First render and the mount run of the persistence effect: the stored
        session is taken (with the Bearer header when it has a truthy token),
        and then mirrored back. */
    constructor (env: Env)
      modifies env
      ensures authState == InitialAuth(old(env.storage)) && !isOpen
      ensures StoredAuth(old(env.storage)).Some? && Truthy(authState.token) ==>
                env.authHeader == Some(Bearer(authState.token.value))
      ensures !(StoredAuth(old(env.storage)).Some? && Truthy(authState.token)) ==> env.authHeader == old(env.authHeader)
      ensures Truthy(authState.token) ==> env.storage == old(env.storage)[AuthKey := AuthJson(authState)]
      ensures !Truthy(authState.token) ==> env.storage == old(env.storage) - {AuthKey}
      ensures Synced(env.storage, authState)
      ensures env.log == old(env.log)
    {
      var saved := StoredAuth(env.storage);
      authState := InitialAuth(env.storage);
      isOpen := false;
      if saved.Some? && Truthy(saved.value.token) {
        env.SetHeader(saved.value.token.value);
      }
      new;
      Persist(env);
    }

    /** The persistence effect: store the session when its token is truthy,
        remove the key otherwise. */
    method Persist(env: Env)
      modifies env
      ensures Truthy(authState.token) ==> env.storage == old(env.storage)[AuthKey := AuthJson(authState)]
      ensures !Truthy(authState.token) ==> env.storage == old(env.storage) - {AuthKey}
      ensures Synced(env.storage, authState)
      ensures env.authHeader == old(env.authHeader) && env.log == old(env.log)
    {
      if Truthy(authState.token) {
        env.SetItem(AuthKey, AuthJson(authState));
      } else {
        env.RemoveItem(AuthKey);
      }
    }

    /** `handleAuth`. Success: the session `{user, token}`, the Bearer header,
        a toast, the modal closed, and the session mirrored. Failure: a toast,
        nothing else changes, and the error is handed back to the caller. */
    method HandleAuth(env: Env, isLogin: bool, outcome: Response<User>) returns (r: Response<Unit>)
      modifies this, env
      ensures r.Ok? <==> outcome.Ok?
      ensures outcome.Err? ==> r == Err(outcome.status)
      ensures outcome.Ok? ==>
        && authState == SessionFor(outcome.body)
        && env.authHeader == Some(Bearer(Interpolate(outcome.body.token)))
        && !isOpen
        && (Truthy(authState.token) ==> env.storage == old(env.storage)[AuthKey := AuthJson(authState)])
        && (!Truthy(authState.token) ==> env.storage == old(env.storage) - {AuthKey})
        && Synced(env.storage, authState)
        && env.log == old(env.log) + [Request("POST", SearchForm.AuthEndpoint(isLogin), []),
                                      Toast(if isLogin then "Login Successful" else "Registration Successful", Success)]
      ensures outcome.Err? ==>
        && authState == old(authState) && isOpen == old(isOpen)
        && env.storage == old(env.storage) && env.authHeader == old(env.authHeader)
        && env.log == old(env.log) + [Request("POST", SearchForm.AuthEndpoint(isLogin), []),
                                      Toast(if isLogin then "Login Failed" else "Registration Failed", Error)]
    {
      env.Emit(Request("POST", SearchForm.AuthEndpoint(isLogin), []));
      match outcome {
        case Ok(data) =>
          authState := SessionFor(data);
          env.SetHeader(Interpolate(data.token));
          env.Emit(Toast(if isLogin then "Login Successful" else "Registration Successful", Success));
          isOpen := false;
          Persist(env);
          r := Ok(Unit);
        case Err(status) =>
          env.Emit(Toast(if isLogin then "Login Failed" else "Registration Failed", Error));
          r := Err(status);
      }
    }

    /** `handleLogout`: signed out, the key removed, the header deleted, an
        info toast. */
    method HandleLogout(env: Env)
      modifies this, env
      ensures authState == SignedOut && isOpen == old(isOpen)
      ensures env.storage == old(env.storage) - {AuthKey} && env.authHeader == None
      ensures env.log == old(env.log) + [Toast("Logged Out", Info)]
      ensures Synced(env.storage, authState)
    {
      authState := SignedOut;
      env.RemoveItem(AuthKey);
      env.DeleteHeader();
      env.Emit(Toast("Logged Out", Info));
      Persist(env);
    }

    /** `validateToken` on mount: probes only when a session with a truthy token
        is stored; a failed probe signs out, a passed one changes nothing. */
    method ValidateToken(env: Env, probe: Response<Unit>)
      modifies this, env
      ensures var saved := StoredAuth(old(env.storage));
              && (!(saved.Some? && Truthy(saved.value.token)) ==>
                    authState == old(authState) && env.storage == old(env.storage)
                    && env.authHeader == old(env.authHeader) && env.log == old(env.log))
              && (saved.Some? && Truthy(saved.value.token) && probe.Ok? ==>
                    authState == old(authState) && env.storage == old(env.storage)
                    && env.authHeader == old(env.authHeader)
                    && env.log == old(env.log) + [Request("GET", ValidatePath, [])])
              && (saved.Some? && Truthy(saved.value.token) && probe.Err? ==>
                    authState == SignedOut && env.storage == old(env.storage) - {AuthKey}
                    && env.authHeader == None
                    && env.log == old(env.log) + [Request("GET", ValidatePath, []), Toast("Logged Out", Info)])
      ensures isOpen == old(isOpen)
    {
      var saved := StoredAuth(env.storage);
      if saved.Some? && Truthy(saved.value.token) {
        env.Emit(Request("GET", ValidatePath, []));
        if probe.Err? {
          HandleLogout(env);
        }
      }
    }
  }
}
