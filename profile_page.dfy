/** The profile page (src/app/profile/page.tsx): loading the session, fetching
    the user's profile, saving a profile produced from a CV, and sign-out. */
module ProfilePage {
  import opened Wrappers
  import opened Types
  import opened Browser
  import ProfileService
  import SearchForm

  /** The user id the page acts for: `authState?.user?.userId` when truthy. */
  function SessionUserId(auth: Option<AuthState>): (id: Option<string>)
    ensures id.Some? <==> auth.Some? && auth.value.user.Some? && Truthy(auth.value.user.value.userId)
    ensures id.Some? ==> id == auth.value.user.value.userId && id.value != ""
  {
    if auth.Some? && auth.value.user.Some? && Truthy(auth.value.user.value.userId)
    then auth.value.user.value.userId else None
  }

  /** The profile `handleProfileData` sends as an update: the incoming data
      with its `user_id` replaced by the session's. */
  function UpdateFor(data: Profile, userId: string): (req: ProfileService.PutRequest)
    ensures req.path == ProfileService.ProfilePath(userId)
    ensures req.body.user_id == userId
    ensures req.body.(user_id := data.user_id) == data
  {
    ProfileService.UpdateRequest(data.(user_id := userId))
  }

  class ProfilePage {
    var authState: Option<AuthState>
    var profileData: Option<Profile>
    var isLoading: bool
    var isProcessing: bool
    /** The CV modal. */
    var isOpen: bool

    constructor ()
      ensures authState == None && profileData == None && isLoading && !isProcessing && !isOpen
    {
      authState, profileData, isLoading, isProcessing, isOpen := None, None, true, false, false;
    }

    /** The profile on screen is the one cached in storage. */
    predicate Cached(storage: Storage)
      reads this
    {
      profileData.Some? ==> StoredProfile(storage) == profileData
    }

    /** The first effect: with a stored session it becomes the page's session
        and its token the Bearer header; without one the visitor is sent to
        '/'. */
    method LoadAuth(env: Env)
      modifies this, env
      ensures StoredAuth(old(env.storage)).Some? ==>
        && authState == StoredAuth(old(env.storage))
        && env.authHeader == Some(Bearer(Interpolate(authState.value.token)))
        && env.log == old(env.log)
      ensures StoredAuth(old(env.storage)).None? ==>
        authState == old(authState) && env.authHeader == old(env.authHeader)
        && env.log == old(env.log) + [Navigate("/", [])]
      ensures env.storage == old(env.storage)
      ensures profileData == old(profileData) && isLoading == old(isLoading)
      ensures isProcessing == old(isProcessing) && isOpen == old(isOpen)
    {
      var saved := StoredAuth(env.storage);
      if saved.Some? {
        authState := saved;
        env.SetHeader(Interpolate(saved.value.token));
      } else {
        env.Emit(Navigate("/", []));
      }
    }

    /** `fetchProfileData`: runs only for a session with a user id. A found
        profile is shown and cached, "no profile yet" changes nothing, any other
        failure shows an error toast; loading ends only inside this branch. */
    method FetchProfileData(env: Env, outcome: Response<Profile>)
      modifies this, env
      ensures SessionUserId(old(authState)).None? ==>
        && profileData == old(profileData) && isLoading == old(isLoading)
        && env.storage == old(env.storage) && env.log == old(env.log)
      ensures SessionUserId(old(authState)).Some? ==>
        && !isLoading
        && var result := ProfileService.GetProfile(outcome);
           var get := Request("GET", ProfileService.ProfilePath(SessionUserId(old(authState)).value), []);
           && (result.Ok? && result.body.Some? ==>
                 profileData == result.body
                 && env.storage == old(env.storage)[ProfileKey := ProfileJson(result.body.value)]
                 && env.log == old(env.log) + [get])
           && (result == Ok(None) ==>
                 profileData == old(profileData) && env.storage == old(env.storage) && env.log == old(env.log) + [get])
           && (result.Err? ==>
                 profileData == old(profileData) && env.storage == old(env.storage)
                 && env.log == old(env.log) + [get, Toast("Error", Error)])
      ensures old(Cached(env.storage)) ==> Cached(env.storage)
      ensures authState == old(authState) && isProcessing == old(isProcessing) && isOpen == old(isOpen)
      ensures env.authHeader == old(env.authHeader)
    {
      var userId := SessionUserId(authState);
      if userId.None? {
        return;
      }
      env.Emit(Request("GET", ProfileService.ProfilePath(userId.value), []));
      match ProfileService.GetProfile(outcome) {
        case Ok(found) =>
          if found.Some? {
            profileData := found;
            env.SetItem(ProfileKey, ProfileJson(found.value));
          }
        case Err(_) =>
          env.Emit(Toast("Error", Error));
      }
      isLoading := false;
    }

    /** `handleProfileData` with the profile a CV produced. Without a session
        user id nothing happens. With a profile already shown, the data is sent
        as an update under the session's user id and the server's answer is
        shown and cached; with none, the data itself is shown and cached. A
        failed update changes nothing but a toast. Processing ends false. */
    method HandleProfileData(env: Env, data: Profile, outcome: Response<Profile>)
      returns (sent: Option<ProfileService.PutRequest>)
      modifies this, env
      ensures SessionUserId(old(authState)).None? ==>
        && sent.None? && profileData == old(profileData) && isProcessing == old(isProcessing)
        && isOpen == old(isOpen) && env.storage == old(env.storage) && env.log == old(env.log)
      ensures SessionUserId(old(authState)).Some? && old(profileData).None? ==>
        && sent.None? && profileData == Some(data) && !isOpen && !isProcessing
        && env.storage == old(env.storage)[ProfileKey := ProfileJson(data)]
        && env.log == old(env.log) + [Toast("Perfil creado", Success)]
      ensures SessionUserId(old(authState)).Some? && old(profileData).Some? ==>
        && sent == Some(UpdateFor(data, SessionUserId(old(authState)).value))
        && !isProcessing
        && (outcome.Ok? ==>
              && profileData == Some(outcome.body) && !isOpen
              && env.storage == old(env.storage)[ProfileKey := ProfileJson(outcome.body)]
              && env.log == old(env.log) + [Request("PUT", sent.value.path, []), Toast("Perfil actualizado", Success)])
        && (outcome.Err? ==>
              && profileData == old(profileData) && isOpen == old(isOpen) && env.storage == old(env.storage)
              && env.log == old(env.log) + [Request("PUT", sent.value.path, []), Toast("Error", Error)])
      ensures old(Cached(env.storage)) ==> Cached(env.storage)
      ensures authState == old(authState) && isLoading == old(isLoading)
      ensures env.authHeader == old(env.authHeader)
    {
      var userId := SessionUserId(authState);
      if userId.None? {
        return None;
      }
      isProcessing := true;
      if profileData.Some? {
        var request := UpdateFor(data, userId.value);
        sent := Some(request);
        env.Emit(Request("PUT", request.path, []));
        match outcome {
          case Ok(updated) =>
            profileData := Some(updated);
            env.SetItem(ProfileKey, ProfileJson(updated));
            isOpen := false;
            env.Emit(Toast("Perfil actualizado", Success));
          case Err(_) =>
            env.Emit(Toast("Error", Error));
        }
      } else {
        sent := None;
        profileData := Some(data);
        env.SetItem(ProfileKey, ProfileJson(data));
        isOpen := false;
        env.Emit(Toast("Perfil creado", Success));
      }
      isProcessing := false;
    }
  }

  /** The logout callback the profile and score pages give the header: the
      session and the cached profile removed, then '/'. */
  method Logout(env: Env)
    modifies env
    ensures env.storage == old(env.storage) - {AuthKey, ProfileKey}
    ensures env.log == old(env.log) + [Navigate("/", [])]
    ensures env.authHeader == old(env.authHeader)
    ensures !SearchForm.IsAuthenticated(env.storage) && !SearchForm.HasProfile(env.storage)
  {
    env.RemoveItem(AuthKey);
    env.RemoveItem(ProfileKey);
    assert env.storage == old(env.storage) - {AuthKey, ProfileKey};
    env.Emit(Navigate("/", []));
  }

  /** A profile saved on this page satisfies the search form's profile guard. */
  lemma SavedProfileUnlocksSearch(storage: Storage, p: Profile)
    ensures SearchForm.HasProfile(storage[ProfileKey := ProfileJson(p)])
    ensures SearchForm.IsAuthenticated(storage[ProfileKey := ProfileJson(p)]) == SearchForm.IsAuthenticated(storage)
  {
    var s := storage[ProfileKey := ProfileJson(p)];
    assert StoredProfile(s) == Some(p);
    assert ProfileKey != AuthKey;
    assert StoredAuth(s) == StoredAuth(storage);
  }
}
