/** The browser-wide mutable state the components share: `localStorage`, the
    default `Authorization` header of the axios instance, and a log of what the
    user sees happen (toasts, navigations, requests, callbacks). */
module Browser {
  import opened Wrappers
  import opened Types

  /** What is kept under a storage key, after the JSON round trip. */
  datatype Stored = AuthJson(auth: AuthState) | ProfileJson(profile: Profile) | IdsJson(ids: seq<string>)

  type Storage = map<string, Stored>

  const AuthKey: string := "authState"
  const ProfileKey: string := "profileData"
  const AppliedKey: string := "appliedJobs"

  /** The parsed 'authState' entry, if there is one. */
  function StoredAuth(storage: Storage): (a: Option<AuthState>)
    ensures a.Some? ==> AuthKey in storage && storage[AuthKey] == AuthJson(a.value)
  {
    if AuthKey in storage && storage[AuthKey].AuthJson? then Some(storage[AuthKey].auth) else None
  }

  /** The parsed 'profileData' entry, if there is one. */
  function StoredProfile(storage: Storage): (p: Option<Profile>)
    ensures p.Some? ==> ProfileKey in storage && storage[ProfileKey] == ProfileJson(p.value)
  {
    if ProfileKey in storage && storage[ProfileKey].ProfileJson? then Some(storage[ProfileKey].profile) else None
  }

  /** The parameters of a URL query string, in order (`URLSearchParams`). */
  type Query = seq<(string, string)>


  /** `params.get(key) || ''`. */
  function QueryGetOrEmpty(q: Query, key: string): string {
    Get(q, key).GetOr("")
  }

  datatype Status = Success | Info | Warning | Error

  datatype Effect =
    | Toast(title: string, status: Status)
    | Navigate(path: string, query: Query)
    | Request(verb: string, path: string, params: seq<(string, Param)>)
    | Callback(name: string)
    | DeliverProfile(profile: Profile)
    | OpenTab(url: string)

  class Env {
    var storage: Storage
    var authHeader: Option<string>
    ghost var log: seq<Effect>

    constructor (storage: Storage, authHeader: Option<string>)
      ensures this.storage == storage && this.authHeader == authHeader && log == []
    {
      this.storage := storage;
      this.authHeader := authHeader;
      log := [];
    }

    method SetItem(key: string, value: Stored)
      modifies this
      ensures storage == old(storage)[key := value]
      ensures authHeader == old(authHeader) && log == old(log)
    {
      storage := storage[key := value];
    }

    method RemoveItem(key: string)
      modifies this
      ensures storage == old(storage) - {key}
      ensures authHeader == old(authHeader) && log == old(log)
    {
      storage := storage - {key};
    }

    method SetHeader(token: string)
      modifies this
      ensures authHeader == Some(Bearer(token))
      ensures storage == old(storage) && log == old(log)
    {
      authHeader := Some(Bearer(token));
    }

    method DeleteHeader()
      modifies this
      ensures authHeader == None
      ensures storage == old(storage) && log == old(log)
    {
      authHeader := None;
    }

    method Emit(e: Effect)
      modifies this
      ensures log == old(log) + [e]
      ensures storage == old(storage) && authHeader == old(authHeader)
    {
      log := log + [e];
    }
  }
}
