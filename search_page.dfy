/** The search results page (src/component/SearchPageContent.tsx): restoring
    the applied-jobs set on mount, syncing the search store with the URL, and
    applying to the selected job. */
module SearchPage {
  import opened Wrappers
  import opened Types
  import opened Browser
  import SearchService
  import SearchStore

  // ---------------------------------------------------------------- the applied set

  /** A JavaScript `Set` is kept as its elements in insertion order. */
  predicate NoDuplicates(ids: seq<string>) {
    forall i, j :: 0 <= i < j < |ids| ==> ids[i] != ids[j]
  }

  /** `set.add(id)`: appended when new, no change when already present. */
  function AddId(ids: seq<string>, id: string): (r: seq<string>)
    ensures forall x :: x in r <==> x in ids || x == id
    ensures id in ids ==> r == ids
    ensures NoDuplicates(ids) ==> NoDuplicates(r)
  {
    if id in ids then ids else ids + [id]
  }

  /** Adding an id that is already there changes nothing. */
  lemma AddIdIdempotent(ids: seq<string>, id: string)
    ensures AddId(AddId(ids, id), id) == AddId(ids, id)
  {
  }

  function DedupInto(acc: seq<string>, ids: seq<string>): (r: seq<string>)
    ensures NoDuplicates(acc) ==> NoDuplicates(r)
    ensures forall x :: x in r <==> x in acc || x in ids
    decreases |ids|
  {
    if |ids| == 0 then acc
    else
      assert forall x :: x in ids <==> x == ids[0] || x in ids[1..];
      DedupInto(AddId(acc, ids[0]), ids[1..])
  }

  /** `new Set(array)`: the distinct elements in order of first occurrence. */
  function Dedup(ids: seq<string>): (r: seq<string>)
    ensures NoDuplicates(r)
    ensures forall x :: x in r <==> x in ids
  {
    DedupInto([], ids)
  }

  lemma {:induction false} DedupIntoDistinct(acc: seq<string>, ids: seq<string>)
    requires NoDuplicates(acc + ids)
    ensures DedupInto(acc, ids) == acc + ids
    decreases |ids|
  {
    if |ids| > 0 {
      assert (acc + ids)[|acc|] == ids[0];
      assert ids[0] !in acc by {
        forall i | 0 <= i < |acc| ensures acc[i] != ids[0] {
          assert (acc + ids)[i] == acc[i];
        }
      }
      assert acc + [ids[0]] + ids[1..] == acc + ids;
      DedupIntoDistinct(acc + [ids[0]], ids[1..]);
    }
  }

  /** Re-reading a persisted set gives it back unchanged, order included. */
  lemma DedupOfDistinct(ids: seq<string>)
    requires NoDuplicates(ids)
    ensures Dedup(ids) == ids
  {
    assert [] + ids == ids;
    DedupIntoDistinct([], ids);
  }

  // ---------------------------------------------------------------- apply

  /** The application built from the selected job and the cached profile. */
  function ApplicationFor(job: Job, p: Profile): (r: SearchService.ApplicationRequest)
    ensures r.application_data.job_offer_id == job.id && r.profile_data == p
    ensures r.application_data.applicant_name == p.first_name + " " + p.last_name
    ensures r.application_data.applicant_email.Some? <==> p.contact_info.Some?
    ensures p.contact_info.Some? ==> r.application_data.applicant_email == Some(p.contact_info.value.email)
  {
    SearchService.ApplicationRequest(
      SearchService.ApplicationData(
        job.id, p.first_name + " " + p.last_name,
        if p.contact_info.Some? then Some(p.contact_info.value.email) else None),
      p)
  }

  /** `authState.token || ''`. */
  function TokenOrEmpty(a: AuthState): (t: string)
    ensures Truthy(a.token) ==> t == a.token.value
    ensures !Truthy(a.token) ==> t == ""
  {
    if Truthy(a.token) then a.token.value else ""
  }

  const ApplyFailed: string := "Error al aplicar"
  const Applied: string := "Aplicación Exitosa"

  class SearchPageContent {
    /** The `authState` property; None when the parent passes none. */
    var authState: Option<AuthState>
    var profileData: Option<Profile>
    var appliedJobs: seq<string>
    var selectedJob: Option<Job>
    var isApplying: bool

    constructor (authState: Option<AuthState>)
      ensures this.authState == authState
      ensures profileData == None && appliedJobs == [] && selectedJob == None && !isApplying
    {
      this.authState := authState;
      profileData, appliedJobs, selectedJob, isApplying := None, [], None, false;
    }

    /** `isJobApplied`: false without a selection, membership of its id otherwise. */
    predicate IsJobApplied(): (b: bool)
      reads this
      ensures b <==> selectedJob.Some? &&
                     exists i :: 0 <= i < |appliedJobs| && appliedJobs[i] == selectedJob.value.id
    {
      selectedJob.Some? && selectedJob.value.id in appliedJobs
    }

    method SelectJob(job: Job)
      modifies this
      ensures selectedJob == Some(job)
      ensures authState == old(authState) && profileData == old(profileData)
      ensures appliedJobs == old(appliedJobs) && isApplying == old(isApplying)
    {
      selectedJob := Some(job);
    }

    /** The mount effect: the cached profile and the applied ids are taken from
        storage when present; an absent key leaves the field as it was. */
    method Mount(env: Env)
      modifies this
      ensures profileData == (if StoredProfile(env.storage).Some? then StoredProfile(env.storage) else old(profileData))
      ensures AppliedKey in env.storage && env.storage[AppliedKey].IdsJson? ==>
                appliedJobs == Dedup(env.storage[AppliedKey].ids)
      ensures !(AppliedKey in env.storage && env.storage[AppliedKey].IdsJson?) ==> appliedJobs == old(appliedJobs)
      ensures authState == old(authState) && selectedJob == old(selectedJob) && isApplying == old(isApplying)
    {
      var saved := StoredProfile(env.storage);
      if saved.Some? {
        profileData := saved;
      }
      if AppliedKey in env.storage && env.storage[AppliedKey].IdsJson? {
        appliedJobs := Dedup(env.storage[AppliedKey].ids);
      }
    }

    /** `handleApply`. Without a selected job, or without a session or a cached
        profile, only an error toast appears and nothing is sent. Otherwise the
        application is posted with the headers of `applyToJob`, whose
        Authorization carries the session token (or ''); on success the job
        id joins the applied set, which is persisted, and on failure nothing
        but a toast changes. `isApplying` is false once the attempt ends. */
    method HandleApply(env: Env, outcome: Response<Unit>)
      returns (sent: Option<(SearchService.ApplicationRequest, seq<(string, string)>)>)
      modifies this, env
      ensures old(selectedJob).None? || old(authState).None? || old(profileData).None? ==>
        && sent.None?
        && env.log == old(env.log) + [Toast("Error", Error)]
        && appliedJobs == old(appliedJobs) && env.storage == old(env.storage)
      ensures old(selectedJob).Some? && old(authState).Some? && old(profileData).Some? ==>
        && sent == Some((ApplicationFor(old(selectedJob).value, old(profileData).value),
                      SearchService.ApplyHeaders(TokenOrEmpty(old(authState).value))))
        && (outcome.Ok? ==>
              && appliedJobs == AddId(old(appliedJobs), old(selectedJob).value.id)
              && env.storage == old(env.storage)[AppliedKey := IdsJson(appliedJobs)]
              && env.log == old(env.log) + [Request("POST", SearchService.ApplyPath, []), Toast(Applied, Success)]
              && IsJobApplied())
        && (outcome.Err? ==>
              && appliedJobs == old(appliedJobs) && env.storage == old(env.storage)
              && env.log == old(env.log) + [Request("POST", SearchService.ApplyPath, []), Toast(ApplyFailed, Error)])
      ensures old(NoDuplicates(appliedJobs)) ==> NoDuplicates(appliedJobs)
      ensures isApplying == (old(isApplying) && sent.None?)
      ensures authState == old(authState) && profileData == old(profileData) && selectedJob == old(selectedJob)
      ensures env.authHeader == old(env.authHeader)
    {
      if selectedJob.None? {
        env.Emit(Toast("Error", Error));
        return None;
      }
      if authState.None? || profileData.None? {
        env.Emit(Toast("Error", Error));
        return None;
      }
      isApplying := true;
      var job := selectedJob.value;
      var request := ApplicationFor(job, profileData.value);
      var token := TokenOrEmpty(authState.value);
      sent := Some((request, SearchService.ApplyHeaders(token)));
      env.Emit(Request("POST", SearchService.ApplyPath, []));
      match outcome {
        case Ok(_) =>
          appliedJobs := AddId(appliedJobs, job.id);
          env.SetItem(AppliedKey, IdsJson(appliedJobs));
          env.Emit(Toast(Applied, Success));
        case Err(_) =>
          env.Emit(Toast(ApplyFailed, Error));
      }
      isApplying := false;
    }
  }

  /** A successful application survives a reload: the mount effect of a fresh
      page restores exactly the applied set that was persisted. */
  lemma AppliedSetSurvivesReload(storage: Storage, applied: seq<string>)
    requires NoDuplicates(applied)
    requires AppliedKey in storage && storage[AppliedKey] == IdsJson(applied)
    ensures Dedup(storage[AppliedKey].ids) == applied
  {
    DedupOfDistinct(applied);
  }

  // ---------------------------------------------------------------- URL sync

  /** The URL effect: missing `q` / `location` read as ''; the store is written
      only where it differs, and a search with the store's filters runs only
      when the term or the location is non-empty. */
  method SyncFromUrl(store: SearchStore.Store, env: Env, query: Query, outcome: Response<RawSearchResponse>)
    modifies store, env
    ensures var term := QueryGetOrEmpty(query, "q");
            var loc := QueryGetOrEmpty(query, "location");
            var synced := old(store.State()).(searchTerm := term, location := loc);
            && (term != "" || loc != "" ==>
                  && store.State() == SearchStore.AfterSearch(synced, SearchService.SearchJobs(outcome))
                  && env.log == old(env.log) + [SearchStore.SearchRequest(term, loc, old(store.filters), SearchService.DefaultPage)])
            && (term == "" && loc == "" ==> store.State() == synced && env.log == old(env.log))
    ensures env.storage == old(env.storage) && env.authHeader == old(env.authHeader)
  {
    var term := QueryGetOrEmpty(query, "q");
    var loc := QueryGetOrEmpty(query, "location");
    if term != store.searchTerm {
      store.SetSearchTerm(term);
    }
    if loc != store.location {
      store.SetLocation(loc);
    }
    if term != "" || loc != "" {
      var _ := SearchStore.PerformSearch(store, env, term, loc, store.filters, SearchService.DefaultPage, outcome);
    }
  }
}
