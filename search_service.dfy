/** The job service client (src/service/search.tsx): query parameters of a
    search, the projection of the returned jobs, suggestion fallbacks and the
    application request. */
module SearchService {
  import opened Wrappers
  import opened Types

  const SearchPath: string := "/jobs/search/val"
  const ApplyPath: string := "/jobs/apply"
  const DefaultPage: int := 1
  const DefaultLimit: int := 10

  type Params = seq<(string, Param)>

  predicate DistinctKeys(ps: Params) {
    forall i, j :: 0 <= i < j < |ps| ==> ps[i].0 != ps[j].0
  }

  /** `r` keeps the keys of `ps` at their places (and may add keys after them). */
  predicate KeepsPrefix(ps: Params, r: Params) {
    |ps| <= |r| && forall i :: 0 <= i < |ps| ==> r[i].0 == ps[i].0
  }

  /** Writing property `key` of an object: an existing key keeps its place and
      takes the new value; a new key goes last. */
  function Assign(ps: Params, key: string, v: Param): (r: Params)
    ensures Get(ps, key).None? ==> r == ps + [(key, v)]
    ensures Get(ps, key).Some? ==> |r| == |ps|
    ensures KeepsPrefix(ps, r)
    decreases |ps|
  {
    if |ps| == 0 then [(key, v)]
    else if ps[0].0 == key then [(key, v)] + ps[1..]
    else [ps[0]] + Assign(ps[1..], key, v)
  }

  /** After the write, `key` reads as `v` and every other key reads as before. */
  lemma {:induction false} AssignLookup(ps: Params, key: string, v: Param, k: string)
    ensures Get(Assign(ps, key, v), k) == if k == key then Some(v) else Get(ps, k)
    decreases |ps|
  {
    if |ps| > 0 && ps[0].0 != key {
      var r := Assign(ps, key, v);
      assert r[1..] == Assign(ps[1..], key, v);
      AssignLookup(ps[1..], key, v, k);
    }
  }

  /** A write never creates a second entry for a key. */
  lemma {:induction false} AssignKeepsKeysDistinct(ps: Params, key: string, v: Param)
    requires DistinctKeys(ps)
    ensures DistinctKeys(Assign(ps, key, v))
    decreases |ps|
  {
    if |ps| > 0 && ps[0].0 != key {
      var rest := Assign(ps[1..], key, v);
      AssignKeepsKeysDistinct(ps[1..], key, v);
      var r := [ps[0]] + rest;
      forall i | 0 < i < |r|
        ensures r[i].0 != ps[0].0
      {
        if i - 1 < |ps| - 1 {
          assert rest[i - 1].0 == ps[i].0;
        } else {
          assert rest == ps[1..] + [(key, v)];
        }
      }
    }
  }

  /** Assigning `key` only when the value is defined, as spreading an object
      whose field is undefined does. */
  function AssignDefined(ps: Params, key: string, v: Option<Param>): (r: Params)
    ensures KeepsPrefix(ps, r)
  {
    if v.Some? then Assign(ps, key, v.value) else ps
  }

  lemma AssignDefinedFacts(ps: Params, key: string, v: Option<Param>, k: string)
    requires DistinctKeys(ps)
    ensures DistinctKeys(AssignDefined(ps, key, v))
    ensures Get(AssignDefined(ps, key, v), k) == if k == key && v.Some? then v else Get(ps, k)
  {
    if v.Some? {
      AssignKeepsKeysDistinct(ps, key, v.value);
      AssignLookup(ps, key, v.value, k);
    }
  }

  function TextOf(o: Option<string>): Option<Param> {
    if o.Some? then Some(Text(o.value)) else None
  }

  function FlagOf(o: Option<bool>): Option<Param> {
    if o.Some? then Some(Flag(o.value)) else None
  }

  function NumberOf(o: Option<int>): Option<Param> {
    if o.Some? then Some(Number(o.value)) else None
  }

  /** `{...ps, ...f}`: the defined fields of a filter object written onto `ps`
      in the insertion order of the object the caller built. The model fixes that
      order as jobType, level, isRemote, page, limit; the search panel inserts
      its three fields in that order (src/component/serach.tsx:42-46). Axios
      leaves out parameters whose value is undefined. */
  function SpreadFilters(ps: Params, f: Filters): (r: Params)
    ensures KeepsPrefix(ps, r)
  {
    var a := AssignDefined(ps, "jobType", TextOf(f.jobType));
    var b := AssignDefined(a, "level", TextOf(f.level));
    var c := AssignDefined(b, "isRemote", FlagOf(f.isRemote));
    var d := AssignDefined(c, "page", NumberOf(f.page));
    AssignDefined(d, "limit", NumberOf(f.limit))
  }

  /** The spread gives each filter field its value when defined and leaves
      every other key as it was. */
  lemma SpreadFiltersFacts(ps: Params, f: Filters, k: string)
    requires DistinctKeys(ps)
    ensures DistinctKeys(SpreadFilters(ps, f))
    ensures Get(SpreadFilters(ps, f), k) ==
      if k == "jobType" && f.jobType.Some? then TextOf(f.jobType)
      else if k == "level" && f.level.Some? then TextOf(f.level)
      else if k == "isRemote" && f.isRemote.Some? then FlagOf(f.isRemote)
      else if k == "page" && f.page.Some? then NumberOf(f.page)
      else if k == "limit" && f.limit.Some? then NumberOf(f.limit)
      else Get(ps, k)
  {
    var a := AssignDefined(ps, "jobType", TextOf(f.jobType));
    var b := AssignDefined(a, "level", TextOf(f.level));
    var c := AssignDefined(b, "isRemote", FlagOf(f.isRemote));
    var d := AssignDefined(c, "page", NumberOf(f.page));
    AssignDefinedFacts(ps, "jobType", TextOf(f.jobType), k);
    AssignDefinedFacts(a, "level", TextOf(f.level), k);
    AssignDefinedFacts(b, "isRemote", FlagOf(f.isRemote), k);
    AssignDefinedFacts(c, "page", NumberOf(f.page), k);
    AssignDefinedFacts(d, "limit", NumberOf(f.limit), k);
  }

  /** The `params` object `{q, location, ...filters, page, limit}` of a search. */
  function QueryParams(term: string, loc: string, f: Filters, page: int, limit: int): (ps: Params)
    ensures |ps| >= 2 && ps[0].0 == "q" && ps[1].0 == "location"
  {
    var base: Params := [("q", Text(term)), ("location", Text(loc))];
    var spread := SpreadFilters(base, f);
    var withPage := Assign(spread, "page", Number(page));
    var r := Assign(withPage, "limit", Number(limit));
    assert spread[0].0 == "q" && spread[1].0 == "location";
    assert withPage[0].0 == "q" && withPage[1].0 == "location";
    r
  }

  /** Every key occurs once; `q` and `location` come first with the term and
      location; each filter field appears exactly when defined; `page` and
      `limit` carry the explicit arguments even when the filters name them. */
  lemma QueryParamsFacts(term: string, loc: string, f: Filters, page: int, limit: int, k: string)
    ensures DistinctKeys(QueryParams(term, loc, f, page, limit))
    ensures Get(QueryParams(term, loc, f, page, limit), k) ==
      if k == "page" then Some(Number(page))
      else if k == "limit" then Some(Number(limit))
      else if k == "jobType" then TextOf(f.jobType)
      else if k == "level" then TextOf(f.level)
      else if k == "isRemote" then FlagOf(f.isRemote)
      else if k == "q" then Some(Text(term))
      else if k == "location" then Some(Text(loc))
      else None
  {
    var base: Params := [("q", Text(term)), ("location", Text(loc))];
    var spread := SpreadFilters(base, f);
    var withPage := Assign(spread, "page", Number(page));
    SpreadFiltersFacts(base, f, k);
    AssignKeepsKeysDistinct(spread, "page", Number(page));
    AssignKeepsKeysDistinct(withPage, "limit", Number(limit));
    AssignLookup(spread, "page", Number(page), k);
    AssignLookup(withPage, "limit", Number(limit), k);
  }

  /** The field-by-field copy a search applies to every returned job. */
  function Project(raw: RawJob): Job {
    Job(raw.id, raw.title, raw.company, raw.description, raw.requirements,
        raw.job_type, raw.level, raw.salary_range, raw.location, raw.is_remote,
        raw.active, raw.created_at, raw.updated_at, raw.source_url, raw.source,
        raw.processed_at, raw.raw_job_id, raw.creator_id)
  }

  /** A server record made of a job and arbitrary extra fields. */
  function WithExtra(j: Job, extra: map<string, string>): RawJob {
    RawJob(j.id, j.title, j.company, j.description, j.requirements,
           j.job_type, j.level, j.salary_range, j.location, j.is_remote,
           j.active, j.created_at, j.updated_at, j.source_url, j.source,
           j.processed_at, j.raw_job_id, j.creator_id, extra)
  }

  /** Projection copies every listed field unchanged and drops only the extras. */
  lemma ProjectKeepsListedFields(j: Job, extra: map<string, string>)
    ensures Project(WithExtra(j, extra)) == j
  {
  }

  /** `searchJobs`: on success the jobs projected one by one in the server's
      order and the totals passed through; a failure is rethrown as it came. */
  function SearchJobs(outcome: Response<RawSearchResponse>): (r: Response<SearchResponse>)
    ensures outcome.Err? ==> r == Err(outcome.status)
    ensures outcome.Ok? ==>
      && r.Ok?
      && |r.body.jobs| == |outcome.body.jobs|
      && (forall i :: 0 <= i < |r.body.jobs| ==> r.body.jobs[i] == Project(outcome.body.jobs[i]))
      && r.body.total == outcome.body.total
      && r.body.page == outcome.body.page
      && r.body.totalPages == outcome.body.totalPages
  {
    match outcome
    case Err(status) => Err(status)
    case Ok(data) =>
      var jobs := seq(|data.jobs|, i requires 0 <= i < |data.jobs| => Project(data.jobs[i]));
      Ok(SearchResponse(jobs, data.total, data.page, data.totalPages))
  }

  /** `getSuggestedLocations` and `getSuggestedTerms`: the body on success, an
      empty list on any error. */
  function Suggestions(outcome: Response<seq<string>>): (r: seq<string>)
    ensures outcome.Ok? ==> r == outcome.body
    ensures outcome.Err? ==> r == []
  {
    if outcome.Ok? then outcome.body else []
  }

  /** The body posted to the apply endpoint. */
  datatype ApplicationRequest = ApplicationRequest(
    application_data: ApplicationData,
    profile_data: Profile)

  /** The `application_data` part of the body. */
  datatype ApplicationData = ApplicationData(
    job_offer_id: string,
    applicant_name: string,
    applicant_email: Option<string>)

  /** The headers `applyToJob` sends with its post. */
  function ApplyHeaders(token: string): (hs: seq<(string, string)>)
    ensures |hs| == 2 && hs[0] == ("Authorization", Bearer(token))
    ensures hs[1] == ("Content-Type", "application/json")
  {
    [("Authorization", Bearer(token)), ("Content-Type", "application/json")]
  }
}
