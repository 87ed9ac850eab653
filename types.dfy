/** The records the front end exchanges with its remote services
    (src/types/search.ts, src/types/user.ts, src/types/profile.ts). */
module Types {
  import opened Wrappers

  /** The first value stored under `key` in a list of key/value pairs, as
      `URLSearchParams.get` and reading a property of a built object do. */
  function Get<V(==)>(entries: seq<(string, V)>, key: string): (v: Option<V>)
    ensures v.Some? ==> (key, v.value) in entries
    ensures v.None? ==> forall i :: 0 <= i < |entries| ==> entries[i].0 != key
  {
    if |entries| == 0 then None
    else if entries[0].0 == key then Some(entries[0].1)
    else Get(entries[1..], key)
  }

  /** JavaScript truthiness of an optional string: present and non-empty. */
  predicate Truthy(s: Option<string>) {
    s.Some? && s.value != ""
  }

  /** How a template literal renders an optional string: an absent value prints as "undefined". */
  function Interpolate(s: Option<string>): string {
    if s.Some? then s.value else "undefined"
  }

  function Bearer(token: string): string {
    "Bearer " + token
  }

  // ---------------------------------------------------------------- jobs

  /** A job as the rest of the application sees it (the `Job` interface). */
  datatype Job = Job(
    id: string,
    title: string,
    company: string,
    description: Option<string>,
    requirements: seq<string>,
    job_type: string,
    level: string,
    salary_range: Option<string>,
    location: string,
    is_remote: bool,
    active: bool,
    created_at: string,
    updated_at: string,
    source_url: Option<string>,
    source: Option<string>,
    processed_at: Option<string>,
    raw_job_id: Option<string>,
    creator_id: string)

  /** A job record as the job service sends it: the same fields plus whatever
      else the server includes, which the client drops. */
  datatype RawJob = RawJob(
    id: string,
    title: string,
    company: string,
    description: Option<string>,
    requirements: seq<string>,
    job_type: string,
    level: string,
    salary_range: Option<string>,
    location: string,
    is_remote: bool,
    active: bool,
    created_at: string,
    updated_at: string,
    source_url: Option<string>,
    source: Option<string>,
    processed_at: Option<string>,
    raw_job_id: Option<string>,
    creator_id: string,
    extra: map<string, string>)

  /** `SearchFilters`: every field is optional. */
  datatype Filters = Filters(
    jobType: Option<string>,
    level: Option<string>,
    isRemote: Option<bool>,
    page: Option<int>,
    limit: Option<int>)

  const NoFilters: Filters := Filters(None, None, None, None, None)

  datatype RawSearchResponse = RawSearchResponse(jobs: seq<RawJob>, total: int, page: int, totalPages: int)

  datatype SearchResponse = SearchResponse(jobs: seq<Job>, total: int, page: int, totalPages: int)

  /** A value of a URL query parameter as axios receives it. */
  datatype Param = Text(s: string) | Number(n: int) | Flag(b: bool)

  // ---------------------------------------------------------------- users

  /** The user record returned by the auth service and kept as `authState.user`.
      The auth response carries the token inside the same record. */
  datatype User = User(
    userId: Option<string>,
    username: string,
    email: string,
    roles: Option<seq<string>>,
    token: Option<string>)

  datatype AuthState = AuthState(user: Option<User>, token: Option<string>)

  const SignedOut: AuthState := AuthState(None, None)

  /** The session a successful login or registration creates: the whole response
      as the user and its token as the token. */
  function SessionFor(data: User): (a: AuthState)
    ensures a.user == Some(data) && a.token == data.token
  {
    AuthState(Some(data), data.token)
  }

  /** `user?.roles?.includes('ADMIN')`: exact string membership. */
  predicate HasAdminRole(user: Option<User>) {
    user.Some? && user.value.roles.Some? && "ADMIN" in user.value.roles.value
  }

  // ---------------------------------------------------------------- profiles

  /** The browser `File` fields the upload code reads. */
  datatype FileInfo = FileInfo(name: string, mime: string, size: int)

  datatype Contact = Contact(email: string, phone: Option<string>)

  datatype Experience = Experience(
    company_name: string,
    position: string,
    start_date: Option<string>,
    end_date: Option<string>,
    current: bool)

  datatype Document = Document(file_name: string, file_url: Option<string>)

  /** `ProfileSchema`, restricted to the fields the modelled code reads. */
  datatype Profile = Profile(
    id: string,
    user_id: string,
    first_name: string,
    last_name: string,
    headline: string,
    about: string,
    contact_info: Option<Contact>,
    skills: seq<string>,
    experiences: seq<Experience>,
    documents: Option<seq<Document>>)
}
