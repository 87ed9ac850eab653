# cv-score-front, modelled in Dafny

cv-score-front is the browser front end of a CV-scoring job board. Candidates
sign in and upload a PDF CV, which a remote service turns into a profile. They
then search job offers and apply to them. Administrators browse the
evaluations that a scoring service produced for each application. The heavy
work (parsing, scoring, search) happens on servers. The front end holds:

- a shared search store;
- guard chains in front of searching, applying and uploading;
- session handling over `localStorage` and the default `Authorization` header;
- the shaping of service results;
- the client-side filtering and rendering of the scoring dashboard.

The model has one Dafny module per core source file, plus four shared modules:

- `Wrappers`: `Option`, and `Response`, the outcome of an HTTP call (`Ok(body)`, or `Err(status)` with no status when no response came).
- `Types`: the records of `src/types`, JavaScript truthiness, and string interpolation of optional values.
- `Browser`: the class `Env`, which holds three things:
  - browser storage, as a map from key to parsed value;
  - the default `Authorization` header;
  - a ghost log of what the user sees happen: toasts, navigations, requests, callbacks, the profile delivered by the CV upload, and opened tabs.
- `Text`: ASCII lower-casing, substring search, `split`, `join`, and the global removal of `"**"`.

Components that keep React state are classes whose fields are that state. Handlers are methods with `modifies` clauses. Each method states the component's new fields, the new storage and header, and the exact effects appended to the log. Every HTTP call is a parameter of the method that makes it.

## Model

| member | source | states |
|---|---|---|
| SearchStore.Store.constructor | src/hook/useSearch.ts:9-19 | the store starts as the initial state: empty term and location, no filters, no results, not loading, no error, page 1, both totals 0 |
| SearchStore.Store.ResetSearch | src/hook/useSearch.ts:45 | the whole state becomes exactly the initial state |
| SearchStore.Cleared | src/hook/useSearch.ts:46-54 | clearing yields the initial state except that the loading flag and the error keep their old values |
| SearchStore.Store.ClearSearch | src/hook/useSearch.ts:46-54 | the new state is the clearing of the old one |
| SearchStore.ClearedDiffersFromResetOnlyInStatus | src/hook/useSearch.ts:45-54 | clear and reset agree iff the store was idle with no error |
| SearchStore.Store.SetSearchTerm | src/hook/useSearch.ts:34 | only the term changes |
| SearchStore.Store.SetLocation | src/hook/useSearch.ts:35 | only the location changes |
| SearchStore.Store.SetFilters | src/hook/useSearch.ts:36 | only the filters change |
| SearchStore.Store.SetResults | src/hook/useSearch.ts:37-42 | results, total, current page and page count are written together and nothing else |
| SearchStore.Store.SetIsLoading | src/hook/useSearch.ts:43 | only the loading flag changes |
| SearchStore.Store.SetError | src/hook/useSearch.ts:44 | only the error changes |
| SearchStore.PersistRoundTrip | src/hook/useSearch.ts:56-62 | a reload keeps term, location and filters and resets results, loading, error and paging to their initial values |
| SearchStore.PartializeIgnoresResults | src/hook/useSearch.ts:58-62 | states that agree on term, location and filters persist the same snapshot |
| SearchStore.AfterSearch | src/hook/useSearch.ts:81-93 | loading ends false; success replaces results and paging and clears the error; failure keeps results and paging and sets 'Error al realizar la búsqueda'; the query is untouched |
| SearchStore.PerformSearch | src/hook/useSearch.ts:71-94 | loading is on and the error cleared while the request is out; the final state is the search outcome applied to the old state; exactly one search request is logged |
| SearchStore.UrlQuery | src/hook/useSearch.ts:103-105 | `q` is present iff the term is non-empty and `location` iff the location is non-empty, in that order |
| SearchStore.UrlQueryRoundTrip | src/hook/useSearch.ts:103-105 | reading the query back with `get(...) or ''` returns the term and location that built it |
| SearchStore.HandleSearch | src/hook/useSearch.ts:96-109 | term and location are stored; filters are replaced only when given; the search runs with `{}` when none are given; navigation to `/search` with the query follows even when the search failed |
| SearchService.Assign | src/service/search.tsx:17-23 | writing a property: an existing key keeps its place, a new key goes last, earlier keys keep their order |
| SearchService.AssignLookup | src/service/search.tsx:17-23 | after a write the key reads as the new value and every other key as before |
| SearchService.AssignKeepsKeysDistinct | src/service/search.tsx:17-23 | a write never duplicates a key |
| SearchService.SpreadFiltersFacts | src/service/search.tsx:20 | spreading the filters sets each defined filter field and leaves every other key as it was |
| SearchService.QueryParams | src/service/search.tsx:17-23 | the parameters start with `q` then `location` |
| SearchService.QueryParamsFacts | src/service/search.tsx:8-23 | keys are distinct; `q`, `location` and the defined filter fields carry their values; `page` (default 1) and `limit` (default 10) override same-named filter fields; no other key exists |
| SearchService.ProjectKeepsListedFields | src/service/search.tsx:27-46 | projection copies every listed job field unchanged and drops only extra server fields |
| SearchService.SearchJobs | src/service/search.tsx:15-57 | success gives the jobs projected one by one in order, plus total, page and page count passed through; an error is rethrown with its status |
| SearchService.Suggestions | src/service/search.tsx:60-82 | the body on success, `[]` on any error |
| SearchService.ApplyHeaders | src/service/search.tsx:91-94 | the application carries `Authorization: Bearer <token>` first and `Content-Type: application/json` second |
| ProfileService.ProfilePath | src/service/profile.tsx:47 | the profile path ends with the user id |
| ProfileService.GetProfile | src/service/profile.tsx:45-54 | the body on success; a 404 (and only a 404) becomes "no profile"; any other error is rethrown with its status |
| ProfileService.UploadForm | src/service/profile.tsx:56-60 | exactly two fields: the file under 'file', then the user id under 'userId' |
| ProfileService.UpdateRequest | src/service/profile.tsx:74-81 | the whole profile is put to the path of its own `user_id` |
| Scoring.BadgeColor | src/component/score.tsx:64-69 | green iff score ≥ 4, yellow iff 3 ≤ score < 4, orange iff 2 ≤ score < 3, red iff score < 2 |
| Scoring.BadgeMonotone | src/component/score.tsx:64-69 | a higher score never gets a lower colour band |
| Scoring.MissingApplicantMatchesUndefined | src/component/score.tsx:133-135 | as written, a row without applicant details matches the search "undef", so the dashboard keeps it where the intended filter drops it |
| Scoring.MatchesAgreeWithApplicant | src/component/score.tsx:132-140 | the written and the intended row tests agree on every row that has applicant details |
| Scoring.NoApplicantMatchesOnlyByTitle | src/component/score.tsx:133-139 | under the intended test, a row without applicant details passes a non-empty search only through its job title |
| Scoring.FilterScores | src/component/score.tsx:132-140 | a row is kept iff it matches as written: the term is empty, or is found case-insensitively in the name as rendered (`"undefined undefined"` when the applicant is missing) or in the job title; and the score equals the selected one if any. The list never grows |
| Scoring.MatchesAsWritten | src/component/score.tsx:132-138 | a passing row always has the selected score; with an empty term that is all it needs; without applicant details a non-empty term passes iff it occurs in "undefined undefined" or in the job title |
| Scoring.FilterScoresIntended | src/component/score.tsx:132-140 | the same filter with the name test applied only when the applicant is known; a row is kept iff it passes that test |
| Scoring.FilterIsSubsequence | src/component/score.tsx:132-140 | both filtered lists are order-preserving subsequences of the scores |
| Scoring.FilterWithoutCriteriaKeepsAll | src/component/score.tsx:132-140 | with an empty term and no selected score both filters keep every row, in order |
| Scoring.FiltersAgreeWithApplicants | src/component/score.tsx:132-140 | when every row has its applicant details, the filter as written shows exactly the rows of the intended one |
| Scoring.Toggle | src/component/score.tsx:120-130 | membership of the toggled id flips; every other id is unchanged |
| Scoring.ToggleTwice | src/component/score.tsx:120-130 | toggling the same id twice restores the set |
| Scoring.Dashboard.ToggleRow | src/component/score.tsx:120-130 | the expanded set becomes the toggle of the old one; nothing else changes |
| Scoring.Enrich | src/component/score.tsx:79-95 | with both detail fetches successful, the record gains the job offer and the applicant; otherwise it is returned as it came |
| Scoring.EnrichAll | src/component/score.tsx:100-102 | the list keeps its length and order, each row enriched on its own |
| Scoring.PartialFailureKeepsRows | src/component/score.tsx:79-102 | a failed detail fetch leaves only its own row bare, and every row is kept |
| Scoring.DetailRequests | src/component/score.tsx:81-84 | two detail requests per row |
| Scoring.Dashboard.FetchScores | src/component/score.tsx:97-114 | the list request and then both detail requests per row; success stores the enriched list; a failed list keeps the old scores and shows 'Error al cargar las evaluaciones'; loading ends false |
| Scoring.Dashboard.SetSearchTerm | src/component/score.tsx:153 | only the search term changes |
| Scoring.Dashboard.SetFilterScore | src/component/score.tsx:159 | only the selected score changes |
| Scoring.Dashboard.ClearFilters | src/component/score.tsx:169-172 | term and selected score are emptied, and then every score is visible |
| Scoring.RenderParagraph | src/component/score.tsx:332-351 | heading iff the paragraph starts with "**"; the title contains neither ':' nor "**"; the title and body are the text before the first ':' and between the first and second ':' of the paragraph with all "**" removed, the body ending at the second ':' or at the end of that text; other paragraphs verbatim |
| Scoring.RenderReasoning | src/component/score.tsx:331 | one rendered paragraph per blank-line-separated piece, at least one |
| Scoring.ReasoningPiecesRoundTrip | src/component/score.tsx:331 | joining the pieces with blank lines restores the reasoning; no plain paragraph contains a blank line |
| Text.Split | src/component/score.tsx:338-342 | splitting yields at least one part, joins back to the input, and no part contains the separator; there is one part iff the separator does not occur, and otherwise the first part ends at its first occurrence |
| Text.SplitCutsLeftmost | src/component/score.tsx:338-342 | every cut is at the first occurrence of the separator at or after the start of the current part, and none occurs after the start of the last part |
| Text.NoDoubleStarLeft | src/component/score.tsx:334 | after the global removal of "**" none is left |
| Text.RemoveStarsKeepsText | src/component/score.tsx:334 | removing "**" only ever removes asterisks: all other characters stay, in order |
| SearchPage.AddId | src/component/SearchPageContent.tsx:108 | adding keeps set semantics: the members are the old ones plus the id, nothing is added when present, no duplicates appear |
| SearchPage.AddIdIdempotent | src/component/SearchPageContent.tsx:108 | applying twice to the same job leaves the set equal |
| SearchPage.Dedup | src/component/SearchPageContent.tsx:56 | a set built from an array has no duplicates and exactly the array's members |
| SearchPage.DedupOfDistinct | src/component/SearchPageContent.tsx:54-57 | a duplicate-free array comes back unchanged, order included |
| SearchPage.AppliedSetSurvivesReload | src/component/SearchPageContent.tsx:108-110 | the persisted applied set is restored exactly on the next mount |
| SearchPage.SearchPageContent.Mount | src/component/SearchPageContent.tsx:47-58 | the cached profile and the applied ids are taken from storage when present, and left as they were otherwise |
| SearchPage.SearchPageContent.SelectJob | src/component/SearchPageContent.tsx:176 | only the selected job changes |
| SearchPage.SyncFromUrl | src/component/SearchPageContent.tsx:60-70 | missing parameters read as ''; the store takes the URL's term and location; a search with the store's filters runs iff either is non-empty |
| SearchPage.ApplicationFor | src/component/SearchPageContent.tsx:97-104 | the payload nests under `application_data` the job id, 'first last' as name and the contact email when there is one, and carries the profile as `profile_data` |
| SearchPage.TokenOrEmpty | src/component/SearchPageContent.tsx:106 | the session token when truthy, '' otherwise |
| SearchPage.SearchPageContent.HandleApply | src/component/SearchPageContent.tsx:72-131 | without a job, a session or a profile: an error toast and no request. Otherwise the payload is sent with the `applyToJob` headers built from the session token (or ''); success adds the id, persists the set and makes the job count as applied (which disables the button at line 259); failure changes nothing but a toast; applying ends false |
| SearchPage.SearchPageContent.IsJobApplied | src/component/SearchPageContent.tsx:133 | true iff a job is selected and its id occurs in the applied set; false without a selection |
| SearchForm.AuthEndpoint | src/form/search.tsx:82 | '/auth/login' iff logging in, '/auth/register' otherwise |
| SearchForm.SubmitVerdict | src/form/search.tsx:117-149 | the guards in order: not signed in, then no profile, then empty term and location, else proceed; each verdict as an iff |
| SearchForm.HasProfile | src/form/search.tsx:76-78 | a profile counts as present iff the "profileData" key holds a parsed profile; without the key there is none |
| SearchForm.SearchForm.HandleSubmit | src/form/search.tsx:117-162 | signed out: only the modal opens. No profile: a warning and '/profile'. Empty query: a warning. Otherwise the search runs, '/search' with the query follows, and `onSubmit` fires last when given |
| SearchForm.SignInPassesLoginGuard | src/form/search.tsx:75-92 | storing a session makes the visitor authenticated and leaves the profile check as it was |
| SearchForm.SearchForm.HandleAuth | src/form/search.tsx:80-115 | success stores `{user, token}`, sets the Bearer header, closes the modal and goes to '/profile'; failure changes nothing but a toast, and nothing is rethrown |
| CvUpload.Classify | src/component/cv.tsx:56-82 | missing, then not a PDF, then over 10 MiB, else accepted, each as an iff |
| CvUpload.TypeCheckedBeforeSize | src/component/cv.tsx:59-68 | a non-PDF is refused as such whatever its size |
| CvUpload.CapIsInclusive | src/component/cv.tsx:70-81 | exactly 10 MiB passes and one byte more does not |
| CvUpload.CvUploader.ValidateFile | src/component/cv.tsx:56-82 | true iff accepted; a refused type or size shows one error toast, a missing file none |
| CvUpload.CvUploader.DragOver | src/component/cv.tsx:30-33 | dragging on; nothing else changes |
| CvUpload.CvUploader.DragLeave | src/component/cv.tsx:35-38 | dragging off; nothing else changes |
| CvUpload.CvUploader.Drop | src/component/cv.tsx:40-47 | dragging off; the selection is replaced only by an accepted file |
| CvUpload.CvUploader.FileSelect | src/component/cv.tsx:49-54 | the selection is replaced only by an accepted file |
| CvUpload.CvUploader.Remove | src/component/cv.tsx:187 | the selection is cleared |
| CvUpload.CvUploader.ProcessCV | src/component/cv.tsx:84-115 | nothing without a file, while processing, or without a user id. Otherwise the two-field form is sent; success delivers the profile exactly once after a toast; failure gives an error toast and no delivery; processing ends false |
| CvUpload.CvUploader.Unmount | src/component/cv.tsx:118-123 | processing off and the selection cleared |
| HomePage.InitialAuth | src/app/page.tsx:41-58 | the stored session if there is one, signed out otherwise |
| HomePage.HomePage.constructor | src/app/page.tsx:41-67 | the start-up session, the Bearer header iff it has a truthy token, and storage mirrored: only the "authState" key is written (or removed when the token is falsy), every other key is kept |
| HomePage.HomePage.Persist | src/app/page.tsx:61-67 | the key holds the session iff its token is truthy, and is removed otherwise |
| HomePage.ReloadRestoresSession | src/app/page.tsx:41-67 | after mirroring, a reload restores the session if it had a token and starts signed out otherwise |
| HomePage.HomePage.HandleAuth | src/app/page.tsx:69-107 | success sets `{user, token}` and the Bearer header, closes the modal and mirrors the session by writing (or, for a falsy token, removing) only the "authState" key; failure changes nothing but a toast and hands the error back |
| HomePage.HomePage.HandleLogout | src/app/page.tsx:109-122 | signed out, the key removed, the header deleted, 'Logged Out' shown |
| HomePage.HomePage.ValidateToken | src/app/page.tsx:124-147 | a probe only with a stored truthy token; a failed probe signs out; a passed one changes nothing |
| HttpClient.StoredBearer | src/lib/axios.ts:10-16 | a header value exists iff the stored session has a truthy token, and it is 'Bearer ' + token |
| HttpClient.InterceptRequest | src/lib/axios.ts:7-18 | Authorization is set from the stored token when there is one; otherwise the headers are unchanged |
| HttpClient.InterceptResponse | src/lib/axios.ts:25-39 | every outcome passes through unchanged; only a 401 removes the stored session and the default header |
| HttpClient.ErrorToast | src/lib/axios.ts:45-106 | 401 'Sesión expirada' (warning), 403 'Acceso denegado', 404 'No encontrado', 500 'Error del servidor', other statuses 'Error'; no response but a request 'Error de conexión'; neither: no toast, each as an iff |
| HttpClient.HandleAxiosError | src/lib/axios.ts:45-106 | exactly the classified toast is shown |
| HttpClient.RefreshToken | src/lib/axios.ts:112-125 | nothing stored: null and no request. Success: the returned token. Failure: the session removed and null (a 401 also loses the header through the response interceptor) |
| ProfilePage.SessionUserId | src/app/profile/page.tsx:80 | the user id exists iff session, user and a non-empty id all exist |
| ProfilePage.ProfilePage.LoadAuth | src/app/profile/page.tsx:66-75 | a stored session becomes the page's session with its Bearer header; without one the visitor goes to '/' |
| ProfilePage.ProfilePage.FetchProfileData | src/app/profile/page.tsx:78-107 | only with a user id: a found profile is shown and cached, "no profile yet" changes nothing, other errors toast; loading ends only in that branch |
| ProfilePage.UpdateFor | src/app/profile/page.tsx:116-119 | the update carries the incoming data with `user_id` replaced by the session's, sent to that user's path |
| ProfilePage.ProfilePage.HandleProfileData | src/app/profile/page.tsx:109-148 | nothing without a user id. With a profile shown: an update, with the server's answer shown and cached ('Perfil actualizado'). With none: the data shown and cached ('Perfil creado'). A failed update changes nothing but a toast; processing ends false |
| ProfilePage.Logout | src/app/profile/page.tsx:234-238 | the session and the cached profile are removed, then '/'; the score page passes the same callback (src/app/score/page.tsx:75-79) |
| ProfilePage.SavedProfileUnlocksSearch | src/app/profile/page.tsx:116-126 | a saved profile passes the search form's profile guard and leaves its login guard as it was |
| Header.SearchBarAfterSearch | src/component/header.tsx:47-49 | on '/search' after a search, the compact bar shows iff the term or the location was non-empty |
| Header.ShowSearch | src/component/header.tsx:47-49 | the compact bar shows iff the path is '/search' and some parameter is named `q` or `location` |
| Header.EmptyParamShowsBar | src/component/header.tsx:47-49 | a present but empty parameter shows the bar; another path never does |
| Header.IsAdmin | src/component/header.tsx:55 | admin iff there is a user with roles and 'ADMIN' is among them |
| Header.MenuEntries | src/component/header.tsx:77-178 | 'Evaluaciones' (to '/score') is offered iff admin; signed in, sign-out is offered; signed out, three section buttons act as the logo and the fourth is the login |
| Header.HandleLogoClick | src/component/header.tsx:51-54 | the search is cleared, then `onLogoClick` fires |
| ScorePage.ScorePage.constructor | src/app/score/page.tsx:14 | the page starts loading |
| ScorePage.ScorePage.CheckAuth | src/app/score/page.tsx:20-53 | no session or no ADMIN role: 'Acceso denegado' and '/', and the page stays loading; an administrator ends loading with nothing shown |
| ScorePage.AdminIsAuthenticated | src/app/score/page.tsx:36-49 | an administrator counts as authenticated |
| ScorePage.MayEnter | src/app/score/page.tsx:24-37 | the page admits a visitor iff a session is stored and the header's admin test holds for it; nobody without a stored session enters |
| ScorePage.ScorePage.Render | src/app/score/page.tsx:55-68 | the dashboard shows iff loading is over and the visitor is authenticated; otherwise, once loading is over, the visitor is sent to '/' |
| ScorePage.GateThenRender | src/app/score/page.tsx:17-68 | an administrator passes the gate and sees the dashboard without any toast or redirect |
| ProfileView.Render | src/component/profile.tsx:86-92 | the not-found screen iff there is no profile; the details show download buttons iff there are documents |
| ProfileView.TabFor | src/component/profile.tsx:93-97 | indices 0, 1, 2 map to 'experience', 'education', 'profile', any other to none |
| ProfileView.ProfileView.HandleTabChange | src/component/profile.tsx:93-97 | the active tab becomes the index's name |
| ProfileView.DownloadTarget | src/component/profile.tsx:99-111 | a URL exists iff there are documents and the last one has a truthy `file_url`, and it is that URL |
| ProfileView.DownloadUsesLastDocument | src/component/profile.tsx:100 | only the last document decides the download |
| ProfileView.ProfileView.HandleDownloadCV | src/component/profile.tsx:99-111 | the last document opens in a new tab, or an error toast appears |
| ProfileView.FormatDate | src/component/profile.tsx:113-119 | a missing or empty date gives '' |
| ProfileView.EndLabel | src/component/profile.tsx:317-319 | 'Actual' while current, else the formatted end date ('' when it is missing) |
| SearchPanel.SearchPanel.constructor | src/component/serach.tsx:22-26 | title, location, type and level empty, remote off |
| SearchPanel.SearchPanel.SetTitle | src/component/serach.tsx:62 | only the title changes |
| SearchPanel.SearchPanel.SetLocation | src/component/serach.tsx:72 | only the location changes |
| SearchPanel.SearchPanel.SetJobType | src/component/serach.tsx:85 | only the job type changes |
| SearchPanel.SearchPanel.SetLevel | src/component/serach.tsx:95 | only the level changes |
| SearchPanel.SearchPanel.SetIsRemote | src/component/serach.tsx:104 | only the remote flag changes |
| SearchPanel.PanelSearch | src/component/serach.tsx:29-47 | nothing iff title and location are both empty, else the record of all five values |
| SearchPanel.OnlyTitleAndLocationGate | src/component/serach.tsx:30 | type, level and remote never decide whether a search goes out |
| SearchPanel.SearchPanel.HandleSearch | src/component/serach.tsx:29-47 | an error toast and no call, or `onSearch` once with the current five values |

## Left out

- Rendering, layout and styling are left out, as are the theme, the layout and home view components, the login form (it forwards its fields unchanged) and the placeholder search page. None of them holds logic beyond what is modelled.
- HTTP transport, `FormData`, `window.open` and the router are left out. Each call is an outcome parameter, and each navigation, toast, request, callback or opened tab is an entry in the log. Request bodies are returned by the method that builds them, not logged.
- Request logs carry method, path and query parameters but no host. The service base URLs come from environment variables.
- The interceptors of `src/lib/axios.ts` are modelled on their own, and `refreshToken` goes through the response interceptor. No other modelled component imports that file, so their calls do not pass through the interceptors.
- Concurrency is not modelled: each async handler is one sequential step. This covers the parallel detail fetches of the dashboard, out-of-order search answers and updates after unmount.
- Scoring.Dashboard.FetchScores: the enrichment of each row is given as a function of the row. Two rows with equal fields therefore get equal answers.
- Toasts carry their title and status only. Description, duration and closability are left out.
- Storage holds parsed values. A stored value of another shape reads as absent, and a stored JSON `null` is not represented. JSON serialisation and the persistence middleware's storage entry for the search store are not part of this model. Persistence of the search store is stated through `Partialize`/`Rehydrate`.
- Lower-casing is ASCII only. The dashboard's score filter is an optional integer, standing for the `parseInt` of the fixed options 1 to 5.
- Locale date formatting is a function parameter. Only the empty-date case is fixed.
- ProfilePage.ProfilePage.LoadAuth: the header for a stored session without a token renders the missing token as "undefined". A stored JSON `null` token would render as "null".
- SearchForm.SearchForm.HandleSubmit: the catch branch ('Error en la búsqueda') is not modelled. The search it wraps reports failures through the store and never throws.
- SearchPage.SearchPageContent.HandleApply: the `isApplying` flag is true while the request is out. Only its final value is stated.
- Display fallbacks of the dashboard rows ('Título no disponible' and similar) and the row's date column are left out. They are presentation only.
- The home page's local search term and location and the score page's other header callbacks are left out. They only navigate.

## Findings

| source | as written | input that shows it | evidently intended | confidence | as-written member | corrected member |
|---|---|---|---|---|---|---|
| src/component/score.tsx:134 | the candidate name is built with optional chaining. When the applicant details are missing it renders as "undefined undefined", and the filter searches that text | a row whose detail fetch failed (no applicant), searched for "undef" | rows without applicant details match only through their job title | not executed | Scoring.MissingApplicantMatchesUndefined | Scoring.NoApplicantMatchesOnlyByTitle |
