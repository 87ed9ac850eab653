/** The admin scoring dashboard (src/component/score.tsx): badge colours, the
    client-side filter, expandable rows, per-row enrichment with job offer and
    applicant, and the rendering of the evaluation's reasoning text. */
module Scoring {
  import opened Wrappers
  import opened Types
  import opened Browser
  import opened Text
  import ProfileService

  datatype JobOffer = JobOffer(title: string, description: string, location: string, salary_range: string, is_active: bool)

  /** The profile fields the dashboard shows. */
  datatype Applicant = Applicant(first_name: string, last_name: string, headline: string, about: string, skills: seq<string>)

  datatype ScoreData = ScoreData(
    id: string,
    job_application_id: string,
    user_id: string,
    job_offer_id: string,
    score: real,
    reasoning: string,
    created_at: string,
    jobOffer: Option<JobOffer>,
    profile: Option<Applicant>)

  // ---------------------------------------------------------------- badge

  datatype Badge = Green | Yellow | Orange | Red

  /** `getScoreBadgeColor`: four bands split at 2, 3 and 4. */
  function BadgeColor(score: real): (b: Badge)
    ensures b == Green <==> 4.0 <= score
    ensures b == Yellow <==> 3.0 <= score < 4.0
    ensures b == Orange <==> 2.0 <= score < 3.0
    ensures b == Red <==> score < 2.0
  {
    if score >= 4.0 then Green
    else if score >= 3.0 then Yellow
    else if score >= 2.0 then Orange
    else Red
  }

  function Rank(b: Badge): nat {
    match b
    case Red => 0
    case Orange => 1
    case Yellow => 2
    case Green => 3
  }

  /** A higher score never gets a worse colour. */
  lemma BadgeMonotone(x: real, y: real)
    requires x <= y
    ensures Rank(BadgeColor(x)) <= Rank(BadgeColor(y))
  {
  }

  // ---------------------------------------------------------------- filter

  /** The name the filter searches in, as the code builds it: with the
      applicant details missing each part renders as "undefined". */
  function CandidateNameAsWritten(s: ScoreData): (r: string)
    ensures s.profile.Some? ==> r == s.profile.value.first_name + " " + s.profile.value.last_name
    ensures s.profile.None? ==> r == "undefined undefined"
  {
    var first := if s.profile.Some? then Some(s.profile.value.first_name) else None;
    var last := if s.profile.Some? then Some(s.profile.value.last_name) else None;
    Interpolate(first) + " " + Interpolate(last)
  }

  predicate MatchesScore(s: ScoreData, selected: Option<int>) {
    selected.None? || s.score == selected.value as real
  }

  /** The row test exactly as written. */
  predicate MatchesAsWritten(s: ScoreData, term: string, selected: Option<int>): (b: bool)
    ensures b ==> MatchesScore(s, selected)
    ensures term == "" ==> (b <==> MatchesScore(s, selected))
    ensures s.profile.None? && term != "" ==>
              (b <==> (|| ContainsIgnoringCase("undefined undefined", term)
                       || (s.jobOffer.Some? && ContainsIgnoringCase(s.jobOffer.value.title, term)))
                      && MatchesScore(s, selected))
  {
    && (|| term == ""
        || ContainsIgnoringCase(CandidateNameAsWritten(s), term)
        || (s.jobOffer.Some? && ContainsIgnoringCase(s.jobOffer.value.title, term)))
    && MatchesScore(s, selected)
  }

  /** The row test as intended: the name test applies only when the applicant is known. */
  predicate Matches(s: ScoreData, term: string, selected: Option<int>) {
    && (|| term == ""
        || (s.profile.Some? && ContainsIgnoringCase(s.profile.value.first_name + " " + s.profile.value.last_name, term))
        || (s.jobOffer.Some? && ContainsIgnoringCase(s.jobOffer.value.title, term)))
    && MatchesScore(s, selected)
  }

  /** A row whose details could not be fetched matches the search "undef"
      as written, although neither a name nor a title contains it: the
      dashboard shows it, the intended filter would not. */
  lemma MissingApplicantMatchesUndefined()
    ensures var s := ScoreData("s1", "a1", "u1", "j1", 3.0, "", "", None, None);
            && MatchesAsWritten(s, "undef", None) && !Matches(s, "undef", None)
            && FilterScores([s], "undef", None) == [s]
            && FilterScoresIntended([s], "undef", None) == []
  {
    var s := ScoreData("s1", "a1", "u1", "j1", 3.0, "", "", None, None);
    assert CandidateNameAsWritten(s) == "undefined undefined";
    assert Lower("undefined undefined") == "undefined undefined";
    assert Lower("undef") == "undef";
    assert OccursAt("undefined undefined", "undef", 0);
  }

  /** The two tests differ only on rows without applicant details. */
  lemma MatchesAgreeWithApplicant(s: ScoreData, term: string, selected: Option<int>)
    requires s.profile.Some?
    ensures MatchesAsWritten(s, term, selected) == Matches(s, term, selected)
  {
  }

  /** As intended, a row without applicant details passes a non-empty search
      only through its job title. */
  lemma NoApplicantMatchesOnlyByTitle(s: ScoreData, term: string, selected: Option<int>)
    requires s.profile.None? && term != ""
    ensures Matches(s, term, selected) <==>
              s.jobOffer.Some? && ContainsIgnoringCase(s.jobOffer.value.title, term) && MatchesScore(s, selected)
  {
  }

  /** The rows of `scores` that `keep` accepts, in their order. */
  function Keep(scores: seq<ScoreData>, keep: ScoreData -> bool): (r: seq<ScoreData>)
    ensures |r| <= |scores|
    ensures forall x :: x in r ==> x in scores && keep(x)
    ensures forall x :: x in scores && keep(x) ==> x in r
    decreases |scores|
  {
    if |scores| == 0 then []
    else
      var rest := Keep(scores[1..], keep);
      assert forall x :: x in scores ==> x == scores[0] || x in scores[1..];
      if keep(scores[0]) then [scores[0]] + rest else rest
  }

  /** `scores.filter(...)` with the row test as written: the rows that pass, in their order. */
  function FilterScores(scores: seq<ScoreData>, term: string, selected: Option<int>): (r: seq<ScoreData>)
    ensures |r| <= |scores|
    ensures forall x :: x in r ==> x in scores && MatchesAsWritten(x, term, selected)
    ensures forall x :: x in scores && MatchesAsWritten(x, term, selected) ==> x in r
  {
    Keep(scores, x => MatchesAsWritten(x, term, selected))
  }

  /** The filter with the intended row test. */
  function FilterScoresIntended(scores: seq<ScoreData>, term: string, selected: Option<int>): (r: seq<ScoreData>)
    ensures |r| <= |scores|
    ensures forall x :: x in r ==> x in scores && Matches(x, term, selected)
    ensures forall x :: x in scores && Matches(x, term, selected) ==> x in r
  {
    Keep(scores, x => Matches(x, term, selected))
  }

  /** `a` is `b` with some elements left out, order kept. */
  predicate IsSubsequence<T(==)>(a: seq<T>, b: seq<T>)
    decreases |b|
  {
    if |a| == 0 then true
    else if |b| == 0 then false
    else if a[0] == b[0] then IsSubsequence(a[1..], b[1..])
    else IsSubsequence(a, b[1..])
  }

  lemma {:induction false} SubsequenceOfTail<T>(a: seq<T>, b: seq<T>)
    requires |b| > 0 && IsSubsequence(a, b[1..])
    ensures IsSubsequence(a, b)
    decreases |a| + |b|
  {
    if |a| > 0 && a[0] == b[0] {
      // a[1..] is a subsequence of a's tail within b[1..]
      SubsequenceDropHead(a, b[1..]);
    }
  }

  lemma {:induction false} SubsequenceDropHead<T>(a: seq<T>, b: seq<T>)
    requires |a| > 0 && IsSubsequence(a, b)
    ensures IsSubsequence(a[1..], b)
    decreases |a| + |b|
  {
    if a[0] == b[0] {
      SubsequenceOfTail(a[1..], b);
    } else {
      SubsequenceDropHead(a, b[1..]);
      SubsequenceOfTail(a[1..], b);
    }
  }

  lemma {:induction false} KeepIsSubsequence(scores: seq<ScoreData>, keep: ScoreData -> bool)
    ensures IsSubsequence(Keep(scores, keep), scores)
    decreases |scores|
  {
    if |scores| > 0 {
      var rest := Keep(scores[1..], keep);
      KeepIsSubsequence(scores[1..], keep);
      if keep(scores[0]) {
        assert ([scores[0]] + rest)[1..] == rest;
      } else {
        SubsequenceOfTail(rest, scores);
      }
    }
  }

  lemma {:induction false} KeepSame(scores: seq<ScoreData>, keep: ScoreData -> bool, keep': ScoreData -> bool)
    requires forall x :: x in scores ==> keep(x) == keep'(x)
    ensures Keep(scores, keep) == Keep(scores, keep')
    decreases |scores|
  {
    if |scores| > 0 {
      KeepSame(scores[1..], keep, keep');
    }
  }

  lemma {:induction false} KeepEverything(scores: seq<ScoreData>, keep: ScoreData -> bool)
    requires forall x :: x in scores ==> keep(x)
    ensures Keep(scores, keep) == scores
    decreases |scores|
  {
    if |scores| > 0 {
      KeepEverything(scores[1..], keep);
      assert [scores[0]] + scores[1..] == scores;
    }
  }

  /** Both filters are order-preserving selections of the score list. */
  lemma FilterIsSubsequence(scores: seq<ScoreData>, term: string, selected: Option<int>)
    ensures IsSubsequence(FilterScores(scores, term, selected), scores)
    ensures IsSubsequence(FilterScoresIntended(scores, term, selected), scores)
  {
    KeepIsSubsequence(scores, x => MatchesAsWritten(x, term, selected));
    KeepIsSubsequence(scores, x => Matches(x, term, selected));
  }

  /** With an empty search term and no score selected, every row is shown. */
  lemma FilterWithoutCriteriaKeepsAll(scores: seq<ScoreData>)
    ensures FilterScores(scores, "", None) == scores
    ensures FilterScoresIntended(scores, "", None) == scores
  {
    KeepEverything(scores, x => MatchesAsWritten(x, "", None));
    KeepEverything(scores, x => Matches(x, "", None));
  }

  /** Once every row carries its applicant details the filter as written and
      the intended one show the same rows. */
  lemma FiltersAgreeWithApplicants(scores: seq<ScoreData>, term: string, selected: Option<int>)
    requires forall x :: x in scores ==> x.profile.Some?
    ensures FilterScores(scores, term, selected) == FilterScoresIntended(scores, term, selected)
  {
    KeepSame(scores, x => MatchesAsWritten(x, term, selected), x => Matches(x, term, selected));
  }

  // ---------------------------------------------------------------- rows

  /** `toggleRow` on the set of expanded row ids. */
  function Toggle(rows: set<string>, id: string): (r: set<string>)
    ensures id in r <==> id !in rows
    ensures forall x :: x != id ==> (x in r <==> x in rows)
  {
    if id in rows then rows - {id} else rows + {id}
  }

  /** Toggling a row twice restores the expansion state. */
  lemma ToggleTwice(rows: set<string>, id: string)
    ensures Toggle(Toggle(rows, id), id) == rows
  {
  }

  /** `fetchJobOfferAndProfile`: the record with job offer and applicant added
      when both fetches succeed, the record as it came otherwise. */
  function Enrich(s: ScoreData, offer: Response<JobOffer>, applicant: Response<Applicant>): (r: ScoreData)
    ensures r.id == s.id && r.score == s.score && r.reasoning == s.reasoning && r.user_id == s.user_id
    ensures offer.Ok? && applicant.Ok? ==> r.jobOffer == Some(offer.body) && r.profile == Some(applicant.body)
    ensures !(offer.Ok? && applicant.Ok?) ==> r == s
  {
    if offer.Ok? && applicant.Ok? then s.(jobOffer := Some(offer.body), profile := Some(applicant.body)) else s
  }

  /** Every row enriched independently, in the server's order. */
  function EnrichAll(rows: seq<ScoreData>, offerOf: ScoreData -> Response<JobOffer>,
                     applicantOf: ScoreData -> Response<Applicant>): (r: seq<ScoreData>)
    ensures |r| == |rows|
    ensures forall i :: 0 <= i < |rows| ==> r[i] == Enrich(rows[i], offerOf(rows[i]), applicantOf(rows[i]))
  {
    seq(|rows|, i requires 0 <= i < |rows| => Enrich(rows[i], offerOf(rows[i]), applicantOf(rows[i])))
  }

  /** One failed detail fetch degrades only its own row: every row is kept,
      and rows whose fetches succeed carry full details. */
  lemma PartialFailureKeepsRows(rows: seq<ScoreData>, offerOf: ScoreData -> Response<JobOffer>,
                                applicantOf: ScoreData -> Response<Applicant>, k: int)
    requires 0 <= k < |rows| && offerOf(rows[k]).Err?
    ensures |EnrichAll(rows, offerOf, applicantOf)| == |rows|
    ensures EnrichAll(rows, offerOf, applicantOf)[k] == rows[k]
    ensures forall i :: 0 <= i < |rows| && offerOf(rows[i]).Ok? && applicantOf(rows[i]).Ok? ==>
              EnrichAll(rows, offerOf, applicantOf)[i].jobOffer.Some?
  {
  }

  const ScoresPath: string := "/evaluator/eval"

  /** The two detail requests issued per row, row by row. */
  function DetailRequests(rows: seq<ScoreData>): (r: seq<Effect>)
    ensures |r| == 2 * |rows|
    decreases |rows|
  {
    if |rows| == 0 then []
    else [Request("GET", "/jobs/application/" + rows[0].job_application_id + "/job-offer", []),
          Request("GET", ProfileService.ProfilePath(rows[0].user_id), [])]
         + DetailRequests(rows[1..])
  }

  // ---------------------------------------------------------------- reasoning

  /** One paragraph of the reasoning as displayed. */
  datatype Paragraph = Heading(title: string, body: Option<string>) | Plain(text: string)

  lemma {:induction false} JoinStartsWithParts(parts: seq<string>, sep: string)
    requires |parts| >= 1
    ensures StartsWith(Join(parts, sep), parts[0])
    ensures |parts| == 1 ==> Join(parts, sep) == parts[0]
    ensures |parts| >= 2 ==> StartsWith(Join(parts, sep), parts[0] + sep + parts[1])
    ensures |parts| == 2 ==> Join(parts, sep) == parts[0] + sep + parts[1]
    ensures |parts| >= 3 ==> StartsWith(Join(parts, sep), parts[0] + sep + parts[1] + sep)
  {
    if |parts| >= 2 {
      var tail := Join(parts[1..], sep);
      JoinStartsWithParts(parts[1..], sep);
      assert Join(parts, sep) == parts[0] + sep + tail;
      assert tail[..|parts[1]|] == parts[1];
    }
  }

  lemma NotInPrefix(t: string, u: string, pat: string)
    requires !Contains(t, pat) && StartsWith(t, u)
    ensures !Contains(u, pat)
  {
    forall i | OccursAt(u, pat, i)
      ensures false
    {
      assert u[i..i + |pat|] == t[i..i + |pat|];
      assert OccursAt(t, pat, i);
    }
  }

  /** A paragraph starting with "**" is a heading: all "**" removed, the text
      before the first ':' as title and the text between the first and second
      ':' as body (absent without a ':'). Any other paragraph is shown as is. */
  function RenderParagraph(p: string): (r: Paragraph)
    ensures r.Heading? <==> StartsWith(p, "**")
    ensures r.Plain? ==> r.text == p
    ensures r.Heading? ==> !Contains(r.title, ":") && !Contains(r.title, "**")
    ensures r.Heading? && r.body.None? ==> r.title == RemoveAll(p, "**")
    ensures r.Heading? && r.body.Some? ==>
      !Contains(r.body.value, ":") && StartsWith(RemoveAll(p, "**"), r.title + ":" + r.body.value)
    ensures r.Heading? && r.body.Some? ==>
      var t := RemoveAll(p, "**");
      var e := |r.title| + 1 + |r.body.value|;
      e == |t| || t[e] == ':'
  {
    if StartsWith(p, "**") then
      var title := RemoveAll(p, "**");
      var parts := Split(title, ":");
      JoinStartsWithParts(parts, ":");
      NoDoubleStarLeft(p);
      NotInPrefix(title, parts[0], "**");
      Heading(parts[0], if |parts| >= 2 then Some(parts[1]) else None)
    else Plain(p)
  }

  /** `reasoning.split('\n\n').map(...)`: one rendered paragraph per piece. */
  function RenderReasoning(reasoning: string): (r: seq<Paragraph>)
    ensures |r| == |Split(reasoning, "\n\n")| >= 1
    ensures forall i :: 0 <= i < |r| ==> r[i] == RenderParagraph(Split(reasoning, "\n\n")[i])
  {
    var pieces := Split(reasoning, "\n\n");
    seq(|pieces|, i requires 0 <= i < |pieces| => RenderParagraph(pieces[i]))
  }

  /** Plain paragraphs never swallow a blank line, and joining the pieces with
      blank lines gives the reasoning back. */
  lemma ReasoningPiecesRoundTrip(reasoning: string)
    ensures Join(Split(reasoning, "\n\n"), "\n\n") == reasoning
    ensures forall i :: 0 <= i < |RenderReasoning(reasoning)| && RenderReasoning(reasoning)[i].Plain? ==>
              !Contains(RenderReasoning(reasoning)[i].text, "\n\n")
  {
  }

  // ---------------------------------------------------------------- component

  class Dashboard {
    var scores: seq<ScoreData>
    var loading: bool
    var searchTerm: string
    var filterScore: Option<int>
    var expandedRows: set<string>

    constructor ()
      ensures scores == [] && loading && searchTerm == "" && filterScore == None && expandedRows == {}
    {
      scores, loading, searchTerm, filterScore, expandedRows := [], true, "", None, {};
    }

    /** The rows on screen, filtered with the row test as written. */
    function Visible(): seq<ScoreData>
      reads this
    {
      FilterScores(scores, searchTerm, filterScore)
    }

    method SetSearchTerm(term: string)
      modifies this
      ensures searchTerm == term
      ensures scores == old(scores) && loading == old(loading) && filterScore == old(filterScore)
      ensures expandedRows == old(expandedRows)
    {
      searchTerm := term;
    }

    method SetFilterScore(selected: Option<int>)
      modifies this
      ensures filterScore == selected
      ensures scores == old(scores) && loading == old(loading) && searchTerm == old(searchTerm)
      ensures expandedRows == old(expandedRows)
    {
      filterScore := selected;
    }

    /** "Limpiar filtros": both criteria back to empty, so every row shows. */
    method ClearFilters()
      modifies this
      ensures searchTerm == "" && filterScore == None
      ensures scores == old(scores) && loading == old(loading) && expandedRows == old(expandedRows)
      ensures Visible() == scores
    {
      searchTerm, filterScore := "", None;
      FilterWithoutCriteriaKeepsAll(scores);
    }

    method ToggleRow(id: string)
      modifies this
      ensures expandedRows == Toggle(old(expandedRows), id)
      ensures scores == old(scores) && loading == old(loading)
      ensures searchTerm == old(searchTerm) && filterScore == old(filterScore)
    {
      var next := expandedRows;
      if id in next {
        next := next - {id};
      } else {
        next := next + {id};
      }
      expandedRows := next;
    }

    /** `fetchScores`: the list, then both details for every row; a failed list
      fetch keeps the old scores and shows a toast. Loading ends on every path. */
    method FetchScores(env: Env, list: Response<seq<ScoreData>>,
                       offerOf: ScoreData -> Response<JobOffer>, applicantOf: ScoreData -> Response<Applicant>)
      modifies this, env
      ensures !loading
      ensures list.Ok? ==> scores == EnrichAll(list.body, offerOf, applicantOf)
      ensures list.Err? ==> scores == old(scores)
      ensures env.log == old(env.log) + [Request("GET", ScoresPath, [])] +
        (if list.Ok? then DetailRequests(list.body) else [Toast("Error al cargar las evaluaciones", Error)])
      ensures searchTerm == old(searchTerm) && filterScore == old(filterScore) && expandedRows == old(expandedRows)
      ensures env.storage == old(env.storage) && env.authHeader == old(env.authHeader)
    {
      env.Emit(Request("GET", ScoresPath, []));
      match list {
        case Ok(rows) =>
          var requests := DetailRequests(rows);
          var i := 0;
          while i < |requests|
            invariant 0 <= i <= |requests|
            invariant env.log == old(env.log) + [Request("GET", ScoresPath, [])] + requests[..i]
            invariant env.storage == old(env.storage) && env.authHeader == old(env.authHeader)
            invariant searchTerm == old(searchTerm) && filterScore == old(filterScore)
            invariant expandedRows == old(expandedRows)
          {
            env.Emit(requests[i]);
            assert requests[..i + 1] == requests[..i] + [requests[i]];
            i := i + 1;
          }
          assert requests[..i] == requests;
          scores := EnrichAll(rows, offerOf, applicantOf);
        case Err(_) =>
          env.Emit(Toast("Error al cargar las evaluaciones", Error));
      }
      loading := false;
    }
  }
}
