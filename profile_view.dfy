/** The profile view (src/component/profile.tsx): the not-found screen, the
    tab index mapping, the CV download and the date labels. */
module ProfileView {
  import opened Wrappers
  import opened Types
  import opened Browser

  /** The tab names in tab order; any other index yields no name. */
  function TabFor(index: int): (t: Option<string>)
    ensures index == 0 <==> t == Some("experience")
    ensures index == 1 <==> t == Some("education")
    ensures index == 2 <==> t == Some("profile")
    ensures t.None? <==> !(0 <= index < 3)
  {
    var tabs := ["experience", "education", "profile"];
    if 0 <= index < |tabs| then Some(tabs[index]) else None
  }

  /** The download buttons show iff there is at least one document. */
  predicate ShowDownloadButtons(p: Profile) {
    p.documents.Some? && |p.documents.value| > 0
  }

  /** The URL the download opens: the last document's, when it is truthy. */
  function DownloadTarget(p: Profile): (url: Option<string>)
    ensures url.Some? <==> ShowDownloadButtons(p) && Truthy(p.documents.value[|p.documents.value| - 1].file_url)
    ensures url.Some? ==> url == p.documents.value[|p.documents.value| - 1].file_url
  {
    match p.documents
    case None => None
    case Some(docs) =>
      if |docs| > 0 && Truthy(docs[|docs| - 1].file_url) then docs[|docs| - 1].file_url else None
  }

  /** Only the last document counts: earlier ones are never opened. */
  lemma DownloadUsesLastDocument(docs: seq<Document>, last: Document, p: Profile)
    requires p.documents == Some(docs + [last])
    ensures DownloadTarget(p) == (if Truthy(last.file_url) then last.file_url else None)
  {
    assert (docs + [last])[|docs + [last]| - 1] == last;
  }

  /** `formatDate`: '' for a missing or empty date; any other date goes through
      the locale formatter, which is a parameter here. */
  function FormatDate(date: Option<string>, locale: string -> string): (r: string)
    ensures !Truthy(date) ==> r == ""
    ensures Truthy(date) ==> r == locale(date.value)
  {
    if Truthy(date) then locale(date.value) else ""
  }

  /** The end of an experience: 'Actual' while current, else its formatted end date. */
  function EndLabel(e: Experience, locale: string -> string): (r: string)
    ensures e.current ==> r == "Actual"
    ensures !e.current ==> r == FormatDate(e.end_date, locale)
    ensures !e.current && !Truthy(e.end_date) ==> r == ""
  {
    if e.current then "Actual" else FormatDate(e.end_date, locale)
  }

  /** What the component renders. */
  datatype Screen = NotFound | Details(downloadButtons: bool)

  function Render(profileData: Option<Profile>): (s: Screen)
    ensures s == NotFound <==> profileData.None?
    ensures s.Details? ==> s.downloadButtons == ShowDownloadButtons(profileData.value)
  {
    if profileData.None? then NotFound else Details(ShowDownloadButtons(profileData.value))
  }

  class ProfileView {
    const profileData: Option<Profile>
    var activeTab: Option<string>

    constructor (profileData: Option<Profile>)
      ensures this.profileData == profileData && activeTab == Some("experience")
    {
      this.profileData := profileData;
      activeTab := Some("experience");
    }

    /** `handleTabChange`. */
    method HandleTabChange(index: int)
      modifies this
      ensures activeTab == TabFor(index)
    {
      var tabs := ["experience", "education", "profile"];
      if 0 <= index < |tabs| {
        activeTab := Some(tabs[index]);
      } else {
        activeTab := None;
      }
    }

    /** `handleDownloadCV`, reachable only on the details screen: the last
        document opens in a new tab, or an error toast says there is none. */
    method HandleDownloadCV(env: Env)
      requires profileData.Some?
      modifies env
      ensures DownloadTarget(profileData.value).Some? ==>
                env.log == old(env.log) + [OpenTab(DownloadTarget(profileData.value).value)]
      ensures DownloadTarget(profileData.value).None? ==> env.log == old(env.log) + [Toast("Error", Error)]
      ensures env.storage == old(env.storage) && env.authHeader == old(env.authHeader)
    {
      var docs := profileData.value.documents;
      if docs.Some? && |docs.value| > 0 && Truthy(docs.value[|docs.value| - 1].file_url) {
        env.Emit(OpenTab(docs.value[|docs.value| - 1].file_url.value));
      } else {
        env.Emit(Toast("Error", Error));
      }
    }
  }
}
