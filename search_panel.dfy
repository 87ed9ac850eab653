/** The filter panel (src/component/serach.tsx): five inputs and a search
    button that hands the filter record to the parent. */
module SearchPanel {
  import opened Wrappers
  import opened Browser

  /** The record passed to `onSearch`. */
  datatype PanelFilters = PanelFilters(title: string, location: string, jobType: string, level: string, isRemote: bool)

  /** `handleSearch`'s decision: nothing when both title and location are
      empty, the full record otherwise. */
  function PanelSearch(title: string, location: string, jobType: string, level: string, isRemote: bool)
    : (r: Option<PanelFilters>)
    ensures r.None? <==> title == "" && location == ""
    ensures r.Some? ==> r.value == PanelFilters(title, location, jobType, level, isRemote)
  {
    if title == "" && location == "" then None else Some(PanelFilters(title, location, jobType, level, isRemote))
  }

  /** The type and level filters never decide whether a search goes out. */
  lemma OnlyTitleAndLocationGate(title: string, location: string, jobType: string, level: string, isRemote: bool,
                                 jobType': string, level': string, isRemote': bool)
    ensures PanelSearch(title, location, jobType, level, isRemote).Some?
        == PanelSearch(title, location, jobType', level', isRemote').Some?
  {
  }

  class SearchPanel {
    var title: string
    var location: string
    var jobType: string
    var level: string
    var isRemote: bool

    constructor ()
      ensures title == "" && location == "" && jobType == "" && level == "" && !isRemote
    {
      title, location, jobType, level, isRemote := "", "", "", "", false;
    }

    method SetTitle(v: string)
      modifies this
      ensures title == v
      ensures location == old(location) && jobType == old(jobType) && level == old(level) && isRemote == old(isRemote)
    {
      title := v;
    }

    method SetLocation(v: string)
      modifies this
      ensures location == v
      ensures title == old(title) && jobType == old(jobType) && level == old(level) && isRemote == old(isRemote)
    {
      location := v;
    }

    method SetJobType(v: string)
      modifies this
      ensures jobType == v
      ensures title == old(title) && location == old(location) && level == old(level) && isRemote == old(isRemote)
    {
      jobType := v;
    }

    method SetLevel(v: string)
      modifies this
      ensures level == v
      ensures title == old(title) && location == old(location) && jobType == old(jobType) && isRemote == old(isRemote)
    {
      level := v;
    }

    method SetIsRemote(v: bool)
      modifies this
      ensures isRemote == v
      ensures title == old(title) && location == old(location) && jobType == old(jobType) && level == old(level)
    {
      isRemote := v;
    }

    /** `handleSearch`: an error toast and no call when title and location are
        both empty; otherwise `onSearch` once, with the current five values. */
    method HandleSearch(env: Env) returns (delivered: Option<PanelFilters>)
      modifies env
      ensures delivered == PanelSearch(title, location, jobType, level, isRemote)
      ensures delivered.None? ==> env.log == old(env.log) + [Toast("Error", Error)]
      ensures delivered.Some? ==> env.log == old(env.log) + [Callback("onSearch")]
      ensures env.storage == old(env.storage) && env.authHeader == old(env.authHeader)
    {
      if title == "" && location == "" {
        env.Emit(Toast("Error", Error));
        return None;
      }
      delivered := Some(PanelFilters(title, location, jobType, level, isRemote));
      env.Emit(Callback("onSearch"));
    }
  }
}
