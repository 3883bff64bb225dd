/** The path of a keystroke in the header search box: the layout keeps the raw
    text and, on the dashboard and reports pages, broadcasts it; the page on
    screen lower-cases it into its query, and a search provider listening on
    the window receives the same raw text. */
module Pipeline {
  import opened Wrappers
  import opened Text
  import Layout
  import Search
  import Dashboard
  import Reports

  /** The listeners' states. Only the page at `pathname` is mounted; the
      other page's state is carried along untouched. */
  datatype Shell = Shell(
    layout: Layout.LayoutState,
    search: Search.SearchState,
    dashboard: Dashboard.PageState,
    reports: Reports.ReportsState)

  /** One change of the search box's text on the page at `pathname`. */
  function Type(st: Shell, pathname: string, query: string): (r: Shell)
    ensures r.layout == st.layout.(searchTerm := query)
    ensures pathname == "/" ==> r.dashboard == st.dashboard.(searchQuery := Lower(query)) && r.reports == st.reports
    ensures pathname == "/reports" ==> r.reports == st.reports.(searchQuery := Lower(query)) && r.dashboard == st.dashboard
    ensures Layout.Broadcasts(pathname) ==> r.search == Search.HandleSearch(st.search, pathname, query)
    ensures !Layout.Broadcasts(pathname) ==> r.search == st.search && r.dashboard == st.dashboard && r.reports == st.reports
  {
    var (layout, detail) := Layout.HandleSearchChange(st.layout, pathname, query);
    match detail
    case None => st.(layout := layout)
    case Some(d) =>
      var search := Search.HandleSearch(st.search, pathname, d);
      if pathname == "/" then Shell(layout, search, Dashboard.OnSearch(st.dashboard, d), st.reports)
      else Shell(layout, search, st.dashboard, Reports.OnSearch(st.reports, d))
  }

  /** After a keystroke on a broadcasting page, the box, the provider and the
      page agree: the box and the provider hold the raw text, the page its
      lower-cased form. */
  lemma ListenersAgree(st: Shell, pathname: string, query: string)
    requires Layout.Broadcasts(pathname)
    ensures var r := Type(st, pathname, query);
            r.layout.searchTerm == r.search.searchTerm == query
            && (pathname == "/" ==> r.dashboard.searchQuery == Lower(r.search.searchTerm))
            && (pathname == "/reports" ==> r.reports.searchQuery == Lower(r.search.searchTerm))
  {
  }

  /** No result in the provider points at the settings page. */
  predicate NoSettingResults(s: Search.SearchState) {
    forall i :: 0 <= i < |s.searchResults| ==> s.searchResults[i].path != "/setting"
  }

  /** Typing anywhere keeps the provider free of settings results: the layout
      never broadcasts from "/setting", and a search elsewhere only yields
      results for that other page. */
  lemma TypeKeepsNoSettingResults(st: Shell, pathname: string, query: string)
    requires NoSettingResults(st.search)
    ensures NoSettingResults(Type(st, pathname, query).search)
  {
    var s := Type(st, pathname, query).search;
    if Layout.Broadcasts(pathname) {
      assert s == Search.HandleSearch(st.search, pathname, query);
      ProviderResultsOnPage(st.search, pathname, query);
    } else {
      assert s == st.search;
    }
  }

  /** The provider's results after a search on `pathname` all point there. */
  lemma ProviderResultsOnPage(s: Search.SearchState, pathname: string, query: string)
    ensures forall i :: 0 <= i < |Search.HandleSearch(s, pathname, query).searchResults| ==>
              Search.HandleSearch(s, pathname, query).searchResults[i].path == pathname
  {
    var r := Search.HandleSearch(s, pathname, query).searchResults;
    if !IsBlank(query) {
      assert r == Search.Fire(Search.RulesFor(pathname), Lower(query));
      Search.RulesForPaths(pathname);
      Search.FirePaths(Search.RulesFor(pathname), Lower(query), pathname);
    }
  }

  /** A session of keystrokes, each on the page then on screen. */
  function TypeAll(st: Shell, keys: seq<(string, string)>): Shell
    decreases |keys|
  {
    if |keys| == 0 then st else TypeAll(Type(st, keys[0].0, keys[0].1), keys[1..])
  }

  /** Starting from a provider with no results, no session of typing ever
      produces a settings result: the settings rules of the search provider are
      unreachable from the header search box. */
  lemma {:induction false} SettingRulesUnreachable(st: Shell, keys: seq<(string, string)>)
    requires NoSettingResults(st.search)
    ensures NoSettingResults(TypeAll(st, keys).search)
    decreases |keys|
  {
    if |keys| > 0 {
      TypeKeepsNoSettingResults(st, keys[0].0, keys[0].1);
      SettingRulesUnreachable(Type(st, keys[0].0, keys[0].1), keys[1..]);
    }
  }

  /** In particular from the initial provider state. */
  lemma InitialSessionHasNoSettingResults(st: Shell, keys: seq<(string, string)>)
    requires st.search == Search.InitialSearch
    ensures forall i :: 0 <= i < |TypeAll(st, keys).search.searchResults| ==>
              TypeAll(st, keys).search.searchResults[i].path != "/setting"
  {
    SettingRulesUnreachable(st, keys);
  }
}
