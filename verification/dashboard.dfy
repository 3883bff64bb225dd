/** The dashboard home page: it lower-cases the search text it receives, keeps
    the KPIs and users that mention it, and decides which of its three
    sections (KPI cards, charts, user table) to show. */
module Dashboard {
  import opened Wrappers
  import opened Text
  import opened Seqs
  import opened Config

  /** The page's state: loaded users and KPIs, the loading flag and the
      current (already lower-cased) search query. */
  datatype PageState = PageState(users: seq<User>, kpis: seq<KpiData>, isLoading: bool, searchQuery: string)

  const InitialPage := PageState([], [], true, "")

  /** What `fetch('/api/users')` yields. */
  datatype UsersFetch = UsersOk(users: seq<User>) | UsersNotOk | UsersThrew

  /** The mount-time load: the KPIs come from `loadConfig` (which never
      throws), the users from the users endpoint when it answers OK; any
      failure there leaves the users as they were. Loading always ends. */
  function LoadDashboard(st: PageState, s: ConfigService, cf: ConfigFetch, uf: UsersFetch): (r: (PageState, ConfigService))
    ensures !r.0.isLoading
    ensures r.0.kpis == r.1.config.kpis
    ensures r.0.users == (if uf.UsersOk? then uf.users else st.users)
    ensures r.0.searchQuery == st.searchQuery
    ensures r.1 == LoadConfig(s, cf).0
  {
    var (s1, c) := LoadConfig(s, cf);
    var users := if uf.UsersOk? then uf.users else st.users;
    (st.(kpis := c.kpis, users := users, isLoading := false), s1)
  }

  /** The `dashboard-search` listener: the query is lower-cased once, on
      receipt. */
  function OnSearch(st: PageState, detail: string): (r: PageState)
    ensures IsLowered(r.searchQuery) && r.searchQuery == Lower(detail)
    ensures r.users == st.users && r.kpis == st.kpis && r.isLoading == st.isLoading
  {
    st.(searchQuery := Lower(detail))
  }

  /** A KPI matches when the query is empty or occurs in its lower-cased title
      or value. */
  predicate KpiMatches(q: string, k: KpiData) {
    q == "" || Contains(Lower(k.title), q) || Contains(Lower(k.value), q)
  }

  /** A user matches when the query is empty or occurs in the lower-cased
      name, email, role or plan (the last two only when non-empty). */
  predicate UserMatches(q: string, u: User) {
    || q == ""
    || Contains(Lower(u.name), q)
    || Contains(Lower(u.email), q)
    || (u.role != "" && Contains(Lower(u.role), q))
    || (u.plan != "" && Contains(Lower(u.plan), q))
  }

  /** `filteredKpis`: the matching KPIs, in order. */
  function FilteredKpis(kpis: seq<KpiData>, q: string): (r: seq<KpiData>)
    ensures forall k :: k in r <==> k in kpis && KpiMatches(q, k)
    ensures IsSubseq(r, kpis)
    ensures forall k :: multiset(r)[k] == if KpiMatches(q, k) then multiset(kpis)[k] else 0
  {
    FilterMembers(kpis, k => KpiMatches(q, k));
    FilterIsSubseq(kpis, k => KpiMatches(q, k));
    Filter(kpis, k => KpiMatches(q, k))
  }

  /** `filteredUsers`: the matching users, in order. */
  function FilteredUsers(users: seq<User>, q: string): (r: seq<User>)
    ensures forall u :: u in r <==> u in users && UserMatches(q, u)
    ensures IsSubseq(r, users)
    ensures forall u :: multiset(r)[u] == if UserMatches(q, u) then multiset(users)[u] else 0
  {
    FilterMembers(users, u => UserMatches(q, u));
    FilterIsSubseq(users, u => UserMatches(q, u));
    Filter(users, u => UserMatches(q, u))
  }

  /** An empty query keeps everything; re-filtering a filtered list with the
      same query changes nothing. */
  lemma FiltersEmptyQueryAndIdempotent(kpis: seq<KpiData>, users: seq<User>, q: string)
    ensures FilteredKpis(kpis, "") == kpis && FilteredUsers(users, "") == users
    ensures FilteredKpis(FilteredKpis(kpis, q), q) == FilteredKpis(kpis, q)
    ensures FilteredUsers(FilteredUsers(users, q), q) == FilteredUsers(users, q)
  {
    FilterKeepsAll(kpis, k => KpiMatches("", k));
    FilterKeepsAll(users, u => UserMatches("", u));
    FilterIdempotent(kpis, k => KpiMatches(q, k));
    FilterIdempotent(users, u => UserMatches(q, u));
  }

  predicate ShowKpis(kpis: seq<KpiData>, q: string) {
    q == "" || |FilteredKpis(kpis, q)| > 0
  }

  predicate ShowCharts(q: string) {
    || q == ""
    || Contains(q, "chart")
    || Contains(q, "revenue")
    || Contains(q, "sales")
    || Contains(q, "user")
    || Contains(q, "growth")
  }

  predicate ShowTable(users: seq<User>, q: string) {
    q == "" || |FilteredUsers(users, q)| > 0 || Contains(q, "user") || Contains(q, "table")
  }

  /** The "No results found" banner. */
  predicate ShowNoResults(kpis: seq<KpiData>, users: seq<User>, q: string) {
    q != "" && !ShowKpis(kpis, q) && !ShowCharts(q) && !ShowTable(users, q)
  }

  /** The sections' visibility in terms of the records themselves: KPI cards
      show iff the query is empty or some KPI matches; the table shows iff the
      query is empty, some user matches, or it names users or tables. */
  lemma SectionsIff(kpis: seq<KpiData>, users: seq<User>, q: string)
    ensures ShowKpis(kpis, q) <==> q == "" || exists k :: k in kpis && KpiMatches(q, k)
    ensures ShowTable(users, q) <==>
              q == "" || (exists u :: u in users && UserMatches(q, u)) || Contains(q, "user") || Contains(q, "table")
  {
    var fk := FilteredKpis(kpis, q);
    var fu := FilteredUsers(users, q);
    if |fk| > 0 { assert fk[0] in fk; }
    if |fu| > 0 { assert fu[0] in fu; }
  }

  /** The banner shows exactly when a non-empty query matches no KPI, no user,
      and none of the chart or table keywords. */
  lemma NoResultsIff(kpis: seq<KpiData>, users: seq<User>, q: string)
    ensures ShowNoResults(kpis, users, q) <==>
              && q != ""
              && (forall k :: k in kpis ==> !KpiMatches(q, k))
              && (forall u :: u in users ==> !UserMatches(q, u))
              && !Contains(q, "chart") && !Contains(q, "revenue") && !Contains(q, "sales")
              && !Contains(q, "user") && !Contains(q, "growth") && !Contains(q, "table")
  {
    SectionsIff(kpis, users, q);
  }

  /** What the page renders: a skeleton while loading, otherwise the banner
      flag and the visible sections with the data each is given. */
  datatype PageView =
    | Skeleton
    | Sections(noResults: bool, kpiCards: Option<seq<KpiData>>, charts: bool, userTable: Option<seq<User>>)

  function Render(st: PageState): (v: PageView)
    ensures st.isLoading <==> v.Skeleton?
    ensures v.Sections? && v.kpiCards.Some? ==> v.kpiCards.value == FilteredKpis(st.kpis, st.searchQuery)
    ensures v.Sections? && v.userTable.Some? ==> v.userTable.value == FilteredUsers(st.users, st.searchQuery)
    ensures v.Sections? ==> v.noResults == ShowNoResults(st.kpis, st.users, st.searchQuery)
    ensures v.Sections? ==> (v.kpiCards.Some? <==> ShowKpis(st.kpis, st.searchQuery))
    ensures v.Sections? ==> (v.charts <==> ShowCharts(st.searchQuery))
    ensures v.Sections? ==> (v.userTable.Some? <==> ShowTable(st.users, st.searchQuery))
    ensures v.Sections? && st.searchQuery == "" ==>
              !v.noResults && v.kpiCards == Some(st.kpis) && v.charts && v.userTable == Some(st.users)
  {
    if st.isLoading then Skeleton
    else
      var q := st.searchQuery;
      FiltersEmptyQueryAndIdempotent(st.kpis, st.users, q);
      Sections(
        ShowNoResults(st.kpis, st.users, q),
        if ShowKpis(st.kpis, q) then Some(FilteredKpis(st.kpis, q)) else None,
        ShowCharts(q),
        if ShowTable(st.users, q) then Some(FilteredUsers(st.users, q)) else None)
  }

  /** The banner and the three sections exclude each other: when the banner
      shows, no section does, and when no section shows for a non-empty
      query, the banner does. */
  lemma BannerExcludesSections(st: PageState)
    requires !st.isLoading
    ensures var v := Render(st);
            v.noResults <==> st.searchQuery != "" && v.kpiCards.None? && !v.charts && v.userTable.None?
  {
  }
}
