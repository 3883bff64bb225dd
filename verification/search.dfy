/** The global search provider: on every `dashboard-search` event it keeps the
    raw term and, for a non-blank term, lists canned results for the current
    page, one per rule whose keywords occur in the lower-cased term, in rule
    order. */
module Search {
  import opened Wrappers
  import opened Text
  import opened Seqs

  datatype ResultType = KpiResult | ChartResult | TableResult | UserResult | ReportResult | SettingResult

  datatype SearchResult = SearchResult(id: string, kind: ResultType, title: string, content: string, path: string)

  /** A result and the keywords any one of which produces it. */
  datatype Rule = Rule(keywords: seq<string>, result: SearchResult)

  const DashboardRules := [
    Rule(["revenue", "money", "dollar"],
         SearchResult("revenue-kpi", KpiResult, "Revenue KPI", "Revenue: $24,500 (+12.3%)", "/")),
    Rule(["user", "people"],
         SearchResult("users-kpi", KpiResult, "Users KPI", "Users: 3,200 (+3.1%)", "/")),
    Rule(["conversion", "check"],
         SearchResult("conversions-kpi", KpiResult, "Conversions KPI", "Conversions: 875 (+7.5%)", "/")),
    Rule(["growth", "trend"],
         SearchResult("growth-kpi", KpiResult, "Growth KPI", "Growth: 18% (+5.4%)", "/")),
    Rule(["chart", "graph"],
         SearchResult("charts", ChartResult, "Analytics Charts", "Line Chart, Bar Chart, Pie Chart", "/")),
    Rule(["table", "data"],
         SearchResult("user-table", TableResult, "User Table", "Data table with user information", "/"))
  ]

  const ReportsRules := [
    Rule(["campaign", "total"],
         SearchResult("campaigns-report", ReportResult, "Total Campaigns", "Campaign analytics and metrics", "/reports")),
    Rule(["impression", "view"],
         SearchResult("impressions-report", ReportResult, "Impressions", "View and impression metrics", "/reports")),
    Rule(["click", "interaction"],
         SearchResult("clicks-report", ReportResult, "Clicks", "Click-through rates and interactions", "/reports")),
    Rule(["revenue", "money"],
         SearchResult("revenue-report", ReportResult, "Revenue", "Revenue analytics and financial data", "/reports"))
  ]

  const SettingRules := [
    Rule(["profile", "user", "name"],
         SearchResult("profile-settings", SettingResult, "Profile Settings", "Personal information and profile management", "/setting")),
    Rule(["notification", "alert"],
         SearchResult("notification-settings", SettingResult, "Notification Settings", "Configure notification preferences", "/setting")),
    Rule(["preference", "setting"],
         SearchResult("preferences-settings", SettingResult, "User Preferences", "Customize application settings", "/setting")),
    Rule(["billing", "payment", "subscription"],
         SearchResult("billing-settings", SettingResult, "Billing & Subscription", "Manage subscription and payment methods", "/setting"))
  ]

  /** The rules of a page; other pages have none. */
  function RulesFor(pathname: string): (rules: seq<Rule>)
    ensures pathname !in {"/", "/reports", "/setting"} ==> rules == []
  {
    if pathname == "/" then DashboardRules
    else if pathname == "/reports" then ReportsRules
    else if pathname == "/setting" then SettingRules
    else []
  }

  /** Every result of a table, one per rule, in rule order. */
  function Results(rules: seq<Rule>): (r: seq<SearchResult>)
    ensures |r| == |rules| && forall i :: 0 <= i < |rules| ==> r[i] == rules[i].result
  {
    seq(|rules|, i requires 0 <= i < |rules| => rules[i].result)
  }

  /** The results of the rules whose keywords occur in `q`, in rule order. */
  function Fire(rules: seq<Rule>, q: string): (r: seq<SearchResult>)
    ensures |r| <= |rules|
    ensures forall x :: x in r <==> exists i :: 0 <= i < |rules| && rules[i].result == x && ContainsAny(q, rules[i].keywords)
    ensures IsSubseq(r, Results(rules))
    decreases |rules|
  {
    if |rules| == 0 then []
    else
      var rest := Fire(rules[1..], q);
      assert forall i :: 1 <= i < |rules| ==> rules[i] == rules[1..][i - 1];
      assert Results(rules)[1..] == Results(rules[1..]);
      if ContainsAny(q, rules[0].keywords) then
        assert ([rules[0].result] + rest)[1..] == rest;
        [rules[0].result] + rest
      else rest
  }

  /** `performSearch`: the current page's rules applied to the lower-cased
      query. */
  function PerformSearch(pathname: string, query: string): (r: seq<SearchResult>)
    ensures |r| <= |RulesFor(pathname)|
    ensures forall x :: x in r <==>
              exists i :: 0 <= i < |RulesFor(pathname)| && RulesFor(pathname)[i].result == x
                          && ContainsAny(Lower(query), RulesFor(pathname)[i].keywords)
    ensures IsSubseq(r, Results(RulesFor(pathname)))
  {
    Fire(RulesFor(pathname), Lower(query))
  }

  /** The search ignores case: the query and its lower-cased form find the same
      results. */
  lemma SearchIgnoresCase(pathname: string, query: string)
    ensures PerformSearch(pathname, query) == PerformSearch(pathname, Lower(query))
  {
    LowerIdempotent(query);
  }

  /** A page's result appears exactly when one of its rule's keywords occurs in
      the lower-cased query. */
  lemma ResultIffKeyword(pathname: string, query: string, i: nat)
    requires i < |RulesFor(pathname)|
    ensures RulesFor(pathname)[i].result in PerformSearch(pathname, query) <==>
              exists k :: 0 <= k < |RulesFor(pathname)[i].keywords| && Contains(Lower(query), RulesFor(pathname)[i].keywords[k])
  {
    RuleTablesWellFormed();
    FireIffKeyword(RulesFor(pathname), Lower(query), i);
  }

  /** In a table with distinct ids, rule `i` fires exactly when one of its own
      keywords occurs. */
  lemma FireIffKeyword(rules: seq<Rule>, q: string, i: nat)
    requires RuleResultsDistinct(rules) && i < |rules|
    ensures rules[i].result in Fire(rules, q) <==>
              exists k :: 0 <= k < |rules[i].keywords| && Contains(q, rules[i].keywords[k])
  {
    ContainsAnyIff(q, rules[i].keywords);
    if rules[i].result in Fire(rules, q) {
      var j :| 0 <= j < |rules| && rules[j].result == rules[i].result && ContainsAny(q, rules[j].keywords);
      assert j == i;
    }
  }

  /** No two rules of a table share a result id. */
  predicate RuleResultsDistinct(rules: seq<Rule>) {
    forall i, j :: 0 <= i < j < |rules| ==> rules[i].result.id != rules[j].result.id
  }

  /** Every result of a table carries the given path. */
  predicate RulePaths(rules: seq<Rule>, path: string) {
    forall i :: 0 <= i < |rules| ==> rules[i].result.path == path
  }

  lemma {:induction false} FireDistinct(rules: seq<Rule>, q: string)
    requires RuleResultsDistinct(rules)
    ensures forall i, j :: 0 <= i < j < |Fire(rules, q)| ==> Fire(rules, q)[i].id != Fire(rules, q)[j].id
    decreases |rules|
  {
    if |rules| > 0 {
      var rest := Fire(rules[1..], q);
      assert RuleResultsDistinct(rules[1..]) by {
        forall i, j | 0 <= i < j < |rules[1..]|
          ensures rules[1..][i].result.id != rules[1..][j].result.id
        {
          assert rules[1..][i] == rules[i + 1] && rules[1..][j] == rules[j + 1];
        }
      }
      FireDistinct(rules[1..], q);
      if ContainsAny(q, rules[0].keywords) {
        forall j | 0 <= j < |rest|
          ensures rest[j].id != rules[0].result.id
        {
          assert rest[j] in rest;
          var k :| 0 <= k < |rules[1..]| && rules[1..][k].result == rest[j] && ContainsAny(q, rules[1..][k].keywords);
          assert rules[1..][k] == rules[k + 1];
        }
        var r := [rules[0].result] + rest;
        forall i, j | 0 <= i < j < |r|
          ensures r[i].id != r[j].id
        {
          if i == 0 {
            assert r[j] == rest[j - 1];
          } else {
            assert r[i] == rest[i - 1] && r[j] == rest[j - 1];
          }
        }
      }
    }
  }

  /** The three tables: distinct ids, each result on its own page. */
  lemma RuleTablesWellFormed()
    ensures RuleResultsDistinct(DashboardRules) && RulePaths(DashboardRules, "/")
    ensures RuleResultsDistinct(ReportsRules) && RulePaths(ReportsRules, "/reports")
    ensures RuleResultsDistinct(SettingRules) && RulePaths(SettingRules, "/setting")
  {
    DashboardRulesWellFormed();
  }

  lemma DashboardRulesWellFormed()
    ensures RuleResultsDistinct(DashboardRules) && RulePaths(DashboardRules, "/")
  {
  }

  /** Every table's results carry the path of the page it belongs to. */
  lemma RulesForPaths(pathname: string)
    ensures RulePaths(RulesFor(pathname), pathname)
  {
    RuleTablesWellFormed();
  }

  /** The results fired from a table all carry the table's path. */
  lemma FirePaths(rules: seq<Rule>, q: string, path: string)
    requires RulePaths(rules, path)
    ensures forall i :: 0 <= i < |Fire(rules, q)| ==> Fire(rules, q)[i].path == path
  {
    var r := Fire(rules, q);
    forall i | 0 <= i < |r|
      ensures r[i].path == path
    {
      assert r[i] in r;
    }
  }

  /** Results never repeat, always point at the page searched, number at most
      six on the dashboard and four on the other two pages, and there are none
      on any other page. */
  lemma SearchResultsShape(pathname: string, query: string)
    ensures var r := PerformSearch(pathname, query);
            && (forall i, j :: 0 <= i < j < |r| ==> r[i].id != r[j].id)
            && (forall x :: x in r ==> x.path == pathname)
            && |r| <= (if pathname == "/" then 6 else 4)
            && (pathname !in {"/", "/reports", "/setting"} ==> r == [])
  {
    RuleTablesWellFormed();
    FireDistinct(RulesFor(pathname), Lower(query));
  }

  /** The provider's state. */
  datatype SearchState = SearchState(searchTerm: string, isSearching: bool, searchResults: seq<SearchResult>)

  const InitialSearch := SearchState("", false, [])

  /** The `dashboard-search` handler: the raw term is kept as typed; a blank
      term clears the results, any other runs the search. Searching is over
      when the handler returns. */
  function HandleSearch(st: SearchState, pathname: string, detail: string): (r: SearchState)
    ensures r.searchTerm == detail && !r.isSearching
    ensures IsBlank(detail) ==> r.searchResults == []
    ensures !IsBlank(detail) ==> r.searchResults == PerformSearch(pathname, detail)
  {
    TrimEmptyIffBlank(detail);
    if Trim(detail) == "" then SearchState(detail, false, [])
    else SearchState(detail, false, PerformSearch(pathname, detail))
  }

  /** `useSearch` outside a provider throws. */
  function UseSearch(context: Option<SearchState>): (r: Result<SearchState, string>)
    ensures context.Some? <==> r.Ok?
    ensures r.Ok? ==> r.value == context.value
    ensures r.Err? ==> r.error == "useSearch must be used within a SearchProvider"
  {
    match context
    case None => Err("useSearch must be used within a SearchProvider")
    case Some(c) => Ok(c)
  }
}
