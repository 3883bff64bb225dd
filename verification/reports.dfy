/** The reports page: it fetches a summary and the analytics data, filters
    campaigns and channels by the lower-cased search query, decides which of
    its five sections to show, and hands each widget its data. */
module Reports {
  import opened Wrappers
  import opened Text
  import opened Seqs
  import opened Config
  import ChannelChart

  /** The summary endpoint's record. */
  datatype ReportSummary = ReportSummary(totalCampaigns: int, impressions: string, clicks: string, revenue: string)

  /** What a `catch` block receives: an `Error` with its message, or any other
      thrown value. */
  datatype Thrown = ErrorThrown(message: string) | OtherThrown

  /** `err instanceof Error ? err.message : 'An error occurred'`. */
  function CaughtMessage(t: Thrown): (m: string)
    ensures t.ErrorThrown? ==> m == t.message
    ensures t.OtherThrown? ==> m == "An error occurred"
  {
    match t
    case ErrorThrown(msg) => msg
    case OtherThrown => "An error occurred"
  }

  /** The summary response body: the parsed record, or the message of the
      `SyntaxError` that `res.json()` throws. */
  datatype SummaryBody = SummaryJson(summary: ReportSummary) | SummaryUnparsable(syntaxError: string)

  datatype SummaryFetch = SummaryResponded(ok: bool, body: SummaryBody) | SummaryThrew(thrown: Thrown)

  /** The analytics response body `{ success, data, message? }`, or the
      message of the `SyntaxError` that `res.json()` throws. */
  datatype AnalyticsBody =
    | AnalyticsJson(success: bool, data: Option<AnalyticsData>, message: Option<string>)
    | AnalyticsUnparsable(syntaxError: string)

  datatype AnalyticsFetch = AnalyticsResponded(ok: bool, body: AnalyticsBody) | AnalyticsThrew(thrown: Thrown)

  /** The page's state. `lastUpdated` is the time of the last good summary;
      the clock is a parameter of `FetchData`. */
  datatype ReportsState = ReportsState(
    data: Option<ReportSummary>,
    analyticsData: Option<AnalyticsData>,
    isLoading: bool,
    isAnalyticsLoading: bool,
    error: Option<string>,
    analyticsError: Option<string>,
    lastUpdated: Option<int>,
    searchQuery: string)

  const InitialReports := ReportsState(None, None, true, true, None, None, None, "")

  /** `fetchData`: a good response replaces the summary, stamps the time and
      clears the error; every failure keeps the previous summary and records
      why. Loading always ends. The analytics half of the state is untouched. */
  function FetchData(st: ReportsState, f: SummaryFetch, now: int): (r: ReportsState)
    ensures !r.isLoading
    ensures r.analyticsData == st.analyticsData && r.isAnalyticsLoading == st.isAnalyticsLoading
    ensures r.analyticsError == st.analyticsError && r.searchQuery == st.searchQuery
    ensures f.SummaryResponded? && f.ok && f.body.SummaryJson? ==>
              r.data == Some(f.body.summary) && r.error == None && r.lastUpdated == Some(now)
    ensures !(f.SummaryResponded? && f.ok && f.body.SummaryJson?) ==>
              r.data == st.data && r.lastUpdated == st.lastUpdated && r.error.Some?
    ensures f.SummaryResponded? && !f.ok ==> r.error == Some("Failed to fetch summary data")
    ensures f.SummaryResponded? && f.ok && f.body.SummaryUnparsable? ==> r.error == Some(f.body.syntaxError)
    ensures f.SummaryThrew? ==> r.error == Some(CaughtMessage(f.thrown))
  {
    var started := st.(isLoading := true, error := None);
    var outcome: Result<ReportSummary, string> :=
      match f
      case SummaryResponded(ok, body) =>
        if !ok then Err("Failed to fetch summary data")
        else (match body
              case SummaryJson(s) => Ok(s)
              case SummaryUnparsable(m) => Err(m))
      case SummaryThrew(t) => Err(CaughtMessage(t));
    match outcome
    case Ok(s) => started.(data := Some(s), lastUpdated := Some(now), isLoading := false)
    case Err(m) => started.(error := Some(m), isLoading := false)
  }

  /** The analytics response is accepted only when it is OK, parses, and has
      `success` set and a non-null `data`. */
  predicate AnalyticsAccepted(f: AnalyticsFetch) {
    f.AnalyticsResponded? && f.ok && f.body.AnalyticsJson? && f.body.success && f.body.data.Some?
  }

  /** `fetchAnalyticsData`: an accepted response replaces the analytics data
      and clears the error; otherwise the previous data stays and the error
      says why: the server's own message when it sent a non-empty one, else
      'Failed to load analytics data'. Loading always ends. The summary half
      of the state is untouched. */
  function FetchAnalytics(st: ReportsState, f: AnalyticsFetch): (r: ReportsState)
    ensures !r.isAnalyticsLoading
    ensures r.data == st.data && r.isLoading == st.isLoading && r.error == st.error
    ensures r.lastUpdated == st.lastUpdated && r.searchQuery == st.searchQuery
    ensures AnalyticsAccepted(f) <==> r.analyticsError.None?
    ensures AnalyticsAccepted(f) ==> r.analyticsData == f.body.data
    ensures !AnalyticsAccepted(f) ==> r.analyticsData == st.analyticsData
    ensures f.AnalyticsResponded? && !f.ok ==> r.analyticsError == Some("Failed to fetch analytics data")
    ensures f.AnalyticsResponded? && f.ok && f.body.AnalyticsUnparsable? ==> r.analyticsError == Some(f.body.syntaxError)
    ensures f.AnalyticsResponded? && f.ok && f.body.AnalyticsJson? && !AnalyticsAccepted(f) ==>
              r.analyticsError == Some(if f.body.message.Some? && f.body.message.value != "" then f.body.message.value
                                       else "Failed to load analytics data")
    ensures f.AnalyticsThrew? ==> r.analyticsError == Some(CaughtMessage(f.thrown))
  {
    var started := st.(isAnalyticsLoading := true, analyticsError := None);
    var outcome: Result<AnalyticsData, string> :=
      match f
      case AnalyticsResponded(ok, body) =>
        if !ok then Err("Failed to fetch analytics data")
        else (match body
              case AnalyticsUnparsable(m) => Err(m)
              case AnalyticsJson(success, data, message) =>
                if success && data.Some? then Ok(data.value)
                else Err(if message.Some? && message.value != "" then message.value else "Failed to load analytics data"))
      case AnalyticsThrew(t) => Err(CaughtMessage(t));
    match outcome
    case Ok(a) => started.(analyticsData := Some(a), isAnalyticsLoading := false)
    case Err(m) => started.(analyticsError := Some(m), isAnalyticsLoading := false)
  }

  /** "Refresh Data" runs both fetches at once; they write disjoint parts of
      the state, so the order they finish in does not matter. */
  lemma RefreshOrderIrrelevant(st: ReportsState, sf: SummaryFetch, af: AnalyticsFetch, now: int)
    ensures FetchAnalytics(FetchData(st, sf, now), af) == FetchData(FetchAnalytics(st, af), sf, now)
  {
  }

  /** A failed refresh after a good one keeps the good data on screen. */
  lemma FailedRefreshKeepsLastGood(st: ReportsState, s: ReportSummary, a: AnalyticsData, sf: SummaryFetch, af: AnalyticsFetch, now: int, later: int)
    requires !(sf.SummaryResponded? && sf.ok && sf.body.SummaryJson?)
    requires !AnalyticsAccepted(af)
    ensures var good := FetchAnalytics(FetchData(st, SummaryResponded(true, SummaryJson(s)), now),
                                       AnalyticsResponded(true, AnalyticsJson(true, Some(a), None)));
            var bad := FetchAnalytics(FetchData(good, sf, later), af);
            bad.data == Some(s) && bad.analyticsData == Some(a) && bad.lastUpdated == Some(now)
            && bad.error.Some? && bad.analyticsError.Some?
  {
  }

  /** The `dashboard-search` listener lower-cases the query on receipt. */
  function OnSearch(st: ReportsState, detail: string): (r: ReportsState)
    ensures IsLowered(r.searchQuery) && r.searchQuery == Lower(detail)
    ensures r == st.(searchQuery := r.searchQuery)
  {
    st.(searchQuery := Lower(detail))
  }

  /** A campaign matches on its name, channel or status. */
  predicate CampaignMatches(q: string, c: CampaignData) {
    q == "" || Contains(Lower(c.name), q) || Contains(Lower(c.channel), q) || Contains(Lower(c.status), q)
  }

  /** A channel matches on its name. */
  predicate ChannelMatches(q: string, ch: ChannelData) {
    q == "" || Contains(Lower(ch.channel), q)
  }

  /** `filteredCampaigns`: the matching campaigns in order, or none when no
      analytics data has arrived. */
  function FilteredCampaigns(a: Option<AnalyticsData>, q: string): (r: seq<CampaignData>)
    ensures a.None? ==> r == []
    ensures a.Some? ==> (forall c :: c in r <==> c in a.value.campaigns && CampaignMatches(q, c))
    ensures a.Some? ==> IsSubseq(r, a.value.campaigns)
    ensures a.Some? ==> forall c :: multiset(r)[c] == if CampaignMatches(q, c) then multiset(a.value.campaigns)[c] else 0
  {
    match a
    case None => []
    case Some(d) =>
      FilterMembers(d.campaigns, c => CampaignMatches(q, c));
      FilterIsSubseq(d.campaigns, c => CampaignMatches(q, c));
      Filter(d.campaigns, c => CampaignMatches(q, c))
  }

  /** `filteredChannelData`: the matching channels in order, or none when no
      analytics data has arrived. */
  function FilteredChannels(a: Option<AnalyticsData>, q: string): (r: seq<ChannelData>)
    ensures a.None? ==> r == []
    ensures a.Some? ==> (forall ch :: ch in r <==> ch in a.value.channelData && ChannelMatches(q, ch))
    ensures a.Some? ==> IsSubseq(r, a.value.channelData)
    ensures a.Some? ==> forall ch :: multiset(r)[ch] == if ChannelMatches(q, ch) then multiset(a.value.channelData)[ch] else 0
  {
    match a
    case None => []
    case Some(d) =>
      FilterMembers(d.channelData, ch => ChannelMatches(q, ch));
      FilterIsSubseq(d.channelData, ch => ChannelMatches(q, ch));
      Filter(d.channelData, ch => ChannelMatches(q, ch))
  }

  /** The campaign-table entry of the section configuration carries its own
      filter, on name and status only. The page never calls it. */
  predicate ConfiguredCampaignMatches(q: string, c: CampaignData) {
    q == "" || Contains(Lower(c.name), q) || Contains(Lower(c.status), q)
  }

  /** The configured filter applied to the analytics data; absent data gives
      the empty list, as the filter's `|| []` fallback does. */
  function ConfiguredCampaigns(a: Option<AnalyticsData>, q: string): (r: seq<CampaignData>)
    ensures a.None? ==> r == []
    ensures a.Some? ==> (forall c :: c in r <==> c in a.value.campaigns && ConfiguredCampaignMatches(q, c))
    ensures a.Some? ==> IsSubseq(r, a.value.campaigns)
    ensures a.Some? ==> forall c :: multiset(r)[c] == if ConfiguredCampaignMatches(q, c) then multiset(a.value.campaigns)[c] else 0
  {
    match a
    case None => []
    case Some(d) =>
      FilterMembers(d.campaigns, c => ConfiguredCampaignMatches(q, c));
      FilterIsSubseq(d.campaigns, c => ConfiguredCampaignMatches(q, c));
      Filter(d.campaigns, c => ConfiguredCampaignMatches(q, c))
  }

  /** The configured filter is the live filter narrowed further: its result is
      the live result re-filtered, so a subsequence of it. */
  lemma ConfiguredCampaignsNarrower(a: Option<AnalyticsData>, q: string)
    requires a.Some?
    ensures ConfiguredCampaigns(a, q) == Filter(FilteredCampaigns(a, q), c => ConfiguredCampaignMatches(q, c))
    ensures IsSubseq(ConfiguredCampaigns(a, q), FilteredCampaigns(a, q))
  {
    FilterStronger(a.value.campaigns, c => ConfiguredCampaignMatches(q, c), c => CampaignMatches(q, c));
  }

  /** A campaign on a Google channel matches "google". */
  lemma MatchesGoogle(c: CampaignData)
    requires Contains(c.channel, "Google")
    ensures CampaignMatches("google", c)
  {
    LowerKeepsContains(c.channel, "Google");
    assert Lower("Google") == "google";
  }

  /** A campaign whose name and status each lack a letter of "google" is
      missed by the configured filter; if its channel lacks one too, the live
      filter misses it as well. */
  lemma MissesGoogle(c: CampaignData, inName: char, inChannel: char, inStatus: char)
    requires inName in "gole" && inChannel in "gole" && inStatus in "gole"
    requires LacksLetter(c.name, inName) && LacksLetter(c.status, inStatus)
    ensures !ConfiguredCampaignMatches("google", c)
    ensures LacksLetter(c.channel, inChannel) ==> !CampaignMatches("google", c)
  {
    LowerNotContains(c.name, "google", inName);
    LowerNotContains(c.status, "google", inStatus);
    if LacksLetter(c.channel, inChannel) {
      LowerNotContains(c.channel, "google", inChannel);
    }
  }

  /** Five campaigns laid out like the defaults for the query "google": the
      first and fourth run on a Google channel, and every other field either
      filter reads lacks one of the letters of "google". */
  predicate GoogleShape(cs: seq<CampaignData>) {
    && |cs| == 5
    && StartsWith(cs[0].channel, "Google") && StartsWith(cs[3].channel, "Google")
    && LacksLetter(cs[0].name, 'o') && LacksLetter(cs[0].status, 'g')
    && LacksLetter(cs[1].name, 'g') && LacksLetter(cs[1].channel, 'g') && LacksLetter(cs[1].status, 'g')
    && LacksLetter(cs[2].name, 'e') && LacksLetter(cs[2].channel, 'g') && LacksLetter(cs[2].status, 'g')
    && LacksLetter(cs[3].name, 'o') && LacksLetter(cs[3].status, 'g')
    && LacksLetter(cs[4].name, 'g') && LacksLetter(cs[4].channel, 'o') && LacksLetter(cs[4].status, 'g')
  }

  /** The default campaigns have that layout. */
  lemma DefaultCampaignsGoogleShape()
    ensures GoogleShape(DefaultCampaigns)
  {
    var cs := DefaultCampaigns;
    assert cs[0].name == "Summer Sale Campaign" && cs[0].status == "active" && cs[0].channel == "Google Ads";
    assert cs[1].name == "Brand Awareness Drive" && cs[1].status == "completed" && cs[1].channel == "Facebook Ads";
    assert cs[2].name == "Product Launch Campaign" && cs[2].status == "active" && cs[2].channel == "LinkedIn Ads";
    assert cs[3].name == "Retargeting Campaign" && cs[3].status == "paused" && cs[3].channel == "Google Ads";
    assert cs[4].name == "Holiday Special" && cs[4].status == "completed" && cs[4].channel == "Instagram Ads";
    DefaultNamesLackLetters();
    MoreNamesLackLetters();
    DefaultChannelsAndStatusesLackLetters();
  }

  lemma DefaultNamesLackLetters()
    ensures LacksLetter("Summer Sale Campaign", 'o') && LacksLetter("Brand Awareness Drive", 'g')
    ensures LacksLetter("Holiday Special", 'g')
  {
    MoreNamesLackLetters();
  }

  lemma MoreNamesLackLetters()
    ensures LacksLetter("Product Launch Campaign", 'e') && LacksLetter("Retargeting Campaign", 'o')
  {
  }

  lemma DefaultChannelsAndStatusesLackLetters()
    ensures LacksLetter("Facebook Ads", 'g') && LacksLetter("LinkedIn Ads", 'g') && LacksLetter("Instagram Ads", 'o')
    ensures LacksLetter("active", 'g') && LacksLetter("completed", 'g') && LacksLetter("paused", 'g')
    ensures StartsWith("Google Ads", "Google")
  {
  }

  /** On campaigns laid out like the defaults the two filters disagree:
      "google" finds the two Google campaigns through their channel, the
      configured filter (name and status only) finds none. */
  lemma GoogleQueryFiltersDiffer(a: AnalyticsData)
    requires GoogleShape(a.campaigns)
    ensures FilteredCampaigns(Some(a), "google") == [a.campaigns[0], a.campaigns[3]]
    ensures ConfiguredCampaigns(Some(a), "google") == []
  {
    var cs := a.campaigns;
    assert Contains(cs[0].channel, "Google") && Contains(cs[3].channel, "Google");
    MatchesGoogle(cs[0]);
    MatchesGoogle(cs[3]);
    MissesGoogle(cs[0], 'o', 'g', 'g');
    MissesGoogle(cs[1], 'g', 'g', 'g');
    MissesGoogle(cs[2], 'e', 'g', 'g');
    MissesGoogle(cs[3], 'o', 'g', 'g');
    MissesGoogle(cs[4], 'g', 'o', 'g');
    assert cs == [cs[0], cs[1], cs[2], cs[3], cs[4]];
    FilterFiveKeepsFirstAndFourth(cs[0], cs[1], cs[2], cs[3], cs[4], c => CampaignMatches("google", c));
    FilterKeepsNone(cs, c => ConfiguredCampaignMatches("google", c));
  }

  /** Keywords whose occurrence in the query shows each section. */
  const KpiKeywords := ["campaign", "impression", "click", "revenue", "metric", "kpi"]
  const RevenueChartKeywords := ["revenue", "trend", "growth", "chart", "analytics"]
  const ChannelChartKeywords := ["channel", "performance", "chart", "analytics"]
  const CampaignTableKeywords := ["campaign", "table", "analytics"]
  const FunnelTableKeywords := ["funnel", "conversion", "table", "analytics"]

  /** The summary figures match when the query occurs in the campaign count
      or in the lower-cased impressions, clicks or revenue text. */
  predicate SummaryMatches(q: string, d: Option<ReportSummary>) {
    d.Some? &&
    (|| Contains(IntToString(d.value.totalCampaigns), q)
     || Contains(Lower(d.value.impressions), q)
     || Contains(Lower(d.value.clicks), q)
     || Contains(Lower(d.value.revenue), q))
  }

  predicate ShowKpis(q: string, d: Option<ReportSummary>) {
    || q == ""
    || Contains(q, "campaign") || Contains(q, "impression") || Contains(q, "click")
    || Contains(q, "revenue") || Contains(q, "metric") || Contains(q, "kpi")
    || SummaryMatches(q, d)
  }

  predicate ShowRevenueChart(q: string) {
    || q == ""
    || Contains(q, "revenue") || Contains(q, "trend") || Contains(q, "growth")
    || Contains(q, "chart") || Contains(q, "analytics")
  }

  predicate ShowChannelChart(q: string, a: Option<AnalyticsData>) {
    || q == ""
    || Contains(q, "channel") || Contains(q, "performance") || Contains(q, "chart") || Contains(q, "analytics")
    || |FilteredChannels(a, q)| > 0
  }

  predicate ShowCampaignTable(q: string, a: Option<AnalyticsData>) {
    || q == ""
    || Contains(q, "campaign") || Contains(q, "table") || Contains(q, "analytics")
    || |FilteredCampaigns(a, q)| > 0
  }

  predicate ShowFunnelTable(q: string) {
    || q == ""
    || Contains(q, "funnel") || Contains(q, "conversion") || Contains(q, "table") || Contains(q, "analytics")
  }

  /** The one rule every section follows: shown for an empty query, for a
      query naming one of its keywords, or when its own data matches. */
  predicate Visible(q: string, keywords: seq<string>, dataMatches: bool) {
    q == "" || ContainsAny(q, keywords) || dataMatches
  }

  /** Each section's test is the common rule applied to its keyword list and
      its data. */
  lemma SectionsFollowOneRule(q: string, d: Option<ReportSummary>, a: Option<AnalyticsData>)
    ensures ShowKpis(q, d) == Visible(q, KpiKeywords, SummaryMatches(q, d))
    ensures ShowRevenueChart(q) == Visible(q, RevenueChartKeywords, false)
    ensures ShowChannelChart(q, a) == Visible(q, ChannelChartKeywords, |FilteredChannels(a, q)| > 0)
    ensures ShowCampaignTable(q, a) == Visible(q, CampaignTableKeywords, |FilteredCampaigns(a, q)| > 0)
    ensures ShowFunnelTable(q) == Visible(q, FunnelTableKeywords, false)
  {
    ContainsAnyIff(q, KpiKeywords);
    ContainsAnyIff(q, RevenueChartKeywords);
    ContainsAnyIff(q, ChannelChartKeywords);
    ContainsAnyIff(q, CampaignTableKeywords);
    ContainsAnyIff(q, FunnelTableKeywords);
  }

  /** A section of the configuration table and the keywords it lists. */
  datatype SectionConfig = SectionConfig(id: string, searchKeywords: seq<string>)

  /** The configuration table's keywords. The visibility tests above do not
      read them. */
  const SectionConfigs := [
    SectionConfig("kpis", ["kpi", "metric", "key", "performance", "indicator", "stats", "summary", "campaign", "impression", "click", "revenue"]),
    SectionConfig("revenue-chart", ["revenue", "trend", "chart", "monthly", "target", "growth", "income", "earnings", "analytics"]),
    SectionConfig("channel-chart", ["channel", "marketing", "traffic", "source", "acquisition", "performance", "chart", "analytics"]),
    SectionConfig("campaign-table", ["campaign", "table", "performance", "ads", "advertising", "ctr", "roas", "spend", "analytics"]),
    SectionConfig("funnel-table", ["funnel", "conversion", "journey", "stage", "dropoff", "analysis", "user", "table", "analytics"])
  ]

  /** A query lacking the letters c, f, k, l, m, o, p, t and v names no
      section keyword, so without data it shows no section. */
  lemma NoKeywordNoSection(q: string)
    requires q != ""
    requires 'c' !in q && 'f' !in q && 'k' !in q && 'l' !in q && 'm' !in q
    requires 'o' !in q && 'p' !in q && 't' !in q && 'v' !in q
    ensures !ShowKpis(q, None) && !ShowRevenueChart(q) && !ShowChannelChart(q, None)
    ensures !ShowCampaignTable(q, None) && !ShowFunnelTable(q)
  {
    NotContainsMissingChar(q, "campaign", 'c');
    NotContainsMissingChar(q, "impression", 'm');
    NotContainsMissingChar(q, "click", 'c');
    NotContainsMissingChar(q, "revenue", 'v');
    NotContainsMissingChar(q, "metric", 'm');
    NotContainsMissingChar(q, "kpi", 'k');
    NotContainsMissingChar(q, "trend", 't');
    NotContainsMissingChar(q, "growth", 'o');
    NotContainsMissingChar(q, "chart", 'c');
    NotContainsMissingChar(q, "analytics", 'l');
    NotContainsMissingChar(q, "channel", 'c');
    NotContainsMissingChar(q, "performance", 'p');
    NotContainsMissingChar(q, "table", 't');
    NotContainsMissingChar(q, "funnel", 'f');
    NotContainsMissingChar(q, "conversion", 'c');
  }

  /** A configured keyword does not show its section: "earnings" is listed
      for the revenue chart, yet with no data loaded it shows no section. */
  lemma ConfiguredKeywordIgnored()
    ensures "earnings" in SectionConfigs[1].searchKeywords
    ensures !ShowKpis("earnings", None) && !ShowRevenueChart("earnings") && !ShowChannelChart("earnings", None)
    ensures !ShowCampaignTable("earnings", None) && !ShowFunnelTable("earnings")
  {
    assert SectionConfigs[1].searchKeywords[7] == "earnings";
    NoKeywordNoSection("earnings");
  }

  /** One card of the page's own KPI row. */
  datatype ReportKpi = ReportKpi(title: string, value: string)

  /** `kpiConfig`: four cards, in this order, none with a trend badge. */
  function KpiConfig(d: ReportSummary): (cards: seq<ReportKpi>)
    ensures |cards| == 4
    ensures cards[0].value == IntToString(d.totalCampaigns) && cards[1].value == d.impressions
    ensures cards[2].value == d.clicks && cards[3].value == d.revenue
  {
    [ReportKpi("Total Campaigns", IntToString(d.totalCampaigns)), ReportKpi("Impressions", d.impressions),
     ReportKpi("Clicks", d.clicks), ReportKpi("Revenue", d.revenue)]
  }

  /** The KPI section's body: four loading cards, the summary cards, a "No
      data available" panel, or nothing (when an error is shown instead). */
  datatype KpiSection = KpiSkeletons(count: nat) | KpiCards(cards: seq<ReportKpi>) | NoData | KpiBlank

  /** An error string is displayed only when it is non-empty. */
  predicate Shown(e: Option<string>) { e.Some? && e.value != "" }

  /** The "Detailed Analytics" block: each widget's data, when it is shown. */
  datatype Detailed = Detailed(
    revenueChart: Option<seq<RevenueData>>,
    channelChart: Option<seq<ChannelData>>,
    campaignTable: Option<seq<CampaignData>>,
    funnelTable: Option<seq<FunnelStage>>,
    widgetsLoading: bool)

  datatype ReportsView = ReportsView(
    noResults: bool,
    summaryError: Option<string>,
    analyticsError: Option<string>,
    kpis: Option<KpiSection>,
    detailed: Option<Detailed>,
    refreshDisabled: bool)

  /** The KPI section, when shown: loading cards while the summary loads,
      then the summary's four cards, or "No data available" unless an error
      is displayed instead. */
  function KpiBody(st: ReportsState): (k: KpiSection)
    ensures st.isLoading ==> k == KpiSkeletons(4)
    ensures !st.isLoading && st.data.Some? ==> k == KpiCards(KpiConfig(st.data.value))
    ensures !st.isLoading && st.data.None? ==> (k == NoData <==> !Shown(st.error))
  {
    if st.isLoading then KpiSkeletons(4)
    else if st.data.Some? then KpiCards(KpiConfig(st.data.value))
    else if !Shown(st.error) then NoData
    else KpiBlank
  }

  /** The detailed block: each widget's data when its section is shown; the
      revenue chart and the funnel fall back to an empty list without
      analytics data. */
  function DetailedBody(st: ReportsState): (d: Detailed)
    ensures d.widgetsLoading == st.isAnalyticsLoading
    ensures d.channelChart.Some? <==> ShowChannelChart(st.searchQuery, st.analyticsData)
    ensures d.channelChart.Some? ==> d.channelChart.value == FilteredChannels(st.analyticsData, st.searchQuery)
    ensures d.campaignTable.Some? <==> ShowCampaignTable(st.searchQuery, st.analyticsData)
    ensures d.campaignTable.Some? ==> d.campaignTable.value == FilteredCampaigns(st.analyticsData, st.searchQuery)
    ensures d.revenueChart.Some? <==> ShowRevenueChart(st.searchQuery)
    ensures d.revenueChart.Some? ==>
              d.revenueChart.value == (if st.analyticsData.Some? then st.analyticsData.value.revenueData else [])
    ensures d.funnelTable.Some? <==> ShowFunnelTable(st.searchQuery)
    ensures d.funnelTable.Some? ==>
              d.funnelTable.value == (if st.analyticsData.Some? then st.analyticsData.value.conversionFunnel else [])
  {
    var q := st.searchQuery;
    var a := st.analyticsData;
    Detailed(
      if ShowRevenueChart(q) then Some(if a.Some? then a.value.revenueData else []) else None,
      if ShowChannelChart(q, a) then Some(FilteredChannels(a, q)) else None,
      if ShowCampaignTable(q, a) then Some(FilteredCampaigns(a, q)) else None,
      if ShowFunnelTable(q) then Some(if a.Some? then a.value.conversionFunnel else []) else None,
      st.isAnalyticsLoading)
  }

  /** The "No results found" banner: a non-empty query that no section
      accepts. */
  predicate NoResults(st: ReportsState) {
    var q := st.searchQuery;
    && q != ""
    && !ShowKpis(q, st.data) && !ShowRevenueChart(q) && !ShowChannelChart(q, st.analyticsData)
    && !ShowCampaignTable(q, st.analyticsData) && !ShowFunnelTable(q)
  }

  function Render(st: ReportsState): (v: ReportsView)
    ensures v.noResults == NoResults(st)
    ensures v.summaryError.Some? <==> Shown(st.error)
    ensures v.analyticsError.Some? <==> Shown(st.analyticsError)
    ensures v.summaryError.Some? ==> v.summaryError == st.error
    ensures v.analyticsError.Some? ==> v.analyticsError == st.analyticsError
    ensures v.kpis.Some? <==> ShowKpis(st.searchQuery, st.data)
    ensures v.kpis.Some? ==> v.kpis.value == KpiBody(st)
    ensures v.detailed.Some? <==> st.data.Some? || st.analyticsData.Some?
    ensures v.detailed.Some? ==> v.detailed.value == DetailedBody(st)
    ensures v.refreshDisabled <==> st.isLoading || st.isAnalyticsLoading
  {
    ReportsView(
      NoResults(st),
      if Shown(st.error) then st.error else None,
      if Shown(st.analyticsError) then st.analyticsError else None,
      if ShowKpis(st.searchQuery, st.data) then Some(KpiBody(st)) else None,
      if st.data.None? && st.analyticsData.None? then None else Some(DetailedBody(st)),
      st.isLoading || st.isAnalyticsLoading)
  }

  /** The banner and the sections exclude each other: it shows exactly when
      the query is non-empty and no section (KPIs or any detailed widget) is
      shown. */
  lemma BannerIffNoSection(st: ReportsState)
    requires st.data.Some? || st.analyticsData.Some?
    ensures var v := Render(st);
            var d := v.detailed.value;
            v.noResults <==> st.searchQuery != "" && v.kpis.None? && d.revenueChart.None?
                             && d.channelChart.None? && d.campaignTable.None? && d.funnelTable.None?
  {
  }

  /** With an empty query every section shows and the banner does not. */
  lemma EmptyQueryShowsAll(st: ReportsState)
    requires st.searchQuery == ""
    ensures var v := Render(st);
            !v.noResults && v.kpis.Some?
            && (v.detailed.Some? ==> v.detailed.value.revenueChart.Some? && v.detailed.value.channelChart.Some?
                                     && v.detailed.value.campaignTable.Some? && v.detailed.value.funnelTable.Some?)
  {
  }

  /** The page hands the channel chart an empty list, which the chart as
      written cannot render: the summary loads, the analytics request fails,
      and with no query the chart is shown with no channels. */
  lemma AnalyticsFailureCrashesChannelChart(s: ReportSummary, now: int, body: AnalyticsBody)
    ensures var st := FetchAnalytics(FetchData(InitialReports, SummaryResponded(true, SummaryJson(s)), now),
                                     AnalyticsResponded(false, body));
            var v := Render(st);
            v.detailed.Some? && v.detailed.value.channelChart == Some([]) && !v.detailed.value.widgetsLoading
            && ChannelChart.RenderAsWritten([], false).Crashed?
            && ChannelChart.Render([], false) == ChannelChart.NoChannels
  {
  }

  /** A query that names a chart while every channel name lacks one of its
      letters shows the channel chart with an empty list. */
  lemma ChartKeywordWithoutChannels(st: ReportsState, c: char)
    requires st.analyticsData.Some? && !st.isAnalyticsLoading
    requires Contains(st.searchQuery, "chart")
    requires IsLower(c) && c in st.searchQuery
    requires forall i :: 0 <= i < |st.analyticsData.value.channelData| ==>
               LacksLetter(st.analyticsData.value.channelData[i].channel, c)
    ensures var v := Render(st);
            v.detailed.Some? && v.detailed.value.channelChart == Some([])
            && ChannelChart.RenderAsWritten(v.detailed.value.channelChart.value, v.detailed.value.widgetsLoading).Crashed?
            && ChannelChart.Render(v.detailed.value.channelChart.value, v.detailed.value.widgetsLoading) == ChannelChart.NoChannels
  {
    var chs := st.analyticsData.value.channelData;
    var q := st.searchQuery;
    forall i | 0 <= i < |chs|
      ensures !ChannelMatches(q, chs[i])
    {
      LowerNotContains(chs[i].channel, q, c);
    }
    FilterKeepsNone(chs, ch => ChannelMatches(q, ch));
  }

  /** With the default data loaded, the query "chart" shows the channel chart
      (a keyword) while no channel name contains it, so the chart as written
      is handed an empty list. */
  lemma ChartQueryCrashesChannelChart(st: ReportsState)
    requires st.analyticsData == Some(DefaultAnalytics) && !st.isAnalyticsLoading && st.searchQuery == "chart"
    ensures var v := Render(st);
            v.detailed.Some? && v.detailed.value.channelChart == Some([])
            && ChannelChart.RenderAsWritten(v.detailed.value.channelChart.value, v.detailed.value.widgetsLoading).Crashed?
  {
    assert StartsWith(st.searchQuery, "chart");
    DefaultChannelsLackH();
    ChartKeywordWithoutChannels(st, 'h');
  }

  /** No default channel name has an h. */
  lemma DefaultChannelsLackH()
    ensures forall i :: 0 <= i < |DefaultChannels| ==> LacksLetter(DefaultChannels[i].channel, 'h')
  {
    var chs := DefaultChannels;
    assert chs[0].channel == "Google Ads" && chs[1].channel == "Facebook Ads" && chs[2].channel == "LinkedIn Ads";
    assert chs[3].channel == "Instagram Ads" && chs[4].channel == "Email Marketing";
    ChannelNamesLackH();
  }

  lemma ChannelNamesLackH()
    ensures LacksLetter("Google Ads", 'h') && LacksLetter("Facebook Ads", 'h') && LacksLetter("LinkedIn Ads", 'h')
    ensures LacksLetter("Instagram Ads", 'h') && LacksLetter("Email Marketing", 'h')
  {
  }
}
