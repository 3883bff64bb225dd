/** The application configuration: its record types, the built-in default
    data, and the `ConfigService` singleton that holds the current value.
    Decimal fields of the source (rates, prices, growth) are kept in
    hundredths, so `2.26` is `226` and `29.99` is `2999`. */
module Config {
  import opened Wrappers
  import opened Seqs

  /** A number stored in hundredths of its displayed value. */
  type Hundredths = int

  datatype UserStatus = UserActive | UserInactive

  datatype User = User(
    id: int,
    name: string,
    email: string,
    avatar: Option<string>,
    role: string,
    plan: string,
    status: UserStatus)

  datatype KpiData = KpiData(title: string, value: string, trend: string, icon: string, color: string)

  /** A point of the line, bar or pie chart; `value` and `sales` are optional. */
  datatype ChartData = ChartData(name: string, value: Option<int>, sales: Option<int>)

  /** A marketing campaign. `status` is kept as the raw string the data carries
      ("active", "paused" or "completed" in well-formed data). */
  datatype CampaignData = CampaignData(
    id: string,
    name: string,
    status: string,
    startDate: string,
    endDate: string,
    budget: int,
    spent: int,
    impressions: int,
    clicks: int,
    conversions: int,
    ctr: Hundredths,
    cpc: Hundredths,
    roi: int,
    channel: string)

  datatype RevenueData = RevenueData(date: string, revenue: int, target: int, growth: Hundredths)

  datatype ChannelData = ChannelData(
    channel: string,
    impressions: int,
    clicks: int,
    conversions: int,
    revenue: int,
    ctr: Hundredths,
    conversionRate: Hundredths,
    cost: int,
    roi: int)

  /** One stage of the conversion funnel; stages are ordered by position. */
  datatype FunnelStage = FunnelStage(
    stage: string,
    visitors: int,
    conversions: int,
    conversionRate: Hundredths,
    dropOffRate: Hundredths)

  datatype AnalyticsData = AnalyticsData(
    campaigns: seq<CampaignData>,
    revenueData: seq<RevenueData>,
    channelData: seq<ChannelData>,
    conversionFunnel: seq<FunnelStage>)

  datatype Category = EmailCategory | SystemCategory | MarketingCategory

  datatype NotificationPreference = NotificationPreference(
    id: string,
    title: string,
    description: string,
    enabled: bool,
    category: Category)

  datatype BillingStatus = BillingActive | BillingCancelled | BillingPending

  datatype PaymentMethod = PaymentMethod(kind: string, brand: string, last4: string, expiry: string)

  datatype Invoice = Invoice(id: string, date: string, amount: Hundredths, status: string)

  datatype BillingInfo = BillingInfo(
    plan: string,
    amount: Hundredths,
    currency: string,
    nextBilling: string,
    status: BillingStatus,
    paymentMethod: PaymentMethod,
    billingHistory: seq<Invoice>)

  datatype Company = Company(name: string, logo: string, domain: string)

  datatype Charts = Charts(lineChart: seq<ChartData>, barChart: seq<ChartData>, pieChart: seq<ChartData>)

  datatype CodeName = CodeName(code: string, name: string)

  datatype ThemeChoice = ThemeChoice(id: string, name: string)

  datatype Settings = Settings(languages: seq<CodeName>, timezones: seq<CodeName>, themes: seq<ThemeChoice>)

  datatype AppConfig = AppConfig(
    company: Company,
    user: User,
    kpis: seq<KpiData>,
    charts: Charts,
    notifications: seq<NotificationPreference>,
    billing: BillingInfo,
    settings: Settings,
    analytics: AnalyticsData)

  // ---------------------------------------------------------------------
  // Built-in default data
  // ---------------------------------------------------------------------

  const DefaultUser := User(1, "John Doe", "john@admybrand.com", Some("https://i.pravatar.cc/150?img=32"),
                            "Administrator", "Premium Plan", UserActive)

  const DefaultKpis := [
    KpiData("Revenue", "$24,500", "+12.3%", "DollarSign", "green"),
    KpiData("Users", "3,200", "+3.1%", "Users", "blue"),
    KpiData("Conversions", "875", "+7.5%", "CheckCircle", "purple"),
    KpiData("Growth", "18%", "+5.4%", "TrendingUp", "orange")
  ]

  const DefaultCharts := Charts(
    [ ChartData("Jan", Some(400), None), ChartData("Feb", Some(300), None), ChartData("Mar", Some(500), None),
      ChartData("Apr", Some(700), None), ChartData("May", Some(600), None), ChartData("Jun", Some(800), None) ],
    [ ChartData("Product A", Some(1200), Some(1200)), ChartData("Product B", Some(980), Some(980)),
      ChartData("Product C", Some(650), Some(650)), ChartData("Product D", Some(1430), Some(1430)),
      ChartData("Product E", Some(890), Some(890)) ],
    [ ChartData("Free Users", Some(400), None), ChartData("Premium Users", Some(300), None),
      ChartData("Enterprise", Some(100), None) ])

  const DefaultNotifications := [
    NotificationPreference("email-notifications", "Email Notifications", "Receive notifications via email", true, EmailCategory),
    NotificationPreference("push-notifications", "Push Notifications", "Receive push notifications on your device", true, SystemCategory),
    NotificationPreference("browser-notifications", "Browser Notifications", "Show notifications in your browser", true, SystemCategory),
    NotificationPreference("marketing-emails", "Marketing Emails", "Receive promotional and marketing content", false, MarketingCategory),
    NotificationPreference("weekly-reports", "Weekly Reports", "Get weekly summary reports", true, EmailCategory),
    NotificationPreference("monthly-reports", "Monthly Reports", "Get monthly detailed reports", true, EmailCategory),
    NotificationPreference("system-alerts", "System Alerts", "Important system updates and alerts", true, SystemCategory),
    NotificationPreference("security-alerts", "Security Alerts", "Security-related notifications", true, SystemCategory)
  ]

  const DefaultBilling := BillingInfo(
    "Premium Plan", 2999, "USD", "2024-02-15", BillingActive,
    PaymentMethod("card", "Visa", "4242", "12/25"),
    [ Invoice("inv-001", "2024-01-15", 2999, "paid"),
      Invoice("inv-002", "2023-12-15", 2999, "paid"),
      Invoice("inv-003", "2023-11-15", 2999, "paid") ])

  const DefaultSettings := Settings(
    [ CodeName("en", "English"), CodeName("es", "Spanish"), CodeName("fr", "French"), CodeName("de", "German") ],
    [ CodeName("utc", "UTC"), CodeName("est", "Eastern Time"), CodeName("pst", "Pacific Time"), CodeName("gmt", "GMT") ],
    [ ThemeChoice("light", "Light"), ThemeChoice("dark", "Dark"), ThemeChoice("auto", "Auto") ])

  const DefaultCampaigns := [
    CampaignData("camp-001", "Summer Sale Campaign", "active", "2024-01-01", "2024-02-28",
                 50000, 35000, 1250000, 25000, 1250, 200, 140, 285, "Google Ads"),
    CampaignData("camp-002", "Brand Awareness Drive", "completed", "2023-12-01", "2023-12-31",
                 30000, 28500, 980000, 19600, 980, 200, 145, 245, "Facebook Ads"),
    CampaignData("camp-003", "Product Launch Campaign", "active", "2024-01-15", "2024-03-15",
                 75000, 42000, 1800000, 36000, 1800, 200, 117, 320, "LinkedIn Ads"),
    CampaignData("camp-004", "Retargeting Campaign", "paused", "2024-01-01", "2024-01-31",
                 15000, 12000, 450000, 13500, 675, 300, 89, 180, "Google Ads"),
    CampaignData("camp-005", "Holiday Special", "completed", "2023-11-15", "2023-12-25",
                 60000, 58000, 2100000, 42000, 2100, 200, 138, 295, "Instagram Ads")
  ]

  const DefaultRevenue := [
    RevenueData("2024-01-01", 125000, 120000, 420),
    RevenueData("2024-01-02", 132000, 120000, 1000),
    RevenueData("2024-01-03", 118000, 120000, -170),
    RevenueData("2024-01-04", 145000, 120000, 2080),
    RevenueData("2024-01-05", 138000, 120000, 1500),
    RevenueData("2024-01-06", 155000, 120000, 2920),
    RevenueData("2024-01-07", 142000, 120000, 1830),
    RevenueData("2024-01-08", 148000, 120000, 2330),
    RevenueData("2024-01-09", 135000, 120000, 1250),
    RevenueData("2024-01-10", 162000, 120000, 3500)
  ]

  const DefaultChannels := [
    ChannelData("Google Ads", 1700000, 38500, 1925, 385000, 226, 500, 47000, 719),
    ChannelData("Facebook Ads", 980000, 19600, 980, 196000, 200, 500, 28500, 588),
    ChannelData("LinkedIn Ads", 1800000, 36000, 1800, 360000, 200, 500, 42000, 757),
    ChannelData("Instagram Ads", 2100000, 42000, 2100, 420000, 200, 500, 58000, 624),
    ChannelData("Email Marketing", 500000, 25000, 1250, 125000, 500, 500, 8000, 1463)
  ]

  const DefaultFunnel := [
    FunnelStage("Website Visitors", 125000, 125000, 10000, 0),
    FunnelStage("Product Page Views", 87500, 87500, 7000, 3000),
    FunnelStage("Add to Cart", 25000, 25000, 2860, 7140),
    FunnelStage("Checkout Started", 15000, 15000, 6000, 4000),
    FunnelStage("Payment Completed", 8055, 8055, 5370, 4630)
  ]

  const DefaultAnalytics := AnalyticsData(DefaultCampaigns, DefaultRevenue, DefaultChannels, DefaultFunnel)

  const DefaultConfig := AppConfig(
    Company("ADmyBRAND", "/logo.png", "admybrand.com"),
    DefaultUser, DefaultKpis, DefaultCharts, DefaultNotifications,
    DefaultBilling, DefaultSettings, DefaultAnalytics)

  // ---------------------------------------------------------------------
  // The ConfigService singleton
  // ---------------------------------------------------------------------

  /** The service object; its one private field is the current configuration. */
  datatype ConfigService = ConfigService(config: AppConfig)

  /** The static `ConfigService.instance` slot. */
  datatype Registry = Registry(instance: Option<ConfigService>)

  /** The process state before any module code has run. */
  const Unset := Registry(None)

  /** `ConfigService.getInstance()`: creates the service, holding the default
      configuration, on the first call, and hands back the stored one after. */
  function GetInstance(reg: Registry): (r: (Registry, ConfigService))
    ensures r.0.instance == Some(r.1)
    ensures reg.instance.Some? ==> r.0 == reg && r.1 == reg.instance.value
    ensures reg.instance.None? ==> r.1.config == DefaultConfig
  {
    match reg.instance
    case Some(s) => (reg, s)
    case None => (Registry(Some(ConfigService(DefaultConfig))), ConfigService(DefaultConfig))
  }

  /** Every call after the first returns the very instance the first created,
      and that instance starts from the default configuration. */
  lemma GetInstanceIsSingleton(reg: Registry)
    ensures var (reg1, s1) := GetInstance(reg); GetInstance(reg1) == (reg1, s1)
    ensures GetInstance(Unset).1.config == DefaultConfig
  {
  }

  /** The parsed body of the configuration endpoint's response. */
  datatype Body = ParsedConfig(config: AppConfig) | Malformed

  /** What `fetch('/api/config')` yields: a response with its `ok` flag and
      body, or a thrown error (network failure). */
  datatype ConfigFetch = Responded(ok: bool, body: Body) | FetchThrew

  /** The one outcome that replaces the configuration: an OK response whose
      body parses. */
  predicate Fresh(f: ConfigFetch) {
    f.Responded? && f.ok && f.body.ParsedConfig?
  }

  /** `loadConfig()`: on an OK response the parsed body becomes the whole
      configuration; a non-OK response, a thrown fetch or a body that fails to
      parse are swallowed and leave the configuration as it was. The returned
      value is always the configuration held afterwards; nothing is thrown. */
  function LoadConfig(s: ConfigService, f: ConfigFetch): (r: (ConfigService, AppConfig))
    ensures r.1 == r.0.config
    ensures Fresh(f) ==> r.0.config == f.body.config
    ensures !Fresh(f) ==> r.0 == s
  {
    match f
    case Responded(ok, body) =>
      if ok then
        (match body
         case ParsedConfig(c) => (ConfigService(c), c)
         case Malformed => (s, s.config))
      else (s, s.config)
    case FetchThrew => (s, s.config)
  }

  /** A failed load after a successful one keeps the fresher data: the store
      always serves the last configuration that loaded. */
  lemma LoadKeepsLastGood(s: ConfigService, good: AppConfig, f: ConfigFetch)
    requires !Fresh(f)
    ensures LoadConfig(LoadConfig(s, Responded(true, ParsedConfig(good))).0, f).1 == good
  {
  }

  /** A fetch answered with HTTP 500 leaves the built-in default user in place. */
  lemma ServerErrorKeepsDefaultUser(body: Body)
    ensures var (_, s) := GetInstance(Unset);
            var (s1, c) := LoadConfig(s, Responded(false, body));
            GetUser(s1) == c.user && GetUser(s1).name == "John Doe" && GetUser(s1).id == 1
  {
  }

  /** `Partial<AppConfig>`: each top-level field either given or absent. */
  datatype PartialConfig = PartialConfig(
    company: Option<Company>,
    user: Option<User>,
    kpis: Option<seq<KpiData>>,
    charts: Option<Charts>,
    notifications: Option<seq<NotificationPreference>>,
    billing: Option<BillingInfo>,
    settings: Option<Settings>,
    analytics: Option<AnalyticsData>)

  const EmptyPartial := PartialConfig(None, None, None, None, None, None, None, None)

  /** `{ ...config, ...updates }`: a shallow merge, field by field. */
  function Merge(c: AppConfig, p: PartialConfig): AppConfig {
    AppConfig(
      p.company.GetOr(c.company),
      p.user.GetOr(c.user),
      p.kpis.GetOr(c.kpis),
      p.charts.GetOr(c.charts),
      p.notifications.GetOr(c.notifications),
      p.billing.GetOr(c.billing),
      p.settings.GetOr(c.settings),
      p.analytics.GetOr(c.analytics))
  }

  /** `updateConfig(updates)`: every top-level field present in the update
      replaces the held one as a whole (no nested merge); every absent field
      is kept. */
  function UpdateConfig(s: ConfigService, p: PartialConfig): (r: ConfigService)
    ensures p.user.Some? ==> r.config.user == p.user.value
    ensures p.user.None? ==> r.config.user == s.config.user
    ensures p.kpis.Some? ==> r.config.kpis == p.kpis.value
    ensures p.kpis.None? ==> r.config.kpis == s.config.kpis
    ensures p.charts.Some? ==> r.config.charts == p.charts.value
    ensures p.charts.None? ==> r.config.charts == s.config.charts
    ensures p.analytics.Some? ==> r.config.analytics == p.analytics.value
    ensures p.analytics.None? ==> r.config.analytics == s.config.analytics
    ensures p.company.Some? ==> r.config.company == p.company.value
    ensures p.company.None? ==> r.config.company == s.config.company
    ensures p.notifications.Some? ==> r.config.notifications == p.notifications.value
    ensures p.notifications.None? ==> r.config.notifications == s.config.notifications
    ensures p.billing.Some? ==> r.config.billing == p.billing.value
    ensures p.billing.None? ==> r.config.billing == s.config.billing
    ensures p.settings.Some? ==> r.config.settings == p.settings.value
    ensures p.settings.None? ==> r.config.settings == s.config.settings
  {
    ConfigService(Merge(s.config, p))
  }

  /** An update with no fields changes nothing, and applying the same update
      twice is the same as applying it once. */
  lemma UpdateIdentityAndIdempotent(s: ConfigService, p: PartialConfig)
    ensures UpdateConfig(s, EmptyPartial) == s
    ensures UpdateConfig(UpdateConfig(s, p), p) == UpdateConfig(s, p)
  {
  }

  /** Two updates in a row equal one update whose fields come from the second
      where it has them and from the first otherwise: last writer wins. */
  lemma UpdateLastWriterWins(s: ConfigService, p1: PartialConfig, p2: PartialConfig)
    ensures UpdateConfig(UpdateConfig(s, p1), p2) == UpdateConfig(s, PartialConfig(
      if p2.company.Some? then p2.company else p1.company,
      if p2.user.Some? then p2.user else p1.user,
      if p2.kpis.Some? then p2.kpis else p1.kpis,
      if p2.charts.Some? then p2.charts else p1.charts,
      if p2.notifications.Some? then p2.notifications else p1.notifications,
      if p2.billing.Some? then p2.billing else p1.billing,
      if p2.settings.Some? then p2.settings else p1.settings,
      if p2.analytics.Some? then p2.analytics else p1.analytics))
  {
  }

  // Getters: pure projections of the held configuration. Being functions of
  // the service value, none of them can change it.

  function GetConfig(s: ConfigService): AppConfig { s.config }
  function GetUser(s: ConfigService): User { s.config.user }
  function GetKpis(s: ConfigService): seq<KpiData> { s.config.kpis }
  function GetNotifications(s: ConfigService): seq<NotificationPreference> { s.config.notifications }
  function GetBilling(s: ConfigService): BillingInfo { s.config.billing }
  function GetSettings(s: ConfigService): Settings { s.config.settings }
  function GetAnalytics(s: ConfigService): AnalyticsData { s.config.analytics }
  function GetCampaigns(s: ConfigService): seq<CampaignData> { s.config.analytics.campaigns }
  function GetRevenueData(s: ConfigService): seq<RevenueData> { s.config.analytics.revenueData }
  function GetChannelData(s: ConfigService): seq<ChannelData> { s.config.analytics.channelData }
  function GetConversionFunnel(s: ConfigService): seq<FunnelStage> { s.config.analytics.conversionFunnel }

  datatype ChartKind = LineChart | BarChart | PieChart

  function GetChartData(s: ConfigService, kind: ChartKind): seq<ChartData> {
    match kind
    case LineChart => s.config.charts.lineChart
    case BarChart => s.config.charts.barChart
    case PieChart => s.config.charts.pieChart
  }

  /** What the getters read after an update: the update's field where it has
      one, the previous value otherwise. */
  lemma GettersAfterUpdate(s: ConfigService, p: PartialConfig, kind: ChartKind)
    ensures GetUser(UpdateConfig(s, p)) == p.user.GetOr(GetUser(s))
    ensures GetKpis(UpdateConfig(s, p)) == p.kpis.GetOr(GetKpis(s))
    ensures GetChartData(UpdateConfig(s, p), kind) ==
              if p.charts.Some? then GetChartData(ConfigService(s.config.(charts := p.charts.value)), kind)
              else GetChartData(s, kind)
    ensures GetNotifications(UpdateConfig(s, p)) == p.notifications.GetOr(GetNotifications(s))
    ensures GetBilling(UpdateConfig(s, p)) == p.billing.GetOr(GetBilling(s))
    ensures GetSettings(UpdateConfig(s, p)) == p.settings.GetOr(GetSettings(s))
    ensures GetAnalytics(UpdateConfig(s, p)) == p.analytics.GetOr(GetAnalytics(s))
    ensures GetCampaigns(UpdateConfig(s, p)) ==
              if p.analytics.Some? then p.analytics.value.campaigns else GetCampaigns(s)
    ensures GetRevenueData(UpdateConfig(s, p)) ==
              if p.analytics.Some? then p.analytics.value.revenueData else GetRevenueData(s)
    ensures GetChannelData(UpdateConfig(s, p)) ==
              if p.analytics.Some? then p.analytics.value.channelData else GetChannelData(s)
    ensures GetConversionFunnel(UpdateConfig(s, p)) ==
              if p.analytics.Some? then p.analytics.value.conversionFunnel else GetConversionFunnel(s)
  {
  }

  // ---------------------------------------------------------------------
  // Facts about the default data
  // ---------------------------------------------------------------------

  /** Default funnel: visitors never increase from one stage to the next, and
      every stage converts all of its visitors. */
  lemma DefaultFunnelShape()
    ensures |DefaultFunnel| == 5
    ensures forall i :: 0 <= i < |DefaultFunnel| - 1 ==> DefaultFunnel[i + 1].visitors <= DefaultFunnel[i].visitors
    ensures forall i :: 0 <= i < |DefaultFunnel| ==> DefaultFunnel[i].conversions == DefaultFunnel[i].visitors
    ensures DefaultFunnel[0].visitors == 125000 && DefaultFunnel[4].conversions == 8055
  {
  }

  /** The channel of each default campaign, compared with "Google Ads". */
  lemma DefaultCampaignChannels()
    ensures DefaultCampaigns[0].channel == "Google Ads" && DefaultCampaigns[3].channel == "Google Ads"
    ensures DefaultCampaigns[1].channel != "Google Ads" && DefaultCampaigns[2].channel != "Google Ads"
    ensures DefaultCampaigns[4].channel != "Google Ads"
  {
    assert DefaultCampaigns[1].channel[0] != "Google Ads"[0];
    assert DefaultCampaigns[2].channel[0] != "Google Ads"[0];
    assert DefaultCampaigns[4].channel[0] != "Google Ads"[0];
  }

  predicate OnGoogleAds(c: CampaignData) { c.channel == "Google Ads" }

  /** Default campaigns: exactly camp-001 and camp-004 run on Google Ads. */
  lemma DefaultGoogleAdsCampaigns()
    ensures Filter(DefaultCampaigns, OnGoogleAds) == [DefaultCampaigns[0], DefaultCampaigns[3]]
    ensures DefaultCampaigns[0].id == "camp-001" && DefaultCampaigns[3].id == "camp-004"
  {
    DefaultCampaignChannels();
    var cs := DefaultCampaigns;
    FilterFiveKeepsFirstAndFourth(cs[0], cs[1], cs[2], cs[3], cs[4], OnGoogleAds);
    assert cs == [cs[0], cs[1], cs[2], cs[3], cs[4]];
  }

  lemma FilterFiveKeepsFirstAndFourth<T(!new)>(a: T, b: T, c: T, d: T, e: T, keep: T -> bool)
    requires keep(a) && !keep(b) && !keep(c) && keep(d) && !keep(e)
    ensures Filter([a, b, c, d, e], keep) == [a, d]
  {
    var xs := [a, b, c, d, e];
    assert xs[1..] == [b, c, d, e] && xs[2..] == [c, d, e] && xs[3..] == [d, e] && xs[4..] == [e];
    assert Filter([e], keep) == [] by { assert [e][1..] == []; }
    assert Filter([d, e], keep) == [d] by { assert [d, e][1..] == [e]; }
    assert Filter([c, d, e], keep) == [d] by { assert [c, d, e][1..] == [d, e]; }
    assert Filter([b, c, d, e], keep) == [d] by { assert [b, c, d, e][1..] == [c, d, e]; }
  }

  /** Default revenue series: ten days whose revenue adds up to 1,400,000. */
  lemma DefaultRevenueTotal()
    ensures |DefaultRevenue| == 10
    ensures SumOf(DefaultRevenue, (r: RevenueData) => r.revenue) == 1400000
  {
  }
}
