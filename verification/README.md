# ADmyBRAND Insights dashboard — a Dafny model of its logic

ADmyBRAND Insights is a Next.js marketing dashboard. Most of its code is
presentation. Under the markup sit a number of small rules, and this project
models them as pure Dafny functions over immutable datatypes, with the
properties the code promises proved about them:

- the configuration store (`ConfigService`): a singleton that starts from the
  built-in defaults, is replaced only by a good fetch, and takes shallow
  updates;
- the dashboard and reports pages: case-insensitive search filters, the
  keyword rules that show or hide each section, the "No results" banner, the
  two fetches of the reports page and the analytics acceptance rule;
- the global search provider's canned results per page;
- the settings page: name split, avatar fallback, notification switches, and
  the `/api/settings` POST validation;
- the report widgets: the channel chart, the conversion funnel table, the
  campaign table cell rules, the user-growth line chart and the KPI trend
  badge;
- the layout shell (unread count, search broadcast, menu flags) and the theme
  context with its local-storage copy;
- the path from a keystroke in the header search box to the pages and the
  search provider.

Modules, one per file: `Wrappers` (Option/Result), `Text` (ASCII
`toLowerCase`, `includes`, `trim`, `split`/`join`, number printing), `Seqs`
(filter, count, sum, first maximum), `Config`, `Dashboard`, `Reports`,
`Search`, `SettingsPage`, `ChannelChart`, `Funnel`, `CampaignTable`,
`LineChart`, `KpiCard`, `Layout`, `Theme`, `Pipeline`.

Conventions:

- Decimal figures (conversion and drop-off rates, CTR, cost per click) are
  integers in hundredths (2.26 becomes 226). Only comparisons are made on
  them, and those are unchanged.
- Percentages that the code computes by division (the funnel's overall
  rate, the line chart's growth) are kept as exact fractions.
- Every fetch is an input datatype: a response with its `ok` flag and its
  parsed (or unparsable) body, or a thrown error. A handler is a function
  from the old state and that outcome to the new state.
- Local storage is a `map<string, string>`.
- The clock reading stamped into `lastUpdated` is a parameter.

## Model

| member | source | states |
|---|---|---|
| Config.GetInstance | lib/config.ts:488-497 | the first call creates a service holding the default configuration and stores it; later calls return the stored one unchanged |
| Config.GetInstanceIsSingleton | lib/config.ts:488-497 | calling again after any call returns the same instance and registry; from the unset registry the instance holds the defaults |
| Config.LoadConfig | lib/config.ts:499-510 | an OK response whose body parses replaces the whole configuration; a non-OK response, a thrown fetch or an unparsable body leave the service unchanged; the result is always the configuration held afterwards |
| Config.LoadKeepsLastGood | lib/config.ts:499-510 | after a good load, a failed load still serves the configuration that loaded last |
| Config.ServerErrorKeepsDefaultUser | lib/config.ts:131-145 | a fresh store that receives an HTTP error keeps the default user "John Doe" (id 1) |
| Config.UpdateConfig | lib/config.ts:516-518 | each of the eight top-level fields (company, user, KPIs, charts, notifications, billing, settings, analytics) is replaced as a whole when the update carries it and kept when it does not |
| Config.UpdateIdentityAndIdempotent | lib/config.ts:516-518 | the empty update changes nothing, and the same update applied twice equals one application |
| Config.UpdateLastWriterWins | lib/config.ts:516-518 | two updates in a row equal one update taking each field from the second update where it has one and from the first otherwise |
| Config.GettersAfterUpdate | lib/config.ts:512-562 | after an update, every getter (user, KPIs, chart data, notifications, billing, settings, analytics and its campaigns, revenue, channels and funnel) reads the updated field where one was given and the old one otherwise |
| Config.DefaultFunnelShape | lib/config.ts:445-481 | the default funnel has five stages, visitors never increase along it, every stage converts all its visitors, and it runs from 125000 to 8055 |
| Config.DefaultCampaignChannels | lib/config.ts:294-375 | among the default campaigns, the first and fourth run on "Google Ads" and the other three do not |
| Config.DefaultGoogleAdsCampaigns | lib/config.ts:294-375 | filtering the default campaigns by channel "Google Ads" leaves exactly camp-001 and camp-004 |
| Config.DefaultRevenueTotal | lib/config.ts:376-387 | the ten default revenue points sum to 1,400,000 |
| Dashboard.LoadDashboard | app/page.tsx:61-83 | after mounting, loading is over, the store is the one `loadConfig` leaves and the KPIs are those of the configuration it holds; users are replaced only by an OK users response; the query is untouched |
| Dashboard.OnSearch | app/page.tsx:88-90 | the stored query is the lower-cased event text and is itself lower-case; data and loading flag are unchanged |
| Dashboard.FilteredKpis | app/page.tsx:100-104 | a KPI is kept exactly when the query is empty or occurs in its lower-cased title or value; the result is an order-preserving subsequence holding each kept KPI as often as the input does |
| Dashboard.FilteredUsers | app/page.tsx:106-112 | a user is kept exactly when the query occurs in the lower-cased name, email, role or plan; the result is an order-preserving subsequence holding each kept user as often as the input does |
| Dashboard.FiltersEmptyQueryAndIdempotent | app/page.tsx:100-112 | the empty query keeps both lists whole; filtering a filtered list again with the same query changes nothing |
| Dashboard.SectionsIff | app/page.tsx:115-122 | the KPI row shows exactly when the query is empty or some KPI matches; the table shows exactly when the query is empty, some user matches, or it contains "user" or "table" |
| Dashboard.NoResultsIff | app/page.tsx:151 | the banner shows exactly when a non-empty query matches no KPI and no user and contains none of chart, revenue, sales, user, growth or table |
| Dashboard.Render | app/page.tsx:124-200 | a skeleton exactly while loading; otherwise the banner, the KPI row, the charts and the table each show exactly when their own condition holds, the KPI row and the table receive the filtered lists, and an empty query shows every section with the full lists and no banner |
| Dashboard.BannerExcludesSections | app/page.tsx:151-161 | once loaded, the banner shows exactly when the query is non-empty and all three sections are hidden |
| Reports.CaughtMessage | app/reports/page.tsx:181 | an `Error` reports its own message; any other thrown value reports "An error occurred" |
| Reports.FetchData | app/reports/page.tsx:171-185 | a good summary response replaces the summary, stamps the time and clears the error; a non-OK response gives "Failed to fetch summary data", a parse error its own message, a thrown fetch the caught message, and the old summary stays; the analytics half is untouched and loading ends |
| Reports.FetchAnalytics | app/reports/page.tsx:187-205 | the data is replaced exactly when the response is OK, parses, reports success and carries data; otherwise the old data stays and the error is "Failed to fetch analytics data", the parse message, the server's non-empty message, "Failed to load analytics data", or the caught message; the summary half is untouched |
| Reports.RefreshOrderIrrelevant | app/reports/page.tsx:207-209 | the two fetches of a refresh commute: either order of completion gives the same state |
| Reports.FailedRefreshKeepsLastGood | app/reports/page.tsx:171-205 | after a good load of both halves, a failed refresh keeps both on screen and keeps the old timestamp |
| Reports.OnSearch | app/reports/page.tsx:218-220 | the stored query is the lower-cased event text; nothing else changes |
| Reports.FilteredCampaigns | app/reports/page.tsx:230-235 | without analytics data the list is empty; otherwise a campaign is kept exactly when the query occurs in its lower-cased name, channel or status, in order and as often as it occurs in the input |
| Reports.FilteredChannels | app/reports/page.tsx:237-240 | without analytics data the list is empty; otherwise a channel is kept exactly when the query occurs in its lower-cased name, in order and as often as it occurs in the input |
| Reports.ConfiguredCampaigns | app/reports/page.tsx:89-94 | the section table's own filter: without analytics data the empty list, as the filter's `|| []` fallback gives; otherwise a campaign is kept exactly when the query occurs in its lower-cased name or status (never its channel), in order and as often as in the input |
| Reports.ConfiguredCampaignsNarrower | app/reports/page.tsx:89-94 | the configured filter equals the live filter narrowed further, so its result is a subsequence of the live result |
| Reports.MatchesGoogle | app/reports/page.tsx:233 | a campaign whose channel contains "Google" matches the query "google" through its channel |
| Reports.MissesGoogle | app/reports/page.tsx:230-235 | a campaign whose name and status each lack some letter of "google" in either case fails the configured filter for the query "google", and fails the live filter too when its channel also lacks one |
| Reports.DefaultCampaignsGoogleShape | lib/config.ts:294-375 | in the default campaigns the first and fourth channels start with "Google", every name and status lacks some letter of "google", and so does every other channel |
| Reports.GoogleQueryFiltersDiffer | app/reports/page.tsx:89-94 | on campaigns laid out like the defaults, the query "google" keeps the first and fourth campaigns in the live filter and none in the configured one |
| Reports.SectionsFollowOneRule | app/reports/page.tsx:243-281 | each of the five sections shows exactly when the query is empty, one of its listed keywords occurs in it, or its data matches (the summary figures, the filtered channels, the filtered campaigns; nothing for the revenue chart and funnel) |
| Reports.NoKeywordNoSection | app/reports/page.tsx:243-281 | with no data, a non-empty query lacking the letters c, f, k, l, m, o, p, t and v shows no section |
| Reports.ConfiguredKeywordIgnored | app/reports/page.tsx:48-105 | "earnings" is listed among the revenue chart's configured keywords, yet the query "earnings" shows no section |
| Reports.KpiConfig | app/reports/page.tsx:283-308 | four cards: the campaign count printed as decimal digits, then impressions, clicks and revenue as given |
| Reports.KpiBody | app/reports/page.tsx:403-435 | four loading cards while the summary loads, the four summary cards once it is there, and "No data available" only when no error is displayed |
| Reports.DetailedBody | app/reports/page.tsx:442-489 | each widget is present exactly when its section shows; the channel chart gets the filtered channels, the table the filtered campaigns, and both charts the loading flag |
| Reports.Render | app/reports/page.tsx:320-489 | error boxes exactly for non-empty errors, each printing its own error text, the KPI section exactly when its rule holds, the detailed block exactly when either half has data, refresh disabled exactly while either fetch runs |
| Reports.BannerIffNoSection | app/reports/page.tsx:358 | with data present, the banner shows exactly when the query is non-empty and every section is hidden |
| Reports.EmptyQueryShowsAll | app/reports/page.tsx:243-281 | the empty query shows every section with the full lists and no banner |
| Reports.AnalyticsFailureCrashesChannelChart | app/reports/page.tsx:461-466 | after a good summary and a failed analytics fetch, the channel chart is shown with an empty list; the chart as written throws on it and the corrected chart shows its empty state |
| Reports.ChartKeywordWithoutChannels | app/reports/page.tsx:264-269 | a query containing "chart" and a letter no channel name has shows the channel chart with an empty list, which the chart as written throws on |
| Reports.ChartQueryCrashesChannelChart | app/reports/page.tsx:264-269 | with the default data loaded, the query "chart" shows the channel chart with no channels and the chart as written throws |
| Search.RulesFor | components/utils/SearchProvider.tsx:57-192 | any page other than "/", "/reports" and "/setting" has no rules |
| Search.Fire | components/utils/SearchProvider.tsx:57-112 | no more results than rules, listed in rule order, and a result appears exactly when some rule producing it has a keyword occurring in the query |
| Search.PerformSearch | components/utils/SearchProvider.tsx:52-194 | the page's results are those of its rules whose keywords occur in the lower-cased query, in the order of the page's rules |
| Search.SearchIgnoresCase | components/utils/SearchProvider.tsx:53 | a query and its lower-cased form find the same results |
| Search.ResultIffKeyword | components/utils/SearchProvider.tsx:57-192 | each rule's result is present exactly when one of that rule's own keywords occurs in the lower-cased query |
| Search.FireIffKeyword | components/utils/SearchProvider.tsx:57-112 | in a table with distinct ids, a rule's result is present exactly when one of its keywords occurs |
| Search.FireDistinct | components/utils/SearchProvider.tsx:57-112 | a table with distinct ids yields results with distinct ids |
| Search.RuleTablesWellFormed | components/utils/SearchProvider.tsx:57-192 | each of the three tables has distinct ids and every result carries its own page's path |
| Search.SearchResultsShape | components/utils/SearchProvider.tsx:57-194 | results never repeat an id, always carry the searched page's path, number at most six on "/" and four elsewhere, and are empty for any other page |
| Search.HandleSearch | components/utils/SearchProvider.tsx:29-44 | the raw term is kept; searching is over; a blank term clears the results; any other term gets the page's search results |
| Search.UseSearch | components/utils/SearchProvider.tsx:229-235 | outside a provider the hook fails with "useSearch must be used within a SearchProvider"; inside it returns the context |
| SettingsPage.FirstName | app/setting/page.tsx:124-125 | the first name never contains a space |
| SettingsPage.LastName | app/setting/page.tsx:126 | a one-word name has an empty last name; otherwise the first name, a space and the last name give back the name |
| SettingsPage.NameSplitRoundTrip | app/setting/page.tsx:124-126 | a name without a space is all first name with an empty last name; otherwise the first name is the text before the first space and first name, one space and last name give back the name |
| SettingsPage.TwoWordName | app/setting/page.tsx:124-126 | two space-free words joined by one space split back into those two words |
| SettingsPage.AvatarOrDefault | app/setting/page.tsx:128 | a present, non-empty avatar is used; a missing or empty one falls back to the default URL |
| SettingsPage.FindPref | app/setting/page.tsx:141-143 | nothing exactly when no preference has the id; otherwise the first preference with it |
| SettingsPage.UpdatePref | app/setting/page.tsx:146-152 | same length and order; entries with the id get the new switch value and nothing else changes; other entries are untouched |
| SettingsPage.UpdatePrefProperties | app/setting/page.tsx:146-152 | an unknown id changes nothing, repeating the call changes nothing more, and every entry differs from the original at most in its switch |
| SettingsPage.FindAfterUpdate | app/setting/page.tsx:141-152 | after a switch, looking up that id finds the old entry with the new value, and looking up any other id finds what it found before |
| SettingsPage.EmailPrefs | app/setting/page.tsx:405-406 | the email block holds exactly the email-category preferences, in list order and as often as they occur |
| SettingsPage.SystemPrefs | app/setting/page.tsx:426-427 | the system block holds exactly the system-category preferences, in list order and as often as they occur |
| SettingsPage.PrefBlocksPartition | app/setting/page.tsx:405-427 | both blocks keep list order, share no entry, omit every marketing preference, and together are no longer than the list |
| SettingsPage.Lookup | app/api/settings/route.ts:6-8 | a key is found exactly when some member carries it, and the value found is that of its last occurrence |
| SettingsPage.Post | app/api/settings/route.ts:4-32 | 500 "Internal Server Error" exactly for an unparsable body or JSON null; 400 "Missing required fields" exactly when one of firstName, lastName, email is absent or falsy; 200 "Settings saved successfully" exactly when all three are truthy |
| SettingsPage.ExtraFieldsIgnored | app/api/settings/route.ts:8 | two objects that bind the three fields alike get the same response, whatever else they carry |
| SettingsPage.SaveRequestAccepted | app/setting/page.tsx:176-180 | the form's own request is accepted exactly when first name, last name and email are all non-empty, and is never a 500 |
| SettingsPage.LoadForm | app/setting/page.tsx:114-138 | the form takes the user, email and preferences from the configuration and the avatar with its fallback; the first name is space-free and, with one space and the last name, rebuilds the user's name, so it is the text before the first space |
| SettingsPage.HandleSave | app/setting/page.tsx:171-199 | loading ends in every case; an OK status marks the form saved; a failed status alerts "Failed to save settings."; a thrown fetch alerts "An error occurred."; nothing else changes |
| SettingsPage.SingleWordNameCannotBeSaved | app/setting/page.tsx:126 | a user whose name has no space loads with an empty last name, so saving the form unchanged gets a 400 and the failure alert |
| SettingsPage.DefaultUserSaves | app/setting/page.tsx:124-126 | the default user loads as "John" and "Doe" and saves successfully |
| ChannelChart.Tier | components/reports/ChannelChart.tsx:239-241 | green exactly above 500, blue exactly above 300 up to 500, yellow at 300 and below |
| ChannelChart.TierMonotone | components/reports/ChannelChart.tsx:239-241 | a higher ROI never gets a lower tier |
| ChannelChart.TotalRevenue | components/reports/ChannelChart.tsx:88 | the seeded left fold equals the sum of the channels' revenue |
| ChannelChart.MetricCards | components/reports/ChannelChart.tsx:219-245 | one card for each of the first min(3, n) channels, in order, with that channel's name, revenue, tier and colour index |
| ChannelChart.BarGradients | components/reports/ChannelChart.tsx:208 | bar i uses gradient i mod 5 |
| ChannelChart.BestChannelAsWritten | components/reports/ChannelChart.tsx:89-91 | the seedless reduce throws a TypeError exactly on the empty list and otherwise returns the earliest channel of maximal ROI |
| ChannelChart.RenderAsWritten | components/reports/ChannelChart.tsx:71-91 | the skeleton exactly while loading; once loaded, the component throws exactly on an empty list |
| ChannelChart.BestChannel | components/reports/ChannelChart.tsx:89-91 | nothing exactly for the empty list; otherwise the value the reduce returns |
| ChannelChart.Render | components/reports/ChannelChart.tsx:71-245 | the skeleton exactly while loading; an empty state exactly for an empty list once loaded; otherwise the revenue sum, the ROI total, the best channel, the cards and the bars |
| ChannelChart.RenderAgreesWhereOriginalWorks | components/reports/ChannelChart.tsx:71-91 | wherever the original does not throw, the corrected chart shows the same figures; where it throws, the corrected chart shows its empty state |
| ChannelChart.DefaultChannelsSummary | lib/config.ts:388-444 | for the default channels the best is "Email Marketing" with ROI 1463 and the revenue totals 1,486,000 |
| Funnel.ProgressWidth | components/reports/ConversionFunnelTable.tsx:17 | the bar width stays within 0 to 100%, equals the value inside that range and saturates outside it |
| Funnel.Row | components/reports/ConversionFunnelTable.tsx:86-158 | row i shows stage number i + 1 and the stage's name; the progress bar is the stage's conversion rate clamped to [0, 100%]; the first stage gets the first-stage badge even when it is also the last; "from previous" shows on all but the first; the drop-off box and arrow show on all but the last, with the stage's own drop-off rate and users lost = visitors minus the next stage's visitors |
| Funnel.Rows | components/reports/ConversionFunnelTable.tsx:86 | one row per stage, row i being the row for stage i |
| Funnel.Render | components/reports/ConversionFunnelTable.tsx:28-235 | a skeleton exactly while loading; overall and total drop-off rates are zero exactly for no stages and otherwise the overall rate is 100 times the last stage's conversions over the first stage's visitors and the total drop-off its complement over the same count, the two adding up to 100%; totals are the first stage's visitors and last stage's conversions (0 when empty); insights exist exactly for non-empty data and name the earliest stages of maximal drop-off and conversion rate |
| Funnel.DropOffBoxesAndArrows | components/reports/ConversionFunnelTable.tsx:136-151 | n stages show exactly n - 1 drop-off boxes and n - 1 arrows |
| Funnel.UsersLostNonNegative | components/reports/ConversionFunnelTable.tsx:145 | when visitors never increase along the funnel, no stage reports negative users lost |
| Funnel.DefaultFunnelInsights | components/reports/ConversionFunnelTable.tsx:212-230 | on the default funnel 37,500 users are lost after the first stage, the biggest drop-off is "Add to Cart" and the best stage "Website Visitors" |
| CampaignTable.StatusLabel | components/reports/CampaignTable.tsx:72 | the label keeps the status's length, upper-cases its first character and keeps the rest |
| CampaignTable.StatusLabelCaseInsensitive | components/reports/CampaignTable.tsx:72 | the label equals the status case-insensitively, and labelling twice is labelling once |
| CampaignTable.StatusLabels | components/reports/CampaignTable.tsx:72 | "active", "paused" and "completed" read "Active", "Paused" and "Completed" |
| CampaignTable.Variant | components/reports/CampaignTable.tsx:61-64 | the default badge exactly for "active", secondary exactly for "completed", outline for everything else |
| CampaignTable.RoiCell | components/reports/CampaignTable.tsx:155-165 | the green up-trend exactly for a strictly positive ROI, the red down-trend for zero and below |
| CampaignTable.RoiTrendBySign | components/reports/CampaignTable.tsx:156 | a larger ROI never trends down where a smaller one trends up; zero trends down and one trends up |
| CampaignTable.DefaultCampaignsTrendUp | lib/config.ts:294-375 | every default campaign has a positive ROI and shows the up-trend |
| CampaignTable.Render | components/reports/CampaignTable.tsx:205-326 | a skeleton exactly while loading; otherwise the header counts the input, there are 10 columns, the empty-state row spans all of them and shows exactly when no row is left, and the page size is 5 |
| CampaignTable.HeaderIgnoresTableSearch | components/reports/CampaignTable.tsx:241 | the header count is the input length whatever the table's own search leaves visible |
| LineChart.LoadLineData | components/charts/LineChartCard.tsx:23-37 | the card's data is the configured array when there is one, and empty when it is missing or the load throws |
| LineChart.Render | components/charts/LineChartCard.tsx:81-107 | a skeleton exactly while loading; the empty state exactly for fewer than two points; otherwise first and last values (missing read as 0), growth = last - first, "0.0" exactly when the first value is 0 and the ratio otherwise, positive exactly when growth is not negative, and the total of all values with missing ones as 0 |
| LineChart.MissingLineChartShowsNoData | components/charts/LineChartCard.tsx:26-31 | a configuration without a line-chart array, or a failed load, leaves the card on its empty state |
| LineChart.PercentSignAgrees | components/charts/LineChartCard.tsx:98-105 | for a positive first value the badge is positive exactly when the percentage is not negative; for a zero first value the percentage is "0.0" and the badge follows the last value's sign |
| LineChart.TotalUsersAppend | components/charts/LineChartCard.tsx:107 | one more point adds its value to the total, a missing value adding nothing |
| LineChart.DefaultLineChart | components/charts/LineChartCard.tsx:98-107 | the default series grows by 400 from 400, which is 100%, shows as positive and totals 3,300 |
| KpiCard.Badge | components/cards/KpiCard.tsx:14-36 | no badge exactly for a missing or empty trend; red exactly when the trend starts with '-'; green for every other non-empty trend |
| KpiCard.BadgeDependsOnFirstChar | components/cards/KpiCard.tsx:14 | two non-empty trends with the same first character get the same badge |
| KpiCard.BadgeExamples | components/cards/KpiCard.tsx:14 | "+12.3%" and "0%" are green, "-2.1%" red, empty and missing trends show none |
| KpiCard.DefaultKpiTrendsPositive | lib/config.ts:146-175 | every built-in KPI trend shows green |
| Layout.UnreadCount | components/layouts/DashboardLayout.tsx:74 | the count is the length of the unread filter and never exceeds the list |
| Layout.UnreadAndReadPartition | components/layouts/DashboardLayout.tsx:74 | unread and read entries add up to the list, and every entry is unread exactly when the count equals the length |
| Layout.SampleUnread | components/layouts/DashboardLayout.tsx:39-74 | the sample list has two unread entries, so the bell badge shows |
| Layout.HandleSearchChange | components/layouts/DashboardLayout.tsx:106-115 | the box keeps the raw text; the same raw text is broadcast exactly on "/" and "/reports" |
| Layout.ToggleMobileMenu | components/layouts/DashboardLayout.tsx:102-104 | the menu flag is negated |
| Layout.NavClick | components/layouts/DashboardLayout.tsx:155 | a navigation click leaves the menu closed |
| Layout.ToggleNotifications | components/layouts/DashboardLayout.tsx:218 | the panel flag is negated |
| Layout.ClickOutside | components/layouts/DashboardLayout.tsx:77-91 | a click outside leaves the panel closed |
| Layout.LayoutFlags | components/layouts/DashboardLayout.tsx:102-155 | toggling twice is the identity, each handler touches only its own flag, and a nav click after a toggle closes the menu |
| Theme.Initial | components/context/ThemeContext.tsx:16-17 | the first state is theme "system" with dark mode off, which is consistent |
| Theme.SetTheme | components/context/ThemeContext.tsx:19-22 | the theme and its stored copy under "theme" both become the value; other stored keys are kept; dark mode follows |
| Theme.ToggleDarkMode | components/context/ThemeContext.tsx:24-27 | "dark" becomes "light" and any other theme "dark", and the new theme is stored |
| Theme.Mount | components/context/ThemeContext.tsx:29-36 | the theme becomes the stored value, or "system" when nothing or an empty string is stored; storage is not written; dark mode follows |
| Theme.ToggleTwice | components/context/ThemeContext.tsx:24-27 | two toggles restore "dark" but turn any other theme, "system" included, into "light" |
| Theme.ThemeSurvivesReload | components/context/ThemeContext.tsx:19-32 | a theme set in one session is the theme the next one mounts with, an empty string reading back as "system" |
| Theme.UseThemeContext | components/context/ThemeContext.tsx:47-52 | outside the provider the hook fails with its message; inside it returns the context |
| Pipeline.Type | components/layouts/DashboardLayout.tsx:106-115 | the box keeps the raw text; on "/" and "/reports" the page on screen changes only its query, to the lower-cased text, the other page is untouched, and the provider handles the raw text; elsewhere no listener changes |
| Pipeline.ListenersAgree | components/layouts/DashboardLayout.tsx:111-114 | after a keystroke on a broadcasting page the box and provider hold the raw text and the page holds its lower-cased form |
| Pipeline.TypeKeepsNoSettingResults | components/layouts/DashboardLayout.tsx:111-114 | a keystroke anywhere never adds a result pointing at the settings page |
| Pipeline.ProviderResultsOnPage | components/utils/SearchProvider.tsx:29-44 | every result the provider holds after a search points at the searched page |
| Pipeline.SettingRulesUnreachable | components/utils/SearchProvider.tsx:155-192 | no session of typing in the header box ever yields a settings result: the "/setting" rules cannot be reached |
| Pipeline.InitialSessionHasNoSettingResults | components/utils/SearchProvider.tsx:155-192 | from the provider's initial state, no session of typing yields a result pointing at "/setting" |
| Text.Lower | app/page.tsx:89 | `toLowerCase` keeps the length, maps each character through the ASCII lower-casing and leaves no upper-case letter |
| Text.LowerIdempotent | app/page.tsx:89 | lower-casing twice is lower-casing once |
| Text.ContainsIffOccurs | app/page.tsx:102-103 | `includes` holds exactly when the pattern occurs at some position |
| Text.ContainsAnyIff | app/reports/page.tsx:243-281 | a chain of `includes` tests joined by `or` holds exactly when some listed keyword occurs |
| Text.TrimEmptyIffBlank | components/utils/SearchProvider.tsx:34 | `trim() === ''` holds exactly for strings made only of whitespace |
| Text.JoinSplit | app/setting/page.tsx:124-126 | joining the pieces of a split with the same separator gives back the string |
| Text.SplitHead | app/setting/page.tsx:124-125 | without the separator the split is the string alone; with it there are at least two pieces, the first ending at the first separator |
| Text.NatToStringRoundTrip | app/reports/page.tsx:251 | the decimal digits printed for a number read back as that number |
| Seqs.FilterIsSubseq | app/page.tsx:100-112 | a filter result is an order-preserving subsequence of its input |
| Seqs.FilterIdempotent | app/page.tsx:100-112 | filtering twice with the same test is filtering once |
| Seqs.FoldSumIsSum | components/reports/ChannelChart.tsx:88 | the seeded left-to-right reduce computes the sum |
| Seqs.FirstArgMax | components/reports/ConversionFunnelTable.tsx:218-230 | the seedless strict-`>` reduce selects the earliest element of maximal key |

## Left out

- Markup, styling, icons, recharts drawing, the bar, pie and revenue chart components, and the error, loading and not-found pages: presentation with no rule to state.
- Floating-point output: `toFixed`, `toLocaleString`, percentage division and the channel chart's average ROI. The model keeps the ROI total, and exact fractions where the code divides.
- `@tanstack/react-table` sorting, paging and its own search box, CSV export and file download. That behaviour belongs to the libraries. The campaign table takes the number of rows the library leaves visible as an input.
- Real network I/O, `useEffect` scheduling, window events, `setTimeout` (the saved badge resetting after three seconds) and the avatar upload through FileReader and dropzone. Fetch outcomes are inputs; the clock is a parameter.
- `highlightText`: it builds a regular expression from unescaped user text, whose meaning depends on the regular-expression engine.
- Unicode case mapping: `toLowerCase` and `toUpperCase` are modelled on ASCII letters only; `trim` uses the full ECMAScript whitespace and line-terminator set.
- The constant route handlers (config, users, report summary, report analytics), `next.config.ts`, the root layout and `LayoutContext`: they return constants or hold flags with setters.
- The channel chart's configured data filter: it is the live channel filter written a second time, so it has nothing of its own to state.
- Runtime shape checks: JSON bodies are assumed to have the declared field types. The analytics body is assumed to be an object, so a JSON `null` analytics body (which would throw on `result.success`) is not modelled.
- `SettingsPage.Post`: JSON numbers are integers. Fractional numbers, `NaN` and `-0` are not represented, and neither is JSON.parse's treatment of a `__proto__` key.
- The search provider is defined but not mounted by the root layout shown. The pipeline model shows what a mounted provider would receive.
- Config.UpdateConfig: an update that carries a key set to `undefined` (`updateConfig({ user: undefined })`) sets that field to `undefined` through the spread; the model's absent field keeps the old value, and an explicitly undefined field is not represented.
- Funnel.Render: when the first stage has zero visitors the page divides by zero and shows `Infinity%` or `NaN%`; the model returns fractions with denominator 0 and does not model those strings.
- CampaignTable.RoiCell: ROI is an integer; a fractional ROI such as 0.4 (up-trend, printed "0%") is not represented. The same holds for `ChannelChart.Tier`, `ChannelChart.BestChannel` and `ChannelChart.BestChannelAsWritten`, which compare integer ROI where the source compares JavaScript numbers (a channel ROI of 500.5 is green in the source).
- The settings page's other tabs: billing, quiet hours, email frequency, language and accessibility toggles. They are local state with setters and nothing else.

## Findings

| source | as written | input that shows it | evidently intended | confidence | as-written member | corrected member |
|---|---|---|---|---|---|---|
| components/reports/ChannelChart.tsx:89-91 | `bestChannel` is a `reduce` with no initial value, computed whenever the chart is not loading, so an empty channel list throws a TypeError while rendering | the summary loads and the analytics fetch fails: with an empty query the reports page renders the chart with `filteredChannelData = []` (app/reports/page.tsx:237-240, 264-269, 461-466); likewise the query "chart" with the default data, since no channel name contains "chart" | an empty list shows an empty state, as the funnel table does with its `data.length > 0` guard (components/reports/ConversionFunnelTable.tsx:212) | not executed | ChannelChart.RenderAsWritten | ChannelChart.Render |
