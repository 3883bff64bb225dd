/** The channel performance chart: total revenue, the best channel by ROI,
    ROI colour tiers, the first three metric cards and the bar colours.

    `RenderAsWritten` follows the component as it stands: its seedless
    `reduce` throws a TypeError on an empty list. `Render` is the same
    component with an empty-list guard (the guard the sibling funnel and
    line-chart widgets have); the rest of the model uses `Render`. */
module ChannelChart {
  import opened Wrappers
  import opened Seqs
  import opened Config

  /** Number of colours in the palette; bar `i` uses gradient `i % 5`. */
  const PaletteSize := 5

  datatype RoiTier = Green | Blue | Yellow

  /** The ROI colour: green above 500, blue above 300, yellow otherwise; both
      thresholds are strict. */
  function Tier(roi: int): (t: RoiTier)
    ensures t == Green <==> roi > 500
    ensures t == Blue <==> 300 < roi <= 500
    ensures t == Yellow <==> roi <= 300
  {
    if roi > 500 then Green else if roi > 300 then Blue else Yellow
  }

  /** Tiers never decrease as ROI grows. */
  lemma TierMonotone(a: int, b: int)
    requires a <= b
    ensures Tier(a) == Green ==> Tier(b) == Green
    ensures Tier(a) == Blue ==> Tier(b) != Yellow
  {
  }

  function Revenue(c: ChannelData): int { c.revenue }

  function Roi(c: ChannelData): int { c.roi }

  /** `data.reduce((sum, item) => sum + item.revenue, 0)`. */
  function TotalRevenue(data: seq<ChannelData>): (r: int)
    ensures r == SumOf(data, Revenue)
  {
    FoldSumIsSum(data, Revenue, 0);
    FoldSum(data, Revenue, 0)
  }

  /** One of the metric cards under the chart. */
  datatype MetricCard = MetricCard(channel: string, colorIndex: nat, revenue: int, tier: RoiTier)

  /** `data.slice(0, 3).map(...)`: cards for the first three channels, in
      order, coloured by position. */
  function MetricCards(data: seq<ChannelData>): (cards: seq<MetricCard>)
    ensures |cards| == if |data| < 3 then |data| else 3
    ensures forall i :: 0 <= i < |cards| ==>
              cards[i] == MetricCard(data[i].channel, i, data[i].revenue, Tier(data[i].roi))
  {
    var n := if |data| < 3 then |data| else 3;
    seq(n, i requires 0 <= i < n => MetricCard(data[i].channel, i, data[i].revenue, Tier(data[i].roi)))
  }

  /** Gradient index of each bar: the palette is reused cyclically. */
  function BarGradients(data: seq<ChannelData>): (g: seq<nat>)
    ensures |g| == |data|
    ensures forall i :: 0 <= i < |g| ==> g[i] < PaletteSize && g[i] == i % PaletteSize
    ensures forall i :: 0 <= i < |g| - PaletteSize ==> g[i + PaletteSize] == g[i]
  {
    seq(|data|, i requires 0 <= i < |data| => i % PaletteSize)
  }

  /** The thrown error of `[].reduce(f)` with no initial value. */
  datatype JsError = TypeError(message: string)

  const EmptyReduceError := TypeError("Reduce of empty array with no initial value")

  /** `bestChannel` as written: the earliest channel with the largest ROI, or
      the TypeError a seedless `reduce` throws on an empty list. */
  function BestChannelAsWritten(data: seq<ChannelData>): (r: Result<ChannelData, JsError>)
    ensures r.Err? <==> |data| == 0
    ensures r.Ok? ==> exists k :: 0 <= k < |data| && r.value == data[k]
                       && (forall j :: 0 <= j < |data| ==> data[j].roi <= data[k].roi)
                       && (forall j :: 0 <= j < k ==> data[j].roi < data[k].roi)
  {
    if |data| == 0 then Err(EmptyReduceError)
    else
      var k := FirstArgMax(data, Roi);
      Ok(data[k])
  }

  /** The figures the chart shows once its data is in. The average ROI is
      `roiTotal / channelCount`, kept here as its exact numerator. */
  datatype Summary = Summary(
    totalRevenue: int,
    roiTotal: int,
    best: ChannelData,
    channelCount: nat,
    cards: seq<MetricCard>,
    bars: seq<nat>)

  /** The component as written: a skeleton while loading (nothing computed),
      otherwise the summary, or a crash when the list is empty. */
  datatype ViewAsWritten = SkeletonAsWritten | Crashed(error: JsError) | ShownAsWritten(summary: Summary)

  function RenderAsWritten(data: seq<ChannelData>, isLoading: bool): (v: ViewAsWritten)
    ensures isLoading <==> v.SkeletonAsWritten?
    ensures v.Crashed? <==> !isLoading && |data| == 0
  {
    if isLoading then SkeletonAsWritten
    else
      match BestChannelAsWritten(data)
      case Err(e) => Crashed(e)
      case Ok(best) =>
        ShownAsWritten(Summary(TotalRevenue(data), SumOf(data, Roi), best, |data|, MetricCards(data), BarGradients(data)))
  }

  /** The corrected best channel: absent on an empty list, otherwise the
      earliest channel with the largest ROI. */
  function BestChannel(data: seq<ChannelData>): (r: Option<ChannelData>)
    ensures r.None? <==> |data| == 0
    ensures r.Some? ==> BestChannelAsWritten(data) == Ok(r.value)
  {
    if |data| == 0 then None else Some(data[FirstArgMax(data, Roi)])
  }

  /** The corrected component: an empty list shows an empty state instead of
      throwing. */
  datatype View = Skeleton | NoChannels | Shown(summary: Summary)

  function Render(data: seq<ChannelData>, isLoading: bool): (v: View)
    ensures isLoading <==> v.Skeleton?
    ensures v.NoChannels? <==> !isLoading && |data| == 0
    ensures v.Shown? ==> v.summary.totalRevenue == SumOf(data, Revenue) && v.summary.channelCount == |data|
    ensures v.Shown? ==> v.summary.roiTotal == SumOf(data, Roi) && v.summary.best == BestChannel(data).value
    ensures v.Shown? ==> v.summary.cards == MetricCards(data) && v.summary.bars == BarGradients(data)
  {
    if isLoading then Skeleton
    else
      match BestChannel(data)
      case None => NoChannels
      case Some(best) => Shown(Summary(TotalRevenue(data), SumOf(data, Roi), best, |data|, MetricCards(data), BarGradients(data)))
  }

  /** The corrected component never crashes, and wherever the original did not
      crash it shows exactly what the original shows. */
  lemma RenderAgreesWhereOriginalWorks(data: seq<ChannelData>, isLoading: bool)
    ensures !RenderAsWritten(data, isLoading).Crashed? ==>
              match RenderAsWritten(data, isLoading)
              case SkeletonAsWritten => Render(data, isLoading) == Skeleton
              case ShownAsWritten(s) => Render(data, isLoading) == Shown(s)
              case Crashed(_) => false
    ensures RenderAsWritten(data, isLoading).Crashed? ==> Render(data, isLoading) == NoChannels
  {
  }

  /** On the default channels the best ROI is Email Marketing's 1463 and the
      revenue totals 1,486,000. */
  lemma DefaultChannelsSummary()
    ensures BestChannel(DefaultChannels) == Some(DefaultChannels[4])
    ensures DefaultChannels[4].channel == "Email Marketing" && DefaultChannels[4].roi == 1463
    ensures TotalRevenue(DefaultChannels) == 1486000
  {
    var k := FirstArgMax(DefaultChannels, Roi);
    assert k == 4;
  }
}
