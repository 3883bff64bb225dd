/** The conversion funnel table: per-stage rows with badge colour, progress
    bar and drop-off box, the summary figures and the two "insights" found by
    a seedless strict-`>` `reduce`. Rates are in hundredths of a percent. */
module Funnel {
  import opened Wrappers
  import opened Seqs
  import opened Config

  /** Full progress bar, 100% in hundredths. */
  const FullBar: Hundredths := 10000

  /** `Math.min(100, Math.max(0, value))`. */
  function ProgressWidth(v: Hundredths): (w: Hundredths)
    ensures 0 <= w <= FullBar
    ensures 0 <= v <= FullBar ==> w == v
    ensures v < 0 ==> w == 0
    ensures v > FullBar ==> w == FullBar
  {
    if v > FullBar then FullBar else if v < 0 then 0 else v
  }

  datatype StageBadge = FirstBadge | LastBadge | MiddleBadge

  /** The red drop-off box under a non-final stage. */
  datatype DropOff = DropOff(rate: Hundredths, usersLost: int)

  datatype StageRow = StageRow(
    number: nat,
    name: string,
    badge: StageBadge,
    fromPrevious: bool,
    progress: Hundredths,
    dropOff: Option<DropOff>,
    arrow: bool)

  /** Row `i`: the first stage gets the first-stage colour even when it is
      also the last; "from previous stage" shows on every stage but the
      first; the drop-off box and the arrow show on every stage but the last,
      and the users lost are this stage's visitors minus the next one's. */
  function Row(data: seq<FunnelStage>, i: nat): (r: StageRow)
    requires i < |data|
    ensures r.number == i + 1 && r.name == data[i].stage
    ensures r.badge == FirstBadge <==> i == 0
    ensures r.badge == LastBadge <==> i != 0 && i == |data| - 1
    ensures r.fromPrevious <==> i != 0
    ensures r.dropOff.Some? <==> i < |data| - 1
    ensures r.arrow <==> i < |data| - 1
    ensures r.dropOff.Some? ==> r.dropOff.value.usersLost == data[i].visitors - data[i + 1].visitors
    ensures r.dropOff.Some? ==> r.dropOff.value.rate == data[i].dropOffRate
    ensures r.progress == ProgressWidth(data[i].conversionRate) && 0 <= r.progress <= FullBar
  {
    var isFirst := i == 0;
    var isLast := i == |data| - 1;
    StageRow(
      i + 1,
      data[i].stage,
      if isFirst then FirstBadge else if isLast then LastBadge else MiddleBadge,
      !isFirst,
      ProgressWidth(data[i].conversionRate),
      if isLast then None else Some(DropOff(data[i].dropOffRate, data[i].visitors - data[i + 1].visitors)),
      !isLast)
  }

  function Rows(data: seq<FunnelStage>): (rows: seq<StageRow>)
    ensures |rows| == |data|
    ensures forall i :: 0 <= i < |data| ==> rows[i] == Row(data, i)
  {
    seq(|data|, i requires 0 <= i < |data| => Row(data, i))
  }

  function DropOffRate(s: FunnelStage): int { s.dropOffRate }

  function ConversionRate(s: FunnelStage): int { s.conversionRate }

  /** The two insight lines. */
  datatype Insights = Insights(biggestDropOff: string, bestStage: string)

  /** A percentage over the first stage's visitors, kept as an exact fraction
      (the overall rate is `last.conversions / first.visitors * 100`, the total
      drop-off `(first.visitors - last.conversions) / first.visitors * 100`);
      zero when there are no stages. */
  datatype OverallRate = ZeroRate | Fraction(numerator: int, denominator: int)

  datatype View =
    | Skeleton
    | Shown(rows: seq<StageRow>, overall: OverallRate, totalDropOff: OverallRate, totalVisitors: int, finalConversions: int,
            stageCount: nat, insights: Option<Insights>)

  function Render(data: seq<FunnelStage>, isLoading: bool): (v: View)
    ensures isLoading <==> v.Skeleton?
    ensures v.Shown? ==> v.rows == Rows(data) && v.stageCount == |data|
    ensures v.Shown? ==> (v.overall == ZeroRate <==> |data| == 0) && (v.totalDropOff == ZeroRate <==> |data| == 0)
    ensures v.Shown? && |data| > 0 ==>
              v.overall.Fraction? && v.totalDropOff.Fraction? && v.overall.denominator == v.totalDropOff.denominator
              && v.overall.numerator + v.totalDropOff.numerator == 100 * v.overall.denominator
    ensures v.Shown? && |data| > 0 ==>
              v.overall.denominator == v.totalVisitors && v.overall.numerator == 100 * v.finalConversions
    ensures v.Shown? ==> (v.insights.None? <==> |data| == 0)
    ensures v.Shown? && |data| == 0 ==> v.totalVisitors == 0 && v.finalConversions == 0
    ensures v.Shown? && |data| > 0 ==> v.totalVisitors == data[0].visitors && v.finalConversions == data[|data| - 1].conversions
    ensures v.Shown? && v.insights.Some? ==>
              (exists k :: 0 <= k < |data| && v.insights.value.biggestDropOff == data[k].stage
                 && (forall j :: 0 <= j < |data| ==> data[j].dropOffRate <= data[k].dropOffRate)
                 && (forall j :: 0 <= j < k ==> data[j].dropOffRate < data[k].dropOffRate))
    ensures v.Shown? && v.insights.Some? ==>
              (exists k :: 0 <= k < |data| && v.insights.value.bestStage == data[k].stage
                 && (forall j :: 0 <= j < |data| ==> data[j].conversionRate <= data[k].conversionRate)
                 && (forall j :: 0 <= j < k ==> data[j].conversionRate < data[k].conversionRate))
  {
    if isLoading then Skeleton
    else if |data| == 0 then Shown([], ZeroRate, ZeroRate, 0, 0, 0, None)
    else
      var drop := FirstArgMax(data, DropOffRate);
      var best := FirstArgMax(data, ConversionRate);
      Shown(Rows(data), Fraction(data[|data| - 1].conversions * 100, data[0].visitors),
            Fraction((data[0].visitors - data[|data| - 1].conversions) * 100, data[0].visitors),
            data[0].visitors, data[|data| - 1].conversions, |data|,
            Some(Insights(data[drop].stage, data[best].stage)))
  }

  predicate HasDropOff(r: StageRow) { r.dropOff.Some? }

  predicate HasArrow(r: StageRow) { r.arrow }

  /** A non-empty funnel of `n` stages shows exactly `n - 1` drop-off boxes and
      `n - 1` arrows. */
  lemma DropOffBoxesAndArrows(data: seq<FunnelStage>)
    requires |data| > 0
    ensures CountIf(Rows(data), HasDropOff) == |data| - 1
    ensures CountIf(Rows(data), HasArrow) == |data| - 1
  {
    CountAllButLast(Rows(data), HasDropOff);
    CountAllButLast(Rows(data), HasArrow);
  }

  lemma {:induction false} CountAllButLast<T(!new)>(xs: seq<T>, p: T -> bool)
    requires |xs| > 0
    requires forall i :: 0 <= i < |xs| - 1 ==> p(xs[i])
    requires !p(xs[|xs| - 1])
    ensures CountIf(xs, p) == |xs| - 1
    decreases |xs|
  {
    if |xs| > 1 {
      CountAllButLast(xs[1..], p);
    }
  }

  /** If visitors never increase along the funnel, no stage reports a negative
      number of users lost. */
  lemma UsersLostNonNegative(data: seq<FunnelStage>, i: nat)
    requires i < |data| - 1
    requires forall j :: 0 <= j < |data| - 1 ==> data[j + 1].visitors <= data[j].visitors
    ensures Row(data, i).dropOff.value.usersLost >= 0
  {
  }

  /** The default funnel: 37,500 users lost after the first stage, the biggest
      drop-off at "Add to Cart" and the best stage "Website Visitors". */
  lemma DefaultFunnelInsights()
    ensures Row(DefaultFunnel, 0).dropOff == Some(DropOff(0, 37500))
    ensures Render(DefaultFunnel, false).insights == Some(Insights("Add to Cart", "Website Visitors"))
  {
    assert FirstArgMax(DefaultFunnel, DropOffRate) == 2;
    assert FirstArgMax(DefaultFunnel, ConversionRate) == 0;
  }
}
