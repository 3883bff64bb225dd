/** The "User Growth" line chart card: where its points come from, the guard
    for too little data, and the growth badge and total under the chart. */
module LineChart {
  import opened Wrappers
  import opened Seqs
  import opened Config

  /** What loading the configuration gave for the line chart: an array of
      points, something that is not an array (or nothing), or a thrown load. */
  datatype LineSource = LineArray(points: seq<ChartData>) | NotAnArray | LoadThrew

  /** The card's data after loading: the points when they are an array, and
      the empty list otherwise. */
  function LoadLineData(src: LineSource): (data: seq<ChartData>)
    ensures src.LineArray? ==> data == src.points
    ensures !src.LineArray? ==> data == []
  {
    match src
    case LineArray(points) => points
    case _ => []
  }

  /** `item?.value ?? 0`. */
  function ValueOrZero(p: ChartData): int { p.value.GetOr(0) }

  /** The growth percentage, kept as an exact fraction
      `totalGrowth * 100 / firstValue`; the literal "0.0" when the first value
      is zero. */
  datatype GrowthPercent = ZeroPercent | Ratio(numerator: int, denominator: int)

  datatype View =
    | Skeleton
    | NoData
    | Shown(firstValue: int, lastValue: int, totalGrowth: int, percent: GrowthPercent, positive: bool, totalUsers: int)

  /** The card: a skeleton while loading, the empty state for fewer than two
      points, otherwise the growth from the first to the last point (missing
      values read as 0), counted as positive when it is not negative, and the
      sum of all values. */
  function Render(data: seq<ChartData>, isLoading: bool): (v: View)
    ensures isLoading <==> v.Skeleton?
    ensures v.NoData? <==> !isLoading && |data| < 2
    ensures v.Shown? ==> v.firstValue == ValueOrZero(data[0]) && v.lastValue == ValueOrZero(data[|data| - 1])
    ensures v.Shown? ==> v.totalGrowth == v.lastValue - v.firstValue
    ensures v.Shown? ==> (v.percent == ZeroPercent <==> v.firstValue == 0)
    ensures v.Shown? && v.firstValue != 0 ==> v.percent == Ratio(v.totalGrowth * 100, v.firstValue)
    ensures v.Shown? ==> (v.positive <==> v.firstValue <= v.lastValue)
    ensures v.Shown? ==> v.totalUsers == SumOf(data, ValueOrZero)
  {
    if isLoading then Skeleton
    else if |data| < 2 then NoData
    else
      var first := ValueOrZero(data[0]);
      var last := ValueOrZero(data[|data| - 1]);
      var growth := last - first;
      FoldSumIsSum(data, ValueOrZero, 0);
      Shown(first, last, growth, if first != 0 then Ratio(growth * 100, first) else ZeroPercent,
            growth >= 0, FoldSum(data, ValueOrZero, 0))
  }

  /** A configuration without a line-chart array, or a failed load, leaves the
      card on its empty state. */
  lemma MissingLineChartShowsNoData(src: LineSource)
    requires !src.LineArray?
    ensures Render(LoadLineData(src), false) == NoData
  {
  }

  /** For a positive first value the sign of the percentage agrees with the
      badge: the badge is positive exactly when the percentage is not
      negative. A zero first value shows "0.0" whatever the growth. */
  lemma PercentSignAgrees(data: seq<ChartData>)
    requires |data| >= 2
    ensures var v := Render(data, false);
            (v.firstValue > 0 ==> (v.positive <==> v.percent.numerator >= 0))
            && (v.firstValue == 0 ==> v.percent == ZeroPercent && (v.positive <==> v.lastValue >= 0))
  {
  }

  /** Adding a point adds its value to the total, a missing value adding
      nothing. */
  lemma TotalUsersAppend(data: seq<ChartData>, p: ChartData)
    requires |data| >= 2
    ensures Render(data + [p], false).totalUsers == Render(data, false).totalUsers + ValueOrZero(p)
    ensures p.value.None? ==> Render(data + [p], false).totalUsers == Render(data, false).totalUsers
  {
    SumOfAppend(data, [p], ValueOrZero);
    assert SumOf([p], ValueOrZero) == ValueOrZero(p) + SumOf([p][1..], ValueOrZero);
  }

  /** The default series (400 up to 800 over six months): a growth of 400, that
      is 100%, shown as positive, and 3,300 users in all. */
  lemma DefaultLineChart()
    ensures Render(DefaultCharts.lineChart, false) == Shown(400, 800, 400, Ratio(40000, 400), true, 3300)
  {
    var d := DefaultCharts.lineChart;
    assert ValueOrZero(d[0]) == 400 && ValueOrZero(d[5]) == 800;
    assert SumOf(d, ValueOrZero) == 3300;
  }
}
