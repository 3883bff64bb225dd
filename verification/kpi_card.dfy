/** The KPI card's trend badge: absent for a missing or empty trend, red for a
    trend that starts with a minus sign, green for any other. */
module KpiCard {
  import opened Wrappers
  import opened Text
  import opened Config

  datatype TrendBadge = NoBadge | PositiveBadge | NegativeBadge

  /** `trend && !trend.startsWith('-')` decides the colour, and `trend && …`
      whether the badge renders at all. */
  function Badge(trend: Option<string>): (b: TrendBadge)
    ensures b == NoBadge <==> trend.None? || trend.value == ""
    ensures b == NegativeBadge <==> trend.Some? && |trend.value| > 0 && trend.value[0] == '-'
    ensures b == PositiveBadge <==> trend.Some? && |trend.value| > 0 && trend.value[0] != '-'
  {
    match trend
    case None => NoBadge
    case Some(t) =>
      if t == "" then NoBadge
      else if StartsWith(t, "-") then NegativeBadge
      else PositiveBadge
  }

  /** Only the first character matters: two non-empty trends that start alike
      get the same badge, whatever follows. */
  lemma BadgeDependsOnFirstChar(a: string, b: string)
    requires |a| > 0 && |b| > 0 && a[0] == b[0]
    ensures Badge(Some(a)) == Badge(Some(b))
  {
  }

  /** "+12.3%" and "0%" are positive, "-2.1%" negative. */
  lemma BadgeExamples()
    ensures Badge(Some("+12.3%")) == PositiveBadge
    ensures Badge(Some("0%")) == PositiveBadge
    ensures Badge(Some("-2.1%")) == NegativeBadge
    ensures Badge(Some("")) == NoBadge && Badge(None) == NoBadge
  {
  }

  /** Every built-in KPI shows a positive trend badge. */
  lemma DefaultKpiTrendsPositive()
    ensures forall i :: 0 <= i < |DefaultKpis| ==> Badge(Some(DefaultKpis[i].trend)) == PositiveBadge
  {
    forall i | 0 <= i < |DefaultKpis|
      ensures Badge(Some(DefaultKpis[i].trend)) == PositiveBadge
    {
      assert DefaultKpis[i].trend[0] == '+';
    }
  }
}
