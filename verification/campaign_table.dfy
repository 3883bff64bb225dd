/** The campaign table's cell rules: the status badge (label and variant),
    the ROI trend sign, and the header and empty-state figures. */
module CampaignTable {
  import opened Text
  import opened Config

  /** `status.charAt(0).toUpperCase() + status.slice(1)`. */
  function StatusLabel(status: string): (r: string)
    ensures |r| == |status|
    ensures |status| > 0 ==> r[0] == UpperChar(status[0]) && r[1..] == status[1..]
  {
    if |status| == 0 then "" else [UpperChar(status[0])] + status[1..]
  }

  lemma LowerUpperChar(c: char)
    ensures LowerChar(UpperChar(c)) == LowerChar(c)
  {
  }

  /** Capitalising does not change a status case-insensitively, and doing it
      twice is doing it once. */
  lemma StatusLabelCaseInsensitive(status: string)
    ensures Lower(StatusLabel(status)) == Lower(status)
    ensures StatusLabel(StatusLabel(status)) == StatusLabel(status)
  {
    if |status| > 0 {
      LowerUpperChar(status[0]);
      var r := StatusLabel(status);
      assert forall i :: 1 <= i < |r| ==> r[i] == status[i];
    }
  }

  lemma StatusLabels()
    ensures StatusLabel("active") == "Active"
    ensures StatusLabel("paused") == "Paused"
    ensures StatusLabel("completed") == "Completed"
  {
  }

  datatype BadgeVariant = DefaultVariant | SecondaryVariant | OutlineVariant

  /** active is the default badge, completed the secondary one, anything else
      (paused, or an unexpected value) the outline one. */
  function Variant(status: string): (v: BadgeVariant)
    ensures v == DefaultVariant <==> status == "active"
    ensures v == SecondaryVariant <==> status == "completed"
    ensures v == OutlineVariant <==> status != "active" && status != "completed"
  {
    if status == "active" then DefaultVariant
    else if status == "completed" then SecondaryVariant
    else OutlineVariant
  }

  datatype RoiTrend = TrendUp | TrendDown

  /** The ROI cell's icon and colour: the green up-trend only for a strictly
      positive ROI, the red down-trend for zero and below. */
  function RoiCell(roi: int): (t: RoiTrend)
    ensures t == TrendUp <==> roi > 0
    ensures t == TrendDown <==> roi <= 0
  {
    if roi > 0 then TrendUp else TrendDown
  }

  /** The trend only depends on the sign: a larger ROI never trends down when
      a smaller one trends up, and zero, the boundary, trends down. */
  lemma RoiTrendBySign(a: int, b: int)
    requires a <= b
    ensures RoiCell(a) == TrendUp ==> RoiCell(b) == TrendUp
    ensures RoiCell(b) == TrendDown ==> RoiCell(a) == TrendDown
    ensures RoiCell(0) == TrendDown && RoiCell(1) == TrendUp
  {
  }

  /** Every default campaign trends up. */
  lemma DefaultCampaignsTrendUp()
    ensures forall i :: 0 <= i < |DefaultCampaigns| ==> RoiCell(DefaultCampaigns[i].roi) == TrendUp
  {
    forall i | 0 <= i < |DefaultCampaigns|
      ensures RoiCell(DefaultCampaigns[i].roi) == TrendUp
    {
      assert DefaultCampaigns[i].roi >= 180;
    }
  }

  /** The table's columns, by accessor key. */
  const Columns := ["name", "status", "channel", "budget", "spent", "impressions", "clicks", "ctr", "conversions", "roi"]

  const InitialPageSize := 5

  datatype View =
    | Skeleton
    | Shown(headerCount: nat, columnCount: nat, emptyStateSpan: nat, pageSize: nat, emptyState: bool)

  /** The table. `visibleRows` is how many rows the table library leaves after
      its own search box, sorting and paging; only the empty-state row depends
      on it. */
  function Render(data: seq<CampaignData>, isLoading: bool, visibleRows: nat): (v: View)
    ensures isLoading <==> v.Skeleton?
    ensures v.Shown? ==> v.headerCount == |data| && v.columnCount == 10 && v.emptyStateSpan == v.columnCount
    ensures v.Shown? ==> v.pageSize == 5
    ensures v.Shown? ==> (v.emptyState <==> visibleRows == 0)
  {
    if isLoading then Skeleton
    else Shown(|data|, |Columns|, |Columns|, InitialPageSize, visibleRows == 0)
  }

  /** The header's "N campaigns tracked" counts the input, whatever the
      table's own search box hides. */
  lemma HeaderIgnoresTableSearch(data: seq<CampaignData>, a: nat, b: nat)
    ensures Render(data, false, a).headerCount == Render(data, false, b).headerCount == |data|
  {
  }
}
