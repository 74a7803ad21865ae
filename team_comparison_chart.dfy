// The side-by-side bar chart of two teams' statistics: the common scale,
// each bar's width, the highlighted better side and whether a bar carries
// its number. Values are exact reals; NaN and the CSS output are not
// modelled.

module ComparisonChart {
  import opened JsCore

  datatype Side = Team1 | Team2

  datatype ChartItem = ChartItem(category: string, team1Value: real, team2Value: real, higherIsBetter: Option<bool>)

  function Max(a: real, b: real): real { if a >= b then a else b }

  /** `Math.max(...data.map(item => Math.max(team1Value, team2Value)))`;
      None stands for the `-Infinity` of an empty list. */
  function MaxValue(data: seq<ChartItem>): (r: Option<real>)
    ensures r.Some? <==> data != []
    ensures r.Some? ==> forall i :: 0 <= i < |data| ==> data[i].team1Value <= r.value && data[i].team2Value <= r.value
    ensures r.Some? ==> exists i :: 0 <= i < |data| && (data[i].team1Value == r.value || data[i].team2Value == r.value)
    decreases |data|
  {
    if data == [] then None
    else
      var here := Max(data[0].team1Value, data[0].team2Value);
      match MaxValue(data[1..])
      case None => Some(here)
      case Some(rest) =>
        var m := Max(here, rest);
        assert m != here ==> exists i :: 0 <= i < |data[1..]| && (data[1..][i].team1Value == m || data[1..][i].team2Value == m);
        Some(m)
  }

  /** `getBarWidth(value)` as a percentage; None where the division by a
      zero maximum would give Infinity or NaN. */
  function BarWidth(value: real, maxValue: real): (r: Option<real>)
    ensures r.Some? <==> maxValue != 0.0
    ensures r.Some? && maxValue > 0.0 && 0.0 <= value <= maxValue ==> 0.0 <= r.value <= 100.0
    ensures r.Some? && value == maxValue ==> r.value == 100.0
  {
    if maxValue == 0.0 then None
    else
      var w := (value / maxValue) * 100.0;
      assert maxValue > 0.0 && 0.0 <= value <= maxValue ==> value / maxValue <= 1.0 by {
        if maxValue > 0.0 && 0.0 <= value <= maxValue {
          DivAtMostOne(value, maxValue);
        }
      }
      Some(w)
  }

  lemma DivAtMostOne(v: real, m: real)
    requires m > 0.0 && 0.0 <= v <= m
    ensures 0.0 <= v / m <= 1.0
  {
    var q := v / m;
    assert q * m == v;
    assert q > 1.0 ==> q * m > m;
  }

  /** The chart's `getBetterTeam`: none on equal values, otherwise the
      larger value wins unless lower is better (the default is higher). */
  function GetBetterTeam(item: ChartItem): (r: Option<Side>)
    ensures r.None? <==> item.team1Value == item.team2Value
    ensures var higher := item.higherIsBetter != Some(false);
            r == Some(Team1) <==> (if higher then item.team1Value > item.team2Value else item.team1Value < item.team2Value)
    ensures var higher := item.higherIsBetter != Some(false);
            r == Some(Team2) <==> (if higher then item.team2Value > item.team1Value else item.team2Value < item.team1Value)
  {
    var higher := if item.higherIsBetter.Some? then item.higherIsBetter.value else true;
    if item.team1Value == item.team2Value then None
    else if higher then (if item.team1Value > item.team2Value then Some(Team1) else Some(Team2))
    else (if item.team1Value < item.team2Value then Some(Team1) else Some(Team2))
  }

  /** A bar shows its number only when it exceeds 15% of the maximum. */
  predicate LabelShown(value: real, maxValue: real)
  {
    value > maxValue * 0.15
  }

  datatype Bar = Bar(width: Option<real>, better: bool, labelled: bool)
  datatype Row = Row(category: string, team1Bar: Bar, team2Bar: Bar)

  /** The rows of a non-empty chart. */
  function Render(data: seq<ChartItem>): (r: seq<Row>)
    ensures |r| == |data|
    ensures data != [] ==> forall i :: 0 <= i < |data| ==>
              var m := MaxValue(data).value;
              && r[i].category == data[i].category
              && r[i].team1Bar == Bar(BarWidth(data[i].team1Value, m), GetBetterTeam(data[i]) == Some(Team1), LabelShown(data[i].team1Value, m))
              && r[i].team2Bar == Bar(BarWidth(data[i].team2Value, m), GetBetterTeam(data[i]) == Some(Team2), LabelShown(data[i].team2Value, m))
  {
    if data == [] then []
    else
      var m := MaxValue(data).value;
      seq(|data|, i requires 0 <= i < |data| =>
        Row(data[i].category,
            Bar(BarWidth(data[i].team1Value, m), GetBetterTeam(data[i]) == Some(Team1), LabelShown(data[i].team1Value, m)),
            Bar(BarWidth(data[i].team2Value, m), GetBetterTeam(data[i]) == Some(Team2), LabelShown(data[i].team2Value, m))))
  }

  /** With non-negative values and a positive maximum, every bar fits in
      the chart, at most one side of a row is highlighted, and the bar of
      the maximum is labelled. */
  lemma RenderedBarsFit(data: seq<ChartItem>)
    requires data != []
    requires forall i :: 0 <= i < |data| ==> data[i].team1Value >= 0.0 && data[i].team2Value >= 0.0
    requires MaxValue(data).value > 0.0
    ensures var r := Render(data);
            forall i :: 0 <= i < |r| ==>
              && 0.0 <= r[i].team1Bar.width.value <= 100.0
              && 0.0 <= r[i].team2Bar.width.value <= 100.0
              && !(r[i].team1Bar.better && r[i].team2Bar.better)
    ensures var m := MaxValue(data).value;
            forall i :: 0 <= i < |data| && data[i].team1Value == m ==> LabelShown(data[i].team1Value, m)
  {
  }

  /** Swapping the two values swaps the winner; flipping higherIsBetter
      flips it too. */
  lemma BetterTeamSymmetry(category: string, v1: real, v2: real, higher: bool)
    requires v1 != v2
    ensures GetBetterTeam(ChartItem(category, v1, v2, Some(higher))) == Some(Team1) <==>
            GetBetterTeam(ChartItem(category, v2, v1, Some(higher))) == Some(Team2)
    ensures GetBetterTeam(ChartItem(category, v1, v2, Some(higher))) == Some(Team1) <==>
            GetBetterTeam(ChartItem(category, v1, v2, Some(!higher))) == Some(Team2)
    ensures GetBetterTeam(ChartItem(category, v1, v2, None)) == GetBetterTeam(ChartItem(category, v1, v2, Some(true)))
  {
  }
}
