// The memoized variants of the player-statistics view. Their game log and
// fantasy scoring are those of the original view; they differ in three
// places: the trends are drawn from the game log the table shows, the
// radar chart of the improved variant reads other season fields, and its
// season grid also hides null values.

module DetailedPlayerStatsImproved {
  import opened JsCore
  import opened DetailedPlayerStats

  /** The improved view: one round of draws makes the log, the trends are
      computed from that same log, and the radar chart and season grid are
      the improved ones. */
  method RenderMemoized(position: string, draws: seq<Draw>, today: int, s: SeasonStats,
                        entries: seq<(string, StatValue)>)
    returns (log: seq<GameStats>, trends: seq<Trend>, radar: seq<RadarEntry>, grid: seq<(string, StatValue)>)
    requires |draws| == GamesInLog && forall i :: 0 <= i < |draws| ==> ValidDraw(draws[i])
    ensures |log| == |draws|
    ensures forall i :: 0 <= i < |draws| ==> log[i] == GameFor(position, draws[i], today, i)
    ensures trends == TrendsOf(position, log)
    ensures forall i :: 0 <= i < |log| ==> trends[0].data[i] == log[|log| - 1 - i].fantasyPoints
    ensures radar == RadarImprovedOf(position, s)
    ensures grid == SeasonGridImproved(entries)
  {
    log := GenerateGameLog(position, draws, today);
    trends := GenerateTrendsFrom(position, log);
    TrendsShape(position, log);
    radar := GetRadarChartDataImproved(position, s);
    grid := SeasonGridImproved(entries);
  }

  /** The optimized view: the same memoized log and trends, with the
      original view's radar chart and season grid. */
  method RenderOptimized(position: string, draws: seq<Draw>, today: int, s: SeasonStats,
                         entries: seq<(string, StatValue)>)
    returns (log: seq<GameStats>, trends: seq<Trend>, radar: seq<RadarEntry>, grid: seq<(string, StatValue)>)
    requires |draws| == GamesInLog && forall i :: 0 <= i < |draws| ==> ValidDraw(draws[i])
    ensures |log| == |draws|
    ensures forall i :: 0 <= i < |draws| ==> log[i] == GameFor(position, draws[i], today, i)
    ensures trends == TrendsOf(position, log)
    ensures forall i :: 0 <= i < |log| ==> trends[0].data[i] == log[|log| - 1 - i].fantasyPoints
    ensures radar == RadarOf(position, s)
    ensures grid == SeasonGrid(entries)
  {
    log := GenerateGameLog(position, draws, today);
    trends := GenerateTrendsFrom(position, log);
    TrendsShape(position, log);
    radar := GetRadarChartData(position, s);
    grid := SeasonGrid(entries);
  }

  /** The radar entries of the improved view: passing touchdowns come from
      the season's `touchdowns` and receiving touchdowns are always 0. */
  function RadarImprovedOf(position: string, s: SeasonStats): seq<RadarEntry>
  {
    if position == "QB" then
      [RadarEntry("Pass Yds", Or0(s.passingYards), 400.0), RadarEntry("Pass TDs", Or0(s.touchdowns), 5.0),
       RadarEntry("Comp %", 65.0, 100.0), RadarEntry("Rush Yds", Or0(s.rushingYards), 100.0),
       RadarEntry("INTs", Or0(s.interceptions), 3.0), RadarEntry("Yds/Att", 8.5, 12.0)]
    else if position == "RB" then
      [RadarEntry("Rush Yds", Or0(s.rushingYards), 200.0), RadarEntry("Rush TDs", Or0(s.rushingTDs), 3.0),
       RadarEntry("Yds/Carry", 5.2, 8.0), RadarEntry("Rec", Or0(s.receptions), 10.0),
       RadarEntry("Rec Yds", Or0(s.receivingYards), 100.0), RadarEntry("Rec TDs", 0.0, 2.0)]
    else if position == "WR" || position == "TE" then
      [RadarEntry("Rec", Or0(s.receptions), 15.0), RadarEntry("Rec Yds", Or0(s.receivingYards), 200.0),
       RadarEntry("Rec TDs", 0.0, 3.0), RadarEntry("Targets", Or0(s.receptions) + 4.0, 20.0),
       RadarEntry("Yds/Rec", YardsPerReception(s), 25.0), RadarEntry("Catch %", 70.0, 100.0)]
    else []
  }

  /** The improved `radarChartData`, pushing one entry at a time. */
  method GetRadarChartDataImproved(position: string, s: SeasonStats) returns (radar: seq<RadarEntry>)
    ensures radar == RadarImprovedOf(position, s)
  {
    radar := [];
    if position == "QB" {
      radar := radar + [RadarEntry("Pass Yds", Or0(s.passingYards), 400.0)];
      radar := radar + [RadarEntry("Pass TDs", Or0(s.touchdowns), 5.0)];
      radar := radar + [RadarEntry("Comp %", 65.0, 100.0)];
      radar := radar + [RadarEntry("Rush Yds", Or0(s.rushingYards), 100.0)];
      radar := radar + [RadarEntry("INTs", Or0(s.interceptions), 3.0)];
      radar := radar + [RadarEntry("Yds/Att", 8.5, 12.0)];
    } else if position == "RB" {
      radar := radar + [RadarEntry("Rush Yds", Or0(s.rushingYards), 200.0)];
      radar := radar + [RadarEntry("Rush TDs", Or0(s.rushingTDs), 3.0)];
      radar := radar + [RadarEntry("Yds/Carry", 5.2, 8.0)];
      radar := radar + [RadarEntry("Rec", Or0(s.receptions), 10.0)];
      radar := radar + [RadarEntry("Rec Yds", Or0(s.receivingYards), 100.0)];
      radar := radar + [RadarEntry("Rec TDs", 0.0, 2.0)];
    } else if position == "WR" || position == "TE" {
      radar := radar + [RadarEntry("Rec", Or0(s.receptions), 15.0)];
      radar := radar + [RadarEntry("Rec Yds", Or0(s.receivingYards), 200.0)];
      radar := radar + [RadarEntry("Rec TDs", 0.0, 3.0)];
      radar := radar + [RadarEntry("Targets", Or0(s.receptions) + 4.0, 20.0)];
      radar := radar + [RadarEntry("Yds/Rec", YardsPerReception(s), 25.0)];
      radar := radar + [RadarEntry("Catch %", 70.0, 100.0)];
    }
  }

  /** The axis holding the touchdowns the two radar charts read
      differently. */
  function TouchdownAxis(position: string): nat
  {
    if position == "QB" then 1 else if position == "RB" then 5 else 2
  }

  /** The two radar charts have the same axes and scales and agree on every
      value but one: the quarterback's passing touchdowns (read from another
      field) and the receiving touchdowns of running backs and receivers (0
      instead of the season value). */
  lemma RadarDifferences(position: string, s: SeasonStats)
    ensures var a, b := RadarOf(position, s), RadarImprovedOf(position, s);
            && |a| == |b|
            && (forall k :: 0 <= k < |a| ==> a[k].category == b[k].category && a[k].maxValue == b[k].maxValue)
            && (forall k :: 0 <= k < |a| && k != TouchdownAxis(position) ==> a[k].value == b[k].value)
    ensures position == "QB" ==>
              RadarOf(position, s)[1].value == Or0(s.passingTDs) && RadarImprovedOf(position, s)[1].value == Or0(s.touchdowns)
    ensures position in {"RB", "WR", "TE"} ==>
              var k := TouchdownAxis(position);
              RadarOf(position, s)[k].value == Or0(s.receivingTDs) && RadarImprovedOf(position, s)[k].value == 0.0
    ensures Or0(s.passingTDs) == Or0(s.touchdowns) && Or0(s.receivingTDs) == 0.0 ==>
              RadarOf(position, s) == RadarImprovedOf(position, s)
  {
  }

  /** The improved season grid: undefined and null values are both
      skipped. */
  function SeasonGridImproved(entries: seq<(string, StatValue)>): (r: seq<(string, StatValue)>)
    ensures |r| <= |entries|
    ensures forall e :: e in r ==> e.1.Number?
    ensures forall e :: e in entries && e.1.Number? ==> (FormatKey(e.0), e.1) in r
    ensures forall e :: e in r ==> exists k :: (k, e.1) in entries && e.0 == FormatKey(k)
    decreases |entries|
  {
    if entries == [] then []
    else
      var rest := SeasonGridImproved(entries[1..]);
      var e := entries[0];
      if !e.1.Number? then rest else [(FormatKey(e.0), e.1)] + rest
  }

  /** Without null values the two grids show the same cells; with them the
      improved grid is the original one minus its null cells. */
  lemma SeasonGridsAgree(entries: seq<(string, StatValue)>)
    ensures SeasonGridImproved(entries) == WithoutNulls(SeasonGrid(entries))
    ensures (forall i :: 0 <= i < |entries| ==> entries[i].1 != NullValue) ==>
              SeasonGridImproved(entries) == SeasonGrid(entries)
  {
    ImprovedIsWithoutNulls(entries);
    var g := SeasonGrid(entries);
    if forall i :: 0 <= i < |entries| ==> entries[i].1 != NullValue {
      forall e | e in g ensures e.1 != NullValue {
        var k :| (k, e.1) in entries && e.0 == FormatKey(k);
        var i :| 0 <= i < |entries| && entries[i] == (k, e.1);
      }
      NoNullsKept(g);
    }
  }

  /** The improved grid is the original grid with its null cells dropped. */
  lemma {:induction false} ImprovedIsWithoutNulls(entries: seq<(string, StatValue)>)
    ensures SeasonGridImproved(entries) == WithoutNulls(SeasonGrid(entries))
    decreases |entries|
  {
    if entries != [] {
      var rest := entries[1..];
      ImprovedIsWithoutNulls(rest);
      var e := entries[0];
      var g := SeasonGrid(rest);
      var c := (FormatKey(e.0), e.1);
      if e.1 != Missing {
        assert SeasonGrid(entries) == [c] + g;
        assert ([c] + g)[1..] == g;
        assert WithoutNulls([c] + g) == (if e.1 == NullValue then [] else [c]) + WithoutNulls(g);
      }
    }
  }

  /** The cells of a grid whose value is not null. */
  function WithoutNulls(cells: seq<(string, StatValue)>): (r: seq<(string, StatValue)>)
    ensures forall e :: e in r <==> e in cells && e.1 != NullValue
    decreases |cells|
  {
    if cells == [] then []
    else (if cells[0].1 == NullValue then [] else [cells[0]]) + WithoutNulls(cells[1..])
  }

  lemma {:induction false} NoNullsKept(cells: seq<(string, StatValue)>)
    requires forall e :: e in cells ==> e.1 != NullValue
    ensures WithoutNulls(cells) == cells
    decreases |cells|
  {
    if cells != [] {
      assert forall e :: e in cells[1..] ==> e in cells;
      NoNullsKept(cells[1..]);
      assert cells == [cells[0]] + cells[1..];
    }
  }
}
