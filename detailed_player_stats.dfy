// The detailed player statistics view: the five-game log built from a
// player's position, its fantasy-point scoring, the trend series, the
// radar-chart entries and the season-stat labels. The game-log loop and
// the scoring are the same, up to names, comments and the memo wrapper,
// in the improved and optimized variants of the view, and the optimized variant's radar and season grid
// are the same too, so the members here model those copies as well.
//
// `Math.random()` draws are parameters (one `Draw` per game), the date is a
// day number counted back from `today`, and points are exact reals with the
// `toFixed(1)` rounding left out.

module DetailedPlayerStats {
  import opened JsCore

  /** One game of the log. */
  datatype GameStats = GameStats(
    game: string, opponent: string, date: int,
    passingYards: Option<int>, passingTDs: Option<int>, interceptions: Option<int>,
    rushingYards: Option<int>, rushingTDs: Option<int>,
    receptions: Option<int>, receivingYards: Option<int>, receivingTDs: Option<int>,
    fieldGoals: Option<int>, extraPoints: Option<int>,
    fantasyPoints: real)

  /** The `Math.random()` results one game consumes: the opponent pick,
      then up to five draws for the position's statistics, in call order. */
  datatype Draw = Draw(pick: real, r1: real, r2: real, r3: real, r4: real, r5: real)

  predicate InUnit(x: real) { 0.0 <= x < 1.0 }

  /** Every draw lies in [0, 1), as `Math.random()` guarantees. */
  predicate ValidDraw(d: Draw)
  {
    InUnit(d.pick) && InUnit(d.r1) && InUnit(d.r2) && InUnit(d.r3) && InUnit(d.r4) && InUnit(d.r5)
  }

  const Opponents: seq<string> := ["KC", "SF", "BUF", "MIA", "PHI", "DAL", "NYG", "BAL"]

  const GamesInLog := 5

  /** `Math.floor(base + r * span)`. */
  function FloorOf(base: real, r: real, span: real): int
  {
    (base + r * span).Floor
  }

  lemma FloorInRange(base: int, r: real, span: nat)
    requires InUnit(r) && span > 0
    ensures base <= FloorOf(base as real, r, span as real) <= base + span - 1
  {
    var m := span as real;
    ScaledUnit(r, m);
    assert (base + span) as real == base as real + m;
    assert base as real <= base as real + r * m < (base + span) as real;
  }

  /** A draw in [0, 1) scaled by a positive span lies in [0, span). */
  lemma ScaledUnit(r: real, m: real)
    requires InUnit(r) && m > 0.0
    ensures 0.0 <= r * m < m
  {
    assert (1.0 - r) * m > 0.0;
  }

  /** `Math.random() > p ? 1 : 0`. */
  function Chance(r: real, p: real): int
  {
    if r > p then 1 else 0
  }

  /** A game with no statistics yet. */
  function EmptyGame(opponent: string, date: int): GameStats
  {
    GameStats("vs " + opponent, opponent, date, None, None, None, None, None, None, None, None, None, None, 0.0)
  }

  /** The position's statistics of one game. */
  function WithPositionStats(g: GameStats, position: string, d: Draw): (r: GameStats)
    ensures r.game == g.game && r.opponent == g.opponent && r.date == g.date && r.fantasyPoints == g.fantasyPoints
  {
    if position == "QB" then
      g.(passingYards := Some(FloorOf(200.0, d.r1, 200.0)), passingTDs := Some(FloorOf(0.0, d.r2, 4.0)),
         interceptions := Some(FloorOf(0.0, d.r3, 3.0)), rushingYards := Some(FloorOf(0.0, d.r4, 40.0)),
         rushingTDs := Some(Chance(d.r5, 0.8)))
    else if position == "RB" then
      g.(rushingYards := Some(FloorOf(50.0, d.r1, 100.0)), rushingTDs := Some(Chance(d.r2, 0.6)),
         receptions := Some(FloorOf(0.0, d.r3, 5.0)), receivingYards := Some(FloorOf(0.0, d.r4, 50.0)),
         receivingTDs := Some(Chance(d.r5, 0.9)))
    else if position == "WR" || position == "TE" then
      g.(receptions := Some(FloorOf(2.0, d.r1, 8.0)), receivingYards := Some(FloorOf(30.0, d.r2, 100.0)),
         receivingTDs := Some(Chance(d.r3, 0.7)))
    else if position == "K" then
      g.(fieldGoals := Some(FloorOf(0.0, d.r1, 4.0)), extraPoints := Some(FloorOf(0.0, d.r2, 5.0)))
    else g
  }

  function Z(x: Option<int>): real
  {
    if x.Some? then x.value as real else 0.0
  }

  /** The scoring rule, with a missing statistic counted as 0. */
  function FantasyPoints(g: GameStats): real
  {
    0.04 * Z(g.passingYards) + 4.0 * Z(g.passingTDs) - Z(g.interceptions)
    + 0.1 * Z(g.rushingYards) + 6.0 * Z(g.rushingTDs)
    + 0.5 * Z(g.receptions) + 0.1 * Z(g.receivingYards) + 6.0 * Z(g.receivingTDs)
    + 3.0 * Z(g.fieldGoals) + Z(g.extraPoints)
  }

  /** `if (stats.x)`: present and non-zero. */
  predicate Present(x: Option<int>)
  {
    x.Some? && x.value != 0
  }

  /** The `points +=` accumulator of the game-log loop. */
  method ComputePoints(g: GameStats) returns (points: real)
    ensures points == FantasyPoints(g)
  {
    points := 0.0;
    if Present(g.passingYards) { points := points + g.passingYards.value as real * 0.04; }
    assert points == 0.04 * Z(g.passingYards);
    if Present(g.passingTDs) { points := points + g.passingTDs.value as real * 4.0; }
    assert points == 0.04 * Z(g.passingYards) + 4.0 * Z(g.passingTDs);
    if Present(g.interceptions) { points := points - g.interceptions.value as real; }
    assert points == 0.04 * Z(g.passingYards) + 4.0 * Z(g.passingTDs) - Z(g.interceptions);
    if Present(g.rushingYards) { points := points + g.rushingYards.value as real * 0.1; }
    assert points == 0.04 * Z(g.passingYards) + 4.0 * Z(g.passingTDs) - Z(g.interceptions) + 0.1 * Z(g.rushingYards);
    if Present(g.rushingTDs) { points := points + g.rushingTDs.value as real * 6.0; }
    assert points == 0.04 * Z(g.passingYards) + 4.0 * Z(g.passingTDs) - Z(g.interceptions) + 0.1 * Z(g.rushingYards) + 6.0 * Z(g.rushingTDs);
    if Present(g.receptions) { points := points + g.receptions.value as real * 0.5; }
    assert points == 0.04 * Z(g.passingYards) + 4.0 * Z(g.passingTDs) - Z(g.interceptions) + 0.1 * Z(g.rushingYards) + 6.0 * Z(g.rushingTDs) + 0.5 * Z(g.receptions);
    if Present(g.receivingYards) { points := points + g.receivingYards.value as real * 0.1; }
    assert points == 0.04 * Z(g.passingYards) + 4.0 * Z(g.passingTDs) - Z(g.interceptions) + 0.1 * Z(g.rushingYards) + 6.0 * Z(g.rushingTDs) + 0.5 * Z(g.receptions) + 0.1 * Z(g.receivingYards);
    if Present(g.receivingTDs) { points := points + g.receivingTDs.value as real * 6.0; }
    assert points == 0.04 * Z(g.passingYards) + 4.0 * Z(g.passingTDs) - Z(g.interceptions) + 0.1 * Z(g.rushingYards) + 6.0 * Z(g.rushingTDs) + 0.5 * Z(g.receptions) + 0.1 * Z(g.receivingYards) + 6.0 * Z(g.receivingTDs);
    if Present(g.fieldGoals) { points := points + g.fieldGoals.value as real * 3.0; }
    assert points == 0.04 * Z(g.passingYards) + 4.0 * Z(g.passingTDs) - Z(g.interceptions) + 0.1 * Z(g.rushingYards) + 6.0 * Z(g.rushingTDs) + 0.5 * Z(g.receptions) + 0.1 * Z(g.receivingYards) + 6.0 * Z(g.receivingTDs) + 3.0 * Z(g.fieldGoals);
    if Present(g.extraPoints) { points := points + g.extraPoints.value as real; }
    assert points == 0.04 * Z(g.passingYards) + 4.0 * Z(g.passingTDs) - Z(g.interceptions) + 0.1 * Z(g.rushingYards) + 6.0 * Z(g.rushingTDs) + 0.5 * Z(g.receptions) + 0.1 * Z(g.receivingYards) + 6.0 * Z(g.receivingTDs) + 3.0 * Z(g.fieldGoals) + Z(g.extraPoints);
  }

  /** Game i of the log: the opponent picked, a week earlier per game, the
      position's statistics and their points. */
  function GameFor(position: string, d: Draw, today: int, i: int): GameStats
    requires ValidDraw(d)
  {
    var k := FloorOf(0.0, d.pick, 8.0);
    FloorInRange(0, d.pick, 8);
    var g := WithPositionStats(EmptyGame(Opponents[k], today - 7 * i), position, d);
    g.(fantasyPoints := FantasyPoints(g))
  }

  /** `generateGameLog`: five games, most recent first. */
  method GenerateGameLog(position: string, draws: seq<Draw>, today: int) returns (log: seq<GameStats>)
    requires |draws| == GamesInLog && forall i :: 0 <= i < |draws| ==> ValidDraw(draws[i])
    ensures |log| == |draws|
    ensures forall i :: 0 <= i < |draws| ==> log[i] == GameFor(position, draws[i], today, i)
  {
    log := [];
    for i := 0 to GamesInLog
      invariant |log| == i
      invariant forall j :: 0 <= j < i ==> log[j] == GameFor(position, draws[j], today, j)
    {
      var d := draws[i];
      var k := (d.pick * 8.0).Floor;
      assert k == FloorOf(0.0, d.pick, 8.0);
      FloorInRange(0, d.pick, 8);
      var stats := EmptyGame(Opponents[k], today - i * 7);
      stats := WithPositionStats(stats, position, d);
      var points := ComputePoints(stats);
      stats := stats.(fantasyPoints := points);
      assert stats == GameFor(position, d, today, i);
      log := log + [stats];
    }
  }

  /** Each position fills only its own fields: quarterbacks passing and
      rushing, running backs rushing and receiving, receivers and tight ends
      receiving, kickers kicking, and every other position nothing. */
  lemma PositionFields(position: string, d: Draw, today: int, i: int)
    requires ValidDraw(d)
    ensures var g := GameFor(position, d, today, i);
            && (g.passingYards.Some? <==> position == "QB")
            && (g.passingTDs.Some? <==> position == "QB")
            && (g.interceptions.Some? <==> position == "QB")
            && (g.rushingYards.Some? <==> position == "QB" || position == "RB")
            && (g.rushingTDs.Some? <==> position == "QB" || position == "RB")
            && (g.receptions.Some? <==> position in {"RB", "WR", "TE"})
            && (g.receivingYards.Some? <==> position in {"RB", "WR", "TE"})
            && (g.receivingTDs.Some? <==> position in {"RB", "WR", "TE"})
            && (g.fieldGoals.Some? <==> position == "K")
            && (g.extraPoints.Some? <==> position == "K")
            && g.opponent in Opponents
            && g.game == "vs " + g.opponent
            && g.date == today - 7 * i
  {
  }

  /** The ranges the draws give a quarterback's game. */
  lemma QuarterbackRanges(d: Draw, today: int, i: int)
    requires ValidDraw(d)
    ensures var g := GameFor("QB", d, today, i);
            && 200 <= g.passingYards.value <= 399 && 0 <= g.passingTDs.value <= 3
            && 0 <= g.interceptions.value <= 2 && 0 <= g.rushingYards.value <= 39
            && 0 <= g.rushingTDs.value <= 1
  {
    FloorInRange(200, d.r1, 200);
    FloorInRange(0, d.r2, 4);
    FloorInRange(0, d.r3, 3);
    FloorInRange(0, d.r4, 40);
  }

  /** A game whose statistics are all zero or missing scores nothing. */
  lemma ZeroStatsZeroPoints(g: GameStats)
    requires !Present(g.passingYards) && !Present(g.passingTDs) && !Present(g.interceptions)
    requires !Present(g.rushingYards) && !Present(g.rushingTDs) && !Present(g.receptions)
    requires !Present(g.receivingYards) && !Present(g.receivingTDs)
    requires !Present(g.fieldGoals) && !Present(g.extraPoints)
    ensures FantasyPoints(g) == 0.0
  {
  }

  /** Points never fall when a statistic other than interceptions grows
      and never rise when interceptions grow. */
  lemma PointsMonotone(g: GameStats, h: GameStats)
    requires Z(g.passingYards) <= Z(h.passingYards) && Z(g.passingTDs) <= Z(h.passingTDs)
    requires Z(g.interceptions) >= Z(h.interceptions)
    requires Z(g.rushingYards) <= Z(h.rushingYards) && Z(g.rushingTDs) <= Z(h.rushingTDs)
    requires Z(g.receptions) <= Z(h.receptions) && Z(g.receivingYards) <= Z(h.receivingYards)
    requires Z(g.receivingTDs) <= Z(h.receivingTDs)
    requires Z(g.fieldGoals) <= Z(h.fieldGoals) && Z(g.extraPoints) <= Z(h.extraPoints)
    ensures FantasyPoints(g) <= FantasyPoints(h)
  {
  }

  // ---- Trends ----

  datatype Trend = Trend(category: string, data: seq<real>, color: string)

  function Reverse<T>(s: seq<T>): (r: seq<T>)
    ensures |r| == |s|
    decreases |s|
  {
    if s == [] then [] else Reverse(s[1..]) + [s[0]]
  }

  lemma {:induction false} ReverseIndex<T>(s: seq<T>)
    ensures forall i :: 0 <= i < |s| ==> Reverse(s)[i] == s[|s| - 1 - i]
    decreases |s|
  {
    if s != [] {
      ReverseIndex(s[1..]);
    }
  }

  /** The values a trend plots, per game. */
  datatype Column = FantasyPts | PassingYds | Touchdowns | RushingYds | TotalYds | ReceivingYds | Catches

  function ColumnValue(col: Column, g: GameStats): real
  {
    match col
    case FantasyPts => g.fantasyPoints
    case PassingYds => Z(g.passingYards)
    case Touchdowns => Z(g.passingTDs) + Z(g.rushingTDs)
    case RushingYds => Z(g.rushingYards)
    case TotalYds => Z(g.rushingYards) + Z(g.receivingYards)
    case ReceivingYds => Z(g.receivingYards)
    case Catches => Z(g.receptions)
  }

  /** `gameLog.map(...).reverse()`: oldest game first. */
  function Series(log: seq<GameStats>, col: Column): seq<real>
  {
    Reverse(seq(|log|, i requires 0 <= i < |log| => ColumnValue(col, log[i])))
  }

  /** The trends of a log: fantasy points for everyone, then two series
      for the four skill positions. */
  function TrendsOf(position: string, log: seq<GameStats>): seq<Trend>
  {
    [Trend("Fantasy Points", Series(log, FantasyPts), "#3B82F6")] +
    (if position == "QB" then
       [Trend("Passing Yards", Series(log, PassingYds), "#EF4444"), Trend("TDs", Series(log, Touchdowns), "#10B981")]
     else if position == "RB" then
       [Trend("Rushing Yards", Series(log, RushingYds), "#EF4444"), Trend("Total Yards", Series(log, TotalYds), "#8B5CF6")]
     else if position == "WR" || position == "TE" then
       [Trend("Receiving Yards", Series(log, ReceivingYds), "#EF4444"), Trend("Receptions", Series(log, Catches), "#F59E0B")]
     else [])
  }

  /** Building the trends with `push` over a given log. */
  method GenerateTrendsFrom(position: string, log: seq<GameStats>) returns (trends: seq<Trend>)
    ensures trends == TrendsOf(position, log)
  {
    trends := [];
    trends := trends + [Trend("Fantasy Points", Series(log, FantasyPts), "#3B82F6")];
    if position == "QB" {
      trends := trends + [Trend("Passing Yards", Series(log, PassingYds), "#EF4444")];
      trends := trends + [Trend("TDs", Series(log, Touchdowns), "#10B981")];
    } else if position == "RB" {
      trends := trends + [Trend("Rushing Yards", Series(log, RushingYds), "#EF4444")];
      trends := trends + [Trend("Total Yards", Series(log, TotalYds), "#8B5CF6")];
    } else if position == "WR" || position == "TE" {
      trends := trends + [Trend("Receiving Yards", Series(log, ReceivingYds), "#EF4444")];
      trends := trends + [Trend("Receptions", Series(log, Catches), "#F59E0B")];
    }
  }

  /** Three trends for the skill positions and one otherwise; the first is
      fantasy points; every series is the log's column with the most recent
      game last. */
  lemma TrendsShape(position: string, log: seq<GameStats>)
    ensures var t := TrendsOf(position, log);
            && |t| == (if position in {"QB", "RB", "WR", "TE"} then 3 else 1)
            && t[0].category == "Fantasy Points"
            && forall k :: 0 <= k < |t| ==> |t[k].data| == |log|
    ensures forall i :: 0 <= i < |log| ==> TrendsOf(position, log)[0].data[i] == log[|log| - 1 - i].fantasyPoints
  {
    ReverseIndex(seq(|log|, i requires 0 <= i < |log| => ColumnValue(FantasyPts, log[i])));
  }

  /** `generateTrends`, which makes a new game log of its own (fresh random
      draws) instead of using the one the table shows. */
  method GenerateTrends(position: string, freshDraws: seq<Draw>, today: int) returns (trends: seq<Trend>, trendLog: seq<GameStats>)
    requires |freshDraws| == GamesInLog && forall i :: 0 <= i < |freshDraws| ==> ValidDraw(freshDraws[i])
    ensures |trendLog| == |freshDraws|
    ensures forall i :: 0 <= i < |freshDraws| ==> trendLog[i] == GameFor(position, freshDraws[i], today, i)
    ensures trends == TrendsOf(position, trendLog)
  {
    trendLog := GenerateGameLog(position, freshDraws, today);
    trends := GenerateTrendsFrom(position, trendLog);
  }

  /** The view as written: the table's log and the trends' log come from
      two separate rounds of draws. */
  method RenderAsWritten(position: string, tableDraws: seq<Draw>, trendDraws: seq<Draw>, today: int)
    returns (log: seq<GameStats>, trends: seq<Trend>)
    requires |tableDraws| == GamesInLog && forall i :: 0 <= i < |tableDraws| ==> ValidDraw(tableDraws[i])
    requires |trendDraws| == GamesInLog && forall i :: 0 <= i < |trendDraws| ==> ValidDraw(trendDraws[i])
    ensures |log| == |tableDraws|
    ensures forall i :: 0 <= i < |tableDraws| ==> log[i] == GameFor(position, tableDraws[i], today, i)
    ensures exists trendLog :: |trendLog| == |trendDraws| && trends == TrendsOf(position, trendLog) &&
              forall i :: 0 <= i < |trendDraws| ==> trendLog[i] == GameFor(position, trendDraws[i], today, i)
  {
    log := GenerateGameLog(position, tableDraws, today);
    var trendLog;
    trends, trendLog := GenerateTrends(position, trendDraws, today);
  }

  /** The fantasy-points trend of two different rounds of draws can
      disagree with the table: a kicker with one field goal in the newest
      table game and none in the trend's. */
  lemma TrendCanDisagreeWithTable(table: Draw, other: Draw, today: int)
    requires table == Draw(0.0, 0.25, 0.0, 0.0, 0.0, 0.0) && other == Draw(0.0, 0.0, 0.0, 0.0, 0.0, 0.0)
    ensures GameFor("K", table, today, 0).fantasyPoints == 3.0
    ensures GameFor("K", other, today, 0).fantasyPoints == 0.0
  {
    KickerPoints(table, today, 0);
    KickerPoints(other, today, 0);
    assert FloorOf(0.0, 0.25, 4.0) == 1;
    assert FloorOf(0.0, 0.0, 4.0) == 0;
    assert FloorOf(0.0, 0.0, 5.0) == 0;
  }

  /** A kicker scores three per field goal and one per extra point. */
  lemma KickerPoints(d: Draw, today: int, i: int)
    requires ValidDraw(d)
    ensures GameFor("K", d, today, i).fantasyPoints ==
              3.0 * FloorOf(0.0, d.r1, 4.0) as real + FloorOf(0.0, d.r2, 5.0) as real
  {
  }

  // ---- Radar chart ----

  /** The season statistics a player record may carry; each variant of the
      view reads its own subset of them. */
  datatype SeasonStats = SeasonStats(
    passingYards: Option<real>, passingTDs: Option<real>, touchdowns: Option<real>,
    interceptions: Option<real>, rushingYards: Option<real>, rushingTDs: Option<real>,
    receptions: Option<real>, receivingYards: Option<real>, receivingTDs: Option<real>)

  datatype RadarEntry = RadarEntry(category: string, value: real, maxValue: real)

  /** `x || 0` */
  function Or0(x: Option<real>): real
  {
    if x.Some? && x.value != 0.0 then x.value else 0.0
  }

  /** `receivingYards ? receivingYards / (receptions || 1) : 0` */
  function YardsPerReception(s: SeasonStats): real
  {
    if s.receivingYards.Some? && s.receivingYards.value != 0.0 then
      s.receivingYards.value / (if s.receptions.Some? && s.receptions.value != 0.0 then s.receptions.value else 1.0)
    else 0.0
  }

  /** The radar entries of the original view (and of the optimized one). */
  function RadarOf(position: string, s: SeasonStats): seq<RadarEntry>
  {
    if position == "QB" then
      [RadarEntry("Pass Yds", Or0(s.passingYards), 400.0), RadarEntry("Pass TDs", Or0(s.passingTDs), 5.0),
       RadarEntry("Comp %", 65.0, 100.0), RadarEntry("Rush Yds", Or0(s.rushingYards), 100.0),
       RadarEntry("INTs", Or0(s.interceptions), 3.0), RadarEntry("Yds/Att", 8.5, 12.0)]
    else if position == "RB" then
      [RadarEntry("Rush Yds", Or0(s.rushingYards), 200.0), RadarEntry("Rush TDs", Or0(s.rushingTDs), 3.0),
       RadarEntry("Yds/Carry", 5.2, 8.0), RadarEntry("Rec", Or0(s.receptions), 10.0),
       RadarEntry("Rec Yds", Or0(s.receivingYards), 100.0), RadarEntry("Rec TDs", Or0(s.receivingTDs), 2.0)]
    else if position == "WR" || position == "TE" then
      [RadarEntry("Rec", Or0(s.receptions), 15.0), RadarEntry("Rec Yds", Or0(s.receivingYards), 200.0),
       RadarEntry("Rec TDs", Or0(s.receivingTDs), 3.0), RadarEntry("Targets", Or0(s.receptions) + 4.0, 20.0),
       RadarEntry("Yds/Rec", YardsPerReception(s), 25.0), RadarEntry("Catch %", 70.0, 100.0)]
    else []
  }

  /** `getRadarChartData`, pushing one entry at a time. */
  method GetRadarChartData(position: string, s: SeasonStats) returns (radar: seq<RadarEntry>)
    ensures radar == RadarOf(position, s)
  {
    radar := [];
    if position == "QB" {
      radar := radar + [RadarEntry("Pass Yds", Or0(s.passingYards), 400.0)];
      radar := radar + [RadarEntry("Pass TDs", Or0(s.passingTDs), 5.0)];
      radar := radar + [RadarEntry("Comp %", 65.0, 100.0)];
      radar := radar + [RadarEntry("Rush Yds", Or0(s.rushingYards), 100.0)];
      radar := radar + [RadarEntry("INTs", Or0(s.interceptions), 3.0)];
      radar := radar + [RadarEntry("Yds/Att", 8.5, 12.0)];
    } else if position == "RB" {
      radar := radar + [RadarEntry("Rush Yds", Or0(s.rushingYards), 200.0)];
      radar := radar + [RadarEntry("Rush TDs", Or0(s.rushingTDs), 3.0)];
      radar := radar + [RadarEntry("Yds/Carry", 5.2, 8.0)];
      radar := radar + [RadarEntry("Rec", Or0(s.receptions), 10.0)];
      radar := radar + [RadarEntry("Rec Yds", Or0(s.receivingYards), 100.0)];
      radar := radar + [RadarEntry("Rec TDs", Or0(s.receivingTDs), 2.0)];
    } else if position == "WR" || position == "TE" {
      radar := radar + [RadarEntry("Rec", Or0(s.receptions), 15.0)];
      radar := radar + [RadarEntry("Rec Yds", Or0(s.receivingYards), 200.0)];
      radar := radar + [RadarEntry("Rec TDs", Or0(s.receivingTDs), 3.0)];
      radar := radar + [RadarEntry("Targets", Or0(s.receptions) + 4.0, 20.0)];
      radar := radar + [RadarEntry("Yds/Rec", YardsPerReception(s), 25.0)];
      radar := radar + [RadarEntry("Catch %", 70.0, 100.0)];
    }
  }

  /** Six entries with positive scales for the skill positions, none for
      the rest; yards per reception divides by 1 when receptions are
      missing or zero, and is 0 without receiving yards. */
  lemma RadarShape(position: string, s: SeasonStats)
    ensures var r := RadarOf(position, s);
            && |r| == (if position in {"QB", "RB", "WR", "TE"} then 6 else 0)
            && forall k :: 0 <= k < |r| ==> r[k].maxValue > 0.0
    ensures s.receptions.None? || s.receptions == Some(0.0) ==> YardsPerReception(s) == Or0(s.receivingYards)
    ensures s.receivingYards.None? ==> YardsPerReception(s) == 0.0
  {
  }

  // ---- Season stats grid ----

  /** A season-stat value as `Object.entries` sees it. */
  datatype StatValue = Missing | NullValue | Number(n: real)

  /** The letters `[A-Z]` matches. */
  function SpaceBeforeCapitals(s: string): (r: string)
    ensures |r| >= |s|
    decreases |s|
  {
    if s == [] then []
    else (if IsUpperAscii(s[0]) then [' ', s[0]] else [s[0]]) + SpaceBeforeCapitals(s[1..])
  }

  predicate IsLineTerminator(c: char)
  {
    c == '\n' || c == '\r' || c == '\U{2028}' || c == '\U{2029}'
  }

  /** `.replace(/^./, str => str.toUpperCase())`: `.` does not match a
      line terminator. */
  function CapitalizeFirst(s: string): (r: string)
    ensures |r| == |s|
    ensures s != [] ==> r[1..] == s[1..]
  {
    if s == [] || IsLineTerminator(s[0]) then s else [ToUpperChar(s[0])] + s[1..]
  }

  /** The label of a season-stat key. */
  function FormatKey(key: string): (r: string)
    ensures |r| >= |key|
  {
    CapitalizeFirst(SpaceBeforeCapitals(key))
  }

  lemma {:induction false} SpaceBeforeCapitalsAppend(a: string, b: string)
    ensures SpaceBeforeCapitals(a + b) == SpaceBeforeCapitals(a) + SpaceBeforeCapitals(b)
    decreases |a|
  {
    if a == [] {
      assert a + b == b;
    } else {
      assert (a + b)[0] == a[0] && (a + b)[1..] == a[1..] + b;
      SpaceBeforeCapitalsAppend(a[1..], b);
    }
  }

  lemma {:induction false} NoCapitalsUnchanged(s: string)
    requires forall i :: 0 <= i < |s| ==> !IsUpperAscii(s[i])
    ensures SpaceBeforeCapitals(s) == s
    decreases |s|
  {
    if s != [] {
      NoCapitalsUnchanged(s[1..]);
    }
  }

  /** Each capital in the key gains exactly one space in front of it and
      nothing else changes around it. */
  lemma {:induction false} SpaceBeforeEachCapital(s: string, i: nat)
    requires i < |s| && IsUpperAscii(s[i])
    ensures SpaceBeforeCapitals(s) == SpaceBeforeCapitals(s[..i]) + [' ', s[i]] + SpaceBeforeCapitals(s[i + 1..])
  {
    var pre, c, post := s[..i], [s[i]], s[i + 1..];
    assert s == pre + (c + post);
    SpaceBeforeCapitalsAppend(pre, c + post);
    SpaceBeforeCapitalsAppend(c, post);
    assert SpaceBeforeCapitals(c) == [' ', s[i]] by {
      assert c[1..] == [];
    }
  }

  /** The label is longer than the key by the number of capitals in it. */
  lemma {:induction false} SpacedLength(s: string)
    ensures |SpaceBeforeCapitals(s)| == |s| + CountWhere(s, IsUpperAscii)
    decreases |s|
  {
    if s != [] {
      SpacedLength(s[1..]);
    }
  }

  /** A two-word camel-case key: "sackYds" reads "Sack Yds". */
  lemma FormatKeyExample()
    ensures FormatKey("sackYds") == "Sack Yds"
  {
    var a, b := "sack", "ds";
    assert a + ['Y'] + b == "sackYds";
    FormatKeyOneCapital(a, 'Y', b);
    assert ToUpperChar('s') == 'S';
    assert [ToUpperChar(a[0])] + a[1..] + [' ', 'Y'] + b == "Sack Yds";
  }

  /** A key with one capital, not at its start: a space before the
      capital and the first letter upper-cased. */
  lemma {:induction false} FormatKeyOneCapital(a: string, c: char, b: string)
    requires a != [] && !IsLineTerminator(a[0]) && IsUpperAscii(c)
    requires forall i :: 0 <= i < |a| ==> !IsUpperAscii(a[i])
    requires forall i :: 0 <= i < |b| ==> !IsUpperAscii(b[i])
    ensures FormatKey(a + [c] + b) == [ToUpperChar(a[0])] + a[1..] + [' ', c] + b
  {
    SpacedOneCapital(a, c, b);
    var rest := [' ', c] + b;
    var spaced := a + rest;
    assert spaced[0] == a[0] && spaced[1..] == a[1..] + rest;
    CapitalizeLetter(spaced);
    Regroup([ToUpperChar(a[0])] + a[1..], [' ', c], b);
    Regroup([ToUpperChar(a[0])], a[1..], rest);
  }

  /** One capital between two runs without capitals gains a space. */
  lemma {:induction false} SpacedOneCapital(a: string, c: char, b: string)
    requires IsUpperAscii(c)
    requires forall i :: 0 <= i < |a| ==> !IsUpperAscii(a[i])
    requires forall i :: 0 <= i < |b| ==> !IsUpperAscii(b[i])
    ensures SpaceBeforeCapitals(a + [c] + b) == a + ([' ', c] + b)
  {
    Regroup(a, [c], b);
    SpaceBeforeCapitalsAppend(a, [c] + b);
    SpaceBeforeCapitalsAppend([c], b);
    NoCapitalsUnchanged(a);
    NoCapitalsUnchanged(b);
    assert SpaceBeforeCapitals([c]) == [' ', c] by {
      assert [c][1..] == [];
    }
  }

  /** A label starting with a character other than a line terminator gets
      that character upper-cased. */
  lemma CapitalizeLetter(s: string)
    requires s != [] && !IsLineTerminator(s[0])
    ensures CapitalizeFirst(s) == [ToUpperChar(s[0])] + s[1..]
  {
  }

  /** A key starting with a lower-case letter gets an upper-case label
      start. */
  lemma FormatKeyCapitalized(key: string)
    requires key != [] && IsLowerAscii(key[0])
    ensures FormatKey(key)[0] == ToUpperChar(key[0]) && IsUpperAscii(FormatKey(key)[0])
  {
  }

  /** `Object.entries(stats)` rendered by the original and optimized views:
      undefined values are skipped. */
  function SeasonGrid(entries: seq<(string, StatValue)>): (r: seq<(string, StatValue)>)
    ensures |r| <= |entries|
    ensures forall e :: e in r ==> e.1 != Missing
    ensures forall e :: e in entries && e.1 != Missing ==> (FormatKey(e.0), e.1) in r
    ensures forall e :: e in r ==> exists k :: (k, e.1) in entries && e.0 == FormatKey(k)
    decreases |entries|
  {
    if entries == [] then []
    else
      var rest := SeasonGrid(entries[1..]);
      var e := entries[0];
      if e.1 == Missing then rest else [(FormatKey(e.0), e.1)] + rest
  }
}
