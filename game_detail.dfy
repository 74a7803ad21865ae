// The live game view: how each of the five subscriptions turns the previous
// view state into the next one, for the game whose id the view shows.

module GameDetail {
  import opened JsCore

  /** The game fields the handlers read or write; others are carried unchanged
      by the spread and are not modelled. */
  datatype Game = Game(id: string, homeScore: int, awayScore: int, status: string,
                       gameStatus: Option<string>, time: Option<string>,
                       quarter: Option<string>, timeRemaining: Option<string>)

  datatype TeamTotals = TeamTotals(totalYards: int, passingYards: int, rushingYards: int,
                                   turnovers: int, timeOfPossession: string)

  datatype GameStats = GameStats(homeTeam: TeamTotals, awayTeam: TeamTotals)

  /** One side of a stat update: `stats.passing.yards`, `stats.rushing.yards`,
      `stats.passing.interceptions`, `stats.fumbles?.lost` and
      `stats.timeOfPossession` (None where absent). */
  datatype TeamStatLine = TeamStatLine(passingYards: int, rushingYards: int, interceptions: int,
                                       fumblesLost: Option<int>, timeOfPossession: Option<string>)

  datatype StatUpdate = StatUpdate(gameId: string, homeTeam: TeamStatLine, awayTeam: TeamStatLine)

  datatype NewsItem = NewsItem(gameId: Option<string>, text: string)

  datatype View = View(game: Option<Game>, stats: Option<GameStats>, playByPlay: seq<NewsItem>)

  const PlayByPlayLimit: int := 10

  /** `games.find(g => g.id === gameId)`: the first game with this id. */
  function Find(games: seq<Game>, gameId: string): (r: Option<Game>)
    ensures r.Some? ==> r.value in games && r.value.id == gameId
    ensures r.Some? ==> exists i :: 0 <= i < |games| && games[i] == r.value &&
                                    forall j :: 0 <= j < i ==> games[j].id != gameId
    ensures r.None? ==> forall g :: g in games ==> g.id != gameId
    decreases |games|
  {
    if games == [] then None
    else if games[0].id == gameId then Some(games[0])
    else
      var r := Find(games[1..], gameId);
      if r.Some? then
        var i :| 0 <= i < |games[1..]| && games[1..][i] == r.value &&
                 forall j :: 0 <= j < i ==> games[1..][j].id != gameId;
        assert games[i + 1] == r.value;
        assert forall j :: 0 <= j < i + 1 ==> games[j].id != gameId by {
          forall j | 0 <= j < i + 1 ensures games[j].id != gameId {
            if j > 0 { assert games[j] == games[1..][j - 1]; }
          }
        }
        r
      else r
  }

  /** The game-list update: replace the shown game with this id's entry, if the
      list has one. */
  function OnGameUpdates(v: View, games: seq<Game>, gameId: string): (r: View)
    ensures (exists g :: g in games && g.id == gameId) ==> r.game.Some? && r.game.value.id == gameId
    ensures (forall g :: g in games ==> g.id != gameId) ==> r == v
    ensures Find(games, gameId).Some? ==> r.game == Find(games, gameId)
    ensures r.stats == v.stats && r.playByPlay == v.playByPlay
  {
    match Find(games, gameId)
    case Some(g) => v.(game := Some(g))
    case None => v
  }

  /** The score update: for this id, and only once a game is shown, set the
      two scores and nothing else. */
  function OnScoreUpdate(v: View, updatedGameId: string, homeScore: int, awayScore: int, gameId: string): (r: View)
    ensures updatedGameId != gameId || v.game.None? ==> r == v
    ensures updatedGameId == gameId && v.game.Some? ==>
              r == v.(game := Some(v.game.value.(homeScore := homeScore, awayScore := awayScore)))
  {
    if updatedGameId != gameId then v
    else match v.game
      case None => v
      case Some(g) => v.(game := Some(g.(homeScore := homeScore, awayScore := awayScore)))
  }

  /** `time || fallback` for an optional string. */
  function OrElse(time: Option<string>, fallback: Option<string>): Option<string>
  {
    if time.Some? && time.value != "" then time else fallback
  }

  /** The status update: both status fields and `time` take the new values;
      the quarter changes only to a status starting with 'Q', and the time
      remaining falls back to the old value when no time is given. */
  function OnStatusUpdate(v: View, updatedGameId: string, status: string, time: Option<string>, gameId: string): (r: View)
    ensures updatedGameId != gameId || v.game.None? ==> r == v
    ensures updatedGameId == gameId && v.game.Some? ==>
              && r.game.Some?
              && r.game.value.status == status && r.game.value.gameStatus == Some(status)
              && r.game.value.time == time
              && r.game.value.quarter == (if StartsWith(status, "Q") then Some(status) else v.game.value.quarter)
              && r.game.value.timeRemaining == (if time.Some? && time.value != "" then time else v.game.value.timeRemaining)
              && r.game.value.homeScore == v.game.value.homeScore
              && r.game.value.awayScore == v.game.value.awayScore
              && r.game.value.id == v.game.value.id
              && r.stats == v.stats && r.playByPlay == v.playByPlay
  {
    if updatedGameId != gameId then v
    else match v.game
      case None => v
      case Some(g) =>
        v.(game := Some(g.(status := status, gameStatus := Some(status), time := time,
                           quarter := if StartsWith(status, "Q") then Some(status) else g.quarter,
                           timeRemaining := OrElse(time, g.timeRemaining))))
  }

  function Totals(s: TeamStatLine): (t: TeamTotals)
    ensures t.totalYards == t.passingYards + t.rushingYards
    ensures t.passingYards == s.passingYards && t.rushingYards == s.rushingYards
    ensures t.turnovers == s.interceptions + (if s.fumblesLost.Some? then s.fumblesLost.value else 0)
    ensures s.timeOfPossession.None? || s.timeOfPossession == Some("") ==> t.timeOfPossession == "00:00"
    ensures s.timeOfPossession.Some? && s.timeOfPossession.value != "" ==>
              t.timeOfPossession == s.timeOfPossession.value
  {
    TeamTotals(s.passingYards + s.rushingYards, s.passingYards, s.rushingYards,
               s.interceptions + (if s.fumblesLost.Some? && s.fumblesLost.value != 0 then s.fumblesLost.value else 0),
               if s.timeOfPossession.Some? && s.timeOfPossession.value != "" then s.timeOfPossession.value else "00:00")
  }

  /** The stat update: for this game, replace the stats with the derived totals. */
  function OnStatUpdate(v: View, u: StatUpdate, gameId: string): (r: View)
    ensures u.gameId != gameId ==> r == v
    ensures u.gameId == gameId ==> r == v.(stats := Some(GameStats(Totals(u.homeTeam), Totals(u.awayTeam))))
  {
    if u.gameId == gameId then v.(stats := Some(GameStats(Totals(u.homeTeam), Totals(u.awayTeam)))) else v
  }

  /** The news update: an item for this game goes first in play-by-play, which
      keeps the ten newest entries. */
  function OnNewsUpdate(v: View, item: NewsItem, gameId: string): (r: View)
    ensures item.gameId != Some(gameId) ==> r == v
    ensures item.gameId == Some(gameId) ==>
              && |r.playByPlay| == Min(|v.playByPlay| + 1, PlayByPlayLimit)
              && r.playByPlay[0] == item
              && r.playByPlay[1..] == v.playByPlay[..|r.playByPlay| - 1]
              && r.game == v.game && r.stats == v.stats
  {
    if item.gameId == Some(gameId) then
      assert ([item] + v.playByPlay)[1..] == v.playByPlay;
      v.(playByPlay := SliceTo([item] + v.playByPlay, PlayByPlayLimit))
    else v
  }

  /** Play-by-play never grows past ten entries. */
  lemma {:induction false} PlayByPlayBounded(v: View, items: seq<NewsItem>, gameId: string)
    requires |v.playByPlay| <= PlayByPlayLimit
    ensures |ApplyNews(v, items, gameId).playByPlay| <= PlayByPlayLimit
    decreases |items|
  {
    if items != [] {
      PlayByPlayBounded(OnNewsUpdate(v, items[0], gameId), items[1..], gameId);
    }
  }

  function ApplyNews(v: View, items: seq<NewsItem>, gameId: string): View
    decreases |items|
  {
    if items == [] then v else ApplyNews(OnNewsUpdate(v, items[0], gameId), items[1..], gameId)
  }

  function IsLive(g: Game): (b: bool)
    ensures b <==> g.status == "LIVE" || g.gameStatus == Some("LIVE")
  {
    g.status == "LIVE" || g.gameStatus == Some("LIVE")
  }

  function IsFinal(g: Game): (b: bool)
    ensures b <==> g.status == "FINAL" || g.gameStatus == Some("FINAL")
  {
    g.status == "FINAL" || g.gameStatus == Some("FINAL")
  }

  /** A game counts as both live and final exactly when one of its two status
      fields says 'LIVE' and the other 'FINAL'. */
  lemma LiveAndFinalTogether(g: Game)
    ensures IsLive(g) && IsFinal(g) <==>
              (g.status == "LIVE" && g.gameStatus == Some("FINAL")) ||
              (g.status == "FINAL" && g.gameStatus == Some("LIVE"))
  {
  }

  /** After a status update for the shown game, the game is live exactly when
      the new status is 'LIVE' and final exactly when it is 'FINAL'. */
  lemma StatusUpdateDecidesLiveness(v: View, status: string, time: Option<string>, gameId: string)
    requires v.game.Some?
    ensures var g := OnStatusUpdate(v, gameId, status, time, gameId).game.value;
            (IsLive(g) <==> status == "LIVE") && (IsFinal(g) <==> status == "FINAL")
  {
  }
}
