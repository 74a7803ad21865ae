// The team comparison tool: statistics derived from a seed computed from
// the team id, the choice of the better team per statistic, the per-row
// highlight flags, team selection and the generated historical matchups.
// A character code is the character's code point (the source reads UTF-16
// code units, which agree on the Basic Multilingual Plane). The 500 ms
// loading delay is split into a start and a completion step.

module TeamComparison {
  import opened JsCore
  import ComparisonChart

  datatype Team = Team(id: string, name: string, abbreviation: string,
                       primaryColor: Option<string>, secondaryColor: Option<string>)

  datatype Offense = Offense(passingYards: int, rushingYards: int, totalYards: int, pointsPerGame: int,
                             thirdDownPercentage: int, redZonePercentage: int, turnovers: int)
  datatype Defense = Defense(passingYardsAllowed: int, rushingYardsAllowed: int, totalYardsAllowed: int,
                             pointsAllowedPerGame: int, sacks: int, interceptions: int, forcedFumbles: int)
  datatype Special = Special(fieldGoalPercentage: int, puntAverage: int, kickReturnAverage: int, puntReturnAverage: int)
  datatype TeamStats = TeamStats(offense: Offense, defense: Defense, special: Special)

  /** The stats of a team whose id is empty are all NaN. */
  datatype TeamWithStats = TeamWithStats(team: Team, stats: Option<TeamStats>)

  function CharCode(c: char): nat { c as nat }

  /** `id.charCodeAt(0) + (id.charCodeAt(1) || 0)`; None is the NaN of an
      empty id. */
  function Seed(id: string): (r: Option<nat>)
    ensures r.Some? <==> id != []
    ensures |id| == 1 ==> r == Some(CharCode(id[0]))
    ensures |id| >= 2 ==> r == Some(CharCode(id[0]) + CharCode(id[1]))
  {
    if id == [] then None
    else Some(CharCode(id[0]) + if |id| >= 2 then CharCode(id[1]) else 0)
  }

  /** The statistics for a seed: base + seed % k for each field. */
  function StatsForSeed(seed: nat): (s: TeamStats)
    ensures 200 <= s.offense.passingYards <= 299 && 100 <= s.offense.rushingYards <= 149
    ensures 300 <= s.offense.totalYards <= 449 && 20 <= s.offense.pointsPerGame <= 29
    ensures 30 <= s.offense.thirdDownPercentage <= 49 && 50 <= s.offense.redZonePercentage <= 74
    ensures 1 <= s.offense.turnovers <= 2
    ensures 180 <= s.defense.passingYardsAllowed <= 279 && 90 <= s.defense.rushingYardsAllowed <= 149
    ensures 270 <= s.defense.totalYardsAllowed <= 429 && 18 <= s.defense.pointsAllowedPerGame <= 29
    ensures 2 <= s.defense.sacks <= 4 && 1 <= s.defense.interceptions <= 2 && 1 <= s.defense.forcedFumbles <= 2
    ensures 75 <= s.special.fieldGoalPercentage <= 94 && 40 <= s.special.puntAverage <= 49
    ensures 20 <= s.special.kickReturnAverage <= 27 && 8 <= s.special.puntReturnAverage <= 13
  {
    TeamStats(
      Offense(200 + seed % 100, 100 + seed % 50, 300 + seed % 150, 20 + seed % 10,
              30 + seed % 20, 50 + seed % 25, 1 + seed % 2),
      Defense(180 + seed % 100, 90 + seed % 60, 270 + seed % 160, 18 + seed % 12,
              2 + seed % 3, 1 + seed % 2, 1 + seed % 2),
      Special(75 + seed % 20, 40 + seed % 10, 20 + seed % 8, 8 + seed % 6))
  }

  /** `generateTeamStats`. */
  function GenerateTeamStats(team: Team): (r: TeamWithStats)
    ensures r.team == team
    ensures r.stats.Some? <==> team.id != []
    ensures r.stats.Some? ==> r.stats.value == StatsForSeed(Seed(team.id).value)
  {
    TeamWithStats(team, if team.id == [] then None else Some(StatsForSeed(Seed(team.id).value)))
  }

  /** The statistics depend on the first two characters of the id only. */
  lemma StatsDependOnTwoCharacters(a: Team, b: Team)
    requires |a.id| >= 2 && |b.id| >= 2 && a.id[..2] == b.id[..2]
    ensures GenerateTeamStats(a).stats == GenerateTeamStats(b).stats
  {
    assert a.id[0] == a.id[..2][0] && a.id[1] == a.id[..2][1];
    assert b.id[0] == b.id[..2][0] && b.id[1] == b.id[..2][1];
  }

  /** The tool's `getBetterTeam`: nothing until both teams are chosen or on
      equal values; otherwise the side with the better value. */
  function GetBetterTeam(bothSelected: bool, stat1: int, stat2: int, higherIsBetter: bool): (r: Option<ComparisonChart.Side>)
    ensures r.None? <==> !bothSelected || stat1 == stat2
    ensures r == Some(ComparisonChart.Team1) <==>
              bothSelected && (if higherIsBetter then stat1 > stat2 else stat1 < stat2)
  {
    if !bothSelected then None
    else if stat1 == stat2 then None
    else if higherIsBetter then (if stat1 > stat2 then Some(ComparisonChart.Team1) else Some(ComparisonChart.Team2))
    else (if stat1 < stat2 then Some(ComparisonChart.Team1) else Some(ComparisonChart.Team2))
  }

  /** For distinct values, swapping them swaps the sides and flipping
      higherIsBetter flips the answer. */
  lemma BetterTeamSymmetry(stat1: int, stat2: int, higherIsBetter: bool)
    requires stat1 != stat2
    ensures GetBetterTeam(true, stat1, stat2, higherIsBetter) == Some(ComparisonChart.Team1) <==>
            GetBetterTeam(true, stat2, stat1, higherIsBetter) == Some(ComparisonChart.Team2)
    ensures GetBetterTeam(true, stat1, stat2, higherIsBetter) != GetBetterTeam(true, stat1, stat2, !higherIsBetter)
  {
  }

  /** With both teams chosen the tool and the chart agree. */
  lemma ToolAgreesWithChart(category: string, stat1: int, stat2: int, higherIsBetter: bool)
    ensures GetBetterTeam(true, stat1, stat2, higherIsBetter) ==
            ComparisonChart.GetBetterTeam(ComparisonChart.ChartItem(category, stat1 as real, stat2 as real, Some(higherIsBetter)))
  {
  }

  /** The highlight flags of one table row. */
  function RowFlags(team1Value: int, team2Value: int, higherIsBetter: bool): (r: (bool, bool))
    ensures !(r.0 && r.1)
    ensures r.0 <==> GetBetterTeam(true, team1Value, team2Value, higherIsBetter) == Some(ComparisonChart.Team1)
    ensures r.1 <==> GetBetterTeam(true, team1Value, team2Value, higherIsBetter) == Some(ComparisonChart.Team2)
  {
    var team1Better := if higherIsBetter then team1Value > team2Value else team1Value < team2Value;
    var team2Better := if higherIsBetter then team2Value > team1Value else team2Value < team1Value;
    (team1Better, team2Better)
  }

  /** `teams.find(t => t.id === teamId)`. */
  function FindTeam(teams: seq<Team>, teamId: string): (r: Option<Team>)
    ensures r.Some? ==> r.value in teams && r.value.id == teamId
    ensures r.Some? ==> exists i :: 0 <= i < |teams| && teams[i] == r.value &&
                                    forall j :: 0 <= j < i ==> teams[j].id != teamId
    ensures r.None? ==> forall t :: t in teams ==> t.id != teamId
    decreases |teams|
  {
    if teams == [] then None
    else if teams[0].id == teamId then Some(teams[0])
    else
      var r := FindTeam(teams[1..], teamId);
      if r.Some? then
        var i :| 0 <= i < |teams[1..]| && teams[1..][i] == r.value &&
                 forall j :: 0 <= j < i ==> teams[1..][j].id != teamId;
        assert teams[i + 1] == r.value;
        assert forall j :: 0 <= j < i + 1 ==> teams[j].id != teamId by {
          forall j | 0 <= j < i + 1 ensures teams[j].id != teamId {
            if j > 0 { assert teams[j] == teams[1..][j - 1]; }
          }
        }
        r
      else r
  }

  datatype Slot = First | Second

  datatype Selection = Selection(team1: Option<TeamWithStats>, team2: Option<TeamWithStats>, loading: bool)

  function SetSlot(sel: Selection, slot: Slot, t: Option<TeamWithStats>): (r: Selection)
    ensures slot == First ==> r.team1 == t && r.team2 == sel.team2
    ensures slot == Second ==> r.team2 == t && r.team1 == sel.team1
    ensures r.loading == sel.loading
  {
    if slot == First then sel.(team1 := t) else sel.(team2 := t)
  }

  /** `loadTeamStats(teamId, slot)` up to the timer: a known team leaves the
      tool loading with that team pending; an unknown id empties the slot
      at once. */
  function LoadTeamStats(sel: Selection, teams: seq<Team>, teamId: string, slot: Slot): (r: (Selection, Option<Team>))
    ensures r.1 == FindTeam(teams, teamId)
    ensures r.1.Some? ==> r.0 == sel.(loading := true)
    ensures r.1.None? ==> r.0 == SetSlot(sel, slot, None).(loading := false)
  {
    match FindTeam(teams, teamId)
    case Some(t) => (sel.(loading := true), Some(t))
    case None => (SetSlot(sel, slot, None).(loading := false), None)
  }

  /** The timer callback: the slot gets the team with its statistics. */
  function LoadComplete(sel: Selection, team: Team, slot: Slot): (r: Selection)
    ensures slot == First ==> r.team1 == Some(GenerateTeamStats(team)) && r.team2 == sel.team2
    ensures slot == Second ==> r.team2 == Some(GenerateTeamStats(team)) && r.team1 == sel.team1
    ensures !r.loading
  {
    SetSlot(sel, slot, Some(GenerateTeamStats(team))).(loading := false)
  }

  /** Selecting a listed team and letting the timer fire puts that team,
      with its statistics, in the slot and leaves the other slot alone. */
  lemma SelectKnownTeam(sel: Selection, teams: seq<Team>, t: Team, slot: Slot)
    requires t in teams && forall u :: u in teams && u.id == t.id ==> u == t
    ensures var (started, pending) := LoadTeamStats(sel, teams, t.id, slot);
            && pending == Some(t)
            && started.loading
            && var done := LoadComplete(started, t, slot);
               (slot == First ==> done.team1 == Some(GenerateTeamStats(t)) && done.team2 == sel.team2)
               && (slot == Second ==> done.team2 == Some(GenerateTeamStats(t)) && done.team1 == sel.team1)
               && !done.loading
  {
  }

  datatype Matchup = Matchup(date: string, winner: string, score: string)

  /** `(team1.id.charCodeAt(0) + team2.id.charCodeAt(0)) % 10`; None is NaN. */
  function HistoricalSeed(id1: string, id2: string): (r: Option<nat>)
    ensures r.Some? <==> id1 != [] && id2 != []
    ensures r.Some? ==> r.value <= 9
  {
    if id1 == [] || id2 == [] then None else Some((CharCode(id1[0]) + CharCode(id2[0])) % 10)
  }

  /** `seed % k === v`; NaN compares unequal to everything. */
  predicate SeedIs(seed: Option<nat>, k: nat, v: nat)
    requires k > 0
  {
    seed.Some? && seed.value % k == v
  }

  /** `${a + seed % m}-${b + seed % n}`; NaN is printed as "NaN". */
  function Score(seed: Option<nat>, a: nat, m: nat, b: nat, n: nat): string
    requires m > 0 && n > 0
  {
    if seed.None? then "NaN-NaN"
    else NatToString(a + seed.value % m) + "-" + NatToString(b + seed.value % n)
  }

  /** `getHistoricalMatchups`: three generated games, or none until both
      teams are chosen. */
  function GetHistoricalMatchups(team1: Option<TeamWithStats>, team2: Option<TeamWithStats>): (r: seq<Matchup>)
    ensures team1.None? || team2.None? ==> r == []
    ensures team1.Some? && team2.Some? ==> |r| == 3
    ensures team1.Some? && team2.Some? ==>
              var id1, id2 := team1.value.team.id, team2.value.team.id;
              forall i :: 0 <= i < 3 ==> r[i].winner == id1 || r[i].winner == id2
  {
    if team1.None? || team2.None? then []
    else
      var id1, id2 := team1.value.team.id, team2.value.team.id;
      var seed := HistoricalSeed(id1, id2);
      [ Matchup("2024-12-15", if SeedIs(seed, 2, 0) then id1 else id2, Score(seed, 20, 15, 10, 20)),
        Matchup("2024-01-20", if SeedIs(seed, 3, 0) then id1 else id2, Score(seed, 24, 10, 21, 8)),
        Matchup("2023-11-05", if SeedIs(seed, 2, 1) then id1 else id2, Score(seed, 17, 14, 14, 10)) ]
  }

  /** The first and third games name different winners exactly when the
      ids differ and both are non-empty (an empty id makes the seed NaN and
      every winner team 2). */
  lemma FirstAndThirdWinnersDiffer(team1: TeamWithStats, team2: TeamWithStats)
    ensures var r := GetHistoricalMatchups(Some(team1), Some(team2));
            r[0].winner != r[2].winner <==>
              team1.team.id != team2.team.id && team1.team.id != [] && team2.team.id != []
  {
    var seed := HistoricalSeed(team1.team.id, team2.team.id);
    if seed.Some? {
      assert seed.value % 2 == 0 || seed.value % 2 == 1;
    }
  }
}
