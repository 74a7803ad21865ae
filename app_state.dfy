// The global application state and its reducer. Storage writes the reducer
// performs on the side are not modelled; storage reads of the initial state
// are taken as parameters.

module AppState {
  import opened JsCore

  datatype Favorites = Favorites(players: seq<string>, teams: seq<string>)

  /** `theme` holds whatever string was stored; `refreshInterval` is None
      where the stored text parses to NaN. */
  datatype Settings = Settings(theme: string, notifications: bool, autoRefresh: bool,
                               refreshInterval: Option<int>)

  datatype Ui = Ui(sidebarOpen: bool, filterPanelOpen: bool, loading: bool, error: Option<string>)

  /** Selected player and team are identified by opaque ids. */
  datatype State = State(selectedPlayer: Option<string>, selectedTeam: Option<string>,
                         currentWeek: int, currentSeason: int,
                         favorites: Favorites, settings: Settings, ui: Ui)

  /** `Partial<settings>`: None for a key the payload does not carry. */
  datatype SettingsPatch = SettingsPatch(theme: Option<string>, notifications: Option<bool>,
                                         autoRefresh: Option<bool>, refreshInterval: Option<Option<int>>)

  datatype Action =
    | SetSelectedPlayer(player: Option<string>)
    | SetSelectedTeam(team: Option<string>)
    | SetCurrentWeek(week: int)
    | SetCurrentSeason(season: int)
    | AddFavoritePlayer(playerId: string)
    | RemoveFavoritePlayer(playerId: string)
    | AddFavoriteTeam(teamId: string)
    | RemoveFavoriteTeam(teamId: string)
    | UpdateSettings(patch: SettingsPatch)
    | ToggleSidebar
    | ToggleFilterPanel
    | SetLoading(loading: bool)
    | SetError(error: Option<string>)
    | ResetError
    | Unknown(actionType: string)

  /** The part of the state an action may change. */
  datatype Part =
    | SelectedPlayerPart | SelectedTeamPart | WeekPart | SeasonPart
    | PlayerFavoritesPart | TeamFavoritesPart | SettingsPart
    | SidebarPart | FilterPanelPart | LoadingPart | ErrorPart | NothingPart

  function PartOf(a: Action): Part
  {
    match a
    case SetSelectedPlayer(_) => SelectedPlayerPart
    case SetSelectedTeam(_) => SelectedTeamPart
    case SetCurrentWeek(_) => WeekPart
    case SetCurrentSeason(_) => SeasonPart
    case AddFavoritePlayer(_) => PlayerFavoritesPart
    case RemoveFavoritePlayer(_) => PlayerFavoritesPart
    case AddFavoriteTeam(_) => TeamFavoritesPart
    case RemoveFavoriteTeam(_) => TeamFavoritesPart
    case UpdateSettings(_) => SettingsPart
    case ToggleSidebar => SidebarPart
    case ToggleFilterPanel => FilterPanelPart
    case SetLoading(_) => LoadingPart
    case SetError(_) => ErrorPart
    case ResetError => ErrorPart
    case Unknown(_) => NothingPart
  }

  /** s and t agree on every part of the state other than p. */
  predicate SameExcept(s: State, t: State, p: Part)
  {
    && (p != SelectedPlayerPart ==> t.selectedPlayer == s.selectedPlayer)
    && (p != SelectedTeamPart ==> t.selectedTeam == s.selectedTeam)
    && (p != WeekPart ==> t.currentWeek == s.currentWeek)
    && (p != SeasonPart ==> t.currentSeason == s.currentSeason)
    && (p != PlayerFavoritesPart ==> t.favorites.players == s.favorites.players)
    && (p != TeamFavoritesPart ==> t.favorites.teams == s.favorites.teams)
    && (p != SettingsPart ==> t.settings == s.settings)
    && (p != SidebarPart ==> t.ui.sidebarOpen == s.ui.sidebarOpen)
    && (p != FilterPanelPart ==> t.ui.filterPanelOpen == s.ui.filterPanelOpen)
    && (p != LoadingPart ==> t.ui.loading == s.ui.loading)
    && (p != ErrorPart ==> t.ui.error == s.ui.error)
  }

  const DefaultRefreshInterval: string := "30000"

  /** `stored || fallback` for a `localStorage.getItem` result. */
  function OrDefault(stored: Option<string>, fallback: string): string
  {
    if stored.Some? && stored.value != "" then stored.value else fallback
  }

  /** `initialState`: the stored theme, flags and interval, and the parsed
      favourite lists, are inputs; so is the current year. */
  function InitialState(year: int, players: seq<string>, teams: seq<string>,
                        storedTheme: Option<string>, storedNotifications: Option<string>,
                        storedAutoRefresh: Option<string>, storedRefreshInterval: Option<string>): (s: State)
    ensures s.currentWeek == 1 && s.currentSeason == year
    ensures s.selectedPlayer == None && s.selectedTeam == None
    ensures s.favorites == Favorites(players, teams)
    ensures s.settings.notifications <==> storedNotifications != Some("false")
    ensures s.settings.autoRefresh <==> storedAutoRefresh != Some("false")
    ensures s.settings.theme != ""
    ensures storedTheme.None? ==> s.settings.theme == "system"
    ensures (storedRefreshInterval.None? || storedRefreshInterval == Some("")) ==>
              s.settings.refreshInterval == Some(30000)
    ensures s.ui == Ui(false, false, false, None)
  {
    var interval := OrDefault(storedRefreshInterval, DefaultRefreshInterval);
    DefaultIntervalParses();
    State(None, None, 1, year, Favorites(players, teams),
          Settings(OrDefault(storedTheme, "system"),
                   storedNotifications != Some("false"),
                   storedAutoRefresh != Some("false"),
                   ParseInt(interval)),
          Ui(false, false, false, None))
  }

  lemma DefaultIntervalParses()
    ensures ParseInt(DefaultRefreshInterval) == Some(30000)
  {
    assert NatToString(3) == "3";
    assert NatToString(30) == "30";
    assert NatToString(300) == "300";
    assert NatToString(3000) == "3000";
    assert NatToString(30000) == "30000";
    ParseIntOfNat(30000);
  }

  function Patch<T>(current: T, supplied: Option<T>): T
  {
    if supplied.Some? then supplied.value else current
  }

  /** `{ ...settings, ...patch }`: supplied keys take the payload value. */
  function MergeSettings(s: Settings, p: SettingsPatch): (r: Settings)
    ensures p.theme.Some? ==> r.theme == p.theme.value
    ensures p.theme.None? ==> r.theme == s.theme
    ensures p.notifications.Some? ==> r.notifications == p.notifications.value
    ensures p.notifications.None? ==> r.notifications == s.notifications
    ensures p.autoRefresh.Some? ==> r.autoRefresh == p.autoRefresh.value
    ensures p.autoRefresh.None? ==> r.autoRefresh == s.autoRefresh
    ensures p.refreshInterval.Some? ==> r.refreshInterval == p.refreshInterval.value
    ensures p.refreshInterval.None? ==> r.refreshInterval == s.refreshInterval
  {
    Settings(Patch(s.theme, p.theme), Patch(s.notifications, p.notifications),
             Patch(s.autoRefresh, p.autoRefresh), Patch(s.refreshInterval, p.refreshInterval))
  }

  /** `appReducer`: every action touches only its own part of the state, and an
      unknown action returns the state unchanged. */
  function Reduce(s: State, a: Action): (t: State)
    ensures SameExcept(s, t, PartOf(a))
    ensures a.Unknown? ==> t == s
  {
    match a
    case SetSelectedPlayer(p) => s.(selectedPlayer := p)
    case SetSelectedTeam(tm) => s.(selectedTeam := tm)
    case SetCurrentWeek(w) => s.(currentWeek := w)
    case SetCurrentSeason(y) => s.(currentSeason := y)
    case AddFavoritePlayer(id) => s.(favorites := s.favorites.(players := s.favorites.players + [id]))
    case RemoveFavoritePlayer(id) => s.(favorites := s.favorites.(players := Without(s.favorites.players, id)))
    case AddFavoriteTeam(id) => s.(favorites := s.favorites.(teams := s.favorites.teams + [id]))
    case RemoveFavoriteTeam(id) => s.(favorites := s.favorites.(teams := Without(s.favorites.teams, id)))
    case UpdateSettings(p) => s.(settings := MergeSettings(s.settings, p))
    case ToggleSidebar => s.(ui := s.ui.(sidebarOpen := !s.ui.sidebarOpen))
    case ToggleFilterPanel => s.(ui := s.ui.(filterPanelOpen := !s.ui.filterPanelOpen))
    case SetLoading(b) => s.(ui := s.ui.(loading := b))
    case SetError(e) => s.(ui := s.ui.(error := e))
    case ResetError => s.(ui := s.ui.(error := None))
    case Unknown(_) => s
  }

  /** `isPlayerFavorite` (useFavorites). */
  function IsPlayerFavorite(s: State, playerId: string): (b: bool)
    ensures b <==> exists i :: 0 <= i < |s.favorites.players| && s.favorites.players[i] == playerId
  {
    playerId in s.favorites.players
  }

  /** `isTeamFavorite` (useFavorites). */
  function IsTeamFavorite(s: State, teamId: string): (b: bool)
    ensures b <==> exists i :: 0 <= i < |s.favorites.teams| && s.favorites.teams[i] == teamId
  {
    teamId in s.favorites.teams
  }

  /** Adding appends even an id that is already a favourite, so the list can
      hold duplicates; afterwards the id is a favourite. */
  lemma AddFavoriteAppends(s: State, id: string)
    ensures Reduce(s, AddFavoritePlayer(id)).favorites.players == s.favorites.players + [id]
    ensures Reduce(s, AddFavoriteTeam(id)).favorites.teams == s.favorites.teams + [id]
    ensures |Reduce(s, AddFavoritePlayer(id)).favorites.players| == |s.favorites.players| + 1
    ensures IsPlayerFavorite(Reduce(s, AddFavoritePlayer(id)), id)
    ensures IsTeamFavorite(Reduce(s, AddFavoriteTeam(id)), id)
    ensures IsPlayerFavorite(s, id) ==> !NoDuplicates(Reduce(s, AddFavoritePlayer(id)).favorites.players)
  {
    var ps := Reduce(s, AddFavoritePlayer(id)).favorites.players;
    assert ps[|ps| - 1] == id;
    assert IsPlayerFavorite(Reduce(s, AddFavoritePlayer(id)), id);
    assert IsTeamFavorite(Reduce(s, AddFavoriteTeam(id)), id) by {
      var ts := Reduce(s, AddFavoriteTeam(id)).favorites.teams;
      assert ts[|ts| - 1] == id;
    }
    if IsPlayerFavorite(s, id) {
      var i :| 0 <= i < |s.favorites.players| && s.favorites.players[i] == id;
      assert ps[i] == ps[|ps| - 1];
    }
  }

  /** Removing drops every occurrence of the id and keeps every other id as
      often as before and in the original order. */
  lemma RemoveFavoriteDropsAll(s: State, id: string, other: string)
    requires other != id
    ensures !IsPlayerFavorite(Reduce(s, RemoveFavoritePlayer(id)), id)
    ensures !IsTeamFavorite(Reduce(s, RemoveFavoriteTeam(id)), id)
    ensures multiset(Reduce(s, RemoveFavoritePlayer(id)).favorites.players)[other]
            == multiset(s.favorites.players)[other]
    ensures multiset(Reduce(s, RemoveFavoriteTeam(id)).favorites.teams)[other]
            == multiset(s.favorites.teams)[other]
    ensures Subsequence(Reduce(s, RemoveFavoritePlayer(id)).favorites.players, s.favorites.players)
    ensures Subsequence(Reduce(s, RemoveFavoriteTeam(id)).favorites.teams, s.favorites.teams)
  {
    var p := Without(s.favorites.players, id);
    var t := Without(s.favorites.teams, id);
    assert Reduce(s, RemoveFavoritePlayer(id)).favorites.players == p;
    assert Reduce(s, RemoveFavoriteTeam(id)).favorites.teams == t;
    assert id !in p && id !in t;
    WithoutKeepsOthers(s.favorites.players, id, other);
    WithoutKeepsOthers(s.favorites.teams, id, other);
    WithoutSubsequence(s.favorites.players, id);
    WithoutSubsequence(s.favorites.teams, id);
  }

  lemma ToggleTwiceRestores(s: State)
    ensures Reduce(Reduce(s, ToggleSidebar), ToggleSidebar) == s
    ensures Reduce(Reduce(s, ToggleFilterPanel), ToggleFilterPanel) == s
    ensures Reduce(s, ToggleSidebar).ui.sidebarOpen != s.ui.sidebarOpen
  {
  }

  lemma ErrorThenReset(s: State, e: Option<string>)
    ensures Reduce(Reduce(s, SetError(e)), ResetError).ui.error == None
    ensures Reduce(s, SetError(e)).ui.error == e
    ensures Reduce(s, SetLoading(true)) == s.(ui := s.ui.(loading := true))
  {
  }
}
