// The favourites context: two set-like id lists, one for teams and one for
// players. Adding appends an id only when it is absent; removing filters it out.

module FavoritesStore {
  import opened JsCore

  datatype Favorites = Favorites(teams: seq<string>, players: seq<string>)

  /** The initial list for one key: nothing stored (or an empty string) gives
      the empty list, and so does stored text that JSON.parse rejects. `parse`
      stands for JSON.parse, None meaning it threw. */
  function InitialList(saved: Option<string>, parse: string -> Option<seq<string>>): (r: seq<string>)
    ensures saved.None? || saved == Some("") ==> r == []
    ensures saved.Some? && saved.value != "" && parse(saved.value).None? ==> r == []
    ensures saved.Some? && saved.value != "" && parse(saved.value).Some? ==> r == parse(saved.value).value
  {
    if saved.None? || saved.value == "" then []
    else match parse(saved.value)
      case None => []
      case Some(ids) => ids
  }

  function AddIfAbsent(ids: seq<string>, id: string): seq<string>
  {
    if id in ids then ids else ids + [id]
  }

  function AddFavoriteTeam(f: Favorites, teamId: string): (r: Favorites)
    ensures r.players == f.players
    ensures IsFavorite(r, teamId)
  {
    f.(teams := AddIfAbsent(f.teams, teamId))
  }

  function RemoveFavoriteTeam(f: Favorites, teamId: string): (r: Favorites)
    ensures r.players == f.players
    ensures !IsFavorite(r, teamId)
  {
    f.(teams := Without(f.teams, teamId))
  }

  /** `favoriteTeams.includes(teamId)`. */
  function IsFavorite(f: Favorites, teamId: string): (b: bool)
    ensures b <==> exists i :: 0 <= i < |f.teams| && f.teams[i] == teamId
  {
    teamId in f.teams
  }

  function AddFavoritePlayer(f: Favorites, playerId: string): (r: Favorites)
    ensures r.teams == f.teams
    ensures IsFavoritePlayer(r, playerId)
  {
    f.(players := AddIfAbsent(f.players, playerId))
  }

  function RemoveFavoritePlayer(f: Favorites, playerId: string): (r: Favorites)
    ensures r.teams == f.teams
    ensures !IsFavoritePlayer(r, playerId)
  {
    f.(players := Without(f.players, playerId))
  }

  /** `favoritePlayers.includes(playerId)`. */
  function IsFavoritePlayer(f: Favorites, playerId: string): (b: bool)
    ensures b <==> exists i :: 0 <= i < |f.players| && f.players[i] == playerId
  {
    playerId in f.players
  }

  /** Adding an id that is already a favourite changes nothing, so adding is
      idempotent. */
  lemma AddIdempotent(f: Favorites, id: string)
    ensures IsFavorite(f, id) ==> AddFavoriteTeam(f, id) == f
    ensures IsFavoritePlayer(f, id) ==> AddFavoritePlayer(f, id) == f
    ensures AddFavoriteTeam(AddFavoriteTeam(f, id), id) == AddFavoriteTeam(f, id)
    ensures AddFavoritePlayer(AddFavoritePlayer(f, id), id) == AddFavoritePlayer(f, id)
  {
  }

  /** A new id goes to the end; every earlier id keeps its place. */
  lemma AddAppendsNew(f: Favorites, id: string)
    ensures !IsFavorite(f, id) ==> AddFavoriteTeam(f, id).teams == f.teams + [id]
    ensures !IsFavoritePlayer(f, id) ==> AddFavoritePlayer(f, id).players == f.players + [id]
  {
  }

  lemma {:induction false} AddKeepsNoDuplicates(ids: seq<string>, id: string)
    requires NoDuplicates(ids)
    ensures NoDuplicates(AddIfAbsent(ids, id))
  {
    if id !in ids {
      var r := ids + [id];
      forall i, j | 0 <= i < j < |r| ensures r[i] != r[j] {
        if j == |ids| {
          assert r[i] == ids[i];
        }
      }
    }
  }

  predicate DuplicateFree(f: Favorites)
  {
    NoDuplicates(f.teams) && NoDuplicates(f.players)
  }

  /** Duplicate-free lists stay duplicate-free under every operation. */
  lemma OperationsKeepDuplicateFree(f: Favorites, id: string)
    requires DuplicateFree(f)
    ensures DuplicateFree(AddFavoriteTeam(f, id))
    ensures DuplicateFree(RemoveFavoriteTeam(f, id))
    ensures DuplicateFree(AddFavoritePlayer(f, id))
    ensures DuplicateFree(RemoveFavoritePlayer(f, id))
  {
    AddKeepsNoDuplicates(f.teams, id);
    AddKeepsNoDuplicates(f.players, id);
    WithoutNoDuplicates(f.teams, id);
    WithoutNoDuplicates(f.players, id);
  }

  /** Removing keeps every other id, as often as before and in the original
      order. */
  lemma RemoveKeepsOthersInOrder(f: Favorites, id: string, other: string)
    requires other != id
    ensures Subsequence(RemoveFavoriteTeam(f, id).teams, f.teams)
    ensures Subsequence(RemoveFavoritePlayer(f, id).players, f.players)
    ensures multiset(RemoveFavoriteTeam(f, id).teams)[other] == multiset(f.teams)[other]
    ensures multiset(RemoveFavoritePlayer(f, id).players)[other] == multiset(f.players)[other]
  {
    WithoutSubsequence(f.teams, id);
    WithoutSubsequence(f.players, id);
    WithoutKeepsOthers(f.teams, id, other);
    WithoutKeepsOthers(f.players, id, other);
  }
}
