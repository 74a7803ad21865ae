// The player leaderboard: keep the players that have the category's stat,
// sort them by it from highest to lowest, and show the first `limit`.
// `Array.prototype.sort` is stable, so any correct implementation of it
// gives the same order as the insertion sort below; the sort works in
// place on a copy of the filtered list, as the source's does.

module Leaderboard {
  import opened JsCore

  datatype LeaderPlayer = LeaderPlayer(
    id: string, name: string, team: string, teamId: string, position: string,
    passingYards: Option<int>, passingTDs: Option<int>,
    rushingYards: Option<int>, rushingTDs: Option<int>,
    receivingYards: Option<int>, receivingTDs: Option<int>,
    tackles: Option<int>, sacks: Option<int>, interceptions: Option<int>)

  datatype Category = Passing | Rushing | Receiving | Defense

  /** The `limit` prop's default. */
  const DefaultLimit := 5

  /** `x || 0` on an optional number. */
  function OrZero(x: Option<int>): int
  {
    if x.Some? then x.value else 0
  }

  /** The filter of each category. */
  predicate Included(c: Category, p: LeaderPlayer)
  {
    match c
    case Passing => p.passingYards.Some?
    case Rushing => p.rushingYards.Some?
    case Receiving => p.receivingYards.Some?
    case Defense => p.sacks.Some? || p.interceptions.Some?
  }

  /** The value each category's comparator sorts on, highest first; on
      defence an interception weighs twice a sack. */
  function Key(c: Category, p: LeaderPlayer): int
  {
    match c
    case Passing => OrZero(p.passingYards)
    case Rushing => OrZero(p.rushingYards)
    case Receiving => OrZero(p.receivingYards)
    case Defense => OrZero(p.sacks) + 2 * OrZero(p.interceptions)
  }

  /** `players.filter(...)`, in order. */
  function Filter(players: seq<LeaderPlayer>, c: Category): (r: seq<LeaderPlayer>)
    ensures |r| <= |players|
    ensures forall p :: p in r ==> Included(c, p)
    ensures forall p :: p in players && Included(c, p) ==> p in r
    ensures multiset(r) <= multiset(players)
    ensures Subsequence(r, players)
    decreases |players|
  {
    if players == [] then []
    else
      var rest := Filter(players[1..], c);
      SubsequenceSkip(rest, players);
      assert players == [players[0]] + players[1..];
      assert multiset(players) == multiset{players[0]} + multiset(players[1..]);
      if Included(c, players[0]) then [players[0]] + rest
      else rest
  }

  /** Each player's key is at least the next one's. */
  predicate SortedDesc(s: seq<LeaderPlayer>, c: Category)
  {
    forall i :: 0 < i < |s| ==> Key(c, s[i - 1]) >= Key(c, s[i])
  }

  /** Place x after every element whose key is at least x's. */
  function Insert(t: seq<LeaderPlayer>, x: LeaderPlayer, c: Category): (r: seq<LeaderPlayer>)
    ensures |r| == |t| + 1
    decreases |t|
  {
    if t == [] then [x]
    else if Key(c, t[|t| - 1]) >= Key(c, x) then t + [x]
    else
      var init, last := t[..|t| - 1], t[|t| - 1];
      assert t == init + [last];
      Insert(init, x, c) + [last]
  }

  lemma {:induction false} InsertPermutes(t: seq<LeaderPlayer>, x: LeaderPlayer, c: Category)
    ensures multiset(Insert(t, x, c)) == multiset(t) + multiset{x}
    decreases |t|
  {
    if t != [] && Key(c, t[|t| - 1]) < Key(c, x) {
      var init, last := t[..|t| - 1], t[|t| - 1];
      assert t == init + [last];
      InsertPermutes(init, x, c);
    }
  }

  /** Insert ends with x or with the old last element. */
  lemma {:induction false} InsertLast(t: seq<LeaderPlayer>, x: LeaderPlayer, c: Category)
    ensures var r := Insert(t, x, c);
            r[|r| - 1] == x || (t != [] && r[|r| - 1] == t[|t| - 1])
  {
  }

  lemma {:induction false} InsertKeepsSorted(t: seq<LeaderPlayer>, x: LeaderPlayer, c: Category)
    requires SortedDesc(t, c)
    ensures SortedDesc(Insert(t, x, c), c)
    decreases |t|
  {
    if t != [] && Key(c, t[|t| - 1]) < Key(c, x) {
      var init, last := t[..|t| - 1], t[|t| - 1];
      InsertKeepsSorted(init, x, c);
      InsertLast(init, x, c);
      var m := Insert(init, x, c);
      assert Insert(t, x, c) == m + [last];
      assert Key(c, m[|m| - 1]) >= Key(c, last);
    }
  }

  /** The stable descending sort that the comparator defines. */
  function SortDesc(s: seq<LeaderPlayer>, c: Category): (r: seq<LeaderPlayer>)
    ensures |r| == |s|
    decreases |s|
  {
    if s == [] then [] else Insert(SortDesc(s[..|s| - 1], c), s[|s| - 1], c)
  }

  /** The sort orders by key, highest first, and only rearranges. */
  lemma {:induction false} SortDescCorrect(s: seq<LeaderPlayer>, c: Category)
    ensures SortedDesc(SortDesc(s, c), c)
    ensures multiset(SortDesc(s, c)) == multiset(s)
    decreases |s|
  {
    if s != [] {
      var init, last := s[..|s| - 1], s[|s| - 1];
      assert s == init + [last];
      SortDescCorrect(init, c);
      InsertKeepsSorted(SortDesc(init, c), last, c);
      InsertPermutes(SortDesc(init, c), last, c);
    }
  }

  /** The elements of s with key k, in order. */
  function WithKey(s: seq<LeaderPlayer>, c: Category, k: int): seq<LeaderPlayer>
    decreases |s|
  {
    if s == [] then []
    else WithKey(s[..|s| - 1], c, k) + Single(s[|s| - 1], c, k)
  }

  lemma {:induction false} WithKeySnoc(s: seq<LeaderPlayer>, x: LeaderPlayer, c: Category, k: int)
    ensures WithKey(s + [x], c, k) == WithKey(s, c, k) + Single(x, c, k)
  {
    assert (s + [x])[..|s|] == s;
  }

  /** The players of key k in a one-element list. */
  function Single(x: LeaderPlayer, c: Category, k: int): seq<LeaderPlayer>
  {
    if Key(c, x) == k then [x] else []
  }

  lemma {:induction false} InsertStable(t: seq<LeaderPlayer>, x: LeaderPlayer, c: Category, k: int)
    ensures WithKey(Insert(t, x, c), c, k) == WithKey(t + [x], c, k)
    decreases |t|
  {
    if t != [] && Key(c, t[|t| - 1]) < Key(c, x) {
      var init, last := t[..|t| - 1], t[|t| - 1];
      assert t == init + [last];
      var m := Insert(init, x, c);
      assert Insert(t, x, c) == m + [last];
      InsertStable(init, x, c, k);
      WithKeySnoc(m, last, c, k);
      WithKeySnoc(init, x, c, k);
      WithKeySnoc(init, last, c, k);
      WithKeySnoc(t, x, c, k);
      var A, X, L := WithKey(init, c, k), Single(x, c, k), Single(last, c, k);
      assert X == [] || L == [];
      SwapPastEmpty(A, X, L);
    }
  }

  /** Two pieces of which one is empty can be swapped. */
  lemma SwapPastEmpty<T>(a: seq<T>, x: seq<T>, l: seq<T>)
    requires x == [] || l == []
    ensures a + x + l == a + l + x
  {
    if x == [] {
      assert a + x == a && a + l + x == a + l;
    } else {
      assert a + x + l == a + x && a + l == a;
    }
  }

  /** Stability: for every key, the players with that key come out in the
      order they went in. */
  lemma {:induction false} SortStable(s: seq<LeaderPlayer>, c: Category, k: int)
    ensures WithKey(SortDesc(s, c), c, k) == WithKey(s, c, k)
    decreases |s|
  {
    if s != [] {
      var init, last := s[..|s| - 1], s[|s| - 1];
      assert s == init + [last];
      SortStable(init, c, k);
      InsertStable(SortDesc(init, c), last, c, k);
      WithKeySnoc(SortDesc(init, c), last, c, k);
      WithKeySnoc(init, last, c, k);
    }
  }

  /** Where the shifting loop stops decides the result of Insert. */
  lemma {:induction false} InsertAt(t: seq<LeaderPlayer>, x: LeaderPlayer, c: Category, j: int)
    requires 0 <= j <= |t|
    requires j == 0 || Key(c, t[j - 1]) >= Key(c, x)
    requires forall k :: j <= k < |t| ==> Key(c, t[k]) < Key(c, x)
    ensures Insert(t, x, c) == t[..j] + [x] + t[j..]
    decreases |t|
  {
    if j < |t| {
      var init := t[..|t| - 1];
      assert Key(c, t[|t| - 1]) < Key(c, x);
      InsertShift(t, x, c);
      assert forall k :: 0 <= k < |init| ==> init[k] == t[k];
      InsertAt(init, x, c, j);
      SplitSnoc(t, x, j);
    }
  }

  /** A last element with a smaller key stays last. */
  lemma InsertShift(t: seq<LeaderPlayer>, x: LeaderPlayer, c: Category)
    requires t != [] && Key(c, t[|t| - 1]) < Key(c, x)
    ensures Insert(t, x, c) == Insert(t[..|t| - 1], x, c) + [t[|t| - 1]]
  {
  }

  /** Inserting before position j and then putting the last element back
      is inserting before position j of the whole list. */
  lemma SplitSnoc<T>(t: seq<T>, x: T, j: int)
    requires 0 <= j < |t|
    ensures var init := t[..|t| - 1];
            init[..j] + [x] + init[j..] + [t[|t| - 1]] == t[..j] + [x] + t[j..]
  {
    var init, last := t[..|t| - 1], t[|t| - 1];
    assert t[..j] == init[..j];
    assert t[j..] == init[j..] + [last];
  }

  /** One pass of insertion sort: shift the elements before position i
      that are strictly smaller than a[i] one place right and drop a[i] into
      the gap. */
  method InsertInPlace(a: array<LeaderPlayer>, i: int, c: Category)
    requires 0 <= i < a.Length
    modifies a
    ensures a[..i + 1] == Insert(old(a[..i]), old(a[i]), c)
    ensures forall k :: i < k < a.Length ==> a[k] == old(a[k])
  {
    ghost var t := a[..i];
    var x := a[i];
    var j := i;
    var kx := Key(c, x);
    while j > 0 && Key(c, a[j - 1]) < kx
      invariant 0 <= j <= i
      invariant forall k :: 0 <= k < j ==> a[k] == t[k]
      invariant forall k :: j < k <= i ==> a[k] == t[k - 1]
      invariant forall k :: i < k < a.Length ==> a[k] == old(a[k])
      invariant forall k :: j <= k < i ==> Key(c, t[k]) < kx
    {
      a[j] := a[j - 1];
      j := j - 1;
    }
    a[j] := x;
    InsertAt(t, x, c, j);
    Shifted(a[..i + 1], t, x, j);
  }

  /** A list that agrees with t before j, holds x at j and agrees with t
      shifted by one after j is t with x inserted at j. */
  lemma Shifted<T>(u: seq<T>, t: seq<T>, x: T, j: int)
    requires |u| == |t| + 1 && 0 <= j <= |t|
    requires forall k :: 0 <= k < j ==> u[k] == t[k]
    requires u[j] == x
    requires forall k :: j < k < |u| ==> u[k] == t[k - 1]
    ensures u == t[..j] + [x] + t[j..]
  {
    var r := t[..j] + [x] + t[j..];
    assert forall k :: 0 <= k < |u| ==> u[k] == r[k];
  }

  /** Insertion sort in place, stable because an element only moves past
      strictly smaller keys. */
  method SortDescending(a: array<LeaderPlayer>, c: Category)
    modifies a
    ensures a[..] == SortDesc(old(a[..]), c)
  {
    ghost var orig := a[..];
    var i := 0;
    while i < a.Length
      invariant 0 <= i <= a.Length
      invariant a[..i] == SortDesc(orig[..i], c)
      invariant forall k :: i <= k < a.Length ==> a[k] == orig[k]
    {
      ghost var sorted, x := a[..i], a[i];
      InsertInPlace(a, i, c);
      assert a[..i + 1] == Insert(sorted, x, c);
      SortDescPrefix(orig, i, c);
      i := i + 1;
    }
    assert orig[..a.Length] == orig;
  }

  /** Sorting one more element of a list inserts it into the sorted
      prefix. */
  lemma SortDescPrefix(s: seq<LeaderPlayer>, i: int, c: Category)
    requires 0 <= i < |s|
    ensures SortDesc(s[..i + 1], c) == Insert(SortDesc(s[..i], c), s[i], c)
  {
    assert s[..i + 1][..i] == s[..i];
  }

  /** The specification of `getLeaderboardData`. */
  function Leaderboard(players: seq<LeaderPlayer>, c: Category, limit: int): seq<LeaderPlayer>
  {
    SliceTo(SortDesc(Filter(players, c), c), limit)
  }

  /** `getLeaderboardData`: filter a copy, sort it in place, slice. */
  method GetLeaderboardData(players: seq<LeaderPlayer>, c: Category, limit: int) returns (r: seq<LeaderPlayer>)
    ensures r == Leaderboard(players, c, limit)
  {
    var filtered := Filter(players, c);
    var a := new LeaderPlayer[|filtered|](i requires 0 <= i < |filtered| => filtered[i]);
    assert a[..] == filtered;
    SortDescending(a, c);
    r := SliceTo(a[..], limit);
  }

  /** What the leaderboard guarantees: at most `limit` players, each one
      that has the stat, from highest to lowest, none more often than in
      the input; and it is the top of the whole sorted list. */
  lemma LeaderboardShape(players: seq<LeaderPlayer>, c: Category, limit: int)
    ensures var r := Leaderboard(players, c, limit);
            && (limit >= 0 ==> |r| <= limit)
            && (forall p :: p in r ==> Included(c, p))
            && SortedDesc(r, c)
            && multiset(r) <= multiset(players)
            && r <= SortDesc(Filter(players, c), c)
  {
    var f := Filter(players, c);
    var sorted := SortDesc(f, c);
    SortDescCorrect(f, c);
    var r := SliceTo(sorted, limit);
    PrefixFacts(r, sorted, c);
    forall p | p in r
      ensures Included(c, p)
    {
      assert p in multiset(f);
    }
  }

  /** Without a `limit` prop the leaderboard shows the five best players of
      the category, or all of them when there are fewer. */
  lemma DefaultLeaderboard(players: seq<LeaderPlayer>, c: Category)
    ensures var ranked := SortDesc(Filter(players, c), c);
            Leaderboard(players, c, DefaultLimit) == ranked[..Min(5, |ranked|)]
    ensures |Leaderboard(players, c, DefaultLimit)| <= 5
  {
  }

  /** A prefix of a list holds some of its elements, and of a sorted list
      is sorted. */
  lemma PrefixFacts(r: seq<LeaderPlayer>, s: seq<LeaderPlayer>, c: Category)
    requires r <= s
    ensures multiset(r) <= multiset(s)
    ensures forall p :: p in r ==> p in s
    ensures SortedDesc(s, c) ==> SortedDesc(r, c)
  {
    assert s == r + s[|r|..];
    assert forall i :: 0 <= i < |r| ==> r[i] == s[i];
  }

  /** With a limit at least the number of players that have the stat,
      every one of them is shown. */
  lemma LeaderboardComplete(players: seq<LeaderPlayer>, c: Category, limit: int)
    requires limit >= |Filter(players, c)|
    ensures forall p :: p in players && Included(c, p) ==> p in Leaderboard(players, c, limit)
  {
    var sorted := SortDesc(Filter(players, c), c);
    SortDescCorrect(Filter(players, c), c);
    assert Leaderboard(players, c, limit) == sorted;
    forall p | p in players && Included(c, p)
      ensures p in sorted
    {
      assert p in multiset(Filter(players, c));
    }
  }

  /** Ties keep their input order on the leaderboard. */
  lemma LeaderboardStable(players: seq<LeaderPlayer>, c: Category, k: int)
    ensures WithKey(Leaderboard(players, c, |players|), c, k) == WithKey(Filter(players, c), c, k)
  {
    var f := Filter(players, c);
    assert Leaderboard(players, c, |players|) == SortDesc(f, c);
    SortStable(f, c, k);
  }

  /** One rendered stat line: `${primary} UNIT, ${secondary} UNIT`. */
  datatype StatLine = StatLine(primary: Option<int>, primaryUnit: string, secondary: Option<int>, secondaryUnit: string)

  /** Template interpolation of an optional number. */
  function Show(x: Option<int>): string
  {
    if x.Some? then IntToString(x.value) else "undefined"
  }

  function StatText(l: StatLine): string
  {
    Show(l.primary) + " " + l.primaryUnit + ", " + Show(l.secondary) + " " + l.secondaryUnit
  }

  /** `getStatValue`: yards and touchdowns of the category, or for defence
      interceptions (cornerbacks and safeties) or sacks (everyone else),
      with tackles. */
  function GetStatValue(c: Category, p: LeaderPlayer): (r: StatLine)
    ensures c != Defense ==> r.primaryUnit == "YDS" && r.secondaryUnit == "TD"
    ensures c == Passing ==> r.primary == p.passingYards && r.secondary == p.passingTDs
    ensures c == Rushing ==> r.primary == p.rushingYards && r.secondary == p.rushingTDs
    ensures c == Receiving ==> r.primary == p.receivingYards && r.secondary == p.receivingTDs
    ensures c == Defense ==> r.secondary == p.tackles && r.secondaryUnit == "TKL"
    ensures c == Defense ==>
              (r.primaryUnit == "INT" <==> p.position == "CB" || p.position == "S") &&
              (r.primaryUnit == "INT" ==> r.primary == p.interceptions) &&
              (r.primaryUnit != "INT" ==> r.primaryUnit == "SACK" && r.primary == p.sacks)
  {
    match c
    case Passing => StatLine(p.passingYards, "YDS", p.passingTDs, "TD")
    case Rushing => StatLine(p.rushingYards, "YDS", p.rushingTDs, "TD")
    case Receiving => StatLine(p.receivingYards, "YDS", p.receivingTDs, "TD")
    case Defense =>
      if p.position == "CB" || p.position == "S" then StatLine(p.interceptions, "INT", p.tackles, "TKL")
      else StatLine(p.sacks, "SACK", p.tackles, "TKL")
  }

  /** A missing stat is interpolated as "undefined". */
  lemma MissingStatText(p: LeaderPlayer)
    requires p.passingTDs.None?
    ensures StatText(GetStatValue(Passing, p)) == Show(p.passingYards) + " YDS, undefined TD"
  {
    var y := Show(p.passingYards);
    var tail := " " + "YDS" + ", " + "undefined" + " " + "TD";
    assert StatText(GetStatValue(Passing, p)) == y + tail;
    assert tail == " YDS, undefined TD";
  }
}
