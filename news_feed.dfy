// The news feed: the category and team filters with the item limit, the
// "time ago" text of an item and the badge of its category. The simulated
// fetch delay, the mock list itself and the rendering are not modelled; the
// clock and the parsed publication time are parameters.

module NewsFeed {
  import opened JsCore

  datatype NewsItem = NewsItem(id: string, headline: string, summary: string, source: string,
                               publishedAt: string, url: string, category: string,
                               teamIds: Option<seq<string>>)

  /** The `limit` prop's default. */
  const DefaultLimit := 5

  /** `items.filter(item => item.category === category)`. */
  function ByCategory(items: seq<NewsItem>, category: string): (r: seq<NewsItem>)
    ensures |r| <= |items|
    ensures forall x :: x in r <==> x in items && x.category == category
    ensures Subsequence(r, items)
    decreases |items|
  {
    if items == [] then []
    else
      var rest := ByCategory(items[1..], category);
      if items[0].category == category then
        assert ([items[0]] + rest)[1..] == rest;
        [items[0]] + rest
      else
        SubsequenceSkip(rest, items);
        rest
  }

  /** The team filter: an item is kept when it has team ids and they
      include the team. */
  predicate MentionsTeam(item: NewsItem, teamId: string)
  {
    item.teamIds.Some? && teamId in item.teamIds.value
  }

  /** `items.filter(item => item.teamIds && item.teamIds.includes(teamId))`. */
  function ByTeam(items: seq<NewsItem>, teamId: string): (r: seq<NewsItem>)
    ensures |r| <= |items|
    ensures forall x :: x in r <==> x in items && MentionsTeam(x, teamId)
    ensures Subsequence(r, items)
    decreases |items|
  {
    if items == [] then []
    else
      var rest := ByTeam(items[1..], teamId);
      if MentionsTeam(items[0], teamId) then
        assert ([items[0]] + rest)[1..] == rest;
        [items[0]] + rest
      else
        SubsequenceSkip(rest, items);
        rest
  }

  /** An optional string prop filters only when it is truthy: neither
      undefined nor empty. */
  predicate Given(prop: Option<string>)
  {
    prop.Some? && prop.value != ""
  }

  /** The feed's list before the limit: the category filter, then the team
      filter, each applied only when its prop is given. */
  function Matching(items: seq<NewsItem>, category: Option<string>, teamId: Option<string>): (r: seq<NewsItem>)
    ensures forall x :: x in r <==>
              x in items && (!Given(category) || x.category == category.value)
              && (!Given(teamId) || MentionsTeam(x, teamId.value))
  {
    var byCategory := if Given(category) then ByCategory(items, category.value) else items;
    if Given(teamId) then ByTeam(byCategory, teamId.value) else byCategory
  }

  /** The news the feed shows: the matching items with `slice(0, limit)`. */
  function FilterNews(items: seq<NewsItem>, limit: int, category: Option<string>, teamId: Option<string>): (r: seq<NewsItem>)
    ensures r <= Matching(items, category, teamId)
    ensures limit >= 0 ==> |r| == Min(limit, |Matching(items, category, teamId)|)
  {
    SliceTo(Matching(items, category, teamId), limit)
  }

  /** The feed keeps the order of the list, shows only items matching the
      given props, and shows the first `limit` matching items (for a
      negative limit, all but the last `-limit`). */
  lemma FilterNewsSound(items: seq<NewsItem>, limit: int, category: Option<string>, teamId: Option<string>)
    ensures var r := FilterNews(items, limit, category, teamId);
            && Subsequence(r, items)
            && (limit >= 0 ==> |r| <= limit)
            && (forall x :: x in r ==> x in items)
            && (Given(category) ==> forall x :: x in r ==> x.category == category.value)
            && (Given(teamId) ==> forall x :: x in r ==> x.teamIds.Some? && teamId.value in x.teamIds.value)
    ensures var m, r := Matching(items, category, teamId), FilterNews(items, limit, category, teamId);
            && (limit >= 0 ==> r == m[..Min(limit, |m|)])
            && (limit < 0 ==> r == m[..if |m| + limit >= 0 then |m| + limit else 0])
  {
    var byCategory := if Given(category) then ByCategory(items, category.value) else items;
    var m := Matching(items, category, teamId);
    SubsequenceReflexive(items);
    assert Subsequence(byCategory, items);
    assert Subsequence(m, items) by {
      if Given(teamId) {
        SubsequenceTransitive(m, byCategory, items);
      }
    }
    var r := FilterNews(items, limit, category, teamId);
    PrefixSubsequence(r, m);
    SubsequenceTransitive(r, m, items);
    SubsequenceMembers(r, items);
  }

  /** Without a `limit` prop the feed shows at most five items: the first
      five that match, or the first five of the list when no filter prop is
      given. */
  lemma DefaultFeed(items: seq<NewsItem>, category: Option<string>, teamId: Option<string>)
    ensures var m := Matching(items, category, teamId);
            FilterNews(items, DefaultLimit, category, teamId) == m[..Min(5, |m|)]
    ensures FilterNews(items, DefaultLimit, None, None) == items[..Min(5, |items|)]
  {
    FilterNewsSound(items, DefaultLimit, category, teamId);
    FilterNewsSound(items, DefaultLimit, None, None);
  }

  /** Every matching item is shown when there are no more of them than the
      limit; an item without team ids never appears once a team is
      given. */
  lemma FilterNewsComplete(items: seq<NewsItem>, limit: int, category: Option<string>, teamId: Option<string>)
    ensures var m := Matching(items, category, teamId);
            |m| <= limit ==> FilterNews(items, limit, category, teamId) == m
    ensures forall x :: (x in items && (!Given(category) || x.category == category.value)
                         && (!Given(teamId) || MentionsTeam(x, teamId.value))) ==> x in Matching(items, category, teamId)
    ensures Given(teamId) ==> forall x :: x in FilterNews(items, limit, category, teamId) ==> x.teamIds.Some?
  {
    var m := Matching(items, category, teamId);
    assert forall x :: x in FilterNews(items, limit, category, teamId) ==> x in m;
  }

  /** The two filters can be applied in either order. */
  lemma {:induction false} FiltersCommute(items: seq<NewsItem>, category: string, teamId: string)
    ensures ByTeam(ByCategory(items, category), teamId) == ByCategory(ByTeam(items, teamId), category)
    decreases |items|
  {
    if items != [] {
      FiltersCommute(items[1..], category, teamId);
      var x, rest := items[0], items[1..];
      var c, t := ByCategory(rest, category), ByTeam(rest, teamId);
      if x.category == category {
        assert ([x] + c)[1..] == c;
      }
      if MentionsTeam(x, teamId) {
        assert ([x] + t)[1..] == t;
      }
    }
  }

  // ---- Relative time ----

  datatype TimeUnit = Seconds | Minutes | Hours | Days

  /** The number of whole seconds, minutes, hours or days since
      publication, each a floor division of the one before. */
  function Bucket(diffInSeconds: int): (r: (int, TimeUnit))
    ensures r.1 == Seconds <==> diffInSeconds < 60
    ensures r.1 == Seconds ==> r.0 == diffInSeconds
    ensures r.1 == Minutes <==> 60 <= diffInSeconds < 3600
    ensures r.1 == Minutes ==> 1 <= r.0 < 60 && r.0 * 60 <= diffInSeconds < (r.0 + 1) * 60
    ensures r.1 == Hours <==> 3600 <= diffInSeconds < 86400
    ensures r.1 == Hours ==> 1 <= r.0 < 24 && r.0 * 3600 <= diffInSeconds < (r.0 + 1) * 3600
    ensures r.1 == Days ==> r.0 >= 1 && r.0 * 86400 <= diffInSeconds < (r.0 + 1) * 86400
  {
    if diffInSeconds < 60 then (diffInSeconds, Seconds)
    else
      var minutes := diffInSeconds / 60;
      if minutes < 60 then (minutes, Minutes)
      else
        var hours := minutes / 60;
        if hours < 24 then (hours, Hours)
        else
          var days := hours / 24;
          FloorBounds(diffInSeconds, 60);
          FloorBounds(minutes, 60);
          FloorBounds(hours, 24);
          (days, Days)
  }

  /** Division by a positive constant is the floor: the quotient times the
      divisor is at most the dividend, by less than the divisor. */
  lemma FloorBounds(x: int, n: int)
    requires n > 0
    ensures (x / n) * n <= x < (x / n) * n + n
  {
  }

  function UnitWord(u: TimeUnit): string
  {
    match u
    case Seconds => "second"
    case Minutes => "minute"
    case Hours => "hour"
    case Days => "day"
  }

  /** The text of a bucket: seconds are always plural, the other units
      plural above one. */
  function BucketText(b: (int, TimeUnit)): (r: string)
    ensures IntToString(b.0) + " " <= r
    ensures |r| >= 4 && r[|r| - 4..] == " ago"
  {
    var r := IntToString(b.0) + " " + UnitWord(b.1) + (if b.1 == Seconds || b.0 > 1 then "s" else "") + " ago";
    assert r == (IntToString(b.0) + " ") + (UnitWord(b.1) + (if b.1 == Seconds || b.0 > 1 then "s" else "") + " ago");
    r
  }

  /** `formatRelativeTime`: `now` and the parsed publication time are in
      milliseconds; None is a date string that does not parse (NaN), which
      falls through every comparison to the day branch. */
  function FormatRelativeTime(nowMs: int, publishedMs: Option<int>): (r: string)
    ensures publishedMs.None? ==> r == "NaN day ago"
    ensures publishedMs.Some? ==> IntToString(Bucket((nowMs - publishedMs.value) / 1000).0) + " " <= r
    ensures |r| >= 4 && r[|r| - 4..] == " ago"
  {
    if publishedMs.None? then "NaN day ago"
    else BucketText(Bucket((nowMs - publishedMs.value) / 1000))
  }

  /** The unit is singular at a count of one and plural above it; seconds
      are always plural. */
  lemma BucketTextPlural(b: (int, TimeUnit))
    ensures b.1 != Seconds && b.0 == 1 ==> BucketText(b) == "1 " + UnitWord(b.1) + " ago"
    ensures b.1 == Seconds || b.0 > 1 ==> BucketText(b) == IntToString(b.0) + " " + UnitWord(b.1) + "s ago"
  {
    var t := IntToString(b.0) + " " + UnitWord(b.1);
    if b.1 != Seconds && b.0 == 1 {
      assert IntToString(1) == "1" by {
        assert NatToString(1) == [DigitChar(1)];
      }
      assert BucketText(b) == t + "" + " ago";
      assert t == "1 " + UnitWord(b.1);
    } else if b.1 == Seconds || b.0 > 1 {
      assert BucketText(b) == t + "s" + " ago";
    }
  }

  /** A publication time in the future reads as a negative number of
      seconds. */
  lemma FutureReadsAsNegativeSeconds(nowMs: int, publishedMs: int)
    requires publishedMs > nowMs
    ensures var b := Bucket((nowMs - publishedMs) / 1000);
            b.1 == Seconds && b.0 < 0
  {
  }

  /** A later clock never moves an item to a smaller unit. */
  lemma BucketMonotone(d: int, e: int)
    requires d <= e
    ensures Rank(Bucket(d).1) <= Rank(Bucket(e).1)
  {
  }

  function Rank(u: TimeUnit): nat
  {
    match u
    case Seconds => 0
    case Minutes => 1
    case Hours => 2
    case Days => 3
  }

  // ---- Category badge ----

  datatype Badge = BadgeBreaking | BadgeInjury | BadgeTransaction | BadgeRecap | BadgeGeneral

  /** `getCategoryClass`: the four named categories have their own badge,
      everything else the general one. */
  function CategoryClass(category: string): (r: Badge)
    ensures r == BadgeBreaking <==> category == "breaking"
    ensures r == BadgeInjury <==> category == "injury"
    ensures r == BadgeTransaction <==> category == "transaction"
    ensures r == BadgeRecap <==> category == "recap"
    ensures r == BadgeGeneral <==> category !in {"breaking", "injury", "transaction", "recap"}
  {
    if category == "breaking" then BadgeBreaking
    else if category == "injury" then BadgeInjury
    else if category == "transaction" then BadgeTransaction
    else if category == "recap" then BadgeRecap
    else BadgeGeneral
  }
}
