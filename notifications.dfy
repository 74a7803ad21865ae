// The notification context: a newest-first list bounded by maxNotifications,
// read flags, and the mapping from live game events to notifications. The
// random part of a notification id and the browser Notification API are not
// modelled; the id and the clock are parameters.

module Notifications {
  import opened JsCore

  datatype Kind = Info | Success | Warning | ErrorKind

  datatype Notification = Notification(id: string, title: string, message: string, kind: Kind,
                                       gameId: Option<string>, timestamp: int, read: bool)

  /** What a caller hands to `addNotification`: everything but id, time and read. */
  datatype Draft = Draft(title: string, message: string, kind: Kind, gameId: Option<string>)

  const DefaultMaxNotifications: int := 10

  /** `addNotification`: the new entry, unread, goes first; the list is cut
      to `max` entries with `slice(0, max)`. */
  function AddNotification(prev: seq<Notification>, d: Draft, id: string, now: int, max: int): (r: seq<Notification>)
    ensures max >= 0 ==> |r| == Min(|prev| + 1, max)
    ensures max >= 1 ==> r[0] == Notification(id, d.title, d.message, d.kind, d.gameId, now, false)
    ensures max >= 1 ==> r[1..] == prev[..|r| - 1]
  {
    var added := Notification(id, d.title, d.message, d.kind, d.gameId, now, false);
    assert ([added] + prev)[1..] == prev;
    SliceTo([added] + prev, max)
  }

  /** With room to spare nothing is dropped; at the bound the oldest entry goes. */
  lemma AddDropsOldest(prev: seq<Notification>, d: Draft, id: string, now: int, max: int)
    requires max >= 1
    ensures |prev| < max ==> AddNotification(prev, d, id, now, max)[1..] == prev
    ensures |prev| == max ==> AddNotification(prev, d, id, now, max)[1..] == prev[..|prev| - 1]
  {
  }

  function IsUnread(n: Notification): bool { !n.read }

  /** `unreadCount`. */
  function UnreadCount(ns: seq<Notification>): (r: nat)
    ensures r <= |ns|
    ensures r == 0 <==> forall i :: 0 <= i < |ns| ==> ns[i].read
  {
    CountWhereNone(ns, IsUnread);
    CountWhere(ns, IsUnread)
  }

  function MarkOne(n: Notification, id: string): Notification
  {
    if n.id == id then n.(read := true) else n
  }

  /** `markAsRead(id)`: set read on the entries with that id. */
  function MarkAsRead(ns: seq<Notification>, id: string): (r: seq<Notification>)
    ensures |r| == |ns|
    ensures forall i :: 0 <= i < |ns| ==>
              (ns[i].id == id ==> r[i] == ns[i].(read := true)) && (ns[i].id != id ==> r[i] == ns[i])
  {
    seq(|ns|, i requires 0 <= i < |ns| => MarkOne(ns[i], id))
  }

  lemma MarkAsReadIdempotent(ns: seq<Notification>, id: string)
    ensures MarkAsRead(MarkAsRead(ns, id), id) == MarkAsRead(ns, id)
  {
  }

  /** `markAllAsRead`. */
  function MarkAllAsRead(ns: seq<Notification>): (r: seq<Notification>)
    ensures |r| == |ns|
    ensures forall i :: 0 <= i < |ns| ==> r[i] == ns[i].(read := true)
  {
    seq(|ns|, i requires 0 <= i < |ns| => ns[i].(read := true))
  }

  lemma AllReadMeansNoUnread(ns: seq<Notification>)
    ensures UnreadCount(MarkAllAsRead(ns)) == 0
  {
    var r := MarkAllAsRead(ns);
    CountWhereNone(r, IsUnread);
  }

  /** A fresh notification is unread, so adding below the bound raises the
      unread count by one. */
  lemma {:induction false} AddRaisesUnread(prev: seq<Notification>, d: Draft, id: string, now: int, max: int)
    requires |prev| < max
    ensures UnreadCount(AddNotification(prev, d, id, now, max)) == UnreadCount(prev) + 1
  {
    var r := AddNotification(prev, d, id, now, max);
    assert r[1..] == prev;
  }

  /** `clearNotifications`. */
  function ClearNotifications(ns: seq<Notification>): (r: seq<Notification>)
    ensures r == [] && UnreadCount(r) == 0
  {
    []
  }

  /** The score-update subscription. */
  function ScoreNotification(gameId: string): (r: Draft)
    ensures r.title == "Score Update" && r.kind == Info && r.gameId == Some(gameId)
    ensures "Score changed in game " <= r.message && |r.message| >= |gameId| && r.message[|r.message| - |gameId|..] == gameId
  {
    var r := Draft("Score Update", "Score changed in game " + gameId, Info, Some(gameId));
    assert r.message[|r.message| - |gameId|..] == gameId;
    r
  }

  /** The news-update subscription. */
  function NewsNotification(headline: string, summary: string, gameId: Option<string>): (r: Draft)
    ensures r.title == headline && r.message == summary && r.kind == Info && r.gameId == gameId
  {
    Draft(headline, summary, Info, gameId)
  }

  /** A score or news update puts an unread, informational notification for
      that game first in the list. */
  lemma UpdatesNotifyFirst(prev: seq<Notification>, gameId: string, headline: string, summary: string,
                           newsGame: Option<string>, id: string, now: int, max: int)
    requires max >= 1
    ensures var n := AddNotification(prev, ScoreNotification(gameId), id, now, max)[0];
            !n.read && n.kind == Info && n.gameId == Some(gameId) && n.timestamp == now
    ensures var n := AddNotification(prev, NewsNotification(headline, summary, newsGame), id, now, max)[0];
            !n.read && n.kind == Info && n.title == headline && n.message == summary && n.gameId == newsGame
  {
  }

  /** The status-update subscription: a notification for 'LIVE' and 'FINAL' only. */
  function StatusNotification(gameId: string, status: string): (r: Option<Draft>)
    ensures r.Some? <==> status == "LIVE" || status == "FINAL"
    ensures status == "LIVE" ==> r == Some(Draft("Game Started", "Game " + gameId + " is now live!", Success, Some(gameId)))
    ensures status == "FINAL" ==> r == Some(Draft("Game Ended", "Game " + gameId + " has ended", Info, Some(gameId)))
  {
    if status == "LIVE" then Some(Draft("Game Started", "Game " + gameId + " is now live!", Success, Some(gameId)))
    else if status == "FINAL" then Some(Draft("Game Ended", "Game " + gameId + " has ended", Info, Some(gameId)))
    else None
  }
}
