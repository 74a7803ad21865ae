// The live-update connection service: connection status, reconnect policy,
// heartbeat, per-category subscriber lists and the inbound message router.
//
// Browser facilities become explicit inputs: the current time is a
// parameter, each socket event (open, message, close, error) and each timer
// expiry is a method of its own, and whether the WebSocket constructor throws
// is a parameter of the methods that construct one. Callbacks are opaque ids;
// every invocation of a callback is appended to the `calls` log and every
// frame handed to the socket is appended to the `sent` log.

module LiveUpdates {
  import opened JsCore

  datatype Status = Connected | Disconnected | Connecting | Errored

  datatype Category =
    | GameUpdates | ScoreUpdates | StatusUpdates | StatUpdates | NewsUpdates | Errors | ConnectionStatus

  const AllCategories: set<Category> :=
    {GameUpdates, ScoreUpdates, StatusUpdates, StatUpdates, NewsUpdates, Errors, ConnectionStatus}

  /** The arguments one callback invocation receives. */
  datatype Notice =
    | Games(games: JsValue)
    | Score(gameId: JsValue, homeScore: JsValue, awayScore: JsValue)
    | GameStatus(gameId: JsValue, status: JsValue, time: JsValue)
    | Stats(stats: JsValue)
    | News(news: JsValue)
    | Failure(error: JsValue)
    | StatusChanged(connection: Status)

  datatype Call = Call(category: Category, callback: nat, notice: Notice)

  /** Frames the client sends; the ISO timestamp added on sending is not modelled. */
  datatype Outbound = Auth(clientId: string, version: string) | Ping(timestamp: int)

  /** `WebSocket.readyState` of the socket the service holds. */
  datatype ReadyState = Pending | Open | Closing | Closed

  /** The text of an inbound frame: either not JSON at all, or a parsed value. */
  datatype Inbound = Unparseable | Parsed(message: JsValue)

  /** Where the router sends one inbound frame. */
  datatype Dispatch = Deliver(category: Category, notice: Notice) | Drop

  const MaxReconnectAttempts: nat := 10
  const InitialReconnectTimeout: real := 1000.0
  const MaxReconnectTimeout: real := 30000.0
  const SilenceLimit: int := 45000
  const PingPeriod: int := 30000
  const DefaultUrl: string := "wss://api.gridiron-dash.com/ws"
  const ClientId: string := "gridiron-dash-web"
  const ClientVersion: string := "1.0.0"

  const ProcessingError: string := "Error processing message"
  const ConnectionError: string := "Connection error"
  const ConnectFailed: string := "Failed to establish connection"
  const MaxAttemptsReached: string := "Maximum reconnection attempts reached. Please refresh the page."

  // ------------------------------------------------------------ reconnect policy

  /** `Math.min(30000, t * 1.5)`. */
  function NextTimeout(t: real): real
  {
    if MaxReconnectTimeout <= t * 1.5 then MaxReconnectTimeout else t * 1.5
  }

  /** The reconnect delay after k scheduled retries since the last open. */
  function Backoff(k: nat): real
  {
    if k == 0 then InitialReconnectTimeout else NextTimeout(Backoff(k - 1))
  }

  lemma {:induction false} BackoffBounds(k: nat)
    ensures InitialReconnectTimeout <= Backoff(k) <= MaxReconnectTimeout
    ensures k >= 1 ==> Backoff(k) >= 1500.0
  {
    if k > 0 {
      BackoffBounds(k - 1);
    }
  }

  lemma {:induction false} BackoffMonotone(j: nat, k: nat)
    requires j <= k
    ensures Backoff(j) <= Backoff(k)
    decreases k
  {
    if j < k {
      BackoffMonotone(j, k - 1);
      BackoffBounds(k - 1);
    }
  }

  /** The first delays are 1500, 2250, 3375 and 5062.5 ms; from the ninth retry on
      the cap of 30000 ms applies. */
  lemma BackoffValues()
    ensures Backoff(1) == 1500.0 && Backoff(2) == 2250.0 && Backoff(3) == 3375.0
    ensures Backoff(4) == 5062.5
    ensures Backoff(8) < MaxReconnectTimeout && Backoff(9) == MaxReconnectTimeout
  {
    assert Backoff(1) == 1500.0;
    assert Backoff(2) == 2250.0;
    assert Backoff(3) == 3375.0;
    assert Backoff(4) == 5062.5;
    assert Backoff(5) == 7593.75;
    assert Backoff(6) == 11390.625;
    assert Backoff(7) == 17085.9375;
    assert Backoff(8) == 25628.90625;
  }

  lemma {:induction false} BackoffCapped(k: nat)
    requires k >= 9
    ensures Backoff(k) == MaxReconnectTimeout
    decreases k
  {
    if k == 9 {
      BackoffValues();
    } else {
      BackoffCapped(k - 1);
    }
  }

  // ------------------------------------------------------------------ routing

  function TypeName(c: Category): string
  {
    match c
    case GameUpdates => "gameUpdate"
    case ScoreUpdates => "scoreUpdate"
    case StatusUpdates => "statusUpdate"
    case StatUpdates => "statUpdate"
    case NewsUpdates => "newsUpdate"
    case Errors => "error"
    case ConnectionStatus => ""
  }

  const ProcessingFailure: Dispatch := Deliver(Errors, Failure(Str(ProcessingError)))

  /** The `type` field of a parsed frame, or None when reading it throws. */
  function MessageType(data: Inbound): Option<JsValue>
  {
    if data.Unparseable? then None else Get(data.message, "type")
  }

  /** The `onmessage` switch: which subscriber list one frame reaches, and with
      what arguments. A throw inside the handler becomes the processing error. */
  function Route(data: Inbound): (d: Dispatch)
    ensures data.Unparseable? ==> d == ProcessingFailure
    ensures d.Deliver? ==> d.category != ConnectionStatus
    ensures d.Deliver? && d != ProcessingFailure ==>
              MessageType(data) == Some(Str(TypeName(d.category)))
    ensures MessageType(data).Some? && MessageType(data).value !in KnownTypes ==> d == Drop
  {
    match data
    case Unparseable => ProcessingFailure
    case Parsed(m) =>
      match Get(m, "type")
      case None => ProcessingFailure
      case Some(t) =>
        var payload := Get(m, "payload").value;
        if t == Str("gameUpdate") then
          (if Truthy(payload) && payload.Arr? then Deliver(GameUpdates, Games(payload)) else Drop)
        else if t == Str("scoreUpdate") then
          (if payload.Undefined? || payload.Null? then ProcessingFailure
           else Deliver(ScoreUpdates, Score(Get(payload, "gameId").value,
                                            Get(payload, "homeScore").value,
                                            Get(payload, "awayScore").value)))
        else if t == Str("statusUpdate") then
          (if payload.Undefined? || payload.Null? then ProcessingFailure
           else Deliver(StatusUpdates, GameStatus(Get(payload, "gameId").value,
                                                  Get(payload, "status").value,
                                                  Get(payload, "time").value)))
        else if t == Str("statUpdate") then Deliver(StatUpdates, Stats(payload))
        else if t == Str("newsUpdate") then Deliver(NewsUpdates, News(payload))
        else if t == Str("error") then Deliver(Errors, Failure(payload))
        else Drop
  }

  const KnownTypes: set<JsValue> :=
    {Str("gameUpdate"), Str("scoreUpdate"), Str("statusUpdate"), Str("statUpdate"),
     Str("newsUpdate"), Str("error")}

  /** A frame of each known type reaches its own list and no other. */
  lemma RouteByType(m: map<string, JsValue>, c: Category)
    requires c != ConnectionStatus
    requires "type" in m && m["type"] == Str(TypeName(c))
    requires c != GameUpdates
    requires "payload" in m && m["payload"].Obj?
    ensures Route(Parsed(Obj(m))).Deliver?
    ensures Route(Parsed(Obj(m))).category == c
  {
  }

  /** A game update whose payload is not an array reaches no game subscriber,
      and an array payload reaches them unchanged. */
  lemma RouteGameUpdate(m: map<string, JsValue>)
    requires "type" in m && m["type"] == Str("gameUpdate")
    ensures !(("payload" in m) && m["payload"].Arr?) ==> Route(Parsed(Obj(m))) == Drop
    ensures "payload" in m && m["payload"].Arr? ==>
              Route(Parsed(Obj(m))) == Deliver(GameUpdates, Games(m["payload"]))
  {
  }

  /** A score or status update without a payload object throws inside the
      handler, which reports the processing error. */
  lemma RouteMissingPayload(m: map<string, JsValue>)
    requires "type" in m && m["type"] in {Str("scoreUpdate"), Str("statusUpdate")}
    requires "payload" !in m || m["payload"] == Null
    ensures Route(Parsed(Obj(m))) == ProcessingFailure
  {
  }

  /** The invocations `list.forEach(cb => cb(args))` makes, in list order. */
  function Fanout(cbs: seq<nat>, c: Category, n: Notice): (r: seq<Call>)
    ensures |r| == |cbs|
    ensures forall i :: 0 <= i < |r| ==> r[i] == Call(c, cbs[i], n)
  {
    seq(|cbs|, i requires 0 <= i < |cbs| => Call(c, cbs[i], n))
  }

  class WebSocketService {
    /** Whether the build runs in development mode (`import.meta.env.DEV`). */
    const devMode: bool

    /** The seven callback arrays, by category. */
    var subscribers: map<Category, seq<nat>>
    var reconnectAttempts: nat
    var reconnectTimeout: real
    var status: Status
    /** `this.ws`: None for null, otherwise the ready state of the held socket. */
    var socket: Option<ReadyState>
    /** `this.reconnectTimer`: the handle last returned by `setTimeout`. */
    var reconnectTimer: Option<nat>
    /** Reconnect timeouts that are scheduled and not cleared, with their delays. */
    var pendingTimers: map<nat, real>
    var nextTimerId: nat
    /** Whether the 30-second ping interval is installed. */
    var pingActive: bool
    var lastMessageTime: int
    /** Every callback invocation so far, in order. */
    var calls: seq<Call>
    /** Every frame handed to `WebSocket.send` so far, in order. */
    var sent: seq<Outbound>

    ghost predicate Valid()
      reads this`subscribers, this`reconnectAttempts, this`reconnectTimeout
      reads this`pendingTimers, this`nextTimerId, this`reconnectTimer
    {
      && subscribers.Keys == AllCategories
      && reconnectAttempts <= MaxReconnectAttempts
      && reconnectTimeout == Backoff(reconnectAttempts)
      && (forall id :: id in pendingTimers ==> id < nextTimerId)
      && (reconnectTimer.Some? ==> reconnectTimer.value < nextTimerId)
    }

    ghost function StatusCalls(s: Status): seq<Call>
      reads this`subscribers
      requires ConnectionStatus in subscribers
    {
      Fanout(subscribers[ConnectionStatus], ConnectionStatus, StatusChanged(s))
    }

    ghost function ErrorCalls(msg: string): seq<Call>
      reads this`subscribers
      requires Errors in subscribers
    {
      Fanout(subscribers[Errors], Errors, Failure(Str(msg)))
    }

    constructor (devMode: bool)
      ensures Valid()
      ensures this.devMode == devMode
      ensures forall c :: c in AllCategories ==> subscribers[c] == []
      ensures reconnectAttempts == 0 && reconnectTimeout == InitialReconnectTimeout
      ensures status == Disconnected && socket == None
      ensures reconnectTimer == None && pendingTimers == map[] && !pingActive
      ensures lastMessageTime == 0 && calls == [] && sent == []
    {
      this.devMode := devMode;
      subscribers := map c | c in AllCategories :: [];
      reconnectAttempts := 0;
      reconnectTimeout := InitialReconnectTimeout;
      status := Disconnected;
      socket := None;
      reconnectTimer := None;
      pendingTimers := map[];
      nextTimerId := 0;
      pingActive := false;
      lastMessageTime := 0;
      calls := [];
      sent := [];
    }

    function GetConnectionStatus(): (s: Status)
      reads this
      ensures s == status
    {
      status
    }

    function IsConnected(): (b: bool)
      reads this
      ensures b <==> GetConnectionStatus() == Connected
    {
      status == Connected
    }

    // ---------------------------------------------------------- subscriptions

    /** `subscribeTo*` (and the legacy `subscribe`, which is the game-update
        case): append the callback; a connection-status subscriber is called
        once, at once, with the current status. */
    method Subscribe(c: Category, cb: nat)
      requires Valid()
      modifies this
      ensures Valid()
      ensures subscribers == old(subscribers)[c := old(subscribers)[c] + [cb]]
      ensures calls == old(calls) + (if c == ConnectionStatus then [Call(c, cb, StatusChanged(status))] else [])
      ensures status == old(status) && socket == old(socket) && sent == old(sent)
      ensures reconnectAttempts == old(reconnectAttempts) && reconnectTimeout == old(reconnectTimeout)
      ensures reconnectTimer == old(reconnectTimer) && pendingTimers == old(pendingTimers)
      ensures nextTimerId == old(nextTimerId)
      ensures pingActive == old(pingActive) && lastMessageTime == old(lastMessageTime)
    {
      subscribers := subscribers[c := subscribers[c] + [cb]];
      if c == ConnectionStatus {
        calls := calls + [Call(c, cb, StatusChanged(status))];
      }
    }

    /** The disposer `subscribeTo*` returns: drop every entry equal to cb. */
    method Unsubscribe(c: Category, cb: nat)
      requires Valid()
      modifies this
      ensures Valid()
      ensures subscribers == old(subscribers)[c := Without(old(subscribers)[c], cb)]
      ensures calls == old(calls) && status == old(status) && socket == old(socket) && sent == old(sent)
      ensures reconnectAttempts == old(reconnectAttempts) && reconnectTimeout == old(reconnectTimeout)
      ensures reconnectTimer == old(reconnectTimer) && pendingTimers == old(pendingTimers)
      ensures nextTimerId == old(nextTimerId)
      ensures pingActive == old(pingActive) && lastMessageTime == old(lastMessageTime)
    {
      subscribers := subscribers[c := Without(subscribers[c], cb)];
    }

    // ---------------------------------------------------------- notification

    /** `notify*Callbacks`: call every subscriber of the category, in order. */
    method Notify(c: Category, n: Notice)
      requires Valid()
      modifies this`calls
      ensures calls == old(calls) + Fanout(subscribers[c], c, n)
    {
      calls := calls + Fanout(subscribers[c], c, n);
    }

    /** `notifyGameUpdateCallbacks`: a payload that is not an array reaches nobody. */
    method NotifyGameUpdates(games: JsValue)
      requires Valid()
      modifies this`calls
      ensures calls == old(calls) + (if games.Arr? then Fanout(subscribers[GameUpdates], GameUpdates, Games(games)) else [])
    {
      if !Truthy(games) || !games.Arr? {
        return;
      }
      Notify(GameUpdates, Games(games));
    }

    /** `updateConnectionStatus`: store the status, then tell every status subscriber. */
    method UpdateConnectionStatus(s: Status)
      requires Valid()
      modifies this`status, this`calls
      ensures status == s
      ensures calls == old(calls) + StatusCalls(s)
    {
      status := s;
      Notify(ConnectionStatus, StatusChanged(s));
    }

    // -------------------------------------------------------------- lifecycle

    /** `attemptReconnect`: give up after ten attempts, otherwise grow the delay
        and schedule a reconnect. An earlier handle is overwritten, not cleared. */
    method AttemptReconnect()
      requires Valid()
      modifies this
      ensures Valid()
      ensures old(reconnectAttempts) >= MaxReconnectAttempts ==>
                && reconnectAttempts == old(reconnectAttempts)
                && reconnectTimeout == old(reconnectTimeout)
                && pendingTimers == old(pendingTimers)
                && reconnectTimer == old(reconnectTimer)
                && nextTimerId == old(nextTimerId)
                && calls == old(calls) + ErrorCalls(MaxAttemptsReached)
      ensures old(reconnectAttempts) < MaxReconnectAttempts ==>
                && reconnectAttempts == old(reconnectAttempts) + 1
                && reconnectTimeout == NextTimeout(old(reconnectTimeout))
                && old(nextTimerId) !in old(pendingTimers)
                && reconnectTimer == Some(old(nextTimerId))
                && nextTimerId == old(nextTimerId) + 1
                && pendingTimers == old(pendingTimers)[old(nextTimerId) := reconnectTimeout]
                && calls == old(calls)
      ensures pendingTimers.Keys <= old(pendingTimers).Keys + {old(nextTimerId)}
      ensures subscribers == old(subscribers) && status == old(status) && socket == old(socket)
      ensures sent == old(sent) && pingActive == old(pingActive) && lastMessageTime == old(lastMessageTime)
    {
      if reconnectAttempts >= MaxReconnectAttempts {
        Notify(Errors, Failure(Str(MaxAttemptsReached)));
        return;
      }
      reconnectAttempts := reconnectAttempts + 1;
      reconnectTimeout := NextTimeout(reconnectTimeout);
      var id := nextTimerId;
      nextTimerId := nextTimerId + 1;
      pendingTimers := pendingTimers[id := reconnectTimeout];
      reconnectTimer := Some(id);
    }

    /** The whole state after `connect` runs from the state at `old`, except
        that the pending timeouts and the held socket it starts from are
        `pending0` and `socket0`: the held reconnect timeout is cleared and
        'connecting' reported; then development mode reports 'connected', a
        working constructor leaves a pending socket, and a throwing one
        reports 'error' and the failure and goes through `attemptReconnect`.
        The heartbeat, the subscribers, the sent frames and the clock are
        untouched. */
    twostate predicate ConnectDone(constructorThrows: bool, pending0: map<nat, real>, socket0: Option<ReadyState>)
      reads this
    {
      var held := old(reconnectTimer);
      var cleared := if held.Some? then pending0 - {held.value} else pending0;
      var retries := !devMode && constructorThrows && old(reconnectAttempts) < MaxReconnectAttempts;
      && subscribers == old(subscribers) && sent == old(sent)
      && pingActive == old(pingActive) && lastMessageTime == old(lastMessageTime)
      && ConnectionStatus in subscribers && Errors in subscribers
      && status == (if devMode then Connected else if constructorThrows then Errored else Connecting)
      && socket == (if !devMode && !constructorThrows then Some(Pending) else socket0)
      && calls == (if devMode then old(calls) + StatusCalls(Connecting) + StatusCalls(Connected)
                   else if !constructorThrows then old(calls) + StatusCalls(Connecting)
                   else old(calls) + StatusCalls(Connecting) + StatusCalls(Errored) + ErrorCalls(ConnectFailed)
                        + (if retries then [] else ErrorCalls(MaxAttemptsReached)))
      && (if retries then
            && reconnectAttempts == old(reconnectAttempts) + 1
            && reconnectTimeout == NextTimeout(old(reconnectTimeout))
            && reconnectTimer == Some(old(nextTimerId))
            && nextTimerId == old(nextTimerId) + 1
            && pendingTimers == cleared[old(nextTimerId) := reconnectTimeout]
          else
            && reconnectAttempts == old(reconnectAttempts)
            && reconnectTimeout == old(reconnectTimeout)
            && reconnectTimer == None
            && nextTimerId == old(nextTimerId)
            && pendingTimers == cleared)
    }

    /** `connect`: cancel a pending reconnect, report 'connecting', then either
        simulate (development), or open a socket at the configured or default
        URL. A throwing constructor reports the failure and retries. */
    method Connect(constructorThrows: bool)
      requires Valid()
      modifies this
      ensures Valid()
      ensures ConnectDone(constructorThrows, old(pendingTimers), old(socket))
    {
      CancelReconnectTimer();
      UpdateConnectionStatus(Connecting);
      if devMode {
        UpdateConnectionStatus(Connected);
        return;
      }
      // The URL falls back to a non-empty default, so the "URL is not
      // defined" branch of the source cannot be taken.
      var url := DefaultUrl;
      assert url != "";
      if constructorThrows {
        FailConnection();
      } else {
        socket := Some(Pending);
      }
    }

    /** Clear the reconnect timeout the service holds, if any. */
    method CancelReconnectTimer()
      requires Valid()
      modifies this`pendingTimers, this`reconnectTimer
      ensures Valid()
      ensures reconnectTimer == None
      ensures pendingTimers == if old(reconnectTimer).Some?
                               then old(pendingTimers) - {old(reconnectTimer).value}
                               else old(pendingTimers)
    {
      if reconnectTimer.Some? {
        pendingTimers := pendingTimers - {reconnectTimer.value};
        reconnectTimer := None;
      }
    }

    /** The `catch` of `connect`: report 'error' and the failure, then retry. */
    method FailConnection()
      requires Valid()
      modifies this
      ensures Valid()
      ensures status == Errored && socket == old(socket)
      ensures calls == old(calls) + StatusCalls(Errored) + ErrorCalls(ConnectFailed)
                       + (if old(reconnectAttempts) >= MaxReconnectAttempts
                          then ErrorCalls(MaxAttemptsReached) else [])
      ensures reconnectAttempts == (if old(reconnectAttempts) >= MaxReconnectAttempts
                                    then old(reconnectAttempts) else old(reconnectAttempts) + 1)
      ensures old(reconnectAttempts) >= MaxReconnectAttempts ==>
                && pendingTimers == old(pendingTimers) && reconnectTimer == old(reconnectTimer)
                && reconnectTimeout == old(reconnectTimeout) && nextTimerId == old(nextTimerId)
      ensures old(reconnectAttempts) < MaxReconnectAttempts ==>
                && reconnectTimeout == NextTimeout(old(reconnectTimeout))
                && reconnectTimer == Some(old(nextTimerId)) && nextTimerId == old(nextTimerId) + 1
                && pendingTimers == old(pendingTimers)[old(nextTimerId) := reconnectTimeout]
      ensures subscribers == old(subscribers) && sent == old(sent)
      ensures pingActive == old(pingActive) && lastMessageTime == old(lastMessageTime)
    {
      UpdateConnectionStatus(Errored);
      Notify(Errors, Failure(Str(ConnectFailed)));
      AttemptReconnect();
    }

    /** `onopen`: reset the retry policy, report 'connected', start the
        heartbeat and authenticate. `fromCurrent` says whether the socket that
        opened is the one the service holds. */
    method SocketOpened(now: int, fromCurrent: bool)
      requires Valid()
      modifies this`socket, this`reconnectAttempts, this`reconnectTimeout, this`status, this`calls
      modifies this`lastMessageTime, this`pingActive, this`sent
      ensures Valid()
      ensures reconnectAttempts == 0 && reconnectTimeout == InitialReconnectTimeout
      ensures status == Connected && lastMessageTime == now && pingActive
      ensures socket == (if fromCurrent && old(socket).Some? then Some(Open) else old(socket))
      ensures calls == old(calls) + StatusCalls(Connected)
      ensures sent == old(sent) + (if socket == Some(Open) then [Auth(ClientId, ClientVersion)] else [])
      ensures subscribers == old(subscribers) && reconnectTimer == old(reconnectTimer)
      ensures pendingTimers == old(pendingTimers)
    {
      if fromCurrent && socket.Some? {
        socket := Some(Open);
      }
      reconnectAttempts := 0;
      reconnectTimeout := InitialReconnectTimeout;
      assert Valid();
      UpdateConnectionStatus(Connected);
      lastMessageTime := now;
      SetupPingInterval();
      var _ := SendMessage(Auth(ClientId, ClientVersion));
    }

    /** `onmessage`: note the arrival time first, then route the frame. */
    method SocketMessage(now: int, data: Inbound)
      requires Valid()
      modifies this
      ensures Valid()
      ensures lastMessageTime == now
      ensures calls == old(calls) + (match Route(data)
                                     case Deliver(c, n) => Fanout(subscribers[c], c, n)
                                     case Drop => [])
      ensures subscribers == old(subscribers) && status == old(status) && socket == old(socket)
      ensures sent == old(sent) && pingActive == old(pingActive)
      ensures reconnectAttempts == old(reconnectAttempts) && reconnectTimeout == old(reconnectTimeout)
      ensures reconnectTimer == old(reconnectTimer) && pendingTimers == old(pendingTimers)
      ensures nextTimerId == old(nextTimerId)
    {
      lastMessageTime := now;
      match Route(data)
      case Deliver(c, n) =>
        Notify(c, n);
      case Drop =>
    }

    /** `onclose`: report 'disconnected', stop the heartbeat, try to reconnect.
        The handler of a socket the service no longer holds runs as well. */
    method SocketClosed(fromCurrent: bool)
      requires Valid()
      modifies this
      ensures Valid()
      ensures status == Disconnected && !pingActive
      ensures socket == (if fromCurrent && old(socket).Some? then Some(Closed) else old(socket))
      ensures calls == old(calls) + StatusCalls(Disconnected)
                + (if old(reconnectAttempts) >= MaxReconnectAttempts then ErrorCalls(MaxAttemptsReached) else [])
      ensures old(reconnectAttempts) >= MaxReconnectAttempts ==>
                && reconnectAttempts == old(reconnectAttempts)
                && reconnectTimeout == old(reconnectTimeout)
                && reconnectTimer == old(reconnectTimer)
                && pendingTimers == old(pendingTimers)
                && nextTimerId == old(nextTimerId)
      ensures old(reconnectAttempts) < MaxReconnectAttempts ==>
                && reconnectAttempts == old(reconnectAttempts) + 1
                && reconnectTimeout == NextTimeout(old(reconnectTimeout))
                && reconnectTimer == Some(old(nextTimerId))
                && nextTimerId == old(nextTimerId) + 1
                && pendingTimers == old(pendingTimers)[old(nextTimerId) := reconnectTimeout]
                && pendingTimers[reconnectTimer.value] == Backoff(reconnectAttempts)
      ensures subscribers == old(subscribers) && sent == old(sent)
      ensures lastMessageTime == old(lastMessageTime)
    {
      if fromCurrent && socket.Some? {
        socket := Some(Closed);
      }
      UpdateConnectionStatus(Disconnected);
      CleanupPingInterval();
      AttemptReconnect();
    }

    /** `onerror`: report 'error' and tell the error subscribers. */
    method SocketErrored()
      requires Valid()
      modifies this
      ensures Valid()
      ensures status == Errored
      ensures calls == old(calls) + StatusCalls(Errored) + ErrorCalls(ConnectionError)
      ensures subscribers == old(subscribers) && socket == old(socket) && sent == old(sent)
      ensures pingActive == old(pingActive) && lastMessageTime == old(lastMessageTime)
      ensures reconnectAttempts == old(reconnectAttempts) && reconnectTimeout == old(reconnectTimeout)
      ensures reconnectTimer == old(reconnectTimer) && pendingTimers == old(pendingTimers)
      ensures nextTimerId == old(nextTimerId)
    {
      UpdateConnectionStatus(Errored);
      Notify(Errors, Failure(Str(ConnectionError)));
    }

    /** A scheduled reconnect timeout fires and runs `connect`. */
    method FireReconnectTimer(id: nat, constructorThrows: bool)
      requires Valid()
      requires id in pendingTimers
      modifies this
      ensures Valid()
      ensures id !in pendingTimers
      ensures ConnectDone(constructorThrows, old(pendingTimers) - {id}, old(socket))
    {
      pendingTimers := pendingTimers - {id};
      Connect(constructorThrows);
    }

    method SetupPingInterval()
      requires Valid()
      modifies this`pingActive
      ensures pingActive
    {
      CleanupPingInterval();
      pingActive := true;
    }

    method CleanupPingInterval()
      modifies this`pingActive
      ensures !pingActive
    {
      pingActive := false;
    }

    /** One tick of the ping interval: after more than 45 s of silence,
        reconnect and send nothing; otherwise send exactly one ping. */
    method PingTick(now: int, constructorThrows: bool)
      requires Valid()
      requires pingActive
      modifies this
      ensures Valid()
      ensures now - old(lastMessageTime) > SilenceLimit ==> ConnectDone(constructorThrows, old(pendingTimers), None)
      ensures now - old(lastMessageTime) <= SilenceLimit ==>
                sent == old(sent) + (if old(socket) == Some(Open) then [Ping(now)] else [])
                && socket == old(socket) && calls == old(calls) && status == old(status)
      ensures now - old(lastMessageTime) <= SilenceLimit ==>
                && subscribers == old(subscribers) && reconnectAttempts == old(reconnectAttempts)
                && reconnectTimeout == old(reconnectTimeout) && reconnectTimer == old(reconnectTimer)
                && pendingTimers == old(pendingTimers) && nextTimerId == old(nextTimerId)
                && pingActive && lastMessageTime == old(lastMessageTime)
    {
      if now - lastMessageTime > SilenceLimit {
        Reconnect(constructorThrows);
        return;
      }
      var _ := SendMessage(Ping(now));
    }

    /** `reconnect`: close and drop the held socket, then `connect`. */
    method Reconnect(constructorThrows: bool)
      requires Valid()
      modifies this
      ensures Valid()
      ensures ConnectDone(constructorThrows, old(pendingTimers), None)
    {
      if socket.Some? {
        socket := None;
      }
      Connect(constructorThrows);
    }

    /** `sendMessage`: false unless a socket is held and open. */
    method SendMessage(m: Outbound) returns (ok: bool)
      modifies this`sent
      ensures ok <==> socket == Some(Open)
      ensures sent == if ok then old(sent) + [m] else old(sent)
    {
      if socket != Some(Open) {
        return false;
      }
      sent := sent + [m];
      return true;
    }

    /** `disconnect`: stop the heartbeat, cancel a pending reconnect, drop the
        socket and report 'disconnected'. The dropped socket's own close
        handler is not detached and may still run `SocketClosed(false)`. */
    method Disconnect()
      requires Valid()
      modifies this
      ensures Valid()
      ensures !pingActive && reconnectTimer == None && socket == None
      ensures old(reconnectTimer).Some? ==> pendingTimers == old(pendingTimers) - {old(reconnectTimer).value}
      ensures old(reconnectTimer).None? ==> pendingTimers == old(pendingTimers)
      ensures status == Disconnected
      ensures calls == old(calls) + StatusCalls(Disconnected)
      ensures subscribers == old(subscribers) && sent == old(sent)
      ensures reconnectAttempts == old(reconnectAttempts) && reconnectTimeout == old(reconnectTimeout)
      ensures nextTimerId == old(nextTimerId) && lastMessageTime == old(lastMessageTime)
    {
      CleanupPingInterval();
      if reconnectTimer.Some? {
        pendingTimers := pendingTimers - {reconnectTimer.value};
        reconnectTimer := None;
      }
      if socket.Some? {
        socket := None;
      }
      UpdateConnectionStatus(Disconnected);
    }
  }
}
