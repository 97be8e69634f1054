/**
 * The chat WebSocket client (`WebSocketClient` in the frontend): a small
 * connection state machine with a bounded reconnect budget, a per-type
 * listener registry, inbound frame normalisation and classification, and
 * sends gated on the socket being OPEN.
 *
 * The browser's WebSocket, its timers and the promise returned by `connect`
 * are not modelled; the transport's callbacks are the methods `OnOpen`,
 * `OnMessage`, `OnClose` and `OnError`, called by the environment. Time and
 * the outcome of `JSON.parse` are parameters.
 */
module WebSocket {
  import opened Wrappers
  import opened Text

  // ---------------------------------------------------------------------------
  // Wire and event shapes
  // ---------------------------------------------------------------------------

  /** The `readyState` values of the browser WebSocket interface. */
  datatype ReadyState = CONNECTING | OPEN | CLOSING | CLOSED

  /** The transport object; the client only ever inspects its `readyState`. */
  datatype Socket = Socket(readyState: ReadyState)

  /** A moment, as `Date.now()` (milliseconds) and as `toISOString()`. */
  datatype Clock = Clock(millis: nat, iso: string)

  /**
   * The `data` object of an inbound frame, reduced to what the client looks
   * at: `client_id` ("" when absent or falsy), whether `task` is truthy, and
   * `status` ("" when absent).
   */
  datatype FrameData = FrameData(clientId: string, task: bool, status: string)

  /**
   * A parsed inbound frame. A string field holding "" stands for a field that
   * is absent or falsy: the client's `||` defaulting treats both alike.
   */
  datatype Frame = Frame(
    id: string, role: string, content: string, timestamp: string,
    error: bool, data: Option<FrameData>)

  /** The normalised chat message handed to listeners. */
  datatype ChatMessage = ChatMessage(
    id: string, role: string, content: string, timestamp: string,
    error: bool, data: Option<FrameData>)

  datatype EventType =
    | MessageType | SystemType | ErrorType | TaskUpdateType | ConnectedType | DisconnectedType

  /** The `data` member of a dispatched event. */
  datatype EventData =
    | NoData
    | Payload(frameData: FrameData)
    | Opened(timestamp: string)
    | CloseInfo(code: int, reason: string, timestamp: string)
    | Diagnostic(message: string, timestamp: string)

  datatype Event = Event(eventType: EventType, message: Option<ChatMessage>, data: EventData)

  /** An outbound frame `{type, content, client_id, timestamp}`. */
  datatype Outbound = Outbound(frameType: string, content: string, clientId: string, timestamp: string)

  /** What `getStatus` reports. */
  datatype Status = Connecting | Connected | Disconnected | Closed

  /** A listener callback, identified by the function object registered. */
  type ListenerId = nat

  const ParseFailureMessage := "Failed to parse WebSocket message"
  const ConnectionErrorMessage :=
    "WebSocket connection error: Please ensure the backend server is running on port 8080"
  const NotConnectedMessage := "Cannot send message: WebSocket is not connected"
  const SendFailedMessage := "Failed to send message"
  const DefaultApiUrl := "http://localhost:8080"

  // ---------------------------------------------------------------------------
  // Connection URL
  // ---------------------------------------------------------------------------

  /** The page's `window.location`, when running in a browser. */
  datatype PageLocation = PageLocation(protocol: string, host: string)

  /** `NEXT_PUBLIC_API_URL` ("" when unset), the page location and `NODE_ENV`. */
  datatype UrlEnv = UrlEnv(apiUrl: string, window: Option<PageLocation>, nodeEnv: string)

  /** `url.replace(/^https?:\/\//, '')`. */
  function StripHttpScheme(url: string): (r: string)
    ensures StartsWith(url, "https://") ==> url == "https://" + r
    ensures !StartsWith(url, "https://") && StartsWith(url, "http://") ==> url == "http://" + r
    ensures !StartsWith(url, "https://") && !StartsWith(url, "http://") ==> r == url
  {
    if StartsWith(url, "https://") then url[8..]
    else if StartsWith(url, "http://") then url[7..]
    else url
  }

  /** `determineWebSocketUrl`: server side, browser in development, browser otherwise. */
  function DetermineWebSocketUrl(env: UrlEnv): string {
    var baseUrl := if env.apiUrl != "" then env.apiUrl else DefaultApiUrl;
    match env.window
    case None =>
      var protocol := if StartsWith(baseUrl, "https") then "wss" else "ws";
      protocol + "://" + StripHttpScheme(baseUrl) + "/ws"
    case Some(location) =>
      var protocol := if location.protocol == "https:" then "wss" else "ws";
      if env.nodeEnv == "development" then protocol + "://" + StripHttpScheme(baseUrl) + "/ws"
      else protocol + "://" + location.host + "/ws"
  }

  /**
   * The URL is always a `ws://` or `wss://` URL ending in `/ws`; a browser page
   * served over https gets `wss`, and outside development the page's own host.
   */
  lemma WebSocketUrlShape(env: UrlEnv)
    ensures var u := DetermineWebSocketUrl(env);
      EndsWith(u, "/ws") && (StartsWith(u, "ws://") || StartsWith(u, "wss://"))
    ensures env.window.Some? && env.window.value.protocol == "https:" ==>
      StartsWith(DetermineWebSocketUrl(env), "wss://")
    ensures env.window.Some? && env.window.value.protocol != "https:" ==>
      StartsWith(DetermineWebSocketUrl(env), "ws://")
    ensures env.window.Some? && env.nodeEnv != "development" ==>
      DetermineWebSocketUrl(env) == (if env.window.value.protocol == "https:" then "wss" else "ws")
        + "://" + env.window.value.host + "/ws"
  {
    var u := DetermineWebSocketUrl(env);
    assert u[|u| - 3..] == "/ws";
  }

  // ---------------------------------------------------------------------------
  // Inbound frames
  // ---------------------------------------------------------------------------

  /** The id generated for a frame without one: `msg_<Date.now()>`. */
  function GeneratedId(now: Clock): (id: string)
    ensures StartsWith(id, "msg_") && |id| > 4
    ensures AllDigits(id[4..]) && DigitsValue(id[4..]) == now.millis
  {
    var digits := NatToString(now.millis);
    DigitsValueOfNatToString(now.millis);
    assert ("msg_" + digits)[4..] == digits;
    "msg_" + digits
  }

  /** Builds the chat message for a frame, defaulting every absent field. */
  function Normalize(f: Frame, now: Clock): (m: ChatMessage)
    ensures m.id != "" && m.role != "" && (now.iso != "" ==> m.timestamp != "")
  {
    ChatMessage(
      id := if f.id != "" then f.id else GeneratedId(now),
      role := if f.role != "" then f.role else "system",
      content := f.content,
      timestamp := if f.timestamp != "" then f.timestamp else now.iso,
      error := f.error,
      data := f.data)
  }

  /** A message as a frame again (every field present). */
  function AsFrame(m: ChatMessage): Frame {
    Frame(m.id, m.role, m.content, m.timestamp, m.error, m.data)
  }

  /**
   * Present fields are copied unchanged; an absent id becomes `msg_<now>`, an
   * absent role `system`, an absent timestamp the receipt time; content,
   * error and data are carried over (absent as "", false, undefined).
   */
  lemma NormalizeFields(f: Frame, now: Clock)
    ensures var m := Normalize(f, now);
      && (f.id != "" ==> m.id == f.id) && (f.id == "" ==> m.id == GeneratedId(now))
      && (f.role != "" ==> m.role == f.role) && (f.role == "" ==> m.role == "system")
      && (f.timestamp != "" ==> m.timestamp == f.timestamp)
      && (f.timestamp == "" ==> m.timestamp == now.iso)
      && m.content == f.content && m.error == f.error && m.data == f.data
  {
  }

  /**
   * A frame with every field present normalises to itself, at any receipt
   * time, so normalising a normalised message changes nothing.
   */
  lemma NormalizeRoundTrip(m: ChatMessage, now: Clock)
    requires m.id != "" && m.role != "" && m.timestamp != ""
    ensures Normalize(AsFrame(m), now) == m
  {
  }

  /** `data.task` truthy or `data.status === 'working'`. */
  predicate IsTaskData(d: Option<FrameData>) {
    d.Some? && (d.value.task || d.value.status == "working")
  }

  /** The event type of a normalised message. */
  function Classify(m: ChatMessage): (t: EventType)
    ensures t == ErrorType <==> m.error
    ensures t == MessageType <==> !m.error && m.role != "system"
    ensures t == TaskUpdateType <==> !m.error && m.role == "system" && IsTaskData(m.data)
    ensures t == SystemType <==> !m.error && m.role == "system" && !IsTaskData(m.data)
    ensures t != ConnectedType && t != DisconnectedType
  {
    var byRole :=
      if m.role == "system" then (if IsTaskData(m.data) then TaskUpdateType else SystemType)
      else MessageType;
    if m.error then ErrorType else byRole
  }

  /** Classification of raw frames, as the chat protocol promises it. */
  lemma FrameClassification(f: Frame, now: Clock)
    ensures f.error ==> Classify(Normalize(f, now)) == ErrorType
    ensures !f.error && f.role != "" && f.role != "system" ==>
      Classify(Normalize(f, now)) == MessageType
    ensures !f.error && f.role in {"", "system"} && f.data.Some? && f.data.value.task ==>
      Classify(Normalize(f, now)) == TaskUpdateType
    ensures !f.error && f.role == "" && !IsTaskData(f.data) ==>
      Classify(Normalize(f, now)) == SystemType
  {
  }

  /** The `data` member of the event for a message: `message.data`. */
  function PayloadOf(d: Option<FrameData>): EventData {
    match d
    case Some(x) => Payload(x)
    case None => NoData
  }

  /**
   * The one event the message handler emits for a frame: a parse failure
   * gives an `error` event without message; a frame gives the event of its
   * classified, normalised message.
   */
  function FrameEvent(parsed: Option<Frame>, now: Clock): (e: Event)
    ensures parsed.None? ==> e.eventType == ErrorType && e.message.None?
    ensures parsed.Some? ==> e.message == Some(Normalize(parsed.value, now))
    ensures parsed.Some? ==> e.eventType == Classify(Normalize(parsed.value, now))
  {
    match parsed
    case None => Event(ErrorType, None, Diagnostic(ParseFailureMessage, now.iso))
    case Some(f) =>
      var m := Normalize(f, now);
      Event(Classify(m), Some(m), PayloadOf(m.data))
  }

  /**
   * The session id after a frame: only a frame whose raw role is `system` and
   * whose `data.client_id` is truthy replaces it.
   */
  function ClientIdAfter(current: string, parsed: Option<Frame>): (r: string)
    ensures r != current ==>
      parsed.Some? && parsed.value.role == "system" && parsed.value.data.Some?
      && r == parsed.value.data.value.clientId && r != ""
  {
    match parsed
    case Some(f) =>
      if f.role == "system" && f.data.Some? && f.data.value.clientId != "" then f.data.value.clientId
      else current
    case None => current
  }

  // ---------------------------------------------------------------------------
  // Listener registry and dispatch
  // ---------------------------------------------------------------------------

  type Registry = map<EventType, seq<ListenerId>>

  /** `eventListeners.get(t)`, with a missing entry as the empty list. */
  function ListenersOf(reg: Registry, t: EventType): seq<ListenerId> {
    if t in reg then reg[t] else []
  }

  /** `listeners.indexOf(callback)`: the first position of `id`, or -1. */
  function IndexOfListener(ls: seq<ListenerId>, id: ListenerId): (i: int)
    ensures -1 <= i < |ls|
    ensures i == -1 <==> id !in ls
    ensures i >= 0 ==> ls[i] == id && id !in ls[..i]
    decreases |ls|
  {
    if ls == [] then -1
    else if ls[0] == id then 0
    else
      var j := IndexOfListener(ls[1..], id);
      assert ls[1..][..if j < 0 then 0 else j] == ls[1..if j < 0 then 1 else j + 1];
      if j == -1 then -1 else j + 1
  }

  /** The list after `splice(indexOf(id), 1)` when `id` is present. */
  function RemoveFirst(ls: seq<ListenerId>, id: ListenerId): seq<ListenerId> {
    var i := IndexOfListener(ls, id);
    if i == -1 then ls else ls[..i] + ls[i + 1..]
  }

  /**
   * Removing a listener takes out exactly one occurrence, the first, and keeps
   * the order of the others; an absent listener leaves the list as it was.
   */
  lemma RemoveFirstOccurrence(ls: seq<ListenerId>, id: ListenerId)
    ensures id !in ls ==> RemoveFirst(ls, id) == ls
    ensures id in ls ==> |RemoveFirst(ls, id)| == |ls| - 1
    ensures multiset(RemoveFirst(ls, id)) == multiset(ls) - multiset{id}
    ensures id in ls ==>
      var i := IndexOfListener(ls, id);
      0 <= i < |ls| && ls[i] == id && id !in ls[..i] && RemoveFirst(ls, id) == ls[..i] + ls[i + 1..]
  {
    var i := IndexOfListener(ls, id);
    if i == -1 {
      assert multiset(ls)[id] == 0;
    } else {
      RemoveAtMultiset(ls, i);
    }
  }

  /** Taking out the entry at `i` takes one copy of it out of the multiset. */
  lemma RemoveAtMultiset(ls: seq<ListenerId>, i: nat)
    requires i < |ls|
    ensures multiset(ls[..i] + ls[i + 1..]) == multiset(ls) - multiset{ls[i]}
  {
    assert ls == ls[..i] + [ls[i]] + ls[i + 1..];
  }

  /** One call of each listener of `ls`, in order, with `e`. */
  function Calls(ls: seq<ListenerId>, e: Event): (r: seq<(ListenerId, Event)>)
    ensures |r| == |ls|
    ensures forall i :: 0 <= i < |ls| ==> r[i] == (ls[i], e)
    decreases |ls|
  {
    if ls == [] then [] else Calls(ls[..|ls| - 1], e) + [(ls[|ls| - 1], e)]
  }

  /** Calling one more listener extends the calls by one. */
  lemma CallsSnoc(ls: seq<ListenerId>, i: nat, e: Event)
    requires i < |ls|
    ensures Calls(ls[..i + 1], e) == Calls(ls[..i], e) + [(ls[i], e)]
  {
    assert ls[..i + 1][..i] == ls[..i];
  }

  /**
   * What `emitEvent` delivers: the listeners of the event's own type in
   * registration order, then, for every type but `message`, the `message`
   * listeners in registration order.
   */
  function Dispatch(reg: Registry, e: Event): (r: seq<(ListenerId, Event)>)
    ensures var own := ListenersOf(reg, e.eventType);
      var general := ListenersOf(reg, MessageType);
      && |r| == |own| + (if e.eventType == MessageType then 0 else |general|)
      && (forall i :: 0 <= i < |own| ==> r[i] == (own[i], e))
      && (e.eventType != MessageType ==>
            forall i :: 0 <= i < |general| ==> r[|own| + i] == (general[i], e))
  {
    Calls(ListenersOf(reg, e.eventType), e)
      + (if e.eventType != MessageType then Calls(ListenersOf(reg, MessageType), e) else [])
  }

  /** Each listener registered k times for a list receives the event k times. */
  lemma {:induction false} CallsCount(ls: seq<ListenerId>, e: Event, l: ListenerId)
    ensures multiset(Calls(ls, e))[(l, e)] == multiset(ls)[l]
    decreases |ls|
  {
    if ls != [] {
      var init := ls[..|ls| - 1];
      CallsCount(init, e, l);
      assert ls == init + [ls[|ls| - 1]];
    }
  }

  /**
   * How often a listener receives an event: a `message` event reaches each
   * `message` listener once per registration; any other event reaches the
   * listeners of its own type and, in addition, every `message` listener.
   */
  lemma DispatchCount(reg: Registry, e: Event, l: ListenerId)
    ensures e.eventType == MessageType ==>
      multiset(Dispatch(reg, e))[(l, e)] == multiset(ListenersOf(reg, MessageType))[l]
    ensures e.eventType != MessageType ==>
      multiset(Dispatch(reg, e))[(l, e)]
        == multiset(ListenersOf(reg, e.eventType))[l] + multiset(ListenersOf(reg, MessageType))[l]
  {
    CallsCount(ListenersOf(reg, e.eventType), e, l);
    CallsCount(ListenersOf(reg, MessageType), e, l);
  }

  // ---------------------------------------------------------------------------
  // Reconnect budget
  // ---------------------------------------------------------------------------

  /**
   * The reconnect decision of the close handler: the attempt count after the
   * close, and whether a reconnect is scheduled.
   */
  function CloseStep(autoReconnect: bool, attempts: nat, maxAttempts: int): (r: (nat, bool))
    ensures r.1 <==> autoReconnect && attempts < maxAttempts
    ensures r.0 == (if r.1 then attempts + 1 else attempts)
  {
    if autoReconnect && attempts < maxAttempts then (attempts + 1, true) else (attempts, false)
  }

  /** Attempt count and reconnects scheduled after `n` closes with no open between. */
  function AfterCloses(autoReconnect: bool, attempts: nat, maxAttempts: int, n: nat): (nat, nat)
    decreases n
  {
    if n == 0 then (attempts, 0)
    else
      var step := CloseStep(autoReconnect, attempts, maxAttempts);
      var rest := AfterCloses(autoReconnect, step.0, maxAttempts, n - 1);
      (rest.0, rest.1 + if step.1 then 1 else 0)
  }

  /**
   * With auto-reconnect on, `n` consecutive closes schedule `n` reconnects
   * while the budget lasts and none after it: the count reaches
   * min(attempts + n, max) and never exceeds the budget. With it off, none.
   */
  lemma {:induction false} ConsecutiveCloses(attempts: nat, maxAttempts: int, n: nat)
    requires attempts <= maxAttempts
    ensures var r := AfterCloses(true, attempts, maxAttempts, n);
      r.0 == (if attempts + n <= maxAttempts then attempts + n else maxAttempts)
      && r.1 == r.0 - attempts
    ensures AfterCloses(false, attempts, maxAttempts, n) == (attempts, 0)
    decreases n
  {
    if n > 0 {
      var step := CloseStep(true, attempts, maxAttempts);
      ConsecutiveCloses(step.0, maxAttempts, n - 1);
      ConsecutiveCloses(attempts, maxAttempts, n - 1);
    }
  }

  /** `getStatus`. */
  function StatusOf(socket: Option<Socket>): Status {
    match socket
    case None => Disconnected
    case Some(s) =>
      match s.readyState
      case CONNECTING => Connecting
      case OPEN => Connected
      case CLOSING => Closed
      case CLOSED => Closed
  }

  /** `isConnected`. */
  predicate SocketOpen(socket: Option<Socket>) {
    socket.Some? && socket.value.readyState == OPEN
  }

  /** `isConnected()` holds exactly when `getStatus()` is `connected`. */
  lemma ConnectedIffStatus(socket: Option<Socket>)
    ensures SocketOpen(socket) <==> StatusOf(socket) == Connected
    ensures socket.None? <==> StatusOf(socket) == Disconnected
  {
  }

  /** The frame `sendMessage` serialises. */
  function OutboundFrame(frameType: string, content: string, clientId: string, now: Clock): (o: Outbound)
    ensures o.clientId != "" && (clientId != "" ==> o.clientId == clientId)
  {
    Outbound(frameType, content, if clientId != "" then clientId else "unknown", now.iso)
  }

  // ---------------------------------------------------------------------------
  // The client
  // ---------------------------------------------------------------------------

  class WebSocketClient {
    var socket: Option<Socket>
    const url: string
    var autoReconnect: bool
    const reconnectInterval: int
    var reconnectAttempts: nat
    const maxReconnectAttempts: int
    var listeners: Registry
    /** The session id learned from the server; "" stands for `null`. */
    var clientId: string
    /** Every frame handed to `socket.send`, in order. */
    var sent: seq<Outbound>
    /** Every listener call, in order. */
    ghost var deliveries: seq<(ListenerId, Event)>
    /** How many reconnect timers the close handler has started. */
    ghost var reconnectsScheduled: nat

    /** The attempt count stays within the budget (0 for a negative budget). */
    ghost predicate Valid()
      reads this
    {
      && reconnectAttempts <= (if maxReconnectAttempts < 0 then 0 else maxReconnectAttempts)
      && reconnectAttempts <= reconnectsScheduled
    }

    /** The session id used on outbound frames: `clientId || 'unknown'`. */
    function TaggedClientId(): string
      reads this
    {
      if clientId != "" then clientId else "unknown"
    }

    /**
     * The source's default arguments are `url = ''`, `autoReconnect = true`,
     * `reconnectInterval = 5000` and `maxReconnectAttempts = 5`; here every
     * argument is explicit.
     */
    constructor (url: string, autoReconnect: bool, reconnectInterval: int,
                 maxReconnectAttempts: int, env: UrlEnv)
      ensures Valid()
      ensures this.url == (if url != "" then url else DetermineWebSocketUrl(env))
      ensures this.autoReconnect == autoReconnect && this.reconnectInterval == reconnectInterval
      ensures this.maxReconnectAttempts == maxReconnectAttempts
      ensures socket.None? && reconnectAttempts == 0 && listeners == map[] && clientId == ""
      ensures sent == [] && deliveries == [] && reconnectsScheduled == 0
    {
      this.url := if url != "" then url else DetermineWebSocketUrl(env);
      this.autoReconnect := autoReconnect;
      this.reconnectInterval := reconnectInterval;
      this.reconnectAttempts := 0;
      this.maxReconnectAttempts := maxReconnectAttempts;
      socket := None;
      listeners := map[];
      clientId := "";
      sent := [];
      deliveries := [];
      reconnectsScheduled := 0;
    }

    /** `isConnected()`. */
    function IsConnected(): bool
      reads this
    {
      SocketOpen(socket)
    }

    /** `getStatus()`. */
    function GetStatus(): Status
      reads this
    {
      StatusOf(socket)
    }

    /**
     * `emitEvent`: calls every listener of the event's type, then (for types
     * other than `message`) every `message` listener. A listener that throws
     * is caught and the loop goes on, so each call is logged either way.
     */
    method EmitEvent(e: Event)
      modifies this`deliveries
      ensures deliveries == old(deliveries) + Dispatch(listeners, e)
    {
      var own := ListenersOf(listeners, e.eventType);
      var general := ListenersOf(listeners, MessageType);
      ghost var before := deliveries;
      CallEach(own, e);
      if e.eventType != MessageType {
        CallEach(general, e);
        assert deliveries == before + (Calls(own, e) + Calls(general, e));
      } else {
        assert deliveries == before + (Calls(own, e) + []);
      }
    }

    /** The `forEach` over one listener list: each call is appended to the log. */
    method CallEach(ls: seq<ListenerId>, e: Event)
      modifies this`deliveries
      ensures deliveries == old(deliveries) + Calls(ls, e)
    {
      var i := 0;
      while i < |ls|
        invariant 0 <= i <= |ls|
        invariant deliveries == old(deliveries) + Calls(ls[..i], e)
      {
        CallsSnoc(ls, i, e);
        deliveries := deliveries + [(ls[i], e)];
        i := i + 1;
      }
      assert ls[..i] == ls;
    }

    /**
     * `connect()`: creates a new socket in state CONNECTING. If the WebSocket
     * constructor throws, the promise is rejected and nothing changes.
     */
    method Connect(constructorThrows: bool) returns (started: bool)
      requires Valid()
      modifies this`socket
      ensures Valid()
      ensures started == !constructorThrows
      ensures socket == if started then Some(Socket(CONNECTING)) else old(socket)
    {
      if constructorThrows {
        started := false;
      } else {
        socket := Some(Socket(CONNECTING));
        started := true;
      }
    }

    /**
     * The transport's own `readyState` changes (for instance to CLOSING when
     * the server starts a close handshake); the client code runs nothing.
     */
    method OnReadyStateChange(state: ReadyState)
      requires Valid()
      modifies this`socket
      ensures Valid()
      ensures socket == if old(socket).Some? then Some(Socket(state)) else None
    {
      if socket.Some? {
        socket := Some(Socket(state));
      }
    }

    /** The `open` handler (the socket is OPEN by then): resets the attempts, emits `connected`. */
    method OnOpen(now: Clock)
      requires Valid()
      modifies this`socket, this`reconnectAttempts, this`deliveries
      ensures Valid()
      ensures socket == if old(socket).Some? then Some(Socket(OPEN)) else None
      ensures reconnectAttempts == 0
      ensures deliveries == old(deliveries) + Dispatch(listeners, Event(ConnectedType, None, Opened(now.iso)))
    {
      if socket.Some? {
        socket := Some(Socket(OPEN));
      }
      reconnectAttempts := 0;
      EmitEvent(Event(ConnectedType, None, Opened(now.iso)));
    }

    /**
     * The `message` handler. `parsed` is the outcome of `JSON.parse` on the
     * frame text: None when `JSON.parse` throws or the frame is `null` (reading
     * `data.role` then throws); any other value is a `Frame` holding the
     * fields it has, so a number, string, boolean or array gives a frame with
     * every field absent.
     */
    method OnMessage(parsed: Option<Frame>, now: Clock)
      requires Valid()
      modifies this`clientId, this`deliveries
      ensures Valid()
      ensures clientId == ClientIdAfter(old(clientId), parsed)
      ensures deliveries == old(deliveries) + Dispatch(listeners, FrameEvent(parsed, now))
    {
      match parsed {
        case None =>
          EmitEvent(Event(ErrorType, None, Diagnostic(ParseFailureMessage, now.iso)));
        case Some(f) =>
          if f.role == "system" && f.data.Some? && f.data.value.clientId != "" {
            clientId := f.data.value.clientId;
          }
          var message := Normalize(f, now);
          var eventType := Classify(message);
          EmitEvent(Event(eventType, Some(message), PayloadOf(message.data)));
      }
    }

    /**
     * The `close` handler: emits `disconnected` with the close code and reason
     * (section 7.1.5 and 7.1.6 of RFC 6455), drops the socket, and schedules a
     * reconnect only while auto-reconnect is on and the budget is not spent.
     */
    method OnClose(code: int, reason: string, now: Clock)
      requires Valid()
      modifies this`socket, this`reconnectAttempts, this`reconnectsScheduled, this`deliveries
      ensures Valid()
      ensures socket.None?
      ensures deliveries == old(deliveries)
        + Dispatch(listeners, Event(DisconnectedType, None, CloseInfo(code, reason, now.iso)))
      ensures var step := CloseStep(autoReconnect, old(reconnectAttempts), maxReconnectAttempts);
        reconnectAttempts == step.0
        && reconnectsScheduled == old(reconnectsScheduled) + (if step.1 then 1 else 0)
    {
      EmitEvent(Event(DisconnectedType, None, CloseInfo(code, reason, now.iso)));
      socket := None;
      if autoReconnect && reconnectAttempts < maxReconnectAttempts {
        reconnectAttempts := reconnectAttempts + 1;
        reconnectsScheduled := reconnectsScheduled + 1;
      }
    }

    /** The `error` handler: emits one `error` event and changes no state. */
    method OnError(now: Clock)
      requires Valid()
      modifies this`deliveries
      ensures Valid()
      ensures deliveries == old(deliveries)
        + Dispatch(listeners, Event(ErrorType, None, Diagnostic(ConnectionErrorMessage, now.iso)))
    {
      EmitEvent(Event(ErrorType, None, Diagnostic(ConnectionErrorMessage, now.iso)));
    }

    /**
     * `disconnect()`: with a live socket, turns auto-reconnect off, closes the
     * socket and drops it. Without one it does nothing, so a reconnect that
     * the close handler already scheduled still happens.
     */
    method Disconnect()
      requires Valid()
      modifies this`socket, this`autoReconnect
      ensures Valid()
      ensures socket.None?
      ensures autoReconnect == (old(socket).None? && old(autoReconnect))
    {
      if socket.Some? {
        autoReconnect := false;
        socket := None;
      }
    }

    /**
     * `sendMessage(type, content)`: refuses unless the socket is OPEN; then
     * hands exactly one frame to `send`. `sendThrows` says whether `send`
     * raises; every refusal emits one `error` event.
     */
    method SendMessage(frameType: string, content: string, now: Clock, sendThrows: bool)
      returns (ok: bool)
      requires Valid()
      modifies this`sent, this`deliveries
      ensures Valid()
      ensures ok <==> IsConnected() && !sendThrows
      ensures sent == if ok then old(sent) + [OutboundFrame(frameType, content, clientId, now)]
                      else old(sent)
      ensures !IsConnected() ==>
        (deliveries == old(deliveries)
          + Dispatch(listeners, Event(ErrorType, None, Diagnostic(NotConnectedMessage, now.iso))))
      ensures IsConnected() && sendThrows ==>
        (deliveries == old(deliveries)
          + Dispatch(listeners, Event(ErrorType, None, Diagnostic(SendFailedMessage, now.iso))))
      ensures ok ==> deliveries == old(deliveries)
    {
      if socket.None? || socket.value.readyState != OPEN {
        EmitEvent(Event(ErrorType, None, Diagnostic(NotConnectedMessage, now.iso)));
        return false;
      }
      var frame := Outbound(frameType, content, TaggedClientId(), now.iso);
      if sendThrows {
        EmitEvent(Event(ErrorType, None, Diagnostic(SendFailedMessage, now.iso)));
        return false;
      }
      sent := sent + [frame];
      return true;
    }

    /** `sendTextMessage(content)`: a frame of type `text`. */
    method SendTextMessage(content: string, now: Clock, sendThrows: bool) returns (ok: bool)
      requires Valid()
      modifies this`sent, this`deliveries
      ensures Valid()
      ensures ok <==> IsConnected() && !sendThrows
      ensures sent == if ok then old(sent) + [OutboundFrame("text", content, clientId, now)]
                      else old(sent)
      ensures !IsConnected() ==>
        (deliveries == old(deliveries)
          + Dispatch(listeners, Event(ErrorType, None, Diagnostic(NotConnectedMessage, now.iso))))
      ensures IsConnected() && sendThrows ==>
        (deliveries == old(deliveries)
          + Dispatch(listeners, Event(ErrorType, None, Diagnostic(SendFailedMessage, now.iso))))
      ensures ok ==> deliveries == old(deliveries)
    {
      ok := SendMessage("text", content, now, sendThrows);
    }

    /** `sendCommand(command)`: a frame of type `command`. */
    method SendCommand(command: string, now: Clock, sendThrows: bool) returns (ok: bool)
      requires Valid()
      modifies this`sent, this`deliveries
      ensures Valid()
      ensures ok <==> IsConnected() && !sendThrows
      ensures sent == if ok then old(sent) + [OutboundFrame("command", command, clientId, now)]
                      else old(sent)
      ensures !IsConnected() ==>
        (deliveries == old(deliveries)
          + Dispatch(listeners, Event(ErrorType, None, Diagnostic(NotConnectedMessage, now.iso))))
      ensures IsConnected() && sendThrows ==>
        (deliveries == old(deliveries)
          + Dispatch(listeners, Event(ErrorType, None, Diagnostic(SendFailedMessage, now.iso))))
      ensures ok ==> deliveries == old(deliveries)
    {
      ok := SendMessage("command", command, now, sendThrows);
    }

    /** `requestTaskStatus(taskId)`: a frame of type `task_status` carrying the id. */
    method RequestTaskStatus(taskId: string, now: Clock, sendThrows: bool) returns (ok: bool)
      requires Valid()
      modifies this`sent, this`deliveries
      ensures Valid()
      ensures ok <==> IsConnected() && !sendThrows
      ensures sent == if ok then old(sent) + [OutboundFrame("task_status", taskId, clientId, now)]
                      else old(sent)
      ensures !IsConnected() ==>
        (deliveries == old(deliveries)
          + Dispatch(listeners, Event(ErrorType, None, Diagnostic(NotConnectedMessage, now.iso))))
      ensures IsConnected() && sendThrows ==>
        (deliveries == old(deliveries)
          + Dispatch(listeners, Event(ErrorType, None, Diagnostic(SendFailedMessage, now.iso))))
      ensures ok ==> deliveries == old(deliveries)
    {
      ok := SendMessage("task_status", taskId, now, sendThrows);
    }

    /** `addEventListener(t, callback)`: appends, without removing duplicates. */
    method AddEventListener(t: EventType, id: ListenerId)
      requires Valid()
      modifies this`listeners
      ensures Valid()
      ensures listeners == old(listeners)[t := ListenersOf(old(listeners), t) + [id]]
    {
      var current := if t in listeners then listeners[t] else [];
      listeners := listeners[t := current + [id]];
    }

    /**
     * `removeEventListener(t, callback)`: splices out the first occurrence;
     * other types' lists and a list without the callback stay as they are.
     */
    method RemoveEventListener(t: EventType, id: ListenerId)
      requires Valid()
      modifies this`listeners
      ensures Valid()
      ensures t in old(listeners) ==> listeners == old(listeners)[t := RemoveFirst(old(listeners)[t], id)]
      ensures t !in old(listeners) ==> listeners == old(listeners)
    {
      if t in listeners {
        var current := listeners[t];
        var index := IndexOfListener(current, id);
        if index != -1 {
          listeners := listeners[t := current[..index] + current[index + 1..]];
        }
      }
    }
  }
}
