/**
 * The client side of the relay, as injected into the Cursor window
 * (inject.js): the reconnecting WebSocket channel `WSManager`, the
 * `AIResponseListener` that forwards chat messages found in the page at most
 * once per message id, and the two string tests it applies to an element.
 *
 * The WebSocket, the DOM and the timers are events: each handler of the
 * source is a method, and each method is specified by a pure transition on
 * `Link`, the manager's whole state, whose properties are the lemmas below.
 */
module Channel {
  import opened Options
  import opened Text
  import opened Seqs

  const MaxReconnectAttempts: nat := 5

  /** `WebSocket.readyState`. */
  datatype ReadyState = CONNECTING | OPEN | CLOSING | CLOSED

  datatype Role = User | Ai

  /** A message id: an `id` or `data-message-index` attribute, or the `Date.now() + Math.random()` fallback. */
  datatype MessageId = Attr(name: string) | Generated(stamp: int)

  /** The fields of `parseMessage`'s result the model keeps. */
  datatype ChatMessage = ChatMessage(id: MessageId, content: string, role: Role)

  /** The frames the client hands to `send`. */
  datatype Outgoing = Ping | Pong | CursorMessage(data: ChatMessage)

  /**
   * A `message` event after `JSON.parse`: its `type` and its `data.message`
   * (`None` when `data` or `data.message` is missing), or a payload whose
   * parsing or dispatch threw.
   */
  datatype Inbound = Frame(tag: string, message: Option<string>) | Unparseable

  // ---------------------------------------------------------------------------
  // The manager's state and its transitions
  // ---------------------------------------------------------------------------

  /**
   * The state `WSManager` works on: the global `ws` (`None` while null), the
   * globals `isConnected`, `reconnectAttempts` and `heartbeatTimer`
   * (`heartbeat` is true while it is set), the reconnect timeouts scheduled
   * and not yet fired, `messageQueue`, every frame handed to `ws.send`, and
   * every text handed to `sendToCursor`.
   */
  datatype Link = Link(socket: Option<ReadyState>, connected: bool, attempts: nat, heartbeat: bool,
                       pending: nat, queue: seq<Outgoing>, transmitted: seq<Outgoing>, toCursor: seq<string>)

  /** The state before the constructor runs. */
  const Initial := Link(None, false, 0, false, 0, [], [], [])

  /** Everything `send` has accepted, in order: what went out, then what waits. */
  function Sent(l: Link): seq<Outgoing> {
    l.transmitted + l.queue
  }

  /**
   * What every handler and the browser keep: the attempt cap, and nothing is
   * queued while `send` would transmit. A connected manager may still hold a
   * CONNECTING or CLOSING socket and a non-empty queue.
   */
  predicate Inv(l: Link) {
    && l.attempts <= MaxReconnectAttempts
    && (l.connected && l.socket == Some(OPEN) ==> l.queue == [])
  }

  /** `scheduleReconnect`: counts an attempt and sets a timer only below the cap. */
  function ScheduleStep(l: Link): Link {
    if l.attempts < MaxReconnectAttempts then l.(attempts := l.attempts + 1, pending := l.pending + 1) else l
  }

  /** `connect`: nothing when the socket is OPEN; a constructor that throws schedules a reconnect. */
  function ConnectStep(l: Link, throws: bool): Link {
    if l.socket == Some(OPEN) then l
    else if throws then ScheduleStep(l)
    else l.(socket := Some(CONNECTING))
  }

  /** A reconnect timeout fires and calls `connect`. */
  function TimerStep(l: Link, throws: bool): Link
    requires l.pending > 0
  {
    ConnectStep(l.(pending := l.pending - 1), throws)
  }

  /** `send`: straight to the socket when connected and OPEN, otherwise onto the end of the queue. */
  function SendStep(l: Link, m: Outgoing): (r: Link)
    ensures Inv(l) ==> Inv(r) && Sent(r) == Sent(l) + [m]
  {
    assert (l.transmitted + l.queue) + [m] == l.transmitted + (l.queue + [m]);
    if l.connected && l.socket == Some(OPEN) then l.(transmitted := l.transmitted + [m])
    else l.(queue := l.queue + [m])
  }

  /**
   * `flushMessageQueue`: `shift` then `send` until the queue is empty, which
   * transmits the whole queue in order. The source calls it only once
   * connected; see `FlushStallsWhenDisconnected` for why it must be.
   */
  function FlushStep(l: Link): (r: Link)
    requires l.connected && l.socket == Some(OPEN)
    ensures r == l.(transmitted := l.transmitted + l.queue, queue := [])
    decreases |l.queue|
  {
    if l.queue == [] then l
    else
      var next := SendStep(l.(queue := l.queue[1..]), l.queue[0]);
      assert next.transmitted + next.queue == l.transmitted + l.queue by {
        assert [l.queue[0]] + l.queue[1..] == l.queue;
      }
      FlushStep(next)
  }

  /** `onopen`: connected, attempts reset, heartbeat (re)started, queue flushed. */
  function OpenStep(l: Link): Link
    requires l.socket == Some(CONNECTING)
  {
    FlushStep(l.(socket := Some(OPEN), connected := true, attempts := 0, heartbeat := true))
  }

  /** `onmessage` and `handleMessage`. */
  function ReceiveStep(l: Link, frame: Inbound): Link {
    match frame
    case Unparseable => l
    case Frame(tag, message) =>
      if tag == "ping" then SendStep(l, Pong)
      else if (tag == "ai_chat" || tag == "web_message") && message.Some? && message.value != "" then
        l.(toCursor := l.toCursor + [message.value])
      else l
  }

  /** `onclose`, which fires once the socket is CLOSED: disconnected, heartbeat stopped, a reconnect scheduled. */
  function CloseStep(l: Link): Link {
    ScheduleStep(l.(socket := Some(CLOSED), connected := false, heartbeat := false))
  }

  /**
   * The browser starts the closing handshake of an OPEN socket (the server
   * closed it, say): `readyState` becomes CLOSING at once, and `onclose`
   * fires only in a later task, so `isConnected` stays as it was.
   */
  function ClosingStep(l: Link): Link {
    if l.socket == Some(OPEN) then l.(socket := Some(CLOSING)) else l
  }

  /** `onerror`: only the flag is cleared. */
  function ErrorStep(l: Link): Link {
    l.(connected := false)
  }

  /** One heartbeat interval: a `ping` only while connected. */
  function BeatStep(l: Link): Link {
    if l.connected then SendStep(l, Ping) else l
  }

  /** `send` called on each of `ms` in turn. */
  function SendAll(l: Link, ms: seq<Outgoing>): (r: Link)
    ensures Inv(l) ==> Inv(r) && Sent(r) == Sent(l) + ms
    ensures r.(transmitted := l.transmitted, queue := l.queue) == l
  {
    if ms == [] then l
    else
      var prev := SendAll(l, ms[..|ms| - 1]);
      assert ms == ms[..|ms| - 1] + [ms[|ms| - 1]];
      SendStep(prev, ms[|ms| - 1])
  }

  /** `scheduleReconnect` called `k` times with no successful open in between. */
  function ScheduleTimes(l: Link, k: nat): Link {
    if k == 0 then l else ScheduleStep(ScheduleTimes(l, k - 1))
  }

  function Min(a: nat, b: nat): nat {
    if a <= b then a else b
  }

  // ---------------------------------------------------------------------------
  // Properties of the transitions
  // ---------------------------------------------------------------------------

  /** Every handler keeps `Inv`. */
  lemma StepsKeepInv(l: Link, m: Outgoing, frame: Inbound, throws: bool)
    requires Inv(l)
    ensures Inv(ScheduleStep(l)) && Inv(ConnectStep(l, throws)) && Inv(SendStep(l, m))
    ensures Inv(ReceiveStep(l, frame)) && Inv(CloseStep(l)) && Inv(ErrorStep(l)) && Inv(BeatStep(l))
    ensures Inv(ClosingStep(l))
    ensures l.pending > 0 ==> Inv(TimerStep(l, throws))
    ensures l.socket == Some(CONNECTING) ==> Inv(OpenStep(l))
  {
  }

  /** `send` transmits at once exactly when connected and OPEN, and queues otherwise. */
  lemma SendTransmitsIffConnected(l: Link, m: Outgoing)
    ensures SendStep(l, m).transmitted == l.transmitted + [m] <==> l.connected && l.socket == Some(OPEN)
    ensures SendStep(l, m).queue == l.queue + [m] <==> !(l.connected && l.socket == Some(OPEN))
    ensures SendStep(l, m).toCursor == l.toCursor
  {
    if l.connected && l.socket == Some(OPEN) {
      assert |SendStep(l, m).queue| == |l.queue|;
    } else {
      assert |SendStep(l, m).transmitted| == |l.transmitted|;
    }
  }

  /**
   * On open the manager is connected with attempts reset and the heartbeat
   * running, and every queued frame is transmitted in the order it was queued.
   */
  lemma OpenFlushesQueue(l: Link)
    requires Inv(l) && l.socket == Some(CONNECTING)
    ensures var r := OpenStep(l);
            && r.connected && r.socket == Some(OPEN) && r.attempts == 0 && r.heartbeat
            && r.transmitted == l.transmitted + l.queue && r.queue == []
            && Sent(r) == Sent(l) && r.pending == l.pending && r.toCursor == l.toCursor
  {
  }

  /**
   * The `while`/`shift` loop only ends because `send` transmits: without a
   * connection one round puts the head back at the tail, so the queue never
   * gets shorter.
   */
  lemma FlushStallsWhenDisconnected(l: Link)
    requires !(l.connected && l.socket == Some(OPEN)) && l.queue != []
    ensures var next := SendStep(l.(queue := l.queue[1..]), l.queue[0]);
            next.queue == l.queue[1..] + [l.queue[0]] && |next.queue| == |l.queue|
  {
  }

  /**
   * `connect` leaves an OPEN socket, and everything else, as it was. It
   * never sends, drops or reorders a frame; it spends an attempt
   * and sets a timer exactly when construction throws below the cap; and a
   * socket it constructs, once open, leaves the manager connected with the
   * attempts reset and everything queued transmitted in order.
   */
  lemma ConnectOutcomes(l: Link, throws: bool)
    requires Inv(l)
    ensures l.socket == Some(OPEN) ==> ConnectStep(l, throws) == l
    ensures var r := ConnectStep(l, throws);
            && Sent(r) == Sent(l) && r.transmitted == l.transmitted && r.toCursor == l.toCursor
            && r.connected == l.connected && r.heartbeat == l.heartbeat
    ensures var spent := l.socket != Some(OPEN) && throws && l.attempts < MaxReconnectAttempts;
            && ConnectStep(l, throws).attempts == l.attempts + (if spent then 1 else 0)
            && ConnectStep(l, throws).pending == l.pending + (if spent then 1 else 0)
    ensures l.socket != Some(OPEN) && !throws ==>
              var r := OpenStep(ConnectStep(l, throws));
              && r.connected && r.socket == Some(OPEN) && r.attempts == 0 && r.heartbeat
              && r.queue == [] && r.transmitted == l.transmitted + l.queue && r.pending == l.pending
  {
  }

  /**
   * A frame sent while the socket is CLOSING but `onclose` has not run yet
   * is queued, not transmitted; it goes out, after everything transmitted
   * before it, once a reconnect timer has opened a new socket.
   */
  lemma {:induction false} ClosingWindowDefersSends(l: Link, m: Outgoing)
    requires Inv(l) && l.connected && l.socket == Some(OPEN) && l.attempts < MaxReconnectAttempts
    ensures var c := SendStep(ClosingStep(l), m);
            && c.connected && c.socket == Some(CLOSING)
            && c.transmitted == l.transmitted && c.queue == [m]
    ensures var c := SendStep(ClosingStep(l), m);
            var closed := CloseStep(c);
            && closed.pending > 0
            && OpenStep(TimerStep(closed, false)).transmitted == l.transmitted + [m]
            && OpenStep(TimerStep(closed, false)).queue == []
  {
    var c := SendStep(ClosingStep(l), m);
    assert l.queue == [];
    assert c.queue == [] + [m];
  }

  /**
   * `k` reconnects scheduled in a row raise the attempt count to at most the
   * cap and set `min(k, cap - attempts)` timers; at the cap nothing more is
   * scheduled.
   */
  lemma {:induction false} ReconnectBudget(l: Link, k: nat)
    requires l.attempts <= MaxReconnectAttempts
    ensures var r := ScheduleTimes(l, k);
            && r.attempts == Min(l.attempts + k, MaxReconnectAttempts)
            && r.pending == l.pending + Min(k, MaxReconnectAttempts - l.attempts)
            && r.(attempts := l.attempts, pending := l.pending) == l
    ensures l.attempts == MaxReconnectAttempts ==> ScheduleStep(l) == l
  {
    if k > 0 {
      ReconnectBudget(l, k - 1);
    }
  }

  /** Close clears the flag, stops the heartbeat and schedules a reconnect below the cap; error only clears the flag. */
  lemma CloseAndError(l: Link)
    ensures var r := CloseStep(l);
            && !r.connected && !r.heartbeat && r.socket == Some(CLOSED) && Sent(r) == Sent(l)
            && (r.pending == l.pending + 1 <==> l.attempts < MaxReconnectAttempts)
    ensures ErrorStep(l) == l.(connected := false)
  {
  }

  /** A heartbeat tick sends exactly one `ping` while connected and nothing otherwise. */
  lemma HeartbeatPingsOnlyWhenConnected(l: Link)
    requires Inv(l)
    ensures Sent(BeatStep(l)) == Sent(l) + (if l.connected then [Ping] else [])
    ensures BeatStep(l).toCursor == l.toCursor
  {
    if !l.connected { assert Sent(l) + [] == Sent(l); }
  }

  /**
   * A `ping` is answered with exactly one `pong`; nothing else sends
   * anything. Only `ai_chat` and `web_message` with a non-empty text reach
   * the Cursor input, carrying that text.
   */
  lemma {:induction false} ReceiveEffects(l: Link, frame: Inbound)
    requires Inv(l)
    ensures Sent(ReceiveStep(l, frame)) == Sent(l) + (if frame.Frame? && frame.tag == "ping" then [Pong] else [])
    ensures ReceiveStep(l, frame).toCursor != l.toCursor
            <==> frame.Frame? && (frame.tag == "ai_chat" || frame.tag == "web_message")
                 && frame.message.Some? && frame.message.value != ""
    ensures ReceiveStep(l, frame).toCursor != l.toCursor ==>
              ReceiveStep(l, frame).toCursor == l.toCursor + [frame.message.value]
  {
    if !(frame.Frame? && frame.tag == "ping") {
      assert Sent(l) + [] == Sent(l);
      if frame.Frame? && (frame.tag == "ai_chat" || frame.tag == "web_message")
         && frame.message.Some? && frame.message.value != "" {
        assert |ReceiveStep(l, frame).toCursor| == |l.toCursor| + 1;
      }
    }
  }

  // ---------------------------------------------------------------------------
  // The manager object
  // ---------------------------------------------------------------------------

  /** `WSManager` together with the module globals it drives. */
  class WSManager {
    var socket: Option<ReadyState>
    var isConnected: bool
    var reconnectAttempts: nat
    var heartbeatRunning: bool
    var pendingReconnects: nat
    var messageQueue: seq<Outgoing>
    var transmitted: seq<Outgoing>
    var toCursor: seq<string>

    function Model(): Link
      reads this
    {
      Link(socket, isConnected, reconnectAttempts, heartbeatRunning, pendingReconnects,
           messageQueue, transmitted, toCursor)
    }

    ghost predicate Valid()
      reads this
    {
      Inv(Model())
    }

    /** `new WSManager()`: an empty queue, then `connect`. */
    constructor (throws: bool)
      ensures Valid()
      ensures Model() == ConnectStep(Initial, throws)
    {
      socket := None;
      isConnected := false;
      reconnectAttempts := 0;
      heartbeatRunning := false;
      pendingReconnects := 0;
      messageQueue := [];
      transmitted := [];
      toCursor := [];
      new;
      Connect(throws);
    }

    method Connect(throws: bool)
      requires Valid()
      modifies this
      ensures Valid()
      ensures Model() == ConnectStep(old(Model()), throws)
    {
      if socket == Some(OPEN) {
        return;
      }
      if throws {
        ScheduleReconnect();
      } else {
        socket := Some(CONNECTING);
      }
    }

    method ScheduleReconnect()
      requires Valid()
      modifies this
      ensures Valid()
      ensures Model() == ScheduleStep(old(Model()))
    {
      if reconnectAttempts < MaxReconnectAttempts {
        reconnectAttempts := reconnectAttempts + 1;
        pendingReconnects := pendingReconnects + 1;
      }
    }

    /** The `setTimeout` callback of `scheduleReconnect`. */
    method ReconnectTimerFires(throws: bool)
      requires Valid() && pendingReconnects > 0
      modifies this
      ensures Valid()
      ensures Model() == TimerStep(old(Model()), throws)
    {
      pendingReconnects := pendingReconnects - 1;
      Connect(throws);
    }

    method Send(m: Outgoing)
      modifies this
      ensures Model() == SendStep(old(Model()), m)
    {
      if isConnected && socket == Some(OPEN) {
        transmitted := transmitted + [m];
      } else {
        messageQueue := messageQueue + [m];
      }
    }

    method FlushMessageQueue()
      requires isConnected && socket == Some(OPEN)
      modifies this
      ensures Model() == FlushStep(old(Model()))
    {
      while messageQueue != []
        invariant isConnected && socket == Some(OPEN)
        invariant FlushStep(Model()) == FlushStep(old(Model()))
        decreases |messageQueue|
      {
        var message := messageQueue[0];
        messageQueue := messageQueue[1..];
        Send(message);
      }
    }

    method StartHeartbeat()
      modifies this
      ensures Model() == old(Model()).(heartbeat := true)
    {
      StopHeartbeat();
      heartbeatRunning := true;
    }

    method StopHeartbeat()
      modifies this
      ensures Model() == old(Model()).(heartbeat := false)
    {
      heartbeatRunning := false;
    }

    /** `ws.onopen`, which fires on a CONNECTING socket as it becomes OPEN. */
    method OnOpen()
      requires Valid() && socket == Some(CONNECTING)
      modifies this
      ensures Valid()
      ensures Model() == OpenStep(old(Model()))
    {
      socket := Some(OPEN);
      isConnected := true;
      reconnectAttempts := 0;
      StartHeartbeat();
      FlushMessageQueue();
    }

    /** `ws.onmessage`. */
    method OnMessage(frame: Inbound)
      requires Valid()
      modifies this
      ensures Valid()
      ensures Model() == ReceiveStep(old(Model()), frame)
    {
      if frame.Unparseable? {
        return;
      }
      if frame.tag == "ping" {
        Send(Pong);
      } else if frame.tag == "ai_chat" || frame.tag == "web_message" {
        if frame.message.Some? && frame.message.value != "" {
          toCursor := toCursor + [frame.message.value];
        }
      }
    }

    /**
     * The browser starts closing an open socket: `readyState` becomes CLOSING while
     * `isConnected` stays as it was until `onclose` runs.
     */
    method OnClosing()
      requires Valid()
      modifies this
      ensures Valid()
      ensures Model() == ClosingStep(old(Model()))
    {
      if socket == Some(OPEN) {
        socket := Some(CLOSING);
      }
    }

    /** `ws.onclose`, which fires once the socket is CLOSED. */
    method OnClose()
      requires Valid()
      modifies this
      ensures Valid()
      ensures Model() == CloseStep(old(Model()))
    {
      socket := Some(CLOSED);
      isConnected := false;
      StopHeartbeat();
      ScheduleReconnect();
    }

    /** `ws.onerror`. */
    method OnError()
      requires Valid()
      modifies this
      ensures Valid()
      ensures Model() == ErrorStep(old(Model()))
    {
      isConnected := false;
    }

    /** The `setInterval` callback of `startHeartbeat`. */
    method HeartbeatTick()
      requires Valid() && heartbeatRunning
      modifies this
      ensures Valid()
      ensures Model() == BeatStep(old(Model()))
    {
      if isConnected {
        Send(Ping);
      }
    }
  }

  // ---------------------------------------------------------------------------
  // The string tests on an element
  // ---------------------------------------------------------------------------

  /** The parts of a DOM element the listener reads; `className` and `innerHTML` already default to `''`. */
  datatype Element = Element(textContent: string, innerText: string, className: string, innerHTML: string,
                             alignRight: bool, id: string, messageIndex: Option<string>)

  /** `element.textContent || element.innerText` */
  function TextOf(el: Element): string {
    if el.textContent != "" then el.textContent else el.innerText
  }

  const LoadOlderMarker := "Load older messages"

  /** `isValidMessage`, on the element's text; `length` counts UTF-16 code units. */
  predicate IsValidMessage(text: string) {
    text != "" && Utf16Length(Trim(text)) > 5 && !Contains(text, LoadOlderMarker)
  }

  /**
   * A text of at most two characters once trimmed is never a message, one of
   * six or more without the marker always is, and one with the marker never is.
   */
  lemma MessageLengthBounds(text: string)
    ensures |Trim(text)| <= 2 ==> !IsValidMessage(text)
    ensures |Trim(text)| > 5 && !Contains(text, LoadOlderMarker) ==> IsValidMessage(text)
    ensures Contains(text, LoadOlderMarker) ==> !IsValidMessage(text)
  {
  }

  /**
   * Three or more characters outside the Basic Multilingual Plane (three emoji, say) make a
   * message although they are fewer than six characters: each counts as two code units.
   */
  lemma AstralTextIsAMessage(text: string)
    requires 3 <= |text| < |LoadOlderMarker|
    requires forall i :: 0 <= i < |text| ==> text[i] > '\U{FFFF}'
    ensures IsValidMessage(text)
  {
    TrimUnframed(text);
    Utf16LengthAstral(text);
  }

  /** Whitespace around the text never changes whether it counts as a message. */
  lemma ValidIgnoresPadding(p: string, text: string, q: string)
    requires AllWhitespace(p) && AllWhitespace(q)
    ensures IsValidMessage(p + text + q) <==> IsValidMessage(text)
  {
    var padded := p + text + q;
    TrimIgnoresPadding(p, text, q);
    assert |Trim(padded)| == |Trim(text)|;
    assert |Trim(text)| <= |text| && |Trim(padded)| <= |padded|;
    MarkerIsFramed();
    ContainsIgnoresPadding(p, text, q, LoadOlderMarker);
  }

  lemma MarkerIsFramed()
    ensures LoadOlderMarker != [] && !IsJsWhitespace(LoadOlderMarker[0])
    ensures !IsJsWhitespace(LoadOlderMarker[|LoadOlderMarker| - 1])
  {
  }

  /** `detectMessageType`. */
  function DetectMessageType(el: Element): Role {
    if Contains(el.className, "user") || Contains(el.className, "human")
       || Contains(el.innerHTML, "user-message") || el.alignRight then User
    else if Contains(el.className, "ai") || Contains(el.className, "assistant") || Contains(el.className, "bot")
            || Contains(el.innerHTML, "ai-message") || Contains(el.innerHTML, "assistant-message") then Ai
    else if Contains(el.textContent, "\U{6211}\U{662F}") || Contains(el.textContent, "\U{6211}\U{53EF}\U{4EE5}")
            || Contains(el.textContent, "\U{6839}\U{636E}") then Ai
    else Ai
  }

  /** `user` exactly for a user marker in the class or markup, or right alignment; `ai` for everything else. */
  lemma DetectUserIff(el: Element)
    ensures DetectMessageType(el) == User
            <==> Contains(el.className, "user") || Contains(el.className, "human")
                 || Contains(el.innerHTML, "user-message") || el.alignRight
  {
  }

  /** The text heuristics never decide anything: the role does not depend on the element's text. */
  lemma DetectIgnoresText(el: Element, textContent: string, innerText: string)
    ensures DetectMessageType(el.(textContent := textContent, innerText := innerText)) == DetectMessageType(el)
  {
  }

  /** `element.id || element.dataset.messageIndex || Date.now() + Math.random()`, with the fallback as `stamp`. */
  function MessageIdOf(el: Element, stamp: int): MessageId {
    if el.id != "" then Attr(el.id)
    else if el.messageIndex.Some? && el.messageIndex.value != "" then Attr(el.messageIndex.value)
    else Generated(stamp)
  }

  /** `parseMessage` */
  function ParseMessage(el: Element, stamp: int): ChatMessage {
    ChatMessage(MessageIdOf(el, stamp), Trim(TextOf(el)), DetectMessageType(el))
  }

  /** `parseMessage` over a list of elements, with one fallback stamp each. */
  function ParseAll(els: seq<Element>, stamps: seq<int>): (ms: seq<ChatMessage>)
    requires |stamps| == |els|
    ensures |ms| == |els|
    ensures forall i :: 0 <= i < |els| ==> ms[i] == ParseMessage(els[i], stamps[i])
  {
    seq(|els|, i requires 0 <= i < |els| => ParseMessage(els[i], stamps[i]))
  }

  // ---------------------------------------------------------------------------
  // The listener's deduplication
  // ---------------------------------------------------------------------------

  function Ids(ms: seq<ChatMessage>): set<MessageId> {
    set m | m in ms :: m.id
  }

  predicate DistinctIds(ms: seq<ChatMessage>) {
    forall i, j :: 0 <= i < j < |ms| ==> ms[i].id != ms[j].id
  }

  /**
   * The `has`/`add`/`sendMessage` step applied to `ms` in order, starting from
   * the processed ids `seen`: the messages forwarded and the processed ids
   * after.
   */
  function Scan(ms: seq<ChatMessage>, seen: set<MessageId>): (seq<ChatMessage>, set<MessageId>) {
    if ms == [] then ([], seen)
    else
      var prev := Scan(ms[..|ms| - 1], seen);
      var m := ms[|ms| - 1];
      if m.id in prev.1 then prev else (prev.0 + [m], prev.1 + {m.id})
  }

  /**
   * What a scan promises: the processed ids grow by exactly the forwarded
   * ones; forwarded messages have distinct ids, come from `ms` and none was
   * already processed; every message's id ends up processed.
   */
  lemma {:induction false} ScanForwardsUnseenOnce(ms: seq<ChatMessage>, seen: set<MessageId>)
    ensures var r := Scan(ms, seen);
            && r.1 == seen + Ids(r.0)
            && DistinctIds(r.0)
            && (forall m :: m in r.0 ==> m in ms && m.id !in seen)
            && (forall m :: m in ms ==> m.id in r.1)
    decreases |ms|
  {
    if ms != [] {
      var p, m := ms[..|ms| - 1], ms[|ms| - 1];
      ScanForwardsUnseenOnce(p, seen);
      assert ms == p + [m];
      var prev := Scan(p, seen);
      if m.id !in prev.1 {
        assert Ids(prev.0 + [m]) == Ids(prev.0) + {m.id};
        forall i | 0 <= i < |prev.0|
          ensures prev.0[i].id != m.id
        {
          assert prev.0[i] in prev.0;
        }
      }
    }
  }

  /** Scanning one more message: it is forwarded exactly when its id is not processed yet. */
  lemma ScanSnoc(ms: seq<ChatMessage>, m: ChatMessage, seen: set<MessageId>)
    ensures var p := Scan(ms, seen);
            Scan(ms + [m], seen) == if m.id in p.1 then p else (p.0 + [m], p.1 + {m.id})
  {
    assert (ms + [m])[..|ms|] == ms;
  }

  /** Scanning `a + b` is scanning `a`, then `b` with the ids processed by then. */
  lemma {:induction false} ScanAppend(a: seq<ChatMessage>, b: seq<ChatMessage>, seen: set<MessageId>)
    ensures var ra := Scan(a, seen);
            var rb := Scan(b, ra.1);
            Scan(a + b, seen) == (ra.0 + rb.0, rb.1)
    decreases |b|
  {
    var ra := Scan(a, seen);
    if b == [] {
      assert a + b == a;
      assert ra.0 + [] == ra.0;
    } else {
      var b', x := b[..|b| - 1], b[|b| - 1];
      ScanAppend(a, b', seen);
      ScanAppendSnoc(a, b', x, seen);
      SplitLast(a, b);
    }
  }

  /** The inductive step of `ScanAppend`: one more message at the end of `b`. */
  lemma ScanAppendSnoc(a: seq<ChatMessage>, b: seq<ChatMessage>, x: ChatMessage, seen: set<MessageId>)
    requires Scan(a + b, seen) == (Scan(a, seen).0 + Scan(b, Scan(a, seen).1).0, Scan(b, Scan(a, seen).1).1)
    ensures Scan((a + b) + [x], seen)
            == (Scan(a, seen).0 + Scan(b + [x], Scan(a, seen).1).0, Scan(b + [x], Scan(a, seen).1).1)
  {
    var ra := Scan(a, seen);
    var rb := Scan(b, ra.1);
    ScanSnoc(a + b, x, seen);
    ScanSnoc(b, x, ra.1);
    AppendAssoc(ra.0, rb.0, [x]);
  }

  /**
   * An element with neither `id` nor `data-message-index` gets a fresh id
   * each time it is parsed, so a second scan forwards it again.
   */
  lemma UnnamedElementForwardedAgain(el: Element, first: int, second: int, seen: set<MessageId>)
    requires el.id == "" && (el.messageIndex == None || el.messageIndex == Some(""))
    requires first != second && Generated(first) !in seen && Generated(second) !in seen
    ensures var once := Scan([ParseMessage(el, first)], seen);
            && once.0 == [ParseMessage(el, first)]
            && Scan([ParseMessage(el, second)], once.1).0 == [ParseMessage(el, second)]
  {
    var m1, m2 := ParseMessage(el, first), ParseMessage(el, second);
    ScanSingle(m1, seen);
    ScanSingle(m2, seen + {m1.id});
  }

  /** A scan in which every id is already processed forwards nothing and processes nothing new. */
  lemma {:induction false} ScanAllSeen(ms: seq<ChatMessage>, seen: set<MessageId>)
    requires forall i :: 0 <= i < |ms| ==> ms[i].id in seen
    ensures Scan(ms, seen) == ([], seen)
    decreases |ms|
  {
    if ms != [] {
      DropLast(ms);
      ScanAllSeen(ms[..|ms| - 1], seen);
    }
  }

  /** An element with an `id` or a non-empty `data-message-index` keeps its id whatever the fallback stamp. */
  predicate Named(el: Element) {
    el.id != "" || (el.messageIndex.Some? && el.messageIndex.value != "")
  }

  /** Parsing named elements twice gives the same ids, position by position. */
  lemma NamedIdsStable(found: seq<Element>, first: seq<int>, second: seq<int>)
    requires |first| == |found| && |second| == |found|
    requires forall i :: 0 <= i < |found| ==> Named(found[i])
    ensures forall i :: 0 <= i < |found| ==> ParseAll(found, second)[i].id == ParseAll(found, first)[i].id
  {
  }

  /**
   * The periodic rescan: when every element found has an `id` or a
   * `data-message-index`, scanning the same elements again, with any other
   * fallback stamps, forwards nothing and leaves the processed ids as they were.
   */
  lemma RescanForwardsNothing(found: seq<Element>, first: seq<int>, second: seq<int>, seen: set<MessageId>)
    requires |first| == |found| && |second| == |found|
    requires forall i :: 0 <= i < |found| ==> Named(found[i])
    ensures var once := Scan(ParseAll(found, first), seen);
            Scan(ParseAll(found, second), once.1) == ([], once.1)
  {
    var ms1, ms2 := ParseAll(found, first), ParseAll(found, second);
    ScanForwardsUnseenOnce(ms1, seen);
    NamedIdsStable(found, first, second);
    var processed := Scan(ms1, seen).1;
    forall i | 0 <= i < |ms2| ensures ms2[i].id in processed {
      assert ms1[i] in ms1;
    }
    ScanAllSeen(ms2, processed);
  }

  /** The frames `sendMessage` hands to the manager for `ms`. */
  function Wrapped(ms: seq<ChatMessage>): (r: seq<Outgoing>)
    ensures |r| == |ms| && forall i :: 0 <= i < |ms| ==> r[i] == CursorMessage(ms[i])
  {
    seq(|ms|, i requires 0 <= i < |ms| => CursorMessage(ms[i]))
  }

  lemma {:induction false} SendAllAppend(l: Link, a: seq<Outgoing>, b: seq<Outgoing>)
    ensures SendAll(l, a + b) == SendAll(SendAll(l, a), b)
    decreases |b|
  {
    if b == [] {
      assert a + b == a;
    } else {
      SendAllAppend(l, a, b[..|b| - 1]);
      assert (a + b)[..|a + b| - 1] == a + b[..|b| - 1];
    }
  }

  lemma ScanSingle(m: ChatMessage, seen: set<MessageId>)
    ensures Scan([m], seen) == if m.id in seen then ([], seen) else ([m], seen + {m.id})
  {
    assert [m][..0] == [];
    assert Scan([m][..0], seen) == ([], seen);
    assert [] + [m] == [m];
  }

  lemma ForwardOne(forwarded: seq<ChatMessage>, processed: set<MessageId>, m: ChatMessage)
    requires DistinctIds(forwarded) && Ids(forwarded) <= processed && m.id !in processed
    ensures DistinctIds(forwarded + [m]) && Ids(forwarded + [m]) <= processed + {m.id}
  {
    assert Ids(forwarded + [m]) == Ids(forwarded) + {m.id};
    forall i | 0 <= i < |forwarded| ensures forwarded[i].id != m.id {
      assert forwarded[i] in forwarded;
    }
  }

  lemma SendAllSingle(l: Link, m: ChatMessage)
    ensures SendAll(l, Wrapped([m])) == SendStep(l, CursorMessage(m))
  {
    assert Wrapped([m]) == [CursorMessage(m)];
    assert [CursorMessage(m)][..0] == [];
  }

  lemma SendWrappedAppend(start: Link, x: seq<ChatMessage>, y: seq<ChatMessage>)
    ensures SendAll(SendAll(start, Wrapped(x)), Wrapped(y)) == SendAll(start, Wrapped(x + y))
  {
    assert Wrapped(x + y) == Wrapped(x) + Wrapped(y);
    SendAllAppend(start, Wrapped(x), Wrapped(y));
  }

  /** Before the listener loop's first iteration nothing is scanned, forwarded or sent. */
  lemma ScanLoopEntry(ms: seq<ChatMessage>, seen: set<MessageId>, start: Link, base: seq<ChatMessage>)
    ensures Scan(ms[..0], seen) == ([], seen)
    ensures base + [] == base
    ensures SendAll(start, Wrapped([])) == start
  {
    assert ms[..0] == [];
    assert Wrapped([]) == [];
  }

  /** One more message scanned: how the listener loops' invariants carry over to the next index. */
  lemma ScanLoopStep(ms: seq<ChatMessage>, i: nat, seen: set<MessageId>, start: Link, base: seq<ChatMessage>)
    requires i < |ms|
    ensures var before := Scan(ms[..i], seen);
            var step := Scan([ms[i]], before.1);
            && Scan(ms[..i + 1], seen) == (before.0 + step.0, step.1)
            && base + before.0 + step.0 == base + Scan(ms[..i + 1], seen).0
            && SendAll(SendAll(start, Wrapped(before.0)), Wrapped(step.0))
               == SendAll(start, Wrapped(Scan(ms[..i + 1], seen).0))
  {
    var before := Scan(ms[..i], seen);
    var step := Scan([ms[i]], before.1);
    assert ms[..i] + [ms[i]] == ms[..i + 1];
    ScanAppend(ms[..i], [ms[i]], seen);
    SendWrappedAppend(start, before.0, step.0);
  }

  /** Scanning `a` and then `b` is scanning `a + b`, for the processed ids, the forwarded messages and the manager. */
  lemma ScanThen(a: seq<ChatMessage>, b: seq<ChatMessage>, seen: set<MessageId>, start: Link, base: seq<ChatMessage>)
    ensures var ra := Scan(a, seen);
            var rb := Scan(b, ra.1);
            && Scan(a + b, seen) == (ra.0 + rb.0, rb.1)
            && base + ra.0 + rb.0 == base + Scan(a + b, seen).0
            && SendAll(SendAll(start, Wrapped(ra.0)), Wrapped(rb.0)) == SendAll(start, Wrapped(Scan(a + b, seen).0))
  {
    var ra := Scan(a, seen);
    var rb := Scan(b, ra.1);
    ScanAppend(a, b, seen);
    assert base + ra.0 + rb.0 == base + (ra.0 + rb.0);
    SendWrappedAppend(start, ra.0, rb.0);
  }

  /** `AIResponseListener`'s dedup state; `forwarded` records every message passed to `sendMessage`. */
  class AIResponseListener {
    var processedMessages: set<MessageId>
    var manager: WSManager?
    ghost var forwarded: seq<ChatMessage>

    /** No id is forwarded twice, and every forwarded id is processed. */
    ghost predicate Valid()
      reads this
    {
      DistinctIds(forwarded) && Ids(forwarded) <= processedMessages
    }

    constructor (manager: WSManager?)
      ensures Valid()
      ensures processedMessages == {} && this.manager == manager && forwarded == []
    {
      processedMessages := {};
      this.manager := manager;
      forwarded := [];
    }

    /** `sendMessage`: hands the message to `window.wsManager` when there is one. */
    method SendMessage(data: ChatMessage)
      requires manager != null ==> manager.Valid()
      modifies this, manager
      ensures manager == old(manager) && processedMessages == old(processedMessages)
      ensures forwarded == old(forwarded) + [data]
      ensures manager != null ==> manager.Valid() && manager.Model() == SendStep(old(manager.Model()), CursorMessage(data))
    {
      if manager != null {
        manager.Send(CursorMessage(data));
      }
      forwarded := forwarded + [data];
    }

    /** The body shared by both listener loops: parse, and forward unless the id was processed. */
    method Consider(el: Element, stamp: int)
      requires Valid() && (manager != null ==> manager.Valid())
      modifies this, manager
      ensures Valid() && manager == old(manager)
      ensures var out := Scan([ParseMessage(el, stamp)], old(processedMessages));
              && processedMessages == out.1
              && forwarded == old(forwarded) + out.0
              && (manager != null ==> manager.Valid() && manager.Model() == SendAll(old(manager.Model()), Wrapped(out.0)))
    {
      var messageData := ParseMessage(el, stamp);
      ScanSingle(messageData, processedMessages);
      if messageData.id !in processedMessages {
        ForwardOne(forwarded, processedMessages, messageData);
        processedMessages := processedMessages + {messageData.id};
        SendMessage(messageData);
        if manager != null {
          SendAllSingle(old(manager.Model()), messageData);
        }
      } else {
        assert old(forwarded) + [] == forwarded;
      }
    }

    /**
     * The listener and its manager are where a scan that produced `out`
     * leaves them, from the manager state `start` and the forwarded
     * messages `base`.
     */
    ghost predicate Tracks(mgr: WSManager?, start: Link, base: seq<ChatMessage>, out: (seq<ChatMessage>, set<MessageId>))
      reads this, mgr
    {
      && Valid() && manager == mgr
      && processedMessages == out.1
      && forwarded == base + out.0
      && (mgr != null ==> mgr.Valid() && mgr.Model() == SendAll(start, Wrapped(out.0)))
    }

    /** `extractAllMessages`, over the elements `findMessages` returned, in order. */
    method ExtractAllMessages(found: seq<Element>, stamps: seq<int>)
      requires |stamps| == |found|
      requires Valid() && (manager != null ==> manager.Valid())
      modifies this, manager
      ensures Valid() && manager == old(manager)
      ensures var out := Scan(ParseAll(found, stamps), old(processedMessages));
              && processedMessages == out.1
              && forwarded == old(forwarded) + out.0
              && (manager != null ==> manager.Valid() && manager.Model() == SendAll(old(manager.Model()), Wrapped(out.0)))
    {
      ghost var ms := ParseAll(found, stamps);
      ghost var seen := processedMessages;
      ghost var start := if manager != null then manager.Model() else Initial;
      var i := 0;
      ghost var out := ([], seen);
      ScanLoopEntry(ms, seen, start, old(forwarded));
      while i < |found|
        invariant 0 <= i <= |found|
        invariant out == Scan(ms[..i], seen)
        invariant Tracks(old(manager), start, old(forwarded), out)
      {
        out, i := ConsiderAt(found, stamps, i, ms, seen, start, old(forwarded), out);
      }
      assert out == Scan(ParseAll(found, stamps), old(processedMessages)) by {
        assert ms[..|found|] == ms;
      }
    }

    /** One turn of `extractAllMessages`' loop: `found[i]` considered, advancing the loop's invariants by one element. */
    method ConsiderAt(found: seq<Element>, stamps: seq<int>, i: nat, ghost ms: seq<ChatMessage>,
                      ghost seen: set<MessageId>, ghost start: Link, ghost base: seq<ChatMessage>,
                      ghost before: (seq<ChatMessage>, set<MessageId>))
      returns (ghost after: (seq<ChatMessage>, set<MessageId>), next: nat)
      requires i < |found| == |stamps| == |ms| && ms[i] == ParseMessage(found[i], stamps[i])
      requires before == Scan(ms[..i], seen)
      requires Tracks(manager, start, base, before)
      modifies this, manager
      ensures next == i + 1 && after == Scan(ms[..next], seen)
      ensures Tracks(old(manager), start, base, after)
    {
      next := i + 1;
      after := Scan(ms[..next], seen);
      ScanLoopStep(ms, i, seen, start, base);
      Consider(found[i], stamps[i]);
    }

    /**
     * `checkForNewMessages`, for an added node and the elements
     * `findMessages(node)` returned: the node itself first when it is a
     * valid message, then each of those elements.
     */
    method CheckForNewMessages(node: Element, stamp: int, found: seq<Element>, stamps: seq<int>)
      requires |stamps| == |found|
      requires Valid() && (manager != null ==> manager.Valid())
      modifies this, manager
      ensures Valid() && manager == old(manager)
      ensures var lead := if IsValidMessage(TextOf(node)) then [ParseMessage(node, stamp)] else [];
              var out := Scan(lead + ParseAll(found, stamps), old(processedMessages));
              && processedMessages == out.1
              && forwarded == old(forwarded) + out.0
              && (manager != null ==> manager.Valid() && manager.Model() == SendAll(old(manager.Model()), Wrapped(out.0)))
    {
      ghost var lead := if IsValidMessage(TextOf(node)) then [ParseMessage(node, stamp)] else [];
      ghost var start := if manager != null then manager.Model() else Initial;
      ScanThen(lead, ParseAll(found, stamps), old(processedMessages), start, old(forwarded));
      if IsValidMessage(TextOf(node)) {
        Consider(node, stamp);
      }
      ExtractAllMessages(found, stamps);
    }
  }
}
