/**
 * The relay server of app.js: a process-wide chat-content string and an
 * insertion-ordered set of WebSocket clients, driven by connection, message,
 * close/error and prune events, plus the `POST /api/content` route that feeds
 * the same broadcast.
 *
 * The world outside the relay is abstract. For one callback turn, a `World`
 * gives the clock reading (`Date.now()`), the clients whose `readyState` is
 * OPEN, and the clients whose `send` throws. What the relay sends is recorded
 * as `Delivery` values: a delivery is a `send` call that did not throw.
 */
module Relay {
  import opened Options
  import opened Seqs

  /** The identity of one accepted WebSocket endpoint. */
  type ClientId = nat

  /** The `data` member of an envelope, reduced to the members the relay reads. */
  datatype Payload = Payload(html: Option<string>, url: Option<string>)

  /**
   * A parsed inbound envelope: its `type` tag, and the optional `data`,
   * `content` and `timestamp` members (`None` is a missing member).
   */
  datatype Message = Message(tag: string, data: Option<Payload>, content: Option<string>, timestamp: Option<int>)

  /** What one `message` event carries: a JSON object, or text on which parsing (or reading `.type`) throws. */
  datatype Inbound = Parsed(msg: Message) | Unparseable

  /** The envelopes the relay sends. */
  datatype Envelope =
    | Forwarded(msg: Message)                  // an inbound `html_content` envelope, relayed unchanged
    | PostedHtml(data: Payload)                // `html_content` built from a `POST /api/content` body
    | Replay(html: string, at: int)            // `html_content` pushed to a client as it connects
    | UserMessage(userData: Option<Payload>, at: int)
    | TestResponse(content: Option<string>, at: int)
    | DebugResponse(serverTime: int)
    | Pong(at: int)
    | ClearContent(at: int)
    | SyncClearTimestamp(clearedAt: Option<int>)

  /** One `send` call that completed without throwing. */
  datatype Delivery = Delivery(to: ClientId, env: Envelope)

  /** What the relay observes during one callback turn. */
  datatype World = World(now: int, open: set<ClientId>, failing: set<ClientId>)

  /**
   * `currentChatContent` and `connectedClients`. The content is `None` when it
   * has been set to `undefined` (an `html_content` message whose data has no html).
   */
  datatype RelayState = RelayState(content: Option<string>, clients: seq<ClientId>)

  /** The new state after one event, and what was sent during it, in order. */
  datatype Transition = Transition(state: RelayState, sent: seq<Delivery>)

  /** The `POST /api/content` handler's effect and its HTTP status code. */
  datatype Posted = Posted(effect: Transition, status: int)

  /** JavaScript truthiness of the content: present and not the empty string. */
  predicate HasContent(content: Option<string>) {
    content.Some? && content.value != ""
  }

  /** JavaScript truthiness of a numeric `timestamp` member. */
  predicate TruthyTimestamp(ts: Option<int>) {
    ts.Some? && ts.value != 0
  }

  predicate Distinct(cs: seq<ClientId>) {
    forall i, j :: 0 <= i < j < |cs| ==> cs[i] != cs[j]
  }

  /** `c` is attempted by a broadcast from `sender`: it is not the sender and it is OPEN. */
  predicate Eligible(c: ClientId, sender: Option<ClientId>, w: World) {
    Some(c) != sender && c in w.open
  }

  // ---------------------------------------------------------------------------
  // The client set as an insertion-ordered sequence without repetitions
  // ---------------------------------------------------------------------------

  /** `cs` with every member of `gone` removed, order kept. */
  function Without(cs: seq<ClientId>, gone: set<ClientId>): (r: seq<ClientId>)
    ensures |r| <= |cs|
    ensures forall x :: x in r <==> x in cs && x !in gone
  {
    if cs == [] then []
    else
      var last := cs[|cs| - 1];
      assert cs == cs[..|cs| - 1] + [last];
      Without(cs[..|cs| - 1], gone) + (if last in gone then [] else [last])
  }

  lemma {:induction false} WithoutAppend(a: seq<ClientId>, b: seq<ClientId>, gone: set<ClientId>)
    ensures Without(a + b, gone) == Without(a, gone) + Without(b, gone)
    decreases |b|
  {
    if b == [] {
      assert a + b == a;
    } else {
      var b', x := b[..|b| - 1], b[|b| - 1];
      var tail := if x in gone then [] else [x];
      SplitLast(a, b);
      WithoutAppend(a, b', gone);
      WithoutSnoc(a + b', x, gone);
      WithoutSnoc(b', x, gone);
      AppendAssoc(Without(a, gone), Without(b', gone), tail);
    }
  }

  lemma {:induction false} WithoutNothing(cs: seq<ClientId>, gone: set<ClientId>)
    requires forall x :: x in cs ==> x !in gone
    ensures Without(cs, gone) == cs
    decreases |cs|
  {
    if cs != [] {
      DropLast(cs);
      WithoutNothing(cs[..|cs| - 1], gone);
    }
  }

  lemma {:induction false} WithoutDistinct(cs: seq<ClientId>, gone: set<ClientId>)
    requires Distinct(cs)
    ensures Distinct(Without(cs, gone))
    decreases |cs|
  {
    if cs != [] {
      var pre := cs[..|cs| - 1];
      WithoutDistinct(pre, gone);
      assert cs[|cs| - 1] !in pre;
    }
  }

  /** `connectedClients.delete(c)`: removes `c`; a no-op when `c` is absent. */
  function Delete(cs: seq<ClientId>, c: ClientId): (r: seq<ClientId>)
    ensures c !in r
    ensures forall x :: x != c ==> (x in r <==> x in cs)
    ensures c !in cs ==> r == cs
  {
    assert c !in cs ==> Without(cs, {c}) == cs by {
      if c !in cs { WithoutNothing(cs, {c}); }
    }
    Without(cs, {c})
  }

  /** The clients a prune keeps: the OPEN ones, order kept. */
  function OpenOnly(cs: seq<ClientId>, open: set<ClientId>): (r: seq<ClientId>)
    ensures |r| <= |cs|
    ensures forall x :: x in r <==> x in cs && x in open
  {
    if cs == [] then []
    else
      var last := cs[|cs| - 1];
      assert cs == cs[..|cs| - 1] + [last];
      OpenOnly(cs[..|cs| - 1], open) + (if last in open then [last] else [])
  }

  /** When the prune keeps as many clients as there were, it keeps all of them, in place. */
  lemma {:induction false} OpenOnlyFull(cs: seq<ClientId>, open: set<ClientId>)
    requires |OpenOnly(cs, open)| == |cs|
    ensures OpenOnly(cs, open) == cs
    decreases |cs|
  {
    if cs != [] {
      var pre := cs[..|cs| - 1];
      var last := cs[|cs| - 1];
      assert |OpenOnly(pre, open)| <= |pre|;
      assert last in open;
      OpenOnlyFull(pre, open);
      assert cs == pre + [last];
    }
  }

  lemma {:induction false} OpenOnlyDistinct(cs: seq<ClientId>, open: set<ClientId>)
    requires Distinct(cs)
    ensures Distinct(OpenOnly(cs, open))
    decreases |cs|
  {
    if cs != [] {
      var pre := cs[..|cs| - 1];
      OpenOnlyDistinct(pre, open);
      assert cs[|cs| - 1] !in pre;
    }
  }

  // ---------------------------------------------------------------------------
  // broadcastToWebSocketClients
  // ---------------------------------------------------------------------------

  /** The clients whose `send` throws during a broadcast from `sender`. */
  function Failed(sender: Option<ClientId>, w: World): set<ClientId> {
    (w.open * w.failing) - (if sender.Some? then {sender.value} else {})
  }

  /**
   * The sends of one broadcast over the clients `cs`, in iteration order:
   * every one carries `env`, goes to a member of `cs` that is OPEN, is not the
   * sender and whose send does not throw.
   */
  function Deliveries(cs: seq<ClientId>, env: Envelope, sender: Option<ClientId>, w: World): (ds: seq<Delivery>)
    ensures |ds| <= |cs|
    ensures forall d :: d in ds ==> d.env == env && d.to in cs && Eligible(d.to, sender, w) && d.to !in w.failing
  {
    if cs == [] then []
    else
      var c := cs[|cs| - 1];
      assert cs == cs[..|cs| - 1] + [c];
      Deliveries(cs[..|cs| - 1], env, sender, w) + SendOf(c, env, sender, w)
  }

  /** What the broadcast callback sends to `c`: `env`, when `c` is eligible and its send does not throw. */
  function SendOf(c: ClientId, env: Envelope, sender: Option<ClientId>, w: World): seq<Delivery> {
    if Eligible(c, sender, w) && c !in w.failing then [Delivery(c, env)] else []
  }

  /** The live client set after the broadcast callback for `c`: `c` is deleted when its send throws. */
  function AfterAttempt(live: seq<ClientId>, c: ClientId, sender: Option<ClientId>, w: World): seq<ClientId> {
    if Eligible(c, sender, w) && c in w.failing then Delete(live, c) else live
  }

  /** The client set after a broadcast: a client whose send threw is deleted, every other one stays. */
  function Survivors(cs: seq<ClientId>, sender: Option<ClientId>, w: World): (r: seq<ClientId>)
    ensures forall c :: c in r <==> c in cs && !(Eligible(c, sender, w) && c in w.failing)
  {
    Without(cs, Failed(sender, w))
  }

  function Recipients(ds: seq<Delivery>): (r: seq<ClientId>)
    ensures |r| == |ds| && forall i :: 0 <= i < |ds| ==> r[i] == ds[i].to
  {
    seq(|ds|, i requires 0 <= i < |ds| => ds[i].to)
  }

  /**
   * A broadcast reaches a client exactly when that client is registered, OPEN,
   * not the sender, and its send does not throw.
   */
  lemma {:induction false} DeliveredIff(cs: seq<ClientId>, env: Envelope, sender: Option<ClientId>, w: World, c: ClientId)
    ensures Delivery(c, env) in Deliveries(cs, env, sender, w)
            <==> c in cs && Eligible(c, sender, w) && c !in w.failing
    decreases |cs|
  {
    if cs != [] {
      var pre := cs[..|cs| - 1];
      DeliveredIff(pre, env, sender, w, c);
      assert cs == pre + [cs[|cs| - 1]];
    }
  }

  /** No client receives the same broadcast twice. */
  lemma {:induction false} DeliveredAtMostOnce(cs: seq<ClientId>, env: Envelope, sender: Option<ClientId>, w: World)
    requires Distinct(cs)
    ensures Distinct(Recipients(Deliveries(cs, env, sender, w)))
    decreases |cs|
  {
    if cs != [] {
      var pre := cs[..|cs| - 1];
      var c := cs[|cs| - 1];
      DeliveredAtMostOnce(pre, env, sender, w);
      var before := Deliveries(pre, env, sender, w);
      assert forall d :: d in before ==> d.to in pre;
      assert c !in pre;
      var ds := Deliveries(cs, env, sender, w);
      var rs := Recipients(ds);
      forall i, j | 0 <= i < j < |rs| ensures rs[i] != rs[j] {
        if j >= |before| {
          assert ds[i] in before;
        }
      }
    }
  }

  /** `Deliveries` over a client sequence with one more client at the end. */
  lemma {:induction false} DeliveriesSnoc(p: seq<ClientId>, c: ClientId, env: Envelope, sender: Option<ClientId>, w: World)
    ensures Deliveries(p + [c], env, sender, w)
            == Deliveries(p, env, sender, w) + (if Eligible(c, sender, w) && c !in w.failing then [Delivery(c, env)] else [])
  {
    assert (p + [c])[..|p|] == p;
  }

  lemma {:induction false} DeliveriesStepAt(cs: seq<ClientId>, i: nat, env: Envelope, sender: Option<ClientId>, w: World)
    requires i < |cs|
    ensures Deliveries(cs[..i + 1], env, sender, w)
            == Deliveries(cs[..i], env, sender, w) + SendOf(cs[i], env, sender, w)
  {
    assert cs[..i + 1] == cs[..i] + [cs[i]];
    DeliveriesSnoc(cs[..i], cs[i], env, sender, w);
  }

  /** `Without` over a sequence with one more element at the end. */
  lemma {:induction false} WithoutSnoc(p: seq<ClientId>, c: ClientId, gone: set<ClientId>)
    ensures Without(p + [c], gone) == Without(p, gone) + (if c in gone then [] else [c])
  {
    assert (p + [c])[..|p|] == p;
  }

  /**
   * One iteration of the broadcast loop over a client set without
   * repetitions, for a client whose send throws: deleting it from the live
   * set leaves the set that the specification describes for one more client.
   */
  lemma {:induction false} DeleteStepAt(snapshot: seq<ClientId>, i: nat, gone: set<ClientId>)
    requires Distinct(snapshot) && i < |snapshot| && snapshot[i] in gone
    ensures Delete(Without(snapshot[..i], gone) + snapshot[i..], snapshot[i])
              == Without(snapshot[..i + 1], gone) + snapshot[i + 1..]
  {
    var c, p, t := snapshot[i], snapshot[..i], snapshot[i + 1..];
    DistinctSplit(snapshot, i);
    SliceAt(snapshot, i);
    WithoutSnoc(p, c, gone);
    AppendNil(Without(p, gone));
    DeleteFromMiddle(Without(p, gone), c, t);
  }

  /** In a sequence without repetitions, `snapshot[i]` occurs neither before nor after index `i`. */
  lemma DistinctSplit(snapshot: seq<ClientId>, i: nat)
    requires Distinct(snapshot) && i < |snapshot|
    ensures snapshot[i] !in snapshot[..i] && snapshot[i] !in snapshot[i + 1..]
  {
    var c, p, t := snapshot[i], snapshot[..i], snapshot[i + 1..];
    forall j | 0 <= j < |p|
      ensures p[j] != c
    {
      assert p[j] == snapshot[j];
    }
    forall j | 0 <= j < |t|
      ensures t[j] != c
    {
      assert t[j] == snapshot[i + 1 + j];
    }
  }

  /** Deleting `c` from `kept + [c] + t`, where it occurs once, leaves `kept + t`. */
  lemma DeleteFromMiddle(kept: seq<ClientId>, c: ClientId, t: seq<ClientId>)
    requires c !in kept && c !in t
    ensures Delete(kept + ([c] + t), c) == kept + t
  {
    WithoutSnoc([], c, {c});
    AppendNil([c]);
    WithoutAppend([c], t, {c});
    WithoutNothing(t, {c});
    AppendNil(t);
    WithoutNothing(kept, {c});
    WithoutAppend(kept, [c] + t, {c});
  }

  /** The same for a client that stays: the live set is already the one described for one more client. */
  lemma {:induction false} KeepStepAt(snapshot: seq<ClientId>, i: nat, gone: set<ClientId>)
    requires i < |snapshot| && snapshot[i] !in gone
    ensures Without(snapshot[..i], gone) + snapshot[i..] == Without(snapshot[..i + 1], gone) + snapshot[i + 1..]
  {
    var c, p, t := snapshot[i], snapshot[..i], snapshot[i + 1..];
    SliceAt(snapshot, i);
    WithoutSnoc(p, c, gone);
    AppendAssoc(Without(p, gone), [c], t);
  }

  /** The broadcast loop's invariants hold before its first iteration. */
  lemma {:induction false} BroadcastLoopEntry(snapshot: seq<ClientId>, env: Envelope, sender: Option<ClientId>, w: World,
                                              base: seq<Delivery>)
    ensures snapshot[..0] == [] && snapshot[0..] == snapshot
    ensures Deliveries(snapshot[..0], env, sender, w) == [] && base + [] == base
    ensures forall gone :: Without(snapshot[..0], gone) == []
  {
    assert snapshot[..0] == [];
  }

  /**
   * One iteration of the broadcast loop keeps its live-set invariant, whether
   * the `forEach` callback deletes `snapshot[i]` or leaves the set alone.
   */
  lemma {:induction false} LiveStepAt(snapshot: seq<ClientId>, i: nat, sender: Option<ClientId>, w: World)
    requires Distinct(snapshot) && i < |snapshot|
    ensures AfterAttempt(Without(snapshot[..i], Failed(sender, w)) + snapshot[i..], snapshot[i], sender, w)
            == Without(snapshot[..i + 1], Failed(sender, w)) + snapshot[i + 1..]
  {
    if snapshot[i] in Failed(sender, w) {
      DeleteStepAt(snapshot, i, Failed(sender, w));
    } else {
      KeepStepAt(snapshot, i, Failed(sender, w));
    }
  }

  /** One iteration of the broadcast loop keeps its outbox and count invariants. */
  lemma {:induction false} SentStepAt(snapshot: seq<ClientId>, i: nat, env: Envelope, sender: Option<ClientId>, w: World,
                                      outbox: seq<Delivery>, base: seq<Delivery>)
    requires i < |snapshot|
    requires outbox == base + Deliveries(snapshot[..i], env, sender, w)
    ensures outbox + SendOf(snapshot[i], env, sender, w) == base + Deliveries(snapshot[..i + 1], env, sender, w)
    ensures |Deliveries(snapshot[..i + 1], env, sender, w)|
            == |Deliveries(snapshot[..i], env, sender, w)| + |SendOf(snapshot[i], env, sender, w)|
  {
    DeliveriesStepAt(snapshot, i, env, sender, w);
  }

  /** After the last iteration the live set is the survivors and the sends are the deliveries. */
  lemma {:induction false} BroadcastLoopExit(snapshot: seq<ClientId>, gone: set<ClientId>)
    requires Distinct(snapshot)
    ensures snapshot[..|snapshot|] == snapshot && snapshot[|snapshot|..] == []
    ensures Without(snapshot, gone) + [] == Without(snapshot, gone)
    ensures Distinct(Without(snapshot, gone))
  {
    WithoutDistinct(snapshot, gone);
  }

  /** The effect of `broadcastToWebSocketClients(env, sender)` on the state. */
  function BroadcastStep(s: RelayState, env: Envelope, sender: Option<ClientId>, w: World): Transition {
    Transition(s.(clients := Survivors(s.clients, sender, w)), Deliveries(s.clients, env, sender, w))
  }

  /** A direct `ws.send` to one client: not guarded by `readyState`, and a throw drops the reply. */
  function Reply(s: RelayState, to: ClientId, env: Envelope, w: World): Transition {
    Transition(s, if to in w.failing then [] else [Delivery(to, env)])
  }

  // ---------------------------------------------------------------------------
  // The event handlers as transitions
  // ---------------------------------------------------------------------------

  /** `wss.on('connection')`: registers the client, then replays the content to it when there is any. */
  function Join(s: RelayState, c: ClientId, w: World): Transition {
    Transition(
      s.(clients := if c in s.clients then s.clients else s.clients + [c]),
      if HasContent(s.content) && c !in w.failing then [Delivery(c, Replay(s.content.value, w.now))] else [])
  }

  /** `ws.on('message')`: the `switch` on the envelope's type tag. */
  function Handle(s: RelayState, from: ClientId, raw: Inbound, w: World): Transition {
    match raw
    case Unparseable => Transition(s, [])
    case Parsed(m) =>
      if m.tag == "html_content" then
        if m.data.None? then Transition(s, [])                              // reading `.html` of undefined throws
        else if m.data.value.html.None? then Transition(s.(content := None), [])  // `.length` of undefined throws after the assignment
        else BroadcastStep(s.(content := m.data.value.html), Forwarded(m), Some(from), w)
      else if m.tag == "user_message" then BroadcastStep(s, UserMessage(m.data, w.now), Some(from), w)
      else if m.tag == "test" then BroadcastStep(s, TestResponse(m.content, w.now), Some(from), w)
      else if m.tag == "debug" then Reply(s, from, DebugResponse(w.now), w)
      else if m.tag == "ping" then Reply(s, from, Pong(w.now), w)
      else if m.tag == "clear_content" then
        BroadcastStep(s.(content := Some("")),
                      ClearContent(if TruthyTimestamp(m.timestamp) then m.timestamp.value else w.now), None, w)
      else if m.tag == "sync_clear_timestamp" then BroadcastStep(s, SyncClearTimestamp(m.timestamp), None, w)
      else Transition(s, [])
  }

  /** `ws.on('close')` and `ws.on('error')`: both delete the client. */
  function Leave(s: RelayState, c: ClientId): RelayState {
    s.(clients := Delete(s.clients, c))
  }

  /** The 30-second prune: keeps the OPEN clients. */
  function Prune(s: RelayState, w: World): RelayState {
    s.(clients := OpenOnly(s.clients, w.open))
  }

  /** `POST /api/content` with body members `type` and `data`. */
  function PostContent(s: RelayState, tag: string, data: Option<Payload>, w: World): Posted {
    if tag == "html_content" && data.Some? then
      if data.value.html.None? then Posted(Transition(s.(content := None), []), 500)
      else Posted(BroadcastStep(s.(content := data.value.html), PostedHtml(data.value), None, w), 200)
    else Posted(Transition(s, []), 400)
  }

  // ---------------------------------------------------------------------------
  // Properties of the handlers
  // ---------------------------------------------------------------------------

  /** Every event keeps the client set free of repetitions. */
  lemma {:induction false} HandleKeepsDistinct(s: RelayState, from: ClientId, raw: Inbound, w: World)
    requires Distinct(s.clients)
    ensures Distinct(Handle(s, from, raw, w).state.clients)
  {
    WithoutDistinct(s.clients, Failed(Some(from), w));
    WithoutDistinct(s.clients, Failed(None, w));
  }

  /**
   * A message never adds a client, and a client disappears only when it was
   * OPEN and its send threw; the sender itself can disappear only through the
   * two broadcasts that do not skip it.
   */
  lemma {:induction false} HandleOnlyDropsFailedSends(s: RelayState, from: ClientId, raw: Inbound, w: World)
    ensures var t := Handle(s, from, raw, w).state;
            forall c :: c in t.clients ==> c in s.clients
    ensures var t := Handle(s, from, raw, w).state;
            forall c :: c in s.clients && c !in t.clients ==>
              && c in w.open && c in w.failing
              && (c == from ==> raw.Parsed? && raw.msg.tag in {"clear_content", "sync_clear_timestamp"})
  {
  }

  /** Nothing a broadcast sends goes to its sender. */
  lemma {:induction false} SenderNeverReceives(s: RelayState, from: ClientId, raw: Inbound, w: World)
    requires raw.Parsed? && raw.msg.tag in {"html_content", "user_message", "test"}
    ensures forall d :: d in Handle(s, from, raw, w).sent ==> d.to != from && d.to in w.open
  {
  }

  /**
   * `html_content` makes the envelope's html the content and relays the
   * envelope itself, once, to exactly the other registered OPEN clients whose
   * send does not throw.
   */
  lemma {:induction false} HtmlContentRelayed(s: RelayState, from: ClientId, m: Message, h: string, w: World)
    requires Distinct(s.clients)
    requires m.tag == "html_content" && m.data.Some? && m.data.value.html == Some(h)
    ensures var t := Handle(s, from, Parsed(m), w);
            && t.state.content == Some(h)
            && (forall d :: d in t.sent ==> d.env == Forwarded(m))
            && Distinct(Recipients(t.sent))
            && (forall c :: Delivery(c, Forwarded(m)) in t.sent
                  <==> c in s.clients && c != from && c in w.open && c !in w.failing)
  {
    DeliveredAtMostOnce(s.clients, Forwarded(m), Some(from), w);
    forall c ensures Delivery(c, Forwarded(m)) in Handle(s, from, Parsed(m), w).sent
                     <==> c in s.clients && c != from && c in w.open && c !in w.failing {
      DeliveredIff(s.clients, Forwarded(m), Some(from), w, c);
    }
  }

  /**
   * `clear_content` empties the content and sends `clear_content` to every
   * registered OPEN client whose send does not throw, the sender included,
   * stamped with the envelope's timestamp when it is truthy and the current
   * time otherwise.
   */
  lemma {:induction false} ClearContentReachesAll(s: RelayState, from: ClientId, m: Message, w: World)
    requires m.tag == "clear_content"
    ensures var t := Handle(s, from, Parsed(m), w);
            var at := if m.timestamp.Some? && m.timestamp.value != 0 then m.timestamp.value else w.now;
            && t.state.content == Some("")
            && (forall d :: d in t.sent ==> d.env == ClearContent(at))
            && (forall c :: Delivery(c, ClearContent(at)) in t.sent
                  <==> c in s.clients && c in w.open && c !in w.failing)
  {
    var at := if TruthyTimestamp(m.timestamp) then m.timestamp.value else w.now;
    forall c ensures Delivery(c, ClearContent(at)) in Handle(s, from, Parsed(m), w).sent
                     <==> c in s.clients && c in w.open && c !in w.failing {
      DeliveredIff(s.clients, ClearContent(at), None, w, c);
    }
  }

  /**
   * `ping` and `debug` answer the sender alone with one `pong` or
   * `debug_response` (none if that send throws), whatever other clients
   * there are, and change neither the content nor the client set.
   */
  lemma {:induction false} PingAndDebugReplyToSender(s: RelayState, from: ClientId, m: Message, w: World)
    requires m.tag == "ping" || m.tag == "debug"
    ensures var t := Handle(s, from, Parsed(m), w);
            var reply := if m.tag == "ping" then Pong(w.now) else DebugResponse(w.now);
            && t.state == s
            && t.sent == (if from in w.failing then [] else [Delivery(from, reply)])
  {
  }

  /** An unparseable payload, an unknown type, or `html_content` without data, changes and sends nothing. */
  lemma {:induction false} IgnoredMessages(s: RelayState, from: ClientId, raw: Inbound, w: World)
    requires || raw.Unparseable?
             || raw.msg.tag !in {"html_content", "user_message", "test", "debug", "ping", "clear_content", "sync_clear_timestamp"}
             || (raw.msg.tag == "html_content" && raw.msg.data.None?)
    ensures Handle(s, from, raw, w) == Transition(s, [])
  {
  }

  /**
   * Last write wins: only `html_content` and `clear_content` change the
   * content, and each replaces it outright.
   */
  lemma {:induction false} ContentLastWriteWins(s: RelayState, from: ClientId, raw: Inbound, w: World)
    ensures var t := Handle(s, from, raw, w).state;
            && (t.content != s.content ==> raw.Parsed? && raw.msg.tag in {"html_content", "clear_content"})
            && (raw.Parsed? && raw.msg.tag == "html_content" && raw.msg.data.Some? ==> t.content == raw.msg.data.value.html)
            && (raw.Parsed? && raw.msg.tag == "clear_content" ==> t.content == Some(""))
  {
  }

  /**
   * A connecting client is registered and, when the content is non-empty,
   * receives exactly one `html_content` carrying it, and nobody else
   * receives anything.
   */
  lemma {:induction false} JoinReplays(s: RelayState, c: ClientId, w: World)
    requires Distinct(s.clients)
    ensures var t := Join(s, c, w);
            && c in t.state.clients
            && Distinct(t.state.clients)
            && (forall x :: x in t.state.clients <==> x in s.clients || x == c)
            && t.state.content == s.content
            && t.sent == (if s.content.Some? && s.content.value != "" && c !in w.failing
                          then [Delivery(c, Replay(s.content.value, w.now))] else [])
  {
  }

  /** After `clear_content`, a client that connects is sent nothing. */
  lemma {:induction false} NoReplayAfterClear(s: RelayState, from: ClientId, m: Message, w: World, c: ClientId, w2: World)
    requires m.tag == "clear_content"
    ensures Join(Handle(s, from, Parsed(m), w).state, c, w2).sent == []
  {
  }

  /**
   * Client A sends `html_content`; the registered OPEN client B receives
   * exactly that envelope; a client C connecting afterwards is sent the same html.
   */
  lemma {:induction false} RelayScenario(s: RelayState, a: ClientId, b: ClientId, c: ClientId, h: string,
                                         m: Message, w: World, w2: World)
    requires Distinct(s.clients) && b in s.clients && a != b
    requires b in w.open && b !in w.failing && c !in w2.failing
    requires m.tag == "html_content" && m.data.Some? && m.data.value.html == Some(h) && h != ""
    ensures var t := Handle(s, a, Parsed(m), w);
            && Delivery(b, Forwarded(m)) in t.sent
            && (forall d :: d in t.sent && d.to == b ==> d == Delivery(b, Forwarded(m)))
            && Join(t.state, c, w2).sent == [Delivery(c, Replay(h, w2.now))]
  {
    HtmlContentRelayed(s, a, m, h, w);
  }

  /** Close and error delete exactly the client; deleting an absent client changes nothing. */
  lemma {:induction false} LeaveDeletes(s: RelayState, c: ClientId)
    requires Distinct(s.clients)
    ensures c !in Leave(s, c).clients
    ensures forall x :: x != c ==> (x in Leave(s, c).clients <==> x in s.clients)
    ensures c !in s.clients ==> Leave(s, c) == s
    ensures Distinct(Leave(s, c).clients)
  {
    WithoutDistinct(s.clients, {c});
  }

  /**
   * The prune keeps exactly the OPEN clients, never grows the set, and a
   * second prune in the same world changes nothing.
   */
  lemma {:induction false} PruneKeepsOpen(s: RelayState, w: World)
    requires Distinct(s.clients)
    ensures forall x :: x in Prune(s, w).clients <==> x in s.clients && x in w.open
    ensures |Prune(s, w).clients| <= |s.clients|
    ensures Distinct(Prune(s, w).clients)
    ensures Prune(Prune(s, w), w) == Prune(s, w)
  {
    OpenOnlyDistinct(s.clients, w.open);
    var p := OpenOnly(s.clients, w.open);
    WithoutNothing(p, {});
    OpenOnlyKeepsAllOpen(p, w.open);
  }

  lemma {:induction false} OpenOnlyKeepsAllOpen(cs: seq<ClientId>, open: set<ClientId>)
    requires forall x :: x in cs ==> x in open
    ensures OpenOnly(cs, open) == cs
    decreases |cs|
  {
    if cs != [] {
      DropLast(cs);
      OpenOnlyKeepsAllOpen(cs[..|cs| - 1], open);
    }
  }

  /**
   * `POST /api/content` with an `html_content` body and data that has html
   * sets the content, sends the data and nothing else to every registered
   * OPEN client whose send does not throw (there is no sender to skip), and
   * deletes exactly the OPEN clients whose send throws; with data that
   * lacks html the content is already cleared when reading its length throws,
   * so it answers 500 and sends nothing; without data it answers 400 and
   * changes nothing.
   */
  lemma {:induction false} PostContentRoutesToBroadcast(s: RelayState, tag: string, data: Option<Payload>, w: World)
    ensures var p := PostContent(s, tag, data, w);
            && (tag != "html_content" || data.None? ==> p == Posted(Transition(s, []), 400))
            && (tag == "html_content" && data.Some? && data.value.html.Some? ==>
                  && p.status == 200
                  && p.effect.state.content == data.value.html
                  && (forall d :: d in p.effect.sent ==> d.env == PostedHtml(data.value))
                  && (forall c :: Delivery(c, PostedHtml(data.value)) in p.effect.sent
                        <==> c in s.clients && c in w.open && c !in w.failing)
                  && (forall c :: c in p.effect.state.clients
                        <==> c in s.clients && !(c in w.open && c in w.failing)))
            && (tag == "html_content" && data.Some? && data.value.html.None? ==>
                  && p.status == 500
                  && p.effect.state == s.(content := None)
                  && p.effect.sent == [])
  {
    if tag == "html_content" && data.Some? && data.value.html.Some? {
      forall c ensures Delivery(c, PostedHtml(data.value)) in PostContent(s, tag, data, w).effect.sent
                       <==> c in s.clients && c in w.open && c !in w.failing {
        DeliveredIff(s.clients, PostedHtml(data.value), None, w, c);
      }
    }
  }

  // ---------------------------------------------------------------------------
  // The server object
  // ---------------------------------------------------------------------------

  /** The module-level state of app.js, with the record of every send made. */
  class RelayServer {
    var content: Option<string>
    var clients: seq<ClientId>
    var outbox: seq<Delivery>

    ghost predicate Valid()
      reads this
    {
      Distinct(clients)
    }

    function State(): RelayState
      reads this
    {
      RelayState(content, clients)
    }

    constructor ()
      ensures Valid()
      ensures content == Some("") && clients == [] && outbox == []
    {
      content := Some("");
      clients := [];
      outbox := [];
    }

    /** `broadcastToWebSocketClients`: iterates the clients, deleting each one whose send throws. */
    method Broadcast(env: Envelope, sender: Option<ClientId>, w: World) returns (broadcastCount: nat)
      requires Valid()
      modifies this
      ensures Valid()
      ensures State() == BroadcastStep(old(State()), env, sender, w).state
      ensures outbox == old(outbox) + BroadcastStep(old(State()), env, sender, w).sent
      ensures broadcastCount == |BroadcastStep(old(State()), env, sender, w).sent|
    {
      var snapshot := clients;
      broadcastCount := 0;
      var i := 0;
      BroadcastLoopEntry(snapshot, env, sender, w, old(outbox));
      while i < |snapshot|
        invariant 0 <= i <= |snapshot|
        invariant content == old(content)
        invariant clients == Without(snapshot[..i], Failed(sender, w)) + snapshot[i..]
        invariant outbox == old(outbox) + Deliveries(snapshot[..i], env, sender, w)
        invariant broadcastCount == |Deliveries(snapshot[..i], env, sender, w)|
      {
        var sent;
        sent, i := AttemptAt(snapshot, i, env, sender, w, old(outbox));
        if sent {
          broadcastCount := broadcastCount + 1;
        }
      }
      BroadcastLoopExit(snapshot, Failed(sender, w));
    }

    /** One turn of the broadcast's `forEach`: the callback for `snapshot[i]`, advancing the loop's invariants by one client. */
    method AttemptAt(snapshot: seq<ClientId>, i: nat, env: Envelope, sender: Option<ClientId>, w: World,
                     ghost base: seq<Delivery>) returns (sent: bool, next: nat)
      requires Distinct(snapshot) && i < |snapshot|
      requires clients == Without(snapshot[..i], Failed(sender, w)) + snapshot[i..]
      requires outbox == base + Deliveries(snapshot[..i], env, sender, w)
      modifies this
      ensures next == i + 1 && content == old(content)
      ensures clients == Without(snapshot[..next], Failed(sender, w)) + snapshot[next..]
      ensures outbox == base + Deliveries(snapshot[..next], env, sender, w)
      ensures |Deliveries(snapshot[..next], env, sender, w)| == |Deliveries(snapshot[..i], env, sender, w)| + (if sent then 1 else 0)
    {
      next := i + 1;
      LiveStepAt(snapshot, i, sender, w);
      SentStepAt(snapshot, i, env, sender, w, outbox, base);
      sent := BroadcastTo(snapshot[i], env, sender, w);
    }

    /** The `forEach` callback of a broadcast, for client `c`: skipped, sent to, or deleted when its send throws. */
    method BroadcastTo(c: ClientId, env: Envelope, sender: Option<ClientId>, w: World) returns (sent: bool)
      modifies this
      ensures content == old(content)
      ensures sent <==> Eligible(c, sender, w) && c !in w.failing
      ensures outbox == old(outbox) + SendOf(c, env, sender, w)
      ensures |SendOf(c, env, sender, w)| == if sent then 1 else 0
      ensures clients == AfterAttempt(old(clients), c, sender, w)
    {
      sent := false;
      if Some(c) != sender && c in w.open {
        if c !in w.failing {
          outbox := outbox + [Delivery(c, env)];
          sent := true;
        } else {
          clients := Delete(clients, c);
        }
      }
    }

    /** A new WebSocket connection. */
    method Connect(c: ClientId, w: World)
      requires Valid()
      modifies this
      ensures Valid()
      ensures State() == Join(old(State()), c, w).state
      ensures outbox == old(outbox) + Join(old(State()), c, w).sent
    {
      if c !in clients {
        clients := clients + [c];
      }
      if content.Some? && content.value != "" {
        if c !in w.failing {
          outbox := outbox + [Delivery(c, Replay(content.value, w.now))];
        }
      }
    }

    /** A `message` event from client `from`. */
    method OnMessage(from: ClientId, raw: Inbound, w: World)
      requires Valid()
      modifies this
      ensures Valid()
      ensures State() == Handle(old(State()), from, raw, w).state
      ensures outbox == old(outbox) + Handle(old(State()), from, raw, w).sent
    {
      if raw.Unparseable? {
        return;
      }
      var m := raw.msg;
      var count: nat;
      if m.tag == "html_content" {
        if m.data.Some? {
          content := m.data.value.html;
          if content.Some? {
            count := Broadcast(Forwarded(m), Some(from), w);
          }
        }
      } else if m.tag == "user_message" {
        count := Broadcast(UserMessage(m.data, w.now), Some(from), w);
      } else if m.tag == "test" {
        count := Broadcast(TestResponse(m.content, w.now), Some(from), w);
      } else if m.tag == "debug" {
        SendReply(from, DebugResponse(w.now), w);
      } else if m.tag == "ping" {
        SendReply(from, Pong(w.now), w);
      } else if m.tag == "clear_content" {
        content := Some("");
        var at := if m.timestamp.Some? && m.timestamp.value != 0 then m.timestamp.value else w.now;
        count := Broadcast(ClearContent(at), None, w);
      } else if m.tag == "sync_clear_timestamp" {
        count := Broadcast(SyncClearTimestamp(m.timestamp), None, w);
      }
    }

    /** `ws.send` straight to one client, its throw caught by the message handler. */
    method SendReply(to: ClientId, env: Envelope, w: World)
      modifies this
      ensures State() == old(State())
      ensures outbox == old(outbox) + Reply(old(State()), to, env, w).sent
    {
      if to !in w.failing {
        outbox := outbox + [Delivery(to, env)];
      }
    }

    /** A `close` or `error` event of client `c`. */
    method Disconnect(c: ClientId)
      requires Valid()
      modifies this
      ensures Valid()
      ensures State() == Leave(old(State()), c)
      ensures outbox == old(outbox)
    {
      WithoutDistinct(clients, {c});
      clients := Delete(clients, c);
    }

    /** The interval body: collects the OPEN clients into a new set and adopts it when the sizes differ. */
    method PruneTick(w: World)
      requires Valid()
      modifies this
      ensures Valid()
      ensures State() == Prune(old(State()), w)
      ensures outbox == old(outbox)
    {
      var activeClients: seq<ClientId> := [];
      var i := 0;
      while i < |clients|
        invariant 0 <= i <= |clients|
        invariant activeClients == OpenOnly(clients[..i], w.open)
      {
        assert clients[..i + 1] == clients[..i] + [clients[i]];
        if clients[i] in w.open {
          activeClients := activeClients + [clients[i]];
        }
        i := i + 1;
      }
      assert clients[..i] == clients;
      OpenOnlyDistinct(clients, w.open);
      if |clients| != |activeClients| {
        clients := activeClients;
      } else {
        OpenOnlyFull(clients, w.open);
      }
    }

    /** The `POST /api/content` route. */
    method HandlePost(tag: string, data: Option<Payload>, w: World) returns (status: int)
      requires Valid()
      modifies this
      ensures Valid()
      ensures State() == PostContent(old(State()), tag, data, w).effect.state
      ensures outbox == old(outbox) + PostContent(old(State()), tag, data, w).effect.sent
      ensures status == PostContent(old(State()), tag, data, w).status
    {
      if tag == "html_content" && data.Some? {
        content := data.value.html;
        if content.None? {
          return 500;
        }
        var count := Broadcast(PostedHtml(data.value), None, w);
        status := 200;
      } else {
        status := 400;
      }
    }
  }
}
