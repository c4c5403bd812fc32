/** The per-connection server protocol (StompMessagingProtocolImpl.java): what `process` does to
    the session and the shared registry, and the class that does it in place. */
module StompProtocols {
  import opened Text
  import opened StompFrames
  import opened Connections

  datatype Session = Session(connected: bool, terminate: bool, subs: map<int, string>)

  datatype Served = Served(reg: Registry, session: Session)

  function Header(f: Frame, key: string): Option<string> {
    if key in f.headers then Some(f.headers[key]) else None
  }

  function ConnectedFrame(): Frame {
    Frame("CONNECTED", map["version" := "1.2"], "")
  }

  function ReceiptFrame(id: string): Frame {
    Frame("RECEIPT", map["receipt-id" := id], "")
  }

  function MessageFrame(topic: string, subscription: int, messageId: int, body: string): Frame {
    Frame("MESSAGE",
          map["destination" := topic, "subscription" := Decimal(subscription), "message-id" := Decimal(messageId)],
          body)
  }

  /** `shown` is the text of the offending frame, in whatever order its headers enumerate. */
  function ErrorFrame(reason: string, receipt: Option<string>, shown: string): Frame {
    Frame("ERROR",
          if receipt.Some? then map["message" := " " + reason, "receipt-id" := receipt.value]
          else map["message" := " " + reason],
          "The message:\n" + "-----\n" + shown + "\n" + "-----\n" + "Reason: " + reason)
  }

  function SendError(v: Served, c: nat, reason: string, f: Frame, shown: string): Served {
    Served(Send(v.reg, c, ErrorFrame(reason, Header(f, "receipt"), shown)), v.session.(terminate := true))
  }

  function SendReceipt(r: Registry, c: nat, receipt: Option<string>): Registry {
    if receipt.Some? then Send(r, c, ReceiptFrame(receipt.value)) else r
  }

  /** clientSubscriptions.containsValue. */
  predicate HasTopic(subs: map<int, string>, topic: string) {
    exists k :: k in subs && subs[k] == topic
  }

  /** What a frame amounts to, given the session and the registry. */
  datatype Verdict =
    | Reject(reason: string)
    | LogIn(user: string, password: string)
    | Subscribe(topic: string, id: int)
    | Unsubscribe(id: int)
    | Relay(topic: string)
    | LogOut

  /** What every verdict but a rejection has checked. */
  predicate Justified(v: Served, d: Verdict) {
    match d
    case Reject(_) => true
    case LogIn(user, password) => !v.session.connected && !IsUserActive(v.reg, user) && Accepts(v.reg, user, password)
    case Subscribe(_, _) => v.session.connected
    case Unsubscribe(id) => v.session.connected && id in v.session.subs
    case Relay(topic) => v.session.connected && HasTopic(v.session.subs, topic)
    case LogOut => v.session.connected
  }

  function JudgeConnect(v: Served, f: Frame): (d: Verdict)
    ensures Justified(v, d)
  {
    var login, passcode := Header(f, "login"), Header(f, "passcode");
    if v.session.connected then Reject("User already logged in")
    else if Header(f, "accept-version").None? || login.None? || passcode.None? || Header(f, "host").None? then
      Reject("Missing required headers in CONNECT. Required: accept-version, login, passcode, host")
    else JudgeLogin(v, login.value, passcode.value)
  }

  function JudgeLogin(v: Served, login: string, passcode: string): (d: Verdict)
    requires !v.session.connected
    ensures Justified(v, d)
  {
    if IsUserActive(v.reg, login) then Reject("User already logged in")
    else if !Accepts(v.reg, login, passcode) then Reject("Invalid password for user: " + login)
    else LogIn(login, passcode)
  }

  predicate LacksConnectHeader(f: Frame) {
    "accept-version" !in f.headers || "login" !in f.headers || "passcode" !in f.headers || "host" !in f.headers
  }

  lemma ConnectVerdict(v: Served, f: Frame)
    ensures v.session.connected ==> JudgeConnect(v, f) == Reject("User already logged in")
    ensures !v.session.connected && LacksConnectHeader(f) ==>
              JudgeConnect(v, f) == Reject("Missing required headers in CONNECT. Required: accept-version, login, passcode, host")
    ensures !LacksConnectHeader(f) ==> "login" in f.headers && "passcode" in f.headers
    ensures !v.session.connected && !LacksConnectHeader(f) ==>
              JudgeConnect(v, f) == JudgeLogin(v, f.headers["login"], f.headers["passcode"])
  {
    hide JudgeLogin;
  }

  function JudgeDisconnect(v: Served, f: Frame): (d: Verdict)
    ensures Justified(v, d)
  {
    if !v.session.connected then Reject("User is already disconnected.") else LogOut
  }

  function JudgeSubscribe(v: Served, f: Frame): (d: Verdict)
    ensures Justified(v, d)
  {
    var topic, id := Header(f, "destination"), Header(f, "id");
    if !v.session.connected then Reject("SUBSCRIBE received before CONNECT")
    else if topic.None? || id.None? then Reject("Missing required headers in SUBSCRIBE. Required: destination, id")
    else if ParseInt(id.value).None? then Reject("Invalid subscription ID format: " + id.value)
    else Subscribe(topic.value, ParseInt(id.value).value)
  }

  function JudgeUnsubscribe(v: Served, f: Frame): (d: Verdict)
    ensures Justified(v, d)
  {
    var id := Header(f, "id");
    if !v.session.connected then Reject("UNSUBSCRIBE received before CONNECT")
    else if id.None? then Reject("Missing `id` header in UNSUBSCRIBE")
    else if ParseInt(id.value).None? then Reject("Invalid subscription ID format: " + id.value)
    else if ParseInt(id.value).value !in v.session.subs then
      Reject("Attempted unsubscribing from a channel not subscribed to.")
    else Unsubscribe(ParseInt(id.value).value)
  }

  function JudgeSend(v: Served, f: Frame): (d: Verdict)
    ensures Justified(v, d)
  {
    var topic := Header(f, "destination");
    if !v.session.connected then Reject("SEND received before CONNECT")
    else if topic.None? then Reject("Missing destination header in SEND")
    else if !HasTopic(v.session.subs, topic.value) then
      Reject("You must be subscribed to topic " + topic.value + " to send messages.")
    else Relay(topic.value)
  }

  function Judge(v: Served, f: Frame): (d: Verdict)
    ensures Justified(v, d)
  {
    if f.command == "CONNECT" then JudgeConnect(v, f)
    else if f.command == "SEND" then JudgeSend(v, f)
    else if f.command == "SUBSCRIBE" then JudgeSubscribe(v, f)
    else if f.command == "UNSUBSCRIBE" then JudgeUnsubscribe(v, f)
    else if f.command == "DISCONNECT" then JudgeDisconnect(v, f)
    else Reject("Invalid command: " + f.command)
  }

  /** One MESSAGE for every subscriber that is registered, each with its own subscription id. */
  function FanOut(r: Registry, subscribers: map<nat, int>, topic: string, messageId: int, body: string): Registry {
    r.(outbox := map c | c in r.outbox.Keys + (subscribers.Keys * r.registered) ::
         Out(r, c) + Share(r, subscribers, c, topic, messageId, body))
  }

  /** The effect of a verdict on connection `c`'s session and on the registry. */
  function Act(v: Served, c: nat, f: Frame, d: Verdict, shown: string): Served
    requires Justified(v, d)
  {
    var receipt := Header(f, "receipt");
    match d
    case Reject(reason) => SendError(v, c, reason, f, shown)
    case LogIn(user, password) =>
      var r := Send(Authenticate(v.reg, c, user, password), c, ConnectedFrame());
      Served(SendReceipt(r, c, receipt), v.session.(connected := true))
    case Subscribe(topic, id) =>
      Served(SendReceipt(AddSubscription(v.reg, topic, c, id), c, receipt),
             v.session.(subs := v.session.subs[id := topic]))
    case Unsubscribe(id) =>
      Served(SendReceipt(RemoveSubscription(v.reg, v.session.subs[id], c), c, receipt),
             v.session.(subs := v.session.subs - {id}))
    case Relay(topic) =>
      var r := v.reg.(counter := NextInt(v.reg.counter));
      v.(reg := FanOut(r, Subscribers(r, topic), topic, r.counter, f.body))
    case LogOut =>
      var r := SendReceipt(RemoveSubscriptions(v.reg, v.session.subs.Values, c), c, receipt);
      Served(Disconnect(r, c), v.session.(terminate := true, subs := map[]))
  }

  function Process(v: Served, c: nat, f: Frame, shown: string): Served {
    Act(v, c, f, Judge(v, f), shown)
  }

  /** The frames FanOut adds for connection `c`. */
  function Share(r: Registry, subscribers: map<nat, int>, c: nat, topic: string, messageId: int, body: string): seq<Frame> {
    if c in subscribers && c in r.registered then [MessageFrame(topic, subscribers[c], messageId, body)] else []
  }

  lemma FanOutAt(r: Registry, subscribers: map<nat, int>, c: nat, topic: string, messageId: int, body: string)
    ensures var r' := FanOut(r, subscribers, topic, messageId, body);
            && Out(r', c) == Out(r, c) + Share(r, subscribers, c, topic, messageId, body)
            && (c in r'.outbox <==> c in r.outbox || (c in subscribers && c in r.registered))
  {
  }

  lemma FanOutNone(r: Registry, topic: string, messageId: int, body: string)
    ensures FanOut(r, map[], topic, messageId, body) == r
  {
    var r' := FanOut(r, map[], topic, messageId, body);
    forall c | c in r.outbox ensures r'.outbox[c] == r.outbox[c] {
      FanOutAt(r, map[], c, topic, messageId, body);
    }
    assert r'.outbox == r.outbox;
  }

  lemma SendAt(r: Registry, c: nat, f: Frame, x: nat)
    ensures Out(Send(r, c, f), x) == Out(r, x) + (if x == c && c in r.registered then [f] else [])
    ensures x in Send(r, c, f).outbox <==> x in r.outbox || (x == c && c in r.registered)
  {
  }

  lemma ShareOneMore(r: Registry, done: map<nat, int>, c: nat, id: int, topic: string, messageId: int, body: string, x: nat)
    requires c !in done
    ensures Share(r, done[c := id], x, topic, messageId, body)
         == Share(r, done, x, topic, messageId, body)
            + (if x == c && c in r.registered then [MessageFrame(topic, id, messageId, body)] else [])
  {
  }

  lemma FanOutOneMoreAt(r: Registry, done: map<nat, int>, c: nat, id: int, topic: string, messageId: int, body: string, x: nat)
    requires c !in done
    ensures var sent := Send(FanOut(r, done, topic, messageId, body), c, MessageFrame(topic, id, messageId, body));
            var all := FanOut(r, done[c := id], topic, messageId, body);
            (x in sent.outbox <==> x in all.outbox) && Out(sent, x) == Out(all, x)
  {
    assert FanOut(r, done, topic, messageId, body).registered == r.registered;
    hide FanOut, Send, Share, MessageFrame, Out;
    FanOutAt(r, done, x, topic, messageId, body);
    FanOutAt(r, done[c := id], x, topic, messageId, body);
    SendAt(FanOut(r, done, topic, messageId, body), c, MessageFrame(topic, id, messageId, body), x);
    ShareOneMore(r, done, c, id, topic, messageId, body, x);
  }

  /** Sending to one more subscriber, in whatever order the map is walked. */
  lemma FanOutOneMore(r: Registry, done: map<nat, int>, c: nat, id: int, topic: string, messageId: int, body: string)
    requires c !in done
    ensures Send(FanOut(r, done, topic, messageId, body), c, MessageFrame(topic, id, messageId, body))
         == FanOut(r, done[c := id], topic, messageId, body)
  {
    var m := MessageFrame(topic, id, messageId, body);
    var r1 := FanOut(r, done, topic, messageId, body);
    var r2 := FanOut(r, done[c := id], topic, messageId, body);
    forall x: nat ensures (x in Send(r1, c, m).outbox <==> x in r2.outbox) && Out(Send(r1, c, m), x) == Out(r2, x) {
      FanOutOneMoreAt(r, done, c, id, topic, messageId, body, x);
    }
    SameOutbox(Send(r1, c, m), r2);
  }

  lemma SameOutbox(r: Registry, r': Registry)
    requires forall x: nat :: (x in r.outbox <==> x in r'.outbox) && Out(r, x) == Out(r', x)
    ensures r.outbox == r'.outbox
  {
    forall x: nat ensures (x in r.outbox <==> x in r'.outbox) && (x in r.outbox ==> r.outbox[x] == r'.outbox[x]) {
      assert Out(r, x) == Out(r', x);
    }
  }

  /** Every frame has some text. */
  lemma SomeText(f: Frame) returns (text: string)
    ensures IsServerText(text, f)
  {
    var order := SomeOrder(f.headers.Keys);
    text := Layout(f, order, Relayed(f.body)) + [NUL];
  }

  lemma SomeClientText(f: Frame) returns (text: string)
    ensures IsClientText(text, f)
  {
    var order := SomeOrder(f.headers.Keys);
    text := Layout(f, order, f.body);
  }

  lemma SomeOrder(keys: set<string>) returns (order: seq<string>)
    ensures forall i, j :: 0 <= i < j < |order| ==> order[i] != order[j]
    ensures forall k :: k in order <==> k in keys
    decreases |keys|
  {
    if keys == {} {
      order := [];
    } else {
      var k :| k in keys;
      order := SomeOrder(keys - {k});
      order := order + [k];
    }
  }

  /** What a connection handler's constructor does: register the connection and start its
      protocol. */
  method OpenConnection(connectionId: nat, connections: ConnectionsImpl) returns (protocol: StompMessagingProtocolImpl)
    modifies connections
    ensures fresh(protocol) && protocol.connectionId == connectionId && protocol.connections == connections
    ensures protocol.View() == Served(Register(old(connections.View()), connectionId), Session(false, false, map[]))
  {
    connections.RegisterClient(connectionId);
    protocol := new StompMessagingProtocolImpl(connectionId, connections);
  }

  class StompMessagingProtocolImpl {
    const connectionId: nat
    const connections: ConnectionsImpl
    var shouldTerminate: bool
    var connected: bool
    var clientSubscriptions: map<int, string>

    constructor (connectionId: nat, connections: ConnectionsImpl)
      ensures this.connectionId == connectionId && this.connections == connections
      ensures View() == Served(connections.View(), Session(false, false, map[]))
    {
      this.connectionId, this.connections := connectionId, connections;
      shouldTerminate, connected, clientSubscriptions := false, false, map[];
    }

    function View(): Served
      reads this, connections
    {
      Served(connections.View(), Session(connected, shouldTerminate, clientSubscriptions))
    }

    /** `shown` is the rendering an ERROR frame embeds, if one is sent. */
    method ProcessFrame(message: Frame) returns (ghost shown: string)
      modifies this, connections
      ensures IsServerText(shown, message)
      ensures View() == Process(old(View()), connectionId, message, shown)
    {
      if message.command == "CONNECT" {
        shown := HandleConnectFrame(message);
      } else if message.command == "SEND" {
        shown := HandleSendFrame(message);
      } else if message.command == "SUBSCRIBE" {
        shown := HandleSubscribeFrame(message);
      } else if message.command == "UNSUBSCRIBE" {
        shown := HandleUnsubscribeFrame(message);
      } else if message.command == "DISCONNECT" {
        shown := HandleDisconnectFrame(message);
      } else {
        shown := SendErrorFrame("Invalid command: " + message.command, message);
      }
    }

    method SendErrorFrame(reason: string, message: Frame) returns (ghost shown: string)
      modifies this, connections
      ensures IsServerText(shown, message)
      ensures View() == SendError(old(View()), connectionId, reason, message, shown)
    {
      var text := ToString(message);
      shown := text;
      var frame := ErrorFrame(reason, Header(message, "receipt"), text);
      var _ := connections.SendTo(connectionId, frame);
      shouldTerminate := true;
    }

    method SendReceiptIfRequested(receipt: Option<string>)
      modifies connections
      ensures connections.View() == SendReceipt(old(connections.View()), connectionId, receipt)
    {
      if receipt.Some? {
        var _ := connections.SendTo(connectionId, ReceiptFrame(receipt.value));
      }
    }

    method MissesConnectHeader(message: Frame) returns (missing: bool)
      ensures missing <==> LacksConnectHeader(message)
    {
      missing := Header(message, "accept-version").None? || Header(message, "login").None?
              || Header(message, "passcode").None? || Header(message, "host").None?;
    }

    method HandleConnectFrame(message: Frame) returns (ghost shown: string)
      modifies this, connections
      ensures IsServerText(shown, message)
      ensures View() == Act(old(View()), connectionId, message, JudgeConnect(old(View()), message), shown)
    {
      hide Act, JudgeConnect, JudgeLogin, SendError, IsServerText, LacksConnectHeader;
      ghost var v := View();
      ConnectVerdict(v, message);
      if connected {
        shown := RejectFrame("User already logged in", message);
        return;
      }
      var missing := MissesConnectHeader(message);
      if missing {
        shown := RejectFrame("Missing required headers in CONNECT. Required: accept-version, login, passcode, host", message);
        return;
      }
      shown := LogIn(message, message.headers["login"], message.headers["passcode"]);
    }

    method RejectFrame(reason: string, message: Frame) returns (ghost shown: string)
      modifies this, connections
      ensures IsServerText(shown, message)
      ensures View() == Act(old(View()), connectionId, message, Reject(reason), shown)
    {
      shown := SendErrorFrame(reason, message);
    }

    method LogIn(message: Frame, login: string, passcode: string) returns (ghost shown: string)
      requires !connected
      modifies this, connections
      ensures IsServerText(shown, message)
      ensures View() == Act(old(View()), connectionId, message, JudgeLogin(old(View()), login, passcode), shown)
    {
      if IsUserActive(connections.View(), login) {
        shown := SendErrorFrame("User already logged in", message);
        return;
      }
      var ok := connections.AuthenticateUser(connectionId, login, passcode);
      if !ok {
        shown := SendErrorFrame("Invalid password for user: " + login, message);
        return;
      }
      Welcome(Header(message, "receipt"));
      shown := SomeText(message);
    }

    method Welcome(receipt: Option<string>)
      modifies this, connections
      ensures View() == Served(SendReceipt(Send(old(View()).reg, connectionId, ConnectedFrame()), connectionId, receipt),
                               old(View()).session.(connected := true))
    {
      connected := true;
      var _ := connections.SendTo(connectionId, ConnectedFrame());
      SendReceiptIfRequested(receipt);
    }

    method HandleDisconnectFrame(message: Frame) returns (ghost shown: string)
      modifies this, connections
      ensures IsServerText(shown, message)
      ensures View() == Act(old(View()), connectionId, message, JudgeDisconnect(old(View()), message), shown)
    {
      if !connected {
        shown := SendErrorFrame("User is already disconnected.", message);
        return;
      }
      shouldTerminate := true;
      RemoveAllSubscriptions(clientSubscriptions.Values);
      clientSubscriptions := map[];
      SendReceiptIfRequested(Header(message, "receipt"));
      connections.DisconnectClient(connectionId);
      shown := SomeText(message);
    }

    /** The loop over the client's topics; removing a topic twice is harmless. */
    method RemoveAllSubscriptions(topics: set<string>)
      modifies connections
      ensures connections.View() == RemoveSubscriptions(old(connections.View()), topics, connectionId)
    {
      var left := topics;
      assert RemoveSubscriptions(connections.View(), topics - left, connectionId).topics == connections.View().topics;
      while left != {}
        invariant left <= topics
        invariant connections.View() == RemoveSubscriptions(old(connections.View()), topics - left, connectionId)
        decreases left
      {
        var t :| t in left;
        connections.RemoveClientSubscription(t, connectionId);
        RemoveOneMore(old(connections.View()), topics - left, t, connectionId);
        assert topics - (left - {t}) == topics - left + {t};
        left := left - {t};
      }
      assert topics - left == topics;
    }

    method HandleSubscribeFrame(message: Frame) returns (ghost shown: string)
      modifies this, connections
      ensures IsServerText(shown, message)
      ensures View() == Act(old(View()), connectionId, message, JudgeSubscribe(old(View()), message), shown)
    {
      if !connected {
        shown := SendErrorFrame("SUBSCRIBE received before CONNECT", message);
        return;
      }
      var topic, id := Header(message, "destination"), Header(message, "id");
      if topic.None? || id.None? {
        shown := SendErrorFrame("Missing required headers in SUBSCRIBE. Required: destination, id", message);
        return;
      }
      var subscriptionId := ParseInt(id.value);
      if subscriptionId.None? {
        shown := SendErrorFrame("Invalid subscription ID format: " + id.value, message);
        return;
      }
      clientSubscriptions := clientSubscriptions[subscriptionId.value := topic.value];
      connections.AddClientSubscription(topic.value, connectionId, subscriptionId.value);
      SendReceiptIfRequested(Header(message, "receipt"));
      shown := SomeText(message);
    }

    method HandleUnsubscribeFrame(message: Frame) returns (ghost shown: string)
      modifies this, connections
      ensures IsServerText(shown, message)
      ensures View() == Act(old(View()), connectionId, message, JudgeUnsubscribe(old(View()), message), shown)
    {
      if !connected {
        shown := SendErrorFrame("UNSUBSCRIBE received before CONNECT", message);
        return;
      }
      var id := Header(message, "id");
      if id.None? {
        shown := SendErrorFrame("Missing `id` header in UNSUBSCRIBE", message);
        return;
      }
      var subscriptionId := ParseInt(id.value);
      if subscriptionId.None? {
        shown := SendErrorFrame("Invalid subscription ID format: " + id.value, message);
        return;
      }
      if subscriptionId.value !in clientSubscriptions {
        shown := SendErrorFrame("Attempted unsubscribing from a channel not subscribed to.", message);
        return;
      }
      var topic := clientSubscriptions[subscriptionId.value];
      clientSubscriptions := clientSubscriptions - {subscriptionId.value};
      connections.RemoveClientSubscription(topic, connectionId);
      SendReceiptIfRequested(Header(message, "receipt"));
      shown := SomeText(message);
    }

    method SendToAll(subscribers: map<nat, int>, topic: string, messageId: int, body: string)
      modifies connections
      ensures connections.View() == FanOut(old(connections.View()), subscribers, topic, messageId, body)
    {
      ghost var r := connections.View();
      var left := subscribers;
      ghost var done: map<nat, int> := map[];
      FanOutNone(r, topic, messageId, body);
      while left != map[]
        invariant left.Keys <= subscribers.Keys
        invariant done == subscribers - left.Keys && left == subscribers - done.Keys
        invariant connections.View() == FanOut(r, done, topic, messageId, body)
        decreases left.Keys
      {
        var c: nat :| c in left;
        var frame := MessageFrame(topic, left[c], messageId, body);
        FanOutOneMore(r, done, c, left[c], topic, messageId, body);
        var _ := connections.SendTo(c, frame);
        done := done[c := left[c]];
        left := left - {c};
      }
      assert done == subscribers;
    }

    method HandleSendFrame(message: Frame) returns (ghost shown: string)
      modifies this, connections
      ensures IsServerText(shown, message)
      ensures View() == Act(old(View()), connectionId, message, JudgeSend(old(View()), message), shown)
    {
      if !connected {
        shown := SendErrorFrame("SEND received before CONNECT", message);
        return;
      }
      var topic := Header(message, "destination");
      if topic.None? {
        shown := SendErrorFrame("Missing destination header in SEND", message);
        return;
      }
      if !HasTopic(clientSubscriptions, topic.value) {
        shown := SendErrorFrame("You must be subscribed to topic " + topic.value + " to send messages.", message);
        return;
      }
      var messageId := connections.GetNextMessageId();
      var subscribers := Subscribers(connections.View(), topic.value);
      SendToAll(subscribers, topic.value, messageId, message.body);
      shown := SomeText(message);
    }
  }
}
