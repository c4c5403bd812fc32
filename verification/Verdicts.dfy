/** What the server's verdicts mean for its clients: exactly which frames are accepted, that a
    rejected frame changes nothing, and that a log-out leaves no trace. */
module Verdicts {
  import opened Text
  import opened StompFrames
  import opened Connections
  import opened StompProtocols
  import S = ServerRuns
  import K = Clients

  predicate HasAll(f: Frame, keys: set<string>) {
    keys <= f.headers.Keys
  }

  /** The frame asks for `d` with everything it takes, in whatever order that is checked. */
  predicate Accepted(v: Served, f: Frame, d: Verdict) {
    match d
    case Reject(_) => false
    case LogIn(user, password) =>
      && f.command == "CONNECT" && ConnectKeys(f)
      && f.headers["login"] == user && f.headers["passcode"] == password
      && !v.session.connected && user !in v.reg.active.Values && (user in v.reg.users ==> v.reg.users[user] == password)
    case Subscribe(topic, id) =>
      && f.command == "SUBSCRIBE" && HasAll(f, {"destination", "id"}) && v.session.connected
      && f.headers["destination"] == topic && ParseInt(f.headers["id"]) == Some(id)
    case Unsubscribe(id) =>
      && f.command == "UNSUBSCRIBE" && HasAll(f, {"id"}) && v.session.connected
      && ParseInt(f.headers["id"]) == Some(id) && id in v.session.subs
    case Relay(topic) =>
      && f.command == "SEND" && HasAll(f, {"destination"}) && v.session.connected
      && f.headers["destination"] == topic && HasTopic(v.session.subs, topic)
    case LogOut => f.command == "DISCONNECT" && v.session.connected
  }

  lemma ConnectHeaders(f: Frame)
    ensures HasAll(f, {"accept-version", "host", "login", "passcode"})
       <==> Header(f, "accept-version").Some? && Header(f, "host").Some? && Header(f, "login").Some? && Header(f, "passcode").Some?
  {
  }

  lemma LoginIff(v: Served, login: string, passcode: string, d: Verdict)
    requires !v.session.connected && !d.Reject?
    ensures JudgeLogin(v, login, passcode) == d
       <==> d == LogIn(login, passcode) && login !in v.reg.active.Values && (login in v.reg.users ==> v.reg.users[login] == passcode)
  {
    assert IsUserActive(v.reg, login) <==> login in v.reg.active.Values;
  }

  predicate ConnectKeys(f: Frame) {
    HasAll(f, {"accept-version", "host", "login", "passcode"})
  }

  lemma ConnectChecks(v: Served, f: Frame)
    ensures v.session.connected || !ConnectKeys(f) ==> JudgeConnect(v, f).Reject?
    ensures !v.session.connected && ConnectKeys(f) ==>
              && "login" in f.headers && "passcode" in f.headers
              && JudgeConnect(v, f) == JudgeLogin(v, f.headers["login"], f.headers["passcode"])
  {
    hide HasAll, JudgeLogin;
    ConnectHeaders(f);
  }

  lemma OnlyLogIn(v: Served, f: Frame, d: Verdict)
    requires f.command == "CONNECT" && Accepted(v, f, d)
    ensures d.LogIn?
  {
  }

  lemma ConnectIff(v: Served, f: Frame, d: Verdict)
    requires f.command == "CONNECT" && !d.Reject?
    ensures JudgeConnect(v, f) == d <==> Accepted(v, f, d)
  {
    hide HasAll, JudgeLogin, JudgeConnect;
    ConnectChecks(v, f);
    if !v.session.connected && ConnectKeys(f) {
      LoginIff(v, f.headers["login"], f.headers["passcode"], d);
    }
    if !d.LogIn? && Accepted(v, f, d) {
      OnlyLogIn(v, f, d);
    }
  }

  lemma SubscribeIff(v: Served, f: Frame, d: Verdict)
    requires f.command == "SUBSCRIBE" && !d.Reject?
    ensures JudgeSubscribe(v, f) == d <==> Accepted(v, f, d)
  {
  }

  lemma UnsubscribeIff(v: Served, f: Frame, d: Verdict)
    requires f.command == "UNSUBSCRIBE" && !d.Reject?
    ensures JudgeUnsubscribe(v, f) == d <==> Accepted(v, f, d)
  {
  }

  lemma SendIff(v: Served, f: Frame, d: Verdict)
    requires f.command == "SEND" && !d.Reject?
    ensures JudgeSend(v, f) == d <==> Accepted(v, f, d)
  {
  }

  lemma DisconnectIff(v: Served, f: Frame, d: Verdict)
    requires f.command == "DISCONNECT" && !d.Reject?
    ensures JudgeDisconnect(v, f) == d <==> Accepted(v, f, d)
  {
  }

  lemma OtherCommandsRejected(v: Served, f: Frame, d: Verdict)
    requires f.command !in {"CONNECT", "SEND", "SUBSCRIBE", "UNSUBSCRIBE", "DISCONNECT"}
    ensures Judge(v, f).Reject? && !Accepted(v, f, d)
  {
  }

  lemma JudgeByCommand(v: Served, f: Frame)
    ensures f.command == "CONNECT" ==> Judge(v, f) == JudgeConnect(v, f)
    ensures f.command == "SEND" ==> Judge(v, f) == JudgeSend(v, f)
    ensures f.command == "SUBSCRIBE" ==> Judge(v, f) == JudgeSubscribe(v, f)
    ensures f.command == "UNSUBSCRIBE" ==> Judge(v, f) == JudgeUnsubscribe(v, f)
    ensures f.command == "DISCONNECT" ==> Judge(v, f) == JudgeDisconnect(v, f)
  {
    hide JudgeConnect, JudgeSend, JudgeSubscribe, JudgeUnsubscribe, JudgeDisconnect;
  }

  /** A frame is acted on as `d` if and only if it is an acceptable request for `d`. */
  lemma AcceptedIff(v: Served, f: Frame, d: Verdict)
    requires !d.Reject?
    ensures Judge(v, f) == d <==> Accepted(v, f, d)
  {
    hide Accepted, Judge, JudgeConnect, JudgeSend, JudgeSubscribe, JudgeUnsubscribe, JudgeDisconnect;
    JudgeByCommand(v, f);
    if f.command == "CONNECT" {
      ConnectIff(v, f, d);
    } else if f.command == "SEND" {
      SendIff(v, f, d);
    } else if f.command == "SUBSCRIBE" {
      SubscribeIff(v, f, d);
    } else if f.command == "UNSUBSCRIBE" {
      UnsubscribeIff(v, f, d);
    } else if f.command == "DISCONNECT" {
      DisconnectIff(v, f, d);
    } else {
      OtherCommandsRejected(v, f, d);
    }
  }

  lemma OwnConnect(user: string, password: string)
    ensures var f := K.RequestFrame(K.Connect(user, password));
            f.command == "CONNECT" && ConnectKeys(f) && f.headers["login"] == user && f.headers["passcode"] == password
            && f.headers["accept-version"] == "1.2" && f.headers["host"] == "stomp.cs.bgu.ac.il"
  {
  }

  lemma OwnReport(channel: string, body: string)
    ensures var f := K.RequestFrame(K.Report(channel, body));
            f.command == "SEND" && HasAll(f, {"destination"}) && f.headers["destination"] == channel && f.body == body
  {
  }

  /** The CONNECT and the reports of a shipped client get what they ask for exactly when nobody is
      active as the user and the password is not another than the stored one, and when the client
      is subscribed to the channel. */
  lemma OwnRequestsIff(v: Served, user: string, password: string, channel: string, body: string)
    ensures Judge(v, K.RequestFrame(K.Connect(user, password))) == LogIn(user, password)
       <==> !v.session.connected && user !in v.reg.active.Values && (user in v.reg.users ==> v.reg.users[user] == password)
    ensures Judge(v, K.RequestFrame(K.Report(channel, body))) == Relay(channel)
       <==> v.session.connected && exists id :: id in v.session.subs && v.session.subs[id] == channel
  {
    hide Judge, K.RequestFrame, HasAll;
    OwnConnect(user, password);
    OwnReport(channel, body);
    AcceptedIff(v, K.RequestFrame(K.Connect(user, password)), LogIn(user, password));
    AcceptedIff(v, K.RequestFrame(K.Report(channel, body)), Relay(channel));
  }

  // ---------- why a frame is rejected ----------

  predicate ConnectBecause(v: Served, f: Frame, reason: string) {
    if v.session.connected then reason == "User already logged in"
    else if !ConnectKeys(f) then
      reason == "Missing required headers in CONNECT. Required: accept-version, login, passcode, host"
    else if f.headers["login"] in v.reg.active.Values then reason == "User already logged in"
    else
      && f.headers["login"] in v.reg.users && v.reg.users[f.headers["login"]] != f.headers["passcode"]
      && reason == "Invalid password for user: " + f.headers["login"]
  }

  predicate SubscribeBecause(v: Served, f: Frame, reason: string) {
    if !v.session.connected then reason == "SUBSCRIBE received before CONNECT"
    else if !HasAll(f, {"destination", "id"}) then reason == "Missing required headers in SUBSCRIBE. Required: destination, id"
    else ParseInt(f.headers["id"]).None? && reason == "Invalid subscription ID format: " + f.headers["id"]
  }

  predicate UnsubscribeBecause(v: Served, f: Frame, reason: string) {
    if !v.session.connected then reason == "UNSUBSCRIBE received before CONNECT"
    else if !HasAll(f, {"id"}) then reason == "Missing `id` header in UNSUBSCRIBE"
    else
      match ParseInt(f.headers["id"])
      case None => reason == "Invalid subscription ID format: " + f.headers["id"]
      case Some(id) => id !in v.session.subs && reason == "Attempted unsubscribing from a channel not subscribed to."
  }

  predicate SendBecause(v: Served, f: Frame, reason: string) {
    if !v.session.connected then reason == "SEND received before CONNECT"
    else if !HasAll(f, {"destination"}) then reason == "Missing destination header in SEND"
    else
      && !HasTopic(v.session.subs, f.headers["destination"])
      && reason == "You must be subscribed to topic " + f.headers["destination"] + " to send messages."
  }

  /** The cause of a rejection, on frame, session and registry, and the words for it. */
  predicate Because(v: Served, f: Frame, reason: string) {
    if f.command == "CONNECT" then ConnectBecause(v, f, reason)
    else if f.command == "SUBSCRIBE" then SubscribeBecause(v, f, reason)
    else if f.command == "UNSUBSCRIBE" then UnsubscribeBecause(v, f, reason)
    else if f.command == "SEND" then SendBecause(v, f, reason)
    else if f.command == "DISCONNECT" then !v.session.connected && reason == "User is already disconnected."
    else reason == "Invalid command: " + f.command
  }

  lemma LoginBecause(v: Served, login: string, passcode: string, reason: string)
    requires !v.session.connected
    ensures JudgeLogin(v, login, passcode) == Reject(reason)
       <==> if login in v.reg.active.Values then reason == "User already logged in"
            else login in v.reg.users && v.reg.users[login] != passcode && reason == "Invalid password for user: " + login
  {
    assert IsUserActive(v.reg, login) <==> login in v.reg.active.Values;
  }

  lemma ConnectReason(v: Served, f: Frame, reason: string)
    ensures JudgeConnect(v, f) == Reject(reason) <==> ConnectBecause(v, f, reason)
  {
    hide JudgeLogin, JudgeConnect, LacksConnectHeader;
    ConnectVerdict(v, f);
    KeysComplete(f);
    if !v.session.connected && ConnectKeys(f) {
      LoginBecause(v, f.headers["login"], f.headers["passcode"], reason);
    }
  }

  lemma KeysComplete(f: Frame)
    ensures ConnectKeys(f) <==> !LacksConnectHeader(f)
  {
  }

  lemma SubscribeReason(v: Served, f: Frame, reason: string)
    ensures JudgeSubscribe(v, f) == Reject(reason) <==> SubscribeBecause(v, f, reason)
  {
    hide ParseInt, HasAll;
    assert HasAll(f, {"destination", "id"}) <==> Header(f, "destination").Some? && Header(f, "id").Some? by {
      SubscribeKeys(f);
    }
  }

  lemma SubscribeKeys(f: Frame)
    ensures HasAll(f, {"destination", "id"}) <==> Header(f, "destination").Some? && Header(f, "id").Some?
  {
  }

  lemma UnsubscribeReason(v: Served, f: Frame, reason: string)
    ensures JudgeUnsubscribe(v, f) == Reject(reason) <==> UnsubscribeBecause(v, f, reason)
  {
    hide ParseInt;
  }

  lemma SendReason(v: Served, f: Frame, reason: string)
    ensures JudgeSend(v, f) == Reject(reason) <==> SendBecause(v, f, reason)
  {
  }

  lemma DisconnectReason(v: Served, f: Frame, reason: string)
    ensures JudgeDisconnect(v, f) == Reject(reason) <==> !v.session.connected && reason == "User is already disconnected."
  {
  }

  lemma OtherReason(v: Served, f: Frame, reason: string)
    requires f.command !in {"CONNECT", "SEND", "SUBSCRIBE", "UNSUBSCRIBE", "DISCONNECT"}
    ensures Judge(v, f) == Reject(reason) <==> reason == "Invalid command: " + f.command
  {
  }

  /** A frame is rejected with a reason if and only if that is the reason. */
  lemma RejectedIff(v: Served, f: Frame, reason: string)
    ensures Judge(v, f) == Reject(reason) <==> Because(v, f, reason)
  {
    hide Judge, JudgeConnect, JudgeSend, JudgeSubscribe, JudgeUnsubscribe, JudgeDisconnect;
    hide ConnectBecause, SubscribeBecause, UnsubscribeBecause, SendBecause;
    JudgeByCommand(v, f);
    if f.command == "CONNECT" {
      ConnectReason(v, f, reason);
    } else if f.command == "SUBSCRIBE" {
      SubscribeReason(v, f, reason);
    } else if f.command == "UNSUBSCRIBE" {
      UnsubscribeReason(v, f, reason);
    } else if f.command == "SEND" {
      SendReason(v, f, reason);
    } else if f.command == "DISCONNECT" {
      DisconnectReason(v, f, reason);
    } else {
      OtherReason(v, f, reason);
    }
  }

  // ---------- what the client is told ----------

  predicate ErrorHeaders(e: Frame, reason: string, receipt: Option<string>) {
    && e.command == "ERROR"
    && e.headers.Keys == (if receipt.Some? then {"message", "receipt-id"} else {"message"})
    && e.headers["message"] == " " + reason
    && (receipt.Some? ==> e.headers["receipt-id"] == receipt.value)
  }

  predicate ErrorBody(body: string, reason: string, shown: string) {
    body == "The message:\n-----\n" + shown + "\n-----\nReason: " + reason
  }

  lemma ErrorTold(reason: string, receipt: Option<string>, shown: string)
    ensures ErrorHeaders(ErrorFrame(reason, receipt, shown), reason, receipt)
  {
  }

  lemma ErrorShown(reason: string, receipt: Option<string>, shown: string)
    ensures ErrorBody(ErrorFrame(reason, receipt, shown).body, reason, shown)
  {
    assert "The message:\n" + "-----\n" == "The message:\n-----\n";
    assert "\n" + "-----\n" + "Reason: " == "\n-----\nReason: ";
    Regrouped("The message:\n-----\n" + shown, "\n", "-----\n", "Reason: ", reason);
  }

  lemma Regrouped(a: string, b: string, c: string, d: string, e: string)
    ensures a + b + c + d + e == a + (b + c + d) + e
  {
  }

  /** A frame that is no acceptable request changes nothing but the sender's own outbox and marks
      the session to end.  A registered sender gets exactly one ERROR, which gives the true
      reason, shows the frame, and names the receipt asked for. */
  lemma RejectedChangesNothing(v: Served, c: nat, f: Frame, shown: string)
    requires forall d :: !Accepted(v, f, d)
    ensures Judge(v, f).Reject? && Because(v, f, Judge(v, f).reason)
    ensures var v' := Process(v, c, f, shown);
            && v'.session == v.session.(terminate := true)
            && v'.reg == v.reg.(outbox := v'.reg.outbox)
            && (forall x: nat :: x != c || c !in v.reg.registered ==> Out(v'.reg, x) == Out(v.reg, x))
            && (c in v.reg.registered ==>
                  exists e: Frame :: Out(v'.reg, c) == Out(v.reg, c) + [e]
                                  && ErrorHeaders(e, Judge(v, f).reason, Header(f, "receipt"))
                                  && ErrorBody(e.body, Judge(v, f).reason, shown))
  {
    var d := Judge(v, f);
    if !d.Reject? {
      AcceptedIff(v, f, d);
    }
    hide Accepted, Judge, Because, ErrorHeaders, ErrorBody, ErrorFrame;
    RejectedIff(v, f, d.reason);
    var e := ErrorFrame(d.reason, Header(f, "receipt"), shown);
    ErrorTold(d.reason, Header(f, "receipt"), shown);
    ErrorShown(d.reason, Header(f, "receipt"), shown);
    forall x: nat ensures Out(SendError(v, c, d.reason, f, shown).reg, x)
                       == Out(v.reg, x) + (if x == c && c in v.reg.registered then [e] else [])
    {
      SendAt(v.reg, c, e, x);
    }
  }

  /** After a log-out the connection is in no index of the registry, and if it was registered
      its receipt has been sent to it first. */
  lemma LogOutLeavesNothing(v: Served, c: nat, f: Frame, shown: string)
    requires v.session.connected && f.command == "DISCONNECT"
    ensures var v' := Process(v, c, f, shown);
            && v'.session == Session(true, true, map[])
            && c !in v'.reg.registered && c !in v'.reg.active && (forall t, id :: !Has(v'.reg, t, c, id))
            && Out(v'.reg, c) == Out(v.reg, c)
               + (if c in v.reg.registered && Header(f, "receipt").Some? then [ReceiptFrame(Header(f, "receipt").value)] else [])
  {
    JudgeByCommand(v, f);
    assert Judge(v, f) == LogOut;
    hide Judge;
    var r := RemoveSubscriptions(v.reg, v.session.subs.Values, c);
    forall t, id ensures !Has(Process(v, c, f, shown).reg, t, c, id) {
      S.LogOutEntries(v, c, t, c, id);
    }
  }
}
