/** Serving the next request of a session: what the server reads and decides, and why every
    session invariant survives it. */
module SessionServe {
  import opened Text
  import opened StompFrames
  import opened FrameRoundTrip
  import opened Sessions
  import C = Connections
  import P = StompProtocols
  import S = ServerRuns
  import K = Clients

  // ---------- what the server reads ----------

  lemma ConnectPrintable(user: string, password: string)
    requires Word(user) && Word(password)
    ensures Printable(K.RequestFrame(K.Connect(user, password)))
  {
  }

  lemma SubscribePrintable(channel: string, id: int, n: int)
    requires Word(channel)
    ensures Printable(K.RequestFrame(K.Subscribe(channel, id, n)))
  {
  }

  lemma UnsubscribePrintable(id: int, n: int)
    ensures Printable(K.RequestFrame(K.Unsubscribe(id, n)))
  {
  }

  lemma DisconnectPrintable(n: int)
    ensures Printable(K.RequestFrame(K.Disconnect(n)))
  {
  }

  lemma RequestPrintable(r: K.Request)
    requires WireSafe(r) && !r.Report?
    ensures Printable(K.RequestFrame(r)) && K.RequestFrame(r).body == ""
  {
    match r {
      case Connect(user, password) => ConnectPrintable(user, password);
      case Subscribe(channel, id, n) => SubscribePrintable(channel, id, n);
      case Unsubscribe(id, n) => UnsubscribePrintable(id, n);
      case Disconnect(n) => DisconnectPrintable(n);
      case Report(_, _) =>
    }
  }

  /** A request other than a report reaches the server as it was built. */
  lemma ServedFrame(r: K.Request, text: string)
    requires WireSafe(r) && !r.Report? && IsClientText(text, K.RequestFrame(r))
    ensures ServerParse(text) == Some(K.RequestFrame(r))
  {
    RequestPrintable(r);
    ClientToServer(K.RequestFrame(r), text);
  }

  /** A report reaches the server as some SEND, whatever its channel name contains. */
  lemma ServedReport(channel: string, body: string, text: string)
    requires NUL !in channel && NUL !in body && IsClientText(text, K.RequestFrame(K.Report(channel, body)))
    ensures ServerParse(text).Some? && ServerParse(text).value.command == "SEND" && NUL !in ServerParse(text).value.body
  {
    var f := K.RequestFrame(K.Report(channel, body));
    TextHasNoInnerNul(f, text);
    var order :| Enumerates(order, f.headers) && text == Layout(f, order, f.body);
    CommandSurvives(f, order, f.body);
    LayoutNotBare(f, order, f.body);
    assert text[|text| - 1] in text;
    ServerParseIsLineParse(text);
    LineParseKeepsChars(text);
  }

  lemma ReportPrintable(channel: string, body: string)
    ensures Printable(K.RequestFrame(K.Report(channel, body))) <==> LF !in channel
    ensures K.RequestFrame(K.Report(channel, body)).body == body
  {
    assert K.SendFrame(channel, body).headers["destination"] == channel;
  }

  /** A report reaches the server exactly as it was built if and only if its channel name is
      one-line. */
  lemma ServedReportExact(channel: string, body: string, text: string)
    requires NUL !in body && IsClientText(text, K.RequestFrame(K.Report(channel, body)))
    ensures ServerParse(text) == Some(K.RequestFrame(K.Report(channel, body))) <==> LF !in channel
  {
    hide K.RequestFrame, Printable, IsClientText, ServerParse;
    ReportPrintable(channel, body);
    ClientToServer(K.RequestFrame(K.Report(channel, body)), text);
  }

  // ---------- what the server decides ----------

  lemma SubscribeHeaders(channel: string, id: int, n: int)
    ensures var f := K.RequestFrame(K.Subscribe(channel, id, n));
            f.command == "SUBSCRIBE" && P.Header(f, "destination") == Some(channel) && P.Header(f, "id") == Some(Decimal(id))
            && P.Header(f, "receipt") == Some(Decimal(n))
  {
  }

  lemma JudgedSubscribe(v: P.Served, channel: string, id: int, n: int)
    requires v.session.connected && IsInt32(id)
    ensures P.Judge(v, K.RequestFrame(K.Subscribe(channel, id, n))) == P.Subscribe(channel, id)
  {
    var f := K.RequestFrame(K.Subscribe(channel, id, n));
    SubscribeHeaders(channel, id, n);
    hide K.RequestFrame, ParseInt, Decimal;
    ParseIntOfDecimal(id);
    assert P.JudgeSubscribe(v, f) == P.Subscribe(channel, id);
  }

  lemma UnsubscribeHeaders(id: int, n: int)
    ensures var f := K.RequestFrame(K.Unsubscribe(id, n));
            f.command == "UNSUBSCRIBE" && P.Header(f, "id") == Some(Decimal(id))
  {
  }

  lemma JudgedUnsubscribe(v: P.Served, id: int, n: int)
    requires v.session.connected && IsInt32(id) && id in v.session.subs
    ensures P.Judge(v, K.RequestFrame(K.Unsubscribe(id, n))) == P.Unsubscribe(id)
  {
    var f := K.RequestFrame(K.Unsubscribe(id, n));
    UnsubscribeHeaders(id, n);
    hide K.RequestFrame, ParseInt, Decimal;
    ParseIntOfDecimal(id);
    assert P.JudgeUnsubscribe(v, f) == P.Unsubscribe(id);
  }

  lemma JudgedDisconnect(v: P.Served, n: int)
    requires v.session.connected
    ensures P.Judge(v, K.RequestFrame(K.Disconnect(n))) == P.LogOut
  {
  }

  lemma JudgedConnect(v: P.Served, user: string, password: string)
    ensures var d := P.Judge(v, K.RequestFrame(K.Connect(user, password))); d.LogIn? || d.Reject?
    ensures P.Header(K.RequestFrame(K.Connect(user, password)), "receipt").None?
  {
  }

  lemma JudgedSend(v: P.Served, f: Frame)
    requires f.command == "SEND"
    ensures var d := P.Judge(v, f); d.Relay? || d.Reject?
  {
  }

  // ---------- what the connection itself is sent ----------

  function Receipts(f: Frame): seq<Frame> {
    var n := P.Header(f, "receipt");
    if n.Some? then [P.ReceiptFrame(n.value)] else []
  }

  /** The frames a verdict sends to the connection it came from. */
  function Replies(v: P.Served, c: nat, f: Frame, d: P.Verdict, shown: string): seq<Frame> {
    match d
    case Reject(reason) => [P.ErrorFrame(reason, P.Header(f, "receipt"), shown)]
    case LogIn(_, _) => [P.ConnectedFrame()] + Receipts(f)
    case Relay(topic) => P.Share(v.reg, C.Subscribers(v.reg, topic), c, topic, C.NextInt(v.reg.counter), f.body)
    case _ => Receipts(f)
  }

  lemma SendReceiptOut(r: C.Registry, c: nat, f: Frame, x: nat)
    ensures C.Out(P.SendReceipt(r, c, P.Header(f, "receipt")), x)
         == C.Out(r, x) + (if x == c && c in r.registered then Receipts(f) else [])
  {
  }

  lemma OwnOut(v: P.Served, c: nat, f: Frame, d: P.Verdict, shown: string)
    requires P.Justified(v, d)
    ensures C.Out(P.Act(v, c, f, d, shown).reg, c)
         == C.Out(v.reg, c) + (if c in v.reg.registered then Replies(v, c, f, d, shown) else [])
  {
    match d {
      case Relay(t) =>
        var r := v.reg.(counter := C.NextInt(v.reg.counter));
        P.FanOutAt(r, C.Subscribers(r, t), c, t, r.counter, f.body);
      case LogIn(user, password) =>
        var r := C.Send(C.Authenticate(v.reg, c, user, password), c, P.ConnectedFrame());
        SendReceiptOut(r, c, f, c);
      case Subscribe(t, id) => SendReceiptOut(C.AddSubscription(v.reg, t, c, id), c, f, c);
      case Unsubscribe(id) => SendReceiptOut(C.RemoveSubscription(v.reg, v.session.subs[id], c), c, f, c);
      case LogOut => SendReceiptOut(C.RemoveSubscriptions(v.reg, v.session.subs.Values, c), c, f, c);
      case Reject(_) =>
    }
  }

  /** Another connection is sent at most one MESSAGE, for a subscription it has. */
  lemma OthersOut(v: P.Served, c: nat, f: Frame, d: P.Verdict, shown: string, x: nat)
    requires P.Justified(v, d) && x != c
    ensures var r' := P.Act(v, c, f, d, shown).reg;
            C.Out(r', x) == C.Out(v.reg, x) + (if d.Relay? then Replies(v, x, f, d, shown) else [])
  {
    match d {
      case Relay(t) =>
        var r := v.reg.(counter := C.NextInt(v.reg.counter));
        P.FanOutAt(r, C.Subscribers(r, t), x, t, r.counter, f.body);
      case LogIn(user, password) =>
        var r := C.Send(C.Authenticate(v.reg, c, user, password), c, P.ConnectedFrame());
        SendReceiptOut(r, c, f, x);
      case Subscribe(t, id) => SendReceiptOut(C.AddSubscription(v.reg, t, c, id), c, f, x);
      case Unsubscribe(id) => SendReceiptOut(C.RemoveSubscription(v.reg, v.session.subs[id], c), c, f, x);
      case LogOut => SendReceiptOut(C.RemoveSubscriptions(v.reg, v.session.subs.Values, c), c, f, x);
      case Reject(_) =>
    }
  }

  /** What an accepted request other than a SEND is answered, frame by frame: a login by CONNECTED,
      and whatever asked for a receipt by its RECEIPT, to a sender that is registered; no other
      connection is sent anything.  Only a log-out ends the session. */
  lemma AcceptedAnswers(v: P.Served, c: nat, f: Frame, d: P.Verdict, shown: string, x: nat)
    requires P.Justified(v, d) && !d.Reject? && !d.Relay?
    ensures var v' := P.Act(v, c, f, d, shown);
            && v'.session.terminate == (v.session.terminate || d.LogOut?)
            && v'.reg.counter == v.reg.counter
            && C.Out(v'.reg, x) == C.Out(v.reg, x) + (if x == c && c in v.reg.registered then Welcome(d) + Receipt(f) else [])
  {
    OnlyLogOutEnds(v, c, f, d, shown);
    hide P.Act;
    if x == c { OwnOut(v, c, f, d, shown); } else { OthersOut(v, c, f, d, shown, x); }
    assert [] + Receipt(f) == Receipt(f) && Receipts(f) == Receipt(f);
  }

  function Welcome(d: P.Verdict): seq<Frame> {
    if d.LogIn? then [Frame("CONNECTED", map["version" := "1.2"], "")] else []
  }

  function Receipt(f: Frame): seq<Frame> {
    if "receipt" in f.headers then [Frame("RECEIPT", map["receipt-id" := f.headers["receipt"]], "")] else []
  }

  lemma OnlyLogOutEnds(v: P.Served, c: nat, f: Frame, d: P.Verdict, shown: string)
    requires P.Justified(v, d) && !d.Reject?
    ensures P.Act(v, c, f, d, shown).session.terminate == (v.session.terminate || d.LogOut?)
    ensures !d.Relay? ==> P.Act(v, c, f, d, shown).reg.counter == v.reg.counter
  {
  }

  lemma RegisteredAfter(v: P.Served, c: nat, f: Frame, d: P.Verdict, shown: string)
    requires P.Justified(v, d)
    ensures P.Act(v, c, f, d, shown).reg.registered == if d.LogOut? then v.reg.registered - {c} else v.reg.registered
  {
  }

  // ---------- receipts ----------

  lemma AckOfReceipt(n: int)
    requires IsInt32(n)
    ensures AckOf(P.ReceiptFrame(Decimal(n))) == [n]
  {
    StoiOfDecimal(n);
  }

  /** An acknowledged request moves its receipt id from one direction to the other. */
  lemma FlightMoves(out: seq<Frame>, up: seq<K.Request>, n: int)
    requires up != [] && ReceiptOf(up[0]) == [n] && IsInt32(n)
    ensures InFlight(out + [P.ReceiptFrame(Decimal(n))], up[1..]) == InFlight(out, up)
  {
    hide UpIds, DownIds, ReceiptOf, AckOf, P.ReceiptFrame, Decimal;
    UpIdsUncons(up);
    DownIdsSnoc(out, P.ReceiptFrame(Decimal(n)));
    AckOfReceipt(n);
    Regroup(DownIds(out), [n], UpIds(up[1..]));
  }

  lemma QuietDown(out: seq<Frame>, f: Frame)
    requires f.command != "RECEIPT"
    ensures DownIds(out + [f]) == DownIds(out)
  {
    DownIdsSnoc(out, f);
  }

  lemma SameFlight(reg: C.Registry, reg': C.Registry, c: nat, l: Link, l': Link)
    requires ReceiptInv(reg, c, l) && l'.client == l.client && l'.lost == l.lost
    requires !l.lost ==> InFlight(C.Out(reg', c), l'.up) == InFlight(C.Out(reg, c), l.up)
    requires !l.lost && (l'.up != [] || !l.client.waiting) ==> c in reg'.registered
    ensures ReceiptInv(reg', c, l')
  {
  }

  // ---------- the verdict on each request ----------

  /** The verdicts the server can reach on a shipped client's next request. */
  predicate Matches(r: K.Request, f: Frame, d: P.Verdict) {
    match r
    case Connect(_, _) => (d.LogIn? || d.Reject?) && P.Header(f, "receipt").None?
    case Subscribe(channel, id, n) => d == P.Subscribe(channel, id) && P.Header(f, "receipt") == Some(Decimal(n))
    case Unsubscribe(id, n) => d == P.Unsubscribe(id) && P.Header(f, "receipt") == Some(Decimal(n))
    case Report(_, _) => (d.Relay? || d.Reject?) && NUL !in f.body
    case Disconnect(n) => d == P.LogOut && P.Header(f, "receipt") == Some(Decimal(n))
  }

  lemma UnsubscribeReceipt(id: int, n: int)
    ensures P.Header(K.RequestFrame(K.Unsubscribe(id, n)), "receipt") == Some(Decimal(n))
  {
  }

  lemma DisconnectReceipt(n: int)
    ensures P.Header(K.RequestFrame(K.Disconnect(n)), "receipt") == Some(Decimal(n))
  {
  }

  /** A SUBSCRIBE, UNSUBSCRIBE or DISCONNECT that finds what it needs is never rejected. */
  lemma ServedVerdict(v: P.Served, r: K.Request, text: string)
    requires WireSafe(r) && IsClientText(text, K.RequestFrame(r)) && Acceptable(v.session.subs, r)
    requires !r.Connect? ==> v.session.connected
    ensures ServerParse(text).Some? && Matches(r, ServerParse(text).value, P.Judge(v, ServerParse(text).value))
  {
    if r.Report? {
      ServedReport(r.channel, r.body, text);
      JudgedSend(v, ServerParse(text).value);
    } else {
      ServedFrame(r, text);
      match r {
        case Connect(user, password) => JudgedConnect(v, user, password);
        case Subscribe(channel, id, n) => JudgedSubscribe(v, channel, id, n); SubscribeHeaders(channel, id, n);
        case Unsubscribe(id, n) => JudgedUnsubscribe(v, id, n); UnsubscribeReceipt(id, n);
        case Disconnect(n) => JudgedDisconnect(v, n); DisconnectReceipt(n);
        case Report(_, _) =>
      }
    }
  }

  // ---------- the session's own invariants ----------

  lemma ActSession(v: P.Served, c: nat, f: Frame, d: P.Verdict, shown: string)
    requires P.Justified(v, d)
    ensures var x := P.Act(v, c, f, d, shown).session;
            && x.connected == (v.session.connected || d.LogIn?)
            && x.subs == match d
                         case Subscribe(t, id) => v.session.subs[id := t]
                         case Unsubscribe(id) => v.session.subs - {id}
                         case LogOut => map[]
                         case _ => v.session.subs
  {
  }

  lemma MirrorServed(v: P.Served, c: nat, l: Link, f: Frame, d: P.Verdict, shown: string)
    requires MirrorInv(v.session, l) && l.up != [] && P.Justified(v, d) && Matches(l.up[0], f, d)
    ensures MirrorInv(P.Act(v, c, f, d, shown).session, l.(up := l.up[1..]))
  {
    ActSession(v, c, f, d, shown);
    var subs' := P.Act(v, c, f, d, shown).session.subs;
    if l.up[0].Disconnect? {
      assert l.up[1..] == [];
    } else {
      assert subs' == Effect(v.session.subs, l.up[0]);
    }
  }

  lemma ReceiptIdIsInt(l: Link, n: int)
    requires l.up != [] && WireSafe(l.up[0]) && ReceiptOf(l.up[0]) == [n]
    ensures IsInt32(n)
  {
  }

  lemma AcknowledgedReplies(v: P.Served, c: nat, r: K.Request, f: Frame, d: P.Verdict, shown: string, n: int)
    requires Matches(r, f, d) && ReceiptOf(r) == [n]
    ensures Replies(v, c, f, d, shown) == [P.ReceiptFrame(Decimal(n))]
  {
  }

  lemma QuietReplies(v: P.Served, c: nat, r: K.Request, f: Frame, d: P.Verdict, shown: string, out: seq<Frame>)
    requires Matches(r, f, d) && ReceiptOf(r) == []
    ensures DownIds(out + Replies(v, c, f, d, shown)) == DownIds(out)
  {
    var more := Replies(v, c, f, d, shown);
    if |more| == 1 {
      QuietDown(out, more[0]);
    } else {
      assert out + more == out;
    }
  }

  lemma FlightServed(v: P.Served, c: nat, up: seq<K.Request>, f: Frame, d: P.Verdict, shown: string)
    requires up != [] && WireSafe(up[0]) && Matches(up[0], f, d)
    ensures InFlight(C.Out(v.reg, c) + Replies(v, c, f, d, shown), up[1..]) == InFlight(C.Out(v.reg, c), up)
  {
    if ReceiptOf(up[0]) == [] {
      QuietReplies(v, c, up[0], f, d, shown, C.Out(v.reg, c));
      UpIdsUncons(up);
    } else {
      var n := ReceiptOf(up[0])[0];
      AcknowledgedReplies(v, c, up[0], f, d, shown, n);
      FlightMoves(C.Out(v.reg, c), up, n);
    }
  }

  lemma StillRegistered(v: P.Served, c: nat, l: Link, f: Frame, d: P.Verdict, shown: string)
    requires MirrorInv(v.session, l) && l.up != [] && P.Justified(v, d) && Matches(l.up[0], f, d) && c in v.reg.registered
    ensures l.up[1..] != [] || !l.client.waiting ==> c in P.Act(v, c, f, d, shown).reg.registered
  {
    RegisteredAfter(v, c, f, d, shown);
  }

  lemma ReceiptsServed(v: P.Served, c: nat, l: Link, f: Frame, d: P.Verdict, shown: string)
    requires ReceiptInv(v.reg, c, l) && MirrorInv(v.session, l) && l.up != [] && WireSafe(l.up[0])
    requires P.Justified(v, d) && Matches(l.up[0], f, d)
    ensures ReceiptInv(P.Act(v, c, f, d, shown).reg, c, l.(up := l.up[1..]))
  {
    if !l.lost {
      OwnOut(v, c, f, d, shown);
      FlightServed(v, c, l.up, f, d, shown);
      StillRegistered(v, c, l, f, d, shown);
    }
    SameFlight(v.reg, P.Act(v, c, f, d, shown).reg, c, l, l.(up := l.up[1..]));
  }

  lemma RepliesAreCalm(v: P.Served, c: nat, r: K.Request, f: Frame, d: P.Verdict, shown: string)
    requires Matches(r, f, d) && !d.LogIn?
    ensures forall i :: 0 <= i < |Replies(v, c, f, d, shown)| ==> Replies(v, c, f, d, shown)[i].command != "CONNECTED"
  {
  }

  lemma PhaseServed(v: P.Served, c: nat, l: Link, f: Frame, d: P.Verdict, shown: string)
    requires PhaseInv(v.session, C.Out(v.reg, c), l) && l.up != [] && P.Justified(v, d) && Matches(l.up[0], f, d)
    ensures var v' := P.Act(v, c, f, d, shown); PhaseInv(v'.session, C.Out(v'.reg, c), l.(up := l.up[1..]))
  {
    OwnOut(v, c, f, d, shown);
    ActSession(v, c, f, d, shown);
    if !d.LogIn? { RepliesAreCalm(v, c, l.up[0], f, d, shown); }
  }

  lemma HasAfterAdd(r: C.Registry, topic: string, c: nat, id: int, u: string, d: nat, k: int)
    ensures C.Has(C.AddSubscription(r, topic, c, id), u, d, k) ==> C.Has(r, u, d, k) || (u == topic && d == c && k == id)
  {
  }

  /** The only entry a verdict can add is the one a SUBSCRIBE asks for. */
  lemma OwnEntries(v: P.Served, c: nat, f: Frame, a: P.Verdict, shown: string, u: string, k: int)
    requires P.Justified(v, a) && C.Has(P.Act(v, c, f, a, shown).reg, u, c, k)
    ensures C.Has(v.reg, u, c, k) || a == P.Subscribe(u, k)
  {
    var reg' := P.Act(v, c, f, a, shown).reg;
    match a {
      case Subscribe(t, id) =>
        assert reg'.topics == C.AddSubscription(v.reg, t, c, id).topics;
        HasAfterAdd(v.reg, t, c, id, u, c, k);
      case Unsubscribe(id) =>
        assert reg'.topics == C.RemoveSubscription(v.reg, v.session.subs[id], c).topics;
        S.HasAfterRemove(v.reg, v.session.subs[id], c, u, c, k);
      case LogOut =>
        S.LogOutEntries(v, c, u, c, k);
      case LogIn(_, _) => assert reg'.topics == v.reg.topics;
      case Relay(_) => assert reg'.topics == v.reg.topics;
      case Reject(_) => assert reg'.topics == v.reg.topics;
    }
  }

  // ---------- the frames a session is sent ----------

  lemma ReceiptIsProper(issued: map<int, string>, n: int)
    requires IsInt32(n)
    ensures Proper(issued, P.ReceiptFrame(Decimal(n)))
  {
    StoiOfDecimal(n);
  }

  /** A relayed SEND reaches a subscriber under a subscription it asked for. */
  lemma ShareIsProper(reg: C.Registry, issued: map<int, string>, c: nat, topic: string, messageId: int, body: string)
    requires NUL !in body && forall t, id :: C.Has(reg, t, c, id) ==> id in issued && issued[id] == t
    requires forall id :: id in issued ==> IsInt32(id)
    ensures forall i :: 0 <= i < |P.Share(reg, C.Subscribers(reg, topic), c, topic, messageId, body)| ==>
              Proper(issued, P.Share(reg, C.Subscribers(reg, topic), c, topic, messageId, body)[i])
  {
    var subscribers := C.Subscribers(reg, topic);
    if c in subscribers && c in reg.registered {
      var id := subscribers[c];
      assert C.Has(reg, topic, c, id);
      StoiOfDecimal(id);
      assert IsMessage(issued, P.MessageFrame(topic, id, messageId, body));
    }
  }

  lemma IssuedIdsAreInts(reg: C.Registry, c: nat, srv: P.Session, l: Link)
    requires IssuedInv(reg, c, srv, l) && l.client.nextId <= K.MAX_INT
    ensures forall id :: id in l.issued ==> IsInt32(id)
  {
  }

  lemma RepliesAreProper(v: P.Served, c: nat, l: Link, f: Frame, d: P.Verdict, shown: string)
    requires IssuedInv(v.reg, c, v.session, l) && l.client.nextId <= K.MAX_INT && l.up != [] && Matches(l.up[0], f, d)
    ensures forall i :: 0 <= i < |Replies(v, c, f, d, shown)| ==> Proper(l.issued, Replies(v, c, f, d, shown)[i])
  {
    var r := l.up[0];
    assert WireSafe(r);
    if ReceiptOf(r) != [] {
      var n := ReceiptOf(r)[0];
      AcknowledgedReplies(v, c, r, f, d, shown, n);
      ReceiptIdIsInt(l, n);
      ReceiptIsProper(l.issued, n);
    } else if d.Relay? {
      IssuedIdsAreInts(v.reg, c, v.session, l);
      ShareIsProper(v.reg, l.issued, c, d.topic, C.NextInt(v.reg.counter), f.body);
    }
  }

  lemma IssuedServed(v: P.Served, c: nat, l: Link, f: Frame, d: P.Verdict, shown: string)
    requires IssuedInv(v.reg, c, v.session, l) && l.client.nextId <= K.MAX_INT && l.up != []
    requires P.Justified(v, d) && Matches(l.up[0], f, d)
    ensures var v' := P.Act(v, c, f, d, shown); IssuedInv(v'.reg, c, v'.session, l.(up := l.up[1..]))
  {
    var v' := P.Act(v, c, f, d, shown);
    OwnOut(v, c, f, d, shown);
    ActSession(v, c, f, d, shown);
    RepliesAreProper(v, c, l, f, d, shown);
    forall t, id | C.Has(v'.reg, t, c, id) ensures id in l.issued && l.issued[id] == t {
      OwnEntries(v, c, f, d, shown, t, id);
    }
  }

  // ---------- all links ----------

  lemma ServedLink(server: S.Server, c: nat, l: Link, f: Frame, d: P.Verdict, shown: string)
    requires LinkInv(server, c, l) && l.up != [] && P.Justified(S.Before(server, c), d) && Matches(l.up[0], f, d)
    ensures LinkInv(S.After(server, c, f, d, shown), c, l.(up := l.up[1..]))
  {
    var v := S.Before(server, c);
    MirrorServed(v, c, l, f, d, shown);
    ReceiptsServed(v, c, l, f, d, shown);
    PhaseServed(v, c, l, f, d, shown);
    IssuedServed(v, c, l, f, d, shown);
  }
}
