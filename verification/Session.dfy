/** Any number of shipped clients talking to the server: commands, two FIFO channels per session
    carrying the printed text, and the server's processing, in any interleaving. */
module Sessions {
  import opened Text
  import opened StompFrames
  import opened Framing
  import C = Connections
  import P = StompProtocols
  import S = ServerRuns
  import K = Clients

  /** `up` holds the requests on their way to the server; frames on their way back are in the
      registry's outbox.  `issued` records every subscription the client has asked for, and
      `lost` that the connection was closed under the session. */
  datatype Link = Link(client: K.Client, up: seq<K.Request>, issued: map<int, string>, lost: bool)

  datatype System = System(server: S.Server, links: map<nat, Link>)

  /** `text` is what actually crosses the wire: the header order is the printer's choice. */
  datatype Step =
    | Login(c: nat, user: string, password: string)
    | Join(c: nat, channel: string)
    | Exit(c: nat, channel: string)
    | Report(c: nat, channel: string, bodies: seq<string>)
    | Logout(c: nat)
    | Serve(c: nat, text: string, shown: string)
    | Deliver(c: nat, text: string)
    | Close(c: nat)

  /** A command-line token. */
  predicate Word(s: string) {
    s != "" && ' ' !in s && LF !in s && NUL !in s
  }

  ghost predicate Init(s: System) {
    S.Init(s.server) && s.links == map[]
  }

  /** A served text has to fit the decoder's array, and to parse, which every text of the
      requests in flight does (`SessionRuns.CanServe`). */
  ghost predicate Enabled(s: System, st: Step) {
    match st
    case Login(c, user, password) => c !in s.server.sessions && c !in s.links && Word(user) && Word(password)
    case Join(c, channel) => c in s.links && K.CanType(s.links[c].client) && Word(channel)
    case Exit(c, channel) => c in s.links && K.CanType(s.links[c].client)
    case Report(c, channel, bodies) =>
      && c in s.links && K.CanType(s.links[c].client) && NUL !in channel
      && forall i :: 0 <= i < |bodies| ==> NUL !in bodies[i]
    case Logout(c) => c in s.links && K.CanType(s.links[c].client)
    case Serve(c, text, shown) =>
      && c in s.links && c in s.server.sessions && s.links[c].up != []
      && IsClientText(text, K.RequestFrame(s.links[c].up[0])) && |text| <= LIMIT && ServerParse(text).Some?
    case Deliver(c, text) =>
      && c in s.links && !s.links[c].client.stopped && C.Out(s.server.reg, c) != []
      && IsServerText(text, C.Out(s.server.reg, c)[0])
    case Close(c) => c in s.links && c in s.server.sessions
  }

  /** What getFrameAscii hands over: the text up to the first NUL. */
  function FirstPiece(text: string): string {
    text[..IndexOf(text, NUL)]
  }

  function Issue(issued: map<int, string>, sent: seq<K.Request>): map<int, string> {
    if |sent| == 1 && sent[0].Subscribe? then issued[sent[0].id := sent[0].channel] else issued
  }

  function After(l: Link, d: K.Done): Link {
    l.(client := d.client, up := l.up + d.sent, issued := Issue(l.issued, d.sent))
  }

  ghost function Apply(s: System, st: Step): System
    requires Enabled(s, st)
  {
    match st
    case Login(c, user, password) =>
      System(S.Apply(s.server, S.Accept(c)), s.links[c := Link(K.START, [K.Connect(user, password)], map[], false)])
    case Join(c, channel) => s.(links := s.links[c := After(s.links[c], K.Join(s.links[c].client, channel))])
    case Exit(c, channel) => s.(links := s.links[c := After(s.links[c], K.Exit(s.links[c].client, channel))])
    case Report(c, channel, bodies) =>
      s.(links := s.links[c := s.links[c].(up := s.links[c].up + K.Reports(channel, bodies))])
    case Logout(c) => s.(links := s.links[c := After(s.links[c], K.Logout(s.links[c].client))])
    case Serve(c, text, shown) =>
      System(S.Apply(s.server, S.Handle(c, ServerParse(text).value, shown)), s.links[c := s.links[c].(up := s.links[c].up[1..])])
    case Deliver(c, text) =>
      System(S.Apply(s.server, S.Deliver(c)),
             s.links[c := s.links[c].(client := K.HandleFrame(s.links[c].client, ClientParse(FirstPiece(text))))])
    case Close(c) => System(S.Apply(s.server, S.Close(c)), s.links[c := s.links[c].(lost := true)])
  }

  // ---------- the mirror ----------

  /** What a request does to the server's subscriptions once served. */
  function Effect(subs: map<int, string>, r: K.Request): map<int, string> {
    match r
    case Subscribe(channel, id, _) => subs[id := channel]
    case Unsubscribe(id, _) => subs - {id}
    case _ => subs
  }

  function Replay(subs: map<int, string>, up: seq<K.Request>): map<int, string>
    decreases |up|
  {
    if up == [] then subs else Replay(Effect(subs, up[0]), up[1..])
  }

  predicate Acceptable(subs: map<int, string>, r: K.Request) {
    match r
    case Subscribe(channel, id, _) => id !in subs && !P.HasTopic(subs, channel)
    case Unsubscribe(id, _) => id in subs
    case _ => true
  }

  /** Served in order, every request finds what it needs, and a DISCONNECT is the last. */
  predicate ReplayOk(subs: map<int, string>, up: seq<K.Request>)
    decreases |up|
  {
    up == [] || (Acceptable(subs, up[0]) && (up[0].Disconnect? ==> |up| == 1) && ReplayOk(Effect(subs, up[0]), up[1..]))
  }

  lemma {:induction false} ReplaySnoc(subs: map<int, string>, up: seq<K.Request>, r: K.Request)
    ensures Replay(subs, up + [r]) == Effect(Replay(subs, up), r)
    decreases |up|
  {
    if up == [] {
      assert (up + [r])[1..] == [];
    } else {
      assert (up + [r])[1..] == up[1..] + [r];
      ReplaySnoc(Effect(subs, up[0]), up[1..], r);
    }
  }

  lemma {:induction false} ReplayOkSnoc(subs: map<int, string>, up: seq<K.Request>, r: K.Request)
    requires ReplayOk(subs, up) && Acceptable(Replay(subs, up), r) && forall i :: 0 <= i < |up| ==> !up[i].Disconnect?
    ensures ReplayOk(subs, up + [r])
    decreases |up|
  {
    if up == [] {
      assert (up + [r])[1..] == [];
    } else {
      assert (up + [r])[1..] == up[1..] + [r];
      ReplayOkSnoc(Effect(subs, up[0]), up[1..], r);
    }
  }

  /** `subs` and `ids` are inverse to each other. */
  ghost predicate Inverse(subs: map<int, string>, ids: map<string, int>) {
    forall id, t :: (id in subs && subs[id] == t) <==> (t in ids && ids[t] == id)
  }

  /** Replaying the requests in flight on the server's subscriptions gives exactly the inverse
      of the client's, until the client logs out. */
  ghost predicate MirrorInv(srv: P.Session, l: Link) {
    && ReplayOk(srv.subs, l.up)
    && (!l.client.waiting ==> Inverse(Replay(srv.subs, l.up), l.client.subs) && forall i :: 0 <= i < |l.up| ==> !l.up[i].Disconnect?)
  }

  // ---------- receipts ----------

  function ReceiptOf(r: K.Request): seq<int> {
    match r
    case Subscribe(_, _, n) => [n]
    case Unsubscribe(_, n) => [n]
    case Disconnect(n) => [n]
    case _ => []
  }

  function UpIds(up: seq<K.Request>): seq<int> {
    if up == [] then [] else UpIds(up[..|up| - 1]) + ReceiptOf(up[|up| - 1])
  }

  predicate IsReceipt(f: Frame) {
    "receipt-id" in f.headers && f == P.ReceiptFrame(f.headers["receipt-id"]) && Stoi(f.headers["receipt-id"]).Some?
    && f.headers["receipt-id"] == Decimal(Stoi(f.headers["receipt-id"]).value)
  }

  function AckOf(f: Frame): seq<int> {
    if IsReceipt(f) then [Stoi(f.headers["receipt-id"]).value] else []
  }

  function DownIds(out: seq<Frame>): seq<int> {
    if out == [] then [] else DownIds(out[..|out| - 1]) + AckOf(out[|out| - 1])
  }

  lemma UpIdsSnoc(up: seq<K.Request>, r: K.Request)
    ensures UpIds(up + [r]) == UpIds(up) + ReceiptOf(r)
  {
    assert (up + [r])[..|up|] == up;
  }

  lemma Regroup(a: seq<int>, b: seq<int>, c: seq<int>)
    ensures a + b + c == a + (b + c)
  {
  }

  lemma {:induction false} UpIdsUncons(up: seq<K.Request>)
    requires up != []
    ensures UpIds(up) == ReceiptOf(up[0]) + UpIds(up[1..])
  {
    hide ReceiptOf;
    var n := |up| - 1;
    if n == 0 {
      assert up[..0] == [] && up[1..] == [];
    } else {
      UpIdsUncons(up[..n]);
      assert up[..n][1..] == up[1..n] && up[1..][..n - 1] == up[1..n];
      Regroup(ReceiptOf(up[0]), UpIds(up[1..n]), ReceiptOf(up[n]));
    }
  }

  lemma DownIdsSnoc(out: seq<Frame>, f: Frame)
    ensures DownIds(out + [f]) == DownIds(out) + AckOf(f)
  {
    assert (out + [f])[..|out|] == out;
  }

  lemma {:induction false} DownIdsUncons(out: seq<Frame>)
    requires out != []
    ensures DownIds(out) == AckOf(out[0]) + DownIds(out[1..])
  {
    hide AckOf;
    var n := |out| - 1;
    if n == 0 {
      assert out[..0] == [] && out[1..] == [];
    } else {
      DownIdsUncons(out[..n]);
      assert out[..n][1..] == out[1..n] && out[1..][..n - 1] == out[1..n];
      Regroup(AckOf(out[0]), DownIds(out[1..n]), AckOf(out[n]));
    }
  }

  ghost predicate Increasing(s: seq<int>) {
    forall i, j :: 0 <= i < j < |s| ==> s[i] < s[j]
  }

  /** Receipt ids on their way back, then those still on their way to the server. */
  function InFlight(out: seq<Frame>, up: seq<K.Request>): seq<int> {
    DownIds(out) + UpIds(up)
  }

  /** Ids in flight are strictly increasing, hence without duplicates, and are exactly the keys
      of the client's receipt map, as long as the connection is not closed under it. */
  ghost predicate ReceiptInv(reg: C.Registry, c: nat, l: Link) {
    !l.lost ==>
      && Increasing(InFlight(C.Out(reg, c), l.up))
      && (forall x :: x in InFlight(C.Out(reg, c), l.up) <==> x in l.client.receipts)
      && (forall x :: x in l.client.receipts ==> 0 <= x < l.client.nextReceipt)
      && (l.up != [] || !l.client.waiting ==> c in reg.registered)
  }

  // ---------- phases, wire safety and issued subscriptions ----------

  ghost predicate PhaseInv(srv: P.Session, out: seq<Frame>, l: Link) {
    && (!l.client.connected ==>
          && l.client.subs == map[] && l.client.receipts == map[] && !l.client.waiting
          && l.client.nextId == 0 && l.client.nextReceipt == 0
          && (l.up != [] ==> |l.up| == 1 && l.up[0].Connect? && out == [] && !srv.connected && srv.subs == map[]))
    && (l.client.connected ==> srv.connected && forall i :: 0 <= i < |l.up| ==> !l.up[i].Connect?)
    && (forall i :: 0 <= i < |out| && out[i].command == "CONNECTED" ==> srv.connected)
    && 0 <= l.client.nextId <= K.MAX_INT && 0 <= l.client.nextReceipt <= K.MAX_INT
  }

  /** The request's text is one NUL-free message that parses back as needed. */
  predicate WireSafe(r: K.Request) {
    match r
    case Connect(user, password) => Word(user) && Word(password)
    case Subscribe(channel, id, n) => Word(channel) && IsInt32(id) && IsInt32(n)
    case Unsubscribe(id, n) => IsInt32(id) && IsInt32(n)
    case Report(channel, body) => NUL !in channel && NUL !in body
    case Disconnect(n) => IsInt32(n)
  }

  /** A MESSAGE that names a subscription and topic really asked for. */
  predicate IsMessage(issued: map<int, string>, f: Frame) {
    && f.command == "MESSAGE" && NUL !in f.body
    && f.headers.Keys == {"destination", "subscription", "message-id"}
    && LF !in f.headers["message-id"] && NUL !in f.headers["message-id"]
    && Stoi(f.headers["subscription"]).Some? && f.headers["subscription"] == Decimal(Stoi(f.headers["subscription"]).value)
    && Stoi(f.headers["subscription"]).value in issued && issued[Stoi(f.headers["subscription"]).value] == f.headers["destination"]
  }

  /** The frames a shipped client can be sent. */
  predicate Proper(issued: map<int, string>, f: Frame) {
    f == P.ConnectedFrame() || IsReceipt(f) || IsMessage(issued, f) || f.command == "ERROR"
  }

  ghost predicate IssuedInv(reg: C.Registry, c: nat, srv: P.Session, l: Link) {
    && (forall id :: id in l.issued ==> 0 <= id < l.client.nextId && Word(l.issued[id]))
    && (forall id :: id in srv.subs ==> id in l.issued && l.issued[id] == srv.subs[id])
    && (forall t, id :: C.Has(reg, t, c, id) ==> id in l.issued && l.issued[id] == t)
    && (forall i :: 0 <= i < |l.up| ==> WireSafe(l.up[i]))
    && (forall i :: 0 <= i < |l.up| && l.up[i].Subscribe? ==> l.up[i].id in l.issued && l.issued[l.up[i].id] == l.up[i].channel)
    && (forall i :: 0 <= i < |C.Out(reg, c)| ==> Proper(l.issued, C.Out(reg, c)[i]))
  }

  ghost predicate LinkInv(server: S.Server, c: nat, l: Link) {
    && c in server.sessions
    && var srv := server.sessions[c];
    && MirrorInv(srv, l) && ReceiptInv(server.reg, c, l) && PhaseInv(srv, C.Out(server.reg, c), l)
    && IssuedInv(server.reg, c, srv, l)
  }

  ghost predicate Inv(s: System) {
    && s.links.Keys == s.server.sessions.Keys
    && S.IndexInv(s.server) && S.LoginInv(s.server)
    && (forall c :: c in s.server.reg.outbox ==> c in s.server.sessions)
    && forall c :: c in s.links ==> LinkInv(s.server, c, s.links[c])
  }

  // ---------- the client's commands ----------

  /** A request with a new receipt number joins the flight. */
  lemma ReceiptSent(reg: C.Registry, c: nat, l: Link, l': Link, r: K.Request, note: string)
    requires ReceiptInv(reg, c, l) && !l.client.waiting && 0 <= l.client.nextReceipt && ReceiptOf(r) == [l.client.nextReceipt]
    requires l'.lost == l.lost && l'.up == l.up + [r] && l'.client.nextReceipt == l.client.nextReceipt + 1
    requires l'.client.receipts == l.client.receipts[l.client.nextReceipt := note]
    ensures ReceiptInv(reg, c, l')
  {
    hide DownIds, UpIds, ReceiptOf, Increasing;
    UpIdsSnoc(l.up, r);
    var n, out := l.client.nextReceipt, C.Out(reg, c);
    Regroup(DownIds(out), UpIds(l.up), [n]);
    if !l.lost { FlightGrows(InFlight(out, l.up), l.client.receipts, n, note); }
  }

  lemma FlightGrows(ids: seq<int>, receipts: map<int, string>, n: int, note: string)
    requires Increasing(ids) && (forall x :: x in ids <==> x in receipts) && forall x :: x in receipts ==> x < n
    ensures Increasing(ids + [n]) && forall x :: x in ids + [n] <==> x in receipts[n := note]
  {
    forall i | 0 <= i < |ids| ensures ids[i] < n {
      assert ids[i] in ids;
    }
  }

  lemma InverseAdd(subs: map<int, string>, ids: map<string, int>, id: int, channel: string)
    requires Inverse(subs, ids) && channel !in ids && forall t :: t in ids ==> ids[t] < id
    ensures id !in subs && !P.HasTopic(subs, channel) && Inverse(subs[id := channel], ids[channel := id])
  {
    forall k | k in subs ensures k < id && subs[k] != channel {
      assert subs[k] in ids && ids[subs[k]] == k;
    }
    var subs', ids' := subs[id := channel], ids[channel := id];
    forall k, t ensures (k in subs' && subs'[k] == t) <==> (t in ids' && ids'[t] == k) {
      assert (k in subs && subs[k] == t) <==> (t in ids && ids[t] == k);
    }
  }

  lemma InverseRemove(subs: map<int, string>, ids: map<string, int>, channel: string)
    requires Inverse(subs, ids) && channel in ids
    ensures ids[channel] in subs && Inverse(subs - {ids[channel]}, ids - {channel})
  {
    var id := ids[channel];
    assert id in subs && subs[id] == channel;
    var subs', ids' := subs - {id}, ids - {channel};
    forall k, t ensures (k in subs' && subs'[k] == t) <==> (t in ids' && ids'[t] == k) {
      assert (k in subs && subs[k] == t) <==> (t in ids && ids[t] == k);
    }
  }

  lemma JoinMirror(srv: P.Session, l: Link, channel: string)
    requires MirrorInv(srv, l) && l.client.connected && !l.client.waiting && channel !in l.client.subs
    requires forall t :: t in l.client.subs ==> l.client.subs[t] < l.client.nextId
    ensures MirrorInv(srv, After(l, K.Join(l.client, channel)))
  {
    var r := K.Subscribe(channel, l.client.nextId, l.client.nextReceipt);
    InverseAdd(Replay(srv.subs, l.up), l.client.subs, l.client.nextId, channel);
    ReplaySnoc(srv.subs, l.up, r);
    ReplayOkSnoc(srv.subs, l.up, r);
  }

  lemma ExitMirror(srv: P.Session, l: Link, channel: string)
    requires MirrorInv(srv, l) && l.client.connected && !l.client.waiting
    requires channel in l.client.subs && l.client.subs[channel] != -1
    ensures MirrorInv(srv, After(l, K.Exit(l.client, channel)))
  {
    var r := K.Unsubscribe(l.client.subs[channel], l.client.nextReceipt);
    InverseRemove(Replay(srv.subs, l.up), l.client.subs, channel);
    ReplaySnoc(srv.subs, l.up, r);
    ReplayOkSnoc(srv.subs, l.up, r);
  }

  lemma LogoutMirror(srv: P.Session, l: Link)
    requires MirrorInv(srv, l) && l.client.connected && !l.client.waiting
    ensures MirrorInv(srv, After(l, K.Logout(l.client)))
  {
    ReplayOkSnoc(srv.subs, l.up, K.Disconnect(l.client.nextReceipt));
  }

  /** Reports change neither side's subscriptions and carry no receipt. */
  lemma {:induction false} ReportsQuiet(srv: P.Session, l: Link, channel: string, bodies: seq<string>)
    requires MirrorInv(srv, l) && !l.client.waiting
    ensures MirrorInv(srv, l.(up := l.up + K.Reports(channel, bodies)))
    ensures UpIds(l.up + K.Reports(channel, bodies)) == UpIds(l.up)
    decreases |bodies|
  {
    var rs := K.Reports(channel, bodies);
    if bodies == [] {
      assert l.up + rs == l.up;
    } else {
      var n := |bodies| - 1;
      var init := K.Reports(channel, bodies[..n]);
      ReportsQuiet(srv, l, channel, bodies[..n]);
      assert l.up + rs == (l.up + init) + [rs[n]];
      ReplaySnoc(srv.subs, l.up + init, rs[n]);
      ReplayOkSnoc(srv.subs, l.up + init, rs[n]);
      UpIdsSnoc(l.up + init, rs[n]);
    }
  }

  lemma IdsBelow(server: S.Server, c: nat, l: Link)
    requires LinkInv(server, c, l) && !l.client.waiting
    ensures forall t :: t in l.client.subs ==> 0 <= l.client.subs[t] < l.client.nextId
  {
    var subs := server.sessions[c].subs;
    forall t | t in l.client.subs ensures 0 <= l.client.subs[t] < l.client.nextId {
      var id := l.client.subs[t];
      assert id in Replay(subs, l.up);
      ReplayIssued(subs, l.up, l.issued, id);
    }
  }

  lemma {:induction false} ReplayIssued(subs: map<int, string>, up: seq<K.Request>, issued: map<int, string>, id: int)
    requires id in Replay(subs, up) && forall k :: k in subs ==> k in issued
    requires forall i :: 0 <= i < |up| && up[i].Subscribe? ==> up[i].id in issued
    ensures id in issued
    decreases |up|
  {
    if up != [] {
      ReplayIssued(Effect(subs, up[0]), up[1..], issued, id);
    }
  }

  lemma JoinIssued(reg: C.Registry, c: nat, srv: P.Session, l: Link, channel: string)
    requires IssuedInv(reg, c, srv, l) && K.CanType(l.client) && 0 <= l.client.nextId && 0 <= l.client.nextReceipt
    requires Word(channel) && channel !in l.client.subs
    ensures IssuedInv(reg, c, srv, After(l, K.Join(l.client, channel)))
  {
    var l' := After(l, K.Join(l.client, channel));
    assert l'.issued == l.issued[l.client.nextId := channel] && l.client.nextId !in l.issued;
    forall i | 0 <= i < |C.Out(reg, c)| ensures Proper(l'.issued, C.Out(reg, c)[i]) {
      assert Proper(l.issued, C.Out(reg, c)[i]);
    }
  }

  lemma JoinInv(server: S.Server, c: nat, l: Link, channel: string)
    requires LinkInv(server, c, l) && K.CanType(l.client) && Word(channel)
    ensures LinkInv(server, c, After(l, K.Join(l.client, channel)))
  {
    var l' := After(l, K.Join(l.client, channel));
    if channel in l.client.subs {
      assert l'.up == l.up;
    } else {
      IdsBelow(server, c, l);
      JoinMirror(server.sessions[c], l, channel);
      JoinIssued(server.reg, c, server.sessions[c], l, channel);
      ReceiptSent(server.reg, c, l, l', l'.up[|l.up|], "Joined channel " + channel);
    }
  }

  lemma ExitIssued(reg: C.Registry, c: nat, srv: P.Session, l: Link, channel: string)
    requires IssuedInv(reg, c, srv, l) && K.CanType(l.client) && channel in l.client.subs
    requires 0 <= l.client.subs[channel] < l.client.nextId && 0 <= l.client.nextReceipt
    ensures IssuedInv(reg, c, srv, After(l, K.Exit(l.client, channel)))
  {
    hide Proper;
    var r := K.Unsubscribe(l.client.subs[channel], l.client.nextReceipt);
    assert After(l, K.Exit(l.client, channel)).up == l.up + [r] && WireSafe(r);
  }

  lemma ExitPhase(srv: P.Session, out: seq<Frame>, l: Link, channel: string)
    requires PhaseInv(srv, out, l) && K.CanType(l.client)
    ensures PhaseInv(srv, out, After(l, K.Exit(l.client, channel)))
  {
  }

  /** A receipt number may be spent on nothing. */
  lemma SpentReceipt(server: S.Server, c: nat, l: Link)
    requires LinkInv(server, c, l) && K.CanType(l.client)
    ensures LinkInv(server, c, l.(client := l.client.(nextReceipt := l.client.nextReceipt + 1), up := l.up + []))
  {
    hide Replay, ReplayOk, InFlight, Inverse, Proper;
    assert l.up + [] == l.up;
  }

  lemma ExitInv(server: S.Server, c: nat, l: Link, channel: string)
    requires LinkInv(server, c, l) && K.CanType(l.client)
    ensures LinkInv(server, c, After(l, K.Exit(l.client, channel)))
  {
    var l' := After(l, K.Exit(l.client, channel));
    IdsBelow(server, c, l);
    if channel !in l.client.subs {
      SpentReceipt(server, c, l);
      assert l' == l.(client := l.client.(nextReceipt := l.client.nextReceipt + 1), up := l.up + []);
    } else {
      assert 0 <= l.client.nextReceipt;
      hide MirrorInv, ReceiptInv, IssuedInv, PhaseInv;
      ExitPhase(server.sessions[c], C.Out(server.reg, c), l, channel);
      ExitMirror(server.sessions[c], l, channel);
      ExitIssued(server.reg, c, server.sessions[c], l, channel);
      ReceiptSent(server.reg, c, l, l', l'.up[|l.up|], "Exited channel " + channel);
    }
  }

  lemma LogoutInv(server: S.Server, c: nat, l: Link)
    requires LinkInv(server, c, l) && K.CanType(l.client)
    ensures LinkInv(server, c, After(l, K.Logout(l.client)))
  {
    hide Replay, ReplayOk, InFlight, Inverse, ReceiptInv, Proper;
    var l' := After(l, K.Logout(l.client));
    LogoutMirror(server.sessions[c], l);
    ReceiptSent(server.reg, c, l, l', l'.up[|l.up|], "Logout");
  }

  lemma ReportIssued(reg: C.Registry, c: nat, srv: P.Session, l: Link, channel: string, bodies: seq<string>)
    requires IssuedInv(reg, c, srv, l) && NUL !in channel && forall i :: 0 <= i < |bodies| ==> NUL !in bodies[i]
    ensures IssuedInv(reg, c, srv, l.(up := l.up + K.Reports(channel, bodies)))
  {
  }

  lemma ReportInv(server: S.Server, c: nat, l: Link, channel: string, bodies: seq<string>)
    requires LinkInv(server, c, l) && K.CanType(l.client) && NUL !in channel
    requires forall i :: 0 <= i < |bodies| ==> NUL !in bodies[i]
    ensures LinkInv(server, c, l.(up := l.up + K.Reports(channel, bodies)))
  {
    ReportsQuiet(server.sessions[c], l, channel, bodies);
    ReportIssued(server.reg, c, server.sessions[c], l, channel, bodies);
  }
}
