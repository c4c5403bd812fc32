/** Delivering, opening and closing keep the session invariants too; what every run of any
    number of shipped clients guarantees. */
module SessionRuns {
  import opened Text
  import opened StompFrames
  import opened Events
  import opened FrameRoundTrip
  import opened Framing
  import opened Sessions
  import opened SessionServe
  import C = Connections
  import P = StompProtocols
  import S = ServerRuns
  import K = Clients

  // ---------- the sessions a step does not touch ----------

  /** Nothing, or one MESSAGE. */
  predicate AtMostOneMessage(issued: map<int, string>, more: seq<Frame>) {
    more == [] || (|more| == 1 && IsMessage(issued, more[0]))
  }

  lemma FlightKept(out: seq<Frame>, issued: map<int, string>, more: seq<Frame>)
    requires AtMostOneMessage(issued, more)
    ensures DownIds(out + more) == DownIds(out)
  {
    if more == [] {
      assert out + more == out;
    } else {
      assert more == [more[0]];
      QuietDown(out, more[0]);
    }
  }

  lemma PhaseKept(srv: P.Session, out: seq<Frame>, l: Link, more: seq<Frame>)
    requires PhaseInv(srv, out, l) && AtMostOneMessage(l.issued, more)
    requires forall id :: id in l.issued ==> 0 <= id < l.client.nextId
    ensures PhaseInv(srv, out + more, l)
  {
    if more != [] {
      assert Stoi(more[0].headers["subscription"]).value in l.issued;
    } else {
      assert out + more == out;
    }
  }

  lemma IssuedKept(reg: C.Registry, reg': C.Registry, c: nat, srv: P.Session, l: Link, more: seq<Frame>)
    requires IssuedInv(reg, c, srv, l) && AtMostOneMessage(l.issued, more) && C.Out(reg', c) == C.Out(reg, c) + more
    requires forall t, id :: C.Has(reg', t, c, id) ==> C.Has(reg, t, c, id)
    ensures IssuedInv(reg', c, srv, l)
  {
  }

  /** A session is not disturbed when its entries and registration stay and its connection is
      sent at most a MESSAGE. */
  lemma Undisturbed(server: S.Server, server': S.Server, x: nat, l: Link, more: seq<Frame>)
    requires LinkInv(server, x, l) && x in server'.sessions && server'.sessions[x] == server.sessions[x]
    requires x in server'.reg.registered <==> x in server.reg.registered
    requires forall t, id :: C.Has(server'.reg, t, x, id) ==> C.Has(server.reg, t, x, id)
    requires C.Out(server'.reg, x) == C.Out(server.reg, x) + more && AtMostOneMessage(l.issued, more)
    ensures LinkInv(server', x, l)
  {
    FlightKept(C.Out(server.reg, x), l.issued, more);
    SameFlight(server.reg, server'.reg, x, l, l);
    PhaseKept(server.sessions[x], C.Out(server.reg, x), l, more);
    IssuedKept(server.reg, server'.reg, x, server.sessions[x], l, more);
  }

  lemma RelayedShare(v: P.Served, c: nat, f: Frame, d: P.Verdict, shown: string, x: nat, l: Link)
    requires d.Relay? && NUL !in f.body && IssuedInv(v.reg, x, v.session, l) && l.client.nextId <= K.MAX_INT
    ensures AtMostOneMessage(l.issued, Replies(v, x, f, d, shown))
  {
    IssuedIdsAreInts(v.reg, x, v.session, l);
    ShareIsProper(v.reg, l.issued, x, d.topic, C.NextInt(v.reg.counter), f.body);
  }

  /** Serving one session leaves every other session's invariants alone. */
  lemma ServedElsewhere(server: S.Server, c: nat, f: Frame, d: P.Verdict, shown: string, x: nat, l: Link)
    requires c in server.sessions && P.Justified(S.Before(server, c), d) && (d.Relay? ==> NUL !in f.body)
    requires LinkInv(server, x, l) && x != c
    ensures LinkInv(S.After(server, c, f, d, shown), x, l)
  {
    var v := S.Before(server, c);
    var server' := S.After(server, c, f, d, shown);
    OthersOut(v, c, f, d, shown, x);
    RegisteredAfter(v, c, f, d, shown);
    forall t, id ensures C.Has(server'.reg, t, x, id) ==> C.Has(server.reg, t, x, id) {
      S.OthersKeepEntries(v, c, f, d, shown, x, t, id);
    }
    var more := if d.Relay? then Replies(v, x, f, d, shown) else [];
    if d.Relay? { RelayedShare(v.(session := server.sessions[x]), c, f, d, shown, x, l); }
    Undisturbed(server, server', x, l, more);
  }

  // ---------- delivering ----------

  lemma FirstPieceOf(text: string, m: string)
    requires text == m + [NUL] && NUL !in m
    ensures FirstPiece(text) == m
  {
    IndexOfAfter(m, NUL, "");
    assert text == m + [NUL] + "";
  }

  /** A NUL-free printable frame arrives whole, its body with the printer's newline. */
  lemma ArrivesWhole(f: Frame, text: string)
    requires IsServerText(text, f) && Printable(f) && NulFree(f)
    ensures ClientParse(FirstPiece(text)) == f.(body := Relayed(f.body))
  {
    TextHasNoInnerNul(f, text);
    ServerToClient(f, text);
    var m := text[..|text| - 1];
    assert text == m + [NUL];
    FirstPieceOf(text, m);
  }

  /** Whatever an ERROR frame contains, its command arrives. */
  lemma CommandArrives(f: Frame, text: string)
    requires IsServerText(text, f) && LF !in f.command && NUL !in f.command
    ensures ClientParse(FirstPiece(text)).command == f.command
  {
    var order :| Enumerates(order, f.headers) && text == Layout(f, order, Relayed(f.body)) + [NUL];
    var more := HeaderLines(order, f.headers) + [LF] + Relayed(f.body) + [NUL];
    assert text == f.command + [LF] + more;
    var i := IndexOf(text, NUL);
    assert forall j :: 0 <= j <= |f.command| ==> text[j] == (f.command + [LF])[j];
    assert FirstPiece(text) == f.command + [LF] + text[|f.command| + 1..i];
    LineParseWhole(f.command, text[|f.command| + 1..i]);
  }

  /** What the client is handed for each kind of frame the server sends it. */
  predicate Arrives(issued: map<int, string>, f: Frame, g: Frame) {
    && g.command == f.command
    && (f == P.ConnectedFrame() || IsReceipt(f) ==> g == f)
    && (IsMessage(issued, f) ==> g.headers == f.headers && g.body == Relayed(f.body))
  }

  lemma ConnectedArrives(issued: map<int, string>, text: string)
    requires IsServerText(text, P.ConnectedFrame())
    ensures Arrives(issued, P.ConnectedFrame(), ClientParse(FirstPiece(text)))
  {
    ArrivesWhole(P.ConnectedFrame(), text);
  }

  lemma ReceiptArrives(issued: map<int, string>, f: Frame, text: string)
    requires IsReceipt(f) && IsServerText(text, f)
    ensures Arrives(issued, f, ClientParse(FirstPiece(text)))
  {
    ArrivesWhole(f, text);
  }

  lemma MessageKeys(key: string)
    requires key in {"destination", "subscription", "message-id"}
    ensures LF !in key && ':' !in key && NUL !in key
  {
  }

  lemma MessageValues(issued: map<int, string>, f: Frame, key: string)
    requires IsMessage(issued, f) && key in f.headers && forall id :: id in issued ==> Word(issued[id])
    ensures LF !in f.headers[key] && NUL !in f.headers[key]
  {
    assert key == "destination" || key == "subscription" || key == "message-id";
  }

  lemma MessagePrintable(issued: map<int, string>, f: Frame)
    requires IsMessage(issued, f) && forall id :: id in issued ==> Word(issued[id])
    ensures Printable(f) && NulFree(f)
  {
    forall key | key in f.headers
      ensures LF !in key && ':' !in key && NUL !in key && LF !in f.headers[key] && NUL !in f.headers[key]
    {
      MessageKeys(key);
      MessageValues(issued, f, key);
    }
  }

  lemma MessageArrives(issued: map<int, string>, f: Frame, text: string)
    requires IsMessage(issued, f) && IsServerText(text, f) && forall id :: id in issued ==> Word(issued[id])
    ensures Arrives(issued, f, ClientParse(FirstPiece(text)))
  {
    MessagePrintable(issued, f);
    ArrivesWhole(f, text);
  }

  lemma FrameArrives(issued: map<int, string>, f: Frame, text: string)
    requires Proper(issued, f) && IsServerText(text, f) && forall id :: id in issued ==> Word(issued[id])
    ensures Arrives(issued, f, ClientParse(FirstPiece(text)))
  {
    if f == P.ConnectedFrame() {
      ConnectedArrives(issued, text);
    } else if IsReceipt(f) {
      ReceiptArrives(issued, f, text);
    } else if IsMessage(issued, f) {
      MessageArrives(issued, f, text);
    } else {
      CommandArrives(f, text);
    }
  }

  predicate Keeps(k: K.Client, k': K.Client) {
    && k'.subs == k.subs && k'.waiting == k.waiting && k'.nextId == k.nextId && k'.nextReceipt == k.nextReceipt
    && forall n :: n in k'.receipts ==> n in k.receipts
  }

  lemma RememberKeeps(k: K.Client, destination: string, e: Option<Event>)
    ensures var k' := K.Remember(k, destination, e); Keeps(k, k') && k'.connected == k.connected && k'.receipts == k.receipts
  {
  }

  lemma HandleMessageKeeps(k: K.Client, g: Frame)
    ensures var k' := K.HandleMessage(k, g); Keeps(k, k') && k'.connected == k.connected && k'.receipts == k.receipts
  {
    if "destination" in g.headers {
      RememberKeeps(k, g.headers["destination"], ParseEvent(g.body));
    }
  }

  lemma HandleReceiptKeeps(k: K.Client, g: Frame)
    ensures var k' := K.HandleReceipt(k, g); Keeps(k, k') && k'.connected == k.connected
  {
  }

  /** What no arriving frame changes, and the one way to become connected. */
  lemma HandleKeeps(k: K.Client, g: Frame)
    ensures Keeps(k, K.HandleFrame(k, g))
    ensures K.HandleFrame(k, g).connected == (k.connected || g.command == "CONNECTED")
    ensures g.command != "RECEIPT" ==> K.HandleFrame(k, g).receipts == k.receipts
  {
    HandleMessageKeeps(k, g);
    HandleReceiptKeeps(k, g);
  }

  lemma HandleReceiptOf(k: K.Client, g: Frame)
    requires IsReceipt(g)
    ensures K.HandleFrame(k, g).receipts == k.receipts - {AckOf(g)[0]}
    ensures K.UnknownReceipt(k, g) <==> AckOf(g)[0] !in k.receipts
  {
  }

  lemma IncreasingHead(n: int, rest: seq<int>)
    requires Increasing([n] + rest)
    ensures n !in rest && Increasing(rest)
  {
    var s := [n] + rest;
    forall i | 0 <= i < |rest| ensures rest[i] != n {
      assert s[0] < s[i + 1];
    }
    forall i, j | 0 <= i < j < |rest| ensures rest[i] < rest[j] {
      assert s[i + 1] < s[j + 1];
    }
  }

  lemma FlightHead(out: seq<Frame>, up: seq<K.Request>)
    requires out != []
    ensures InFlight(out, up) == AckOf(out[0]) + InFlight(out[1..], up)
  {
    hide DownIds, UpIds, AckOf;
    DownIdsUncons(out);
    Regroup(AckOf(out[0]), DownIds(out[1..]), UpIds(up));
  }

  /** A RECEIPT that arrives is known, and its arrival retires exactly its own entry. */
  lemma ReceiptDelivered(flight: seq<int>, receipts: map<int, string>, n: int)
    requires Increasing([n] + flight) && forall x :: x in [n] + flight <==> x in receipts
    ensures n in receipts && Increasing(flight) && forall x :: x in flight <==> x in receipts - {n}
  {
    IncreasingHead(n, flight);
    assert ([n] + flight)[0] == n;
    forall x ensures x in flight <==> x in receipts - {n} {
      assert x in [n] + flight <==> x == n || x in flight;
    }
  }

  lemma ReceiptsAfter(reg: C.Registry, reg': C.Registry, c: nat, l: Link, g: Frame)
    requires ReceiptInv(reg, c, l) && C.Out(reg, c) != [] && C.Out(reg', c) == C.Out(reg, c)[1..]
    requires reg'.registered == reg.registered
    requires g.command == C.Out(reg, c)[0].command && (IsReceipt(C.Out(reg, c)[0]) ==> g == C.Out(reg, c)[0])
    requires IsReceipt(C.Out(reg, c)[0]) || g.command != "RECEIPT"
    ensures ReceiptInv(reg', c, l.(client := K.HandleFrame(l.client, g)))
    ensures !l.lost ==> !K.UnknownReceipt(l.client, g)
  {
    var f := C.Out(reg, c)[0];
    HandleKeeps(l.client, g);
    if !l.lost {
      FlightHead(C.Out(reg, c), l.up);
      if IsReceipt(f) {
        HandleReceiptOf(l.client, g);
        assert AckOf(f) == [AckOf(f)[0]];
        ReceiptDelivered(InFlight(C.Out(reg', c), l.up), l.client.receipts, AckOf(f)[0]);
      } else {
        assert AckOf(f) + InFlight(C.Out(reg', c), l.up) == InFlight(C.Out(reg', c), l.up);
      }
    }
  }

  lemma PhaseAfter(srv: P.Session, out: seq<Frame>, l: Link, g: Frame)
    requires PhaseInv(srv, out, l) && out != [] && g.command == out[0].command
    ensures PhaseInv(srv, out[1..], l.(client := K.HandleFrame(l.client, g)))
  {
    HandleKeeps(l.client, g);
  }

  lemma IssuedAfter(reg: C.Registry, reg': C.Registry, c: nat, srv: P.Session, l: Link, g: Frame)
    requires IssuedInv(reg, c, srv, l) && C.Out(reg, c) != [] && C.Out(reg', c) == C.Out(reg, c)[1..] && reg'.topics == reg.topics
    ensures IssuedInv(reg', c, srv, l.(client := K.HandleFrame(l.client, g)))
  {
    HandleKeeps(l.client, g);
    var l' := l.(client := K.HandleFrame(l.client, g));
    forall t, id | C.Has(reg', t, c, id) ensures id in l'.issued && l'.issued[id] == t {
      assert C.Has(reg, t, c, id);
    }
  }

  lemma ProperReceipt(issued: map<int, string>, f: Frame)
    requires Proper(issued, f)
    ensures IsReceipt(f) || f.command != "RECEIPT"
  {
  }

  lemma DeliveredLink(server: S.Server, server': S.Server, c: nat, l: Link, text: string)
    requires LinkInv(server, c, l) && C.Out(server.reg, c) != [] && IsServerText(text, C.Out(server.reg, c)[0])
    requires server'.sessions == server.sessions && server'.reg.topics == server.reg.topics
    requires server'.reg.registered == server.reg.registered && C.Out(server'.reg, c) == C.Out(server.reg, c)[1..]
    ensures LinkInv(server', c, l.(client := K.HandleFrame(l.client, ClientParse(FirstPiece(text)))))
    ensures !l.lost ==> !K.UnknownReceipt(l.client, ClientParse(FirstPiece(text)))
  {
    var f, g := C.Out(server.reg, c)[0], ClientParse(FirstPiece(text));
    assert Proper(l.issued, f);
    FrameArrives(l.issued, f, text);
    ProperReceipt(l.issued, f);
    HandleKeeps(l.client, g);
    ReceiptsAfter(server.reg, server'.reg, c, l, g);
    PhaseAfter(server.sessions[c], C.Out(server.reg, c), l, g);
    IssuedAfter(server.reg, server'.reg, c, server.sessions[c], l, g);
  }

  // ---------- opening and closing ----------

  lemma CloseEntries(r: C.Registry, c: nat, t: string, d: nat, k: int)
    ensures C.Has(C.Disconnect(r, c), t, d, k) ==> C.Has(r, t, d, k)
  {
  }

  lemma ClosedLink(server: S.Server, c: nat, l: Link)
    requires LinkInv(server, c, l)
    ensures LinkInv(server.(reg := C.Disconnect(server.reg, c)), c, l.(lost := true))
  {
    var reg' := C.Disconnect(server.reg, c);
    forall t, id | C.Has(reg', t, c, id) ensures id in l.issued && l.issued[id] == t {
      CloseEntries(server.reg, c, t, c, id);
    }
  }

  lemma ClosedElsewhere(server: S.Server, c: nat, x: nat, l: Link)
    requires LinkInv(server, x, l) && x != c
    ensures LinkInv(server.(reg := C.Disconnect(server.reg, c)), x, l)
  {
    var server' := server.(reg := C.Disconnect(server.reg, c));
    forall t, id ensures C.Has(server'.reg, t, x, id) ==> C.Has(server.reg, t, x, id) {
      CloseEntries(server.reg, c, t, x, id);
    }
    assert C.Out(server'.reg, x) == C.Out(server.reg, x) + [];
    Undisturbed(server, server', x, l, []);
  }

  lemma OpenedLink(server: S.Server, c: nat, user: string, password: string)
    requires c in server.sessions && server.sessions[c] == P.Session(false, false, map[])
    requires C.Out(server.reg, c) == [] && c in server.reg.registered && forall t, id :: !C.Has(server.reg, t, c, id)
    requires Word(user) && Word(password)
    ensures LinkInv(server, c, Link(K.START, [K.Connect(user, password)], map[], false))
  {
    hide Replay, ReplayOk, InFlight, Inverse, Increasing;
    var r := K.Connect(user, password);
    OpenedMirror(r, map[], map[]);
    OpenedFlight(r, C.Out(server.reg, c));
  }

  lemma OpenedFlight(r: K.Request, out: seq<Frame>)
    requires r.Connect? && out == []
    ensures InFlight(out, [r]) == [] && Increasing(InFlight(out, [r]))
  {
    assert [r][..0] == [] && UpIds([]) == [] && DownIds(out) == [];
    assert UpIds([r]) == UpIds([r][..0]) + ReceiptOf(r);
  }

  lemma OpenedMirror(r: K.Request, subs: map<int, string>, ids: map<string, int>)
    requires r.Connect? && subs == map[] && ids == map[]
    ensures ReplayOk(subs, [r]) && Inverse(Replay(subs, [r]), ids)
  {
    assert [r][1..] == [] && Effect(subs, r) == subs;
    assert Replay(subs, [r]) == Replay(subs, []);
  }

  // ---------- every step ----------

  lemma OutboxKeys(v: P.Served, c: nat, f: Frame, d: P.Verdict, shown: string, x: nat)
    requires P.Justified(v, d) && x in P.Act(v, c, f, d, shown).reg.outbox
    ensures x in v.reg.outbox || x in v.reg.registered
  {
    if x == c { OwnOut(v, c, f, d, shown); } else { OthersOut(v, c, f, d, shown, x); }
  }

  lemma StepIndexes(s: System, st: Step)
    requires Inv(s) && Enabled(s, st)
    ensures var s' := Apply(s, st); S.IndexInv(s'.server) && S.LoginInv(s'.server)
  {
    hide P.Judge, P.Act, S.IndexInv, S.LoginInv, LinkInv, S.After;
    match st {
      case Login(c, _, _) => S.StepIndex(s.server, S.Accept(c)); S.StepLogin(s.server, S.Accept(c));
      case Serve(c, text, shown) =>
        var h := S.Handle(c, ServerParse(text).value, shown);
        ServeVerdict(s, c, text);
        S.StepIndex(s.server, h);
        S.StepLogin(s.server, h);
      case Deliver(c, _) => S.StepIndex(s.server, S.Deliver(c)); S.StepLogin(s.server, S.Deliver(c));
      case Close(c) => S.StepIndex(s.server, S.Close(c)); S.StepLogin(s.server, S.Close(c));
      case Join(_, _) =>
      case Exit(_, _) =>
      case Report(_, _, _) =>
      case Logout(_) =>
    }
  }

  /** The head of a session's requests is judged as its client expects, and keeps the
      discipline the shared index relies on. */
  lemma ServeVerdict(s: System, c: nat, text: string)
    requires Inv(s) && c in s.links && s.links[c].up != []
    requires IsClientText(text, K.RequestFrame(s.links[c].up[0]))
    ensures ServerParse(text).Some?
    ensures var v, f := S.Before(s.server, c), ServerParse(text).value;
            Matches(s.links[c].up[0], f, P.Judge(v, f)) && S.FreshVerdict(v.session.subs, P.Judge(v, f))
  {
    hide P.Judge, P.Act;
    var l := s.links[c];
    assert LinkInv(s.server, c, l) && WireSafe(l.up[0]);
    ServedVerdict(S.Before(s.server, c), l.up[0], text);
  }

  lemma StepLogged(s: System, c: nat, user: string, password: string)
    requires Inv(s) && Enabled(s, Login(c, user, password))
    ensures var s' := Apply(s, Login(c, user, password)); forall x :: x in s'.links ==> LinkInv(s'.server, x, s'.links[x])
  {
    hide LinkInv, S.LoginInv, P.Judge, P.Act;
    var s' := Apply(s, Login(c, user, password));
    forall x | x in s'.links ensures LinkInv(s'.server, x, s'.links[x]) {
      assert forall t, y: nat, id :: C.Has(s'.server.reg, t, y, id) <==> C.Has(s.server.reg, t, y, id);
      if x == c {
        OpenedLink(s'.server, c, user, password);
      } else {
        assert C.Out(s'.server.reg, x) == C.Out(s.server.reg, x) + [];
        Undisturbed(s.server, s'.server, x, s.links[x], []);
      }
    }
  }

  lemma StepServed(s: System, c: nat, text: string, shown: string)
    requires Inv(s) && Enabled(s, Serve(c, text, shown))
    ensures var s' := Apply(s, Serve(c, text, shown));
            && (forall x :: x in s'.links ==> LinkInv(s'.server, x, s'.links[x]))
            && forall x :: x in s'.server.reg.outbox ==> x in s'.server.sessions
  {
    hide LinkInv, P.Act, P.Judge;
    var s' := Apply(s, Serve(c, text, shown));
    ServeVerdict(s, c, text);
    var v, f := S.Before(s.server, c), ServerParse(text).value;
    var d := P.Judge(v, f);
    forall x | x in s'.links ensures LinkInv(s'.server, x, s'.links[x]) {
      if x == c {
        ServedLink(s.server, c, s.links[c], f, d, shown);
      } else {
        ServedElsewhere(s.server, c, f, d, shown, x, s.links[x]);
      }
    }
    forall x | x in s'.server.reg.outbox ensures x in s'.server.sessions {
      OutboxKeys(v, c, f, d, shown, x);
    }
  }

  lemma StepDelivered(s: System, c: nat, text: string)
    requires Inv(s) && Enabled(s, Deliver(c, text))
    ensures var s' := Apply(s, Deliver(c, text)); forall x :: x in s'.links ==> LinkInv(s'.server, x, s'.links[x])
    ensures !s.links[c].lost ==> !K.UnknownReceipt(s.links[c].client, ClientParse(FirstPiece(text)))
  {
    hide LinkInv, P.Judge, P.Act, K.HandleFrame, K.UnknownReceipt, ClientParse, FirstPiece, S.IndexInv, S.LoginInv;
    var s' := Apply(s, Deliver(c, text));
    DeliveredLink(s.server, s'.server, c, s.links[c], text);
    forall x | x in s'.links ensures LinkInv(s'.server, x, s'.links[x]) {
      if x != c {
        assert C.Out(s'.server.reg, x) == C.Out(s.server.reg, x) + [];
        assert forall t, id :: C.Has(s'.server.reg, t, x, id) <==> C.Has(s.server.reg, t, x, id);
        Undisturbed(s.server, s'.server, x, s.links[x], []);
      }
    }
  }

  lemma StepClosed(s: System, c: nat)
    requires Inv(s) && Enabled(s, Close(c))
    ensures var s' := Apply(s, Close(c)); forall x :: x in s'.links ==> LinkInv(s'.server, x, s'.links[x])
  {
    hide LinkInv, S.IndexInv, S.LoginInv, P.Judge, P.Act;
    var s' := Apply(s, Close(c));
    forall x | x in s'.links ensures LinkInv(s'.server, x, s'.links[x]) {
      if x == c { ClosedLink(s.server, c, s.links[c]); } else { ClosedElsewhere(s.server, c, x, s.links[x]); }
    }
  }

  /** A command changes nothing but its own session. */
  lemma TypedInv(s: System, c: nat, l: Link)
    requires Inv(s) && c in s.links && LinkInv(s.server, c, l)
    ensures Inv(s.(links := s.links[c := l]))
  {
    hide LinkInv, S.IndexInv, S.LoginInv, P.Judge, P.Act;
  }

  lemma StepTyped(s: System, st: Step)
    requires Inv(s) && Enabled(s, st) && (st.Join? || st.Exit? || st.Report? || st.Logout?)
    ensures Inv(Apply(s, st))
  {
    hide LinkInv, S.IndexInv, S.LoginInv, K.Join, K.Exit, K.Logout, K.Reports, P.Judge, P.Act;
    var l := s.links[st.c];
    match st {
      case Join(c, channel) =>
        JoinInv(s.server, c, l, channel);
        TypedInv(s, c, Sessions.After(l, K.Join(l.client, channel)));
      case Exit(c, channel) =>
        ExitInv(s.server, c, l, channel);
        TypedInv(s, c, Sessions.After(l, K.Exit(l.client, channel)));
      case Report(c, channel, bodies) =>
        ReportInv(s.server, c, l, channel, bodies);
        TypedInv(s, c, l.(up := l.up + K.Reports(channel, bodies)));
      case Logout(c) =>
        LogoutInv(s.server, c, l);
        TypedInv(s, c, Sessions.After(l, K.Logout(l.client)));
      case Login(_, _, _) =>
      case Serve(_, _, _) =>
      case Deliver(_, _) =>
      case Close(_) =>
    }
  }

  lemma LoggedInv(s: System, st: Step)
    requires Inv(s) && Enabled(s, st) && st.Login?
    ensures Inv(Apply(s, st))
  {
    hide LinkInv, S.IndexInv, S.LoginInv, P.Judge, P.Act;
    StepIndexes(s, st);
    StepLogged(s, st.c, st.user, st.password);
  }

  lemma ServedInv(s: System, st: Step)
    requires Inv(s) && Enabled(s, st) && st.Serve?
    ensures Inv(Apply(s, st))
  {
    hide LinkInv, S.IndexInv, S.LoginInv, P.Judge, P.Act;
    StepIndexes(s, st);
    StepServed(s, st.c, st.text, st.shown);
  }

  lemma DeliveredInv(s: System, st: Step)
    requires Inv(s) && Enabled(s, st) && st.Deliver?
    ensures Inv(Apply(s, st))
  {
    hide LinkInv, S.IndexInv, S.LoginInv, K.HandleFrame, K.CanType, P.Judge, P.Act;
    hide Word, IsServerText, IsClientText, ClientParse, ServerParse;
    StepIndexes(s, st);
    StepDelivered(s, st.c, st.text);
  }

  lemma ClosedInv(s: System, st: Step)
    requires Inv(s) && Enabled(s, st) && st.Close?
    ensures Inv(Apply(s, st))
  {
    hide LinkInv, S.IndexInv, S.LoginInv, P.Judge, P.Act;
    StepIndexes(s, st);
    StepClosed(s, st.c);
  }

  lemma StepInv(s: System, st: Step)
    requires Inv(s) && Enabled(s, st)
    ensures Inv(Apply(s, st))
  {
    hide Inv, P.Judge, P.Act;
    if st.Login? { LoggedInv(s, st); }
    else if st.Serve? { ServedInv(s, st); }
    else if st.Deliver? { DeliveredInv(s, st); }
    else if st.Close? { ClosedInv(s, st); }
    else { StepTyped(s, st); }
  }

  // ---------- runs ----------

  ghost predicate Next(s: System, s': System) {
    exists st :: Enabled(s, st) && s' == Apply(s, st)
  }

  ghost predicate IsRun(run: seq<System>) {
    && run != [] && Init(run[0])
    && forall i :: 0 <= i < |run| - 1 ==> Next(run[i], run[i + 1])
  }

  lemma {:induction false} RunInv(run: seq<System>, i: nat)
    requires IsRun(run) && i < |run|
    ensures Inv(run[i])
  {
    hide P.Judge, P.Act;
    if i > 0 {
      RunInv(run, i - 1);
      assert Next(run[i - 1], run[(i - 1) + 1]);
      var st :| Enabled(run[i - 1], st) && run[i] == Apply(run[i - 1], st);
      StepInv(run[i - 1], st);
    }
  }

  /** In every state, replaying a session's requests in flight on the server's subscriptions
      gives exactly the inverse of the client's, until the client logs out. */
  lemma SubscriptionMirror(run: seq<System>, i: nat, c: nat)
    requires IsRun(run) && i < |run| && c in run[i].links && !run[i].links[c].client.waiting
    ensures c in run[i].server.sessions
    ensures var subs, l := run[i].server.sessions[c].subs, run[i].links[c];
            forall id, t :: (id in Replay(subs, l.up) && Replay(subs, l.up)[id] == t) <==> (t in l.client.subs && l.client.subs[t] == id)
  {
    hide Replay, ReplayOk, ReceiptInv, PhaseInv, IssuedInv, S.IndexInv, S.LoginInv, IsRun, P.Judge, P.Act;
    RunInv(run, i);
    assert LinkInv(run[i].server, c, run[i].links[c]);
  }

  /** The verdict a request other than CONNECT and SEND asks for. */
  function Asked(r: K.Request): P.Verdict
    requires !r.Connect? && !r.Report?
  {
    match r
    case Subscribe(channel, id, _) => P.Subscribe(channel, id)
    case Unsubscribe(id, _) => P.Unsubscribe(id)
    case Disconnect(_) => P.LogOut
  }

  /** The frame is taken for what the request asks, and on a standing connection nothing but its
      receipt is sent back. */
  ghost predicate Answered(server: S.Server, c: nat, l: Link, f: Frame, shown: string)
    requires c in server.sessions && l.up != [] && !l.up[0].Connect? && !l.up[0].Report?
  {
    && P.Judge(S.Before(server, c), f) == Asked(l.up[0])
    && (l.lost || C.Out(S.Apply(server, S.Handle(c, f, shown)).reg, c)
               == C.Out(server.reg, c) + [P.ReceiptFrame(Decimal(l.up[0].receipt))])
  }

  lemma ServedReceipt(server: S.Server, c: nat, l: Link, f: Frame, d: P.Verdict, shown: string)
    requires LinkInv(server, c, l) && l.up != [] && !l.up[0].Connect? && !l.up[0].Report?
    requires P.Justified(S.Before(server, c), d) && Matches(l.up[0], f, d)
    ensures d == Asked(l.up[0])
    ensures !l.lost ==> C.Out(S.After(server, c, f, d, shown).reg, c) == C.Out(server.reg, c) + [P.ReceiptFrame(Decimal(l.up[0].receipt))]
  {
    hide MirrorInv, PhaseInv, IssuedInv, P.Act, InFlight;
    var v := S.Before(server, c);
    AcknowledgedReplies(v, c, l.up[0], f, d, shown, l.up[0].receipt);
    OwnOut(v, c, f, d, shown);
  }

  /** No SUBSCRIBE, UNSUBSCRIBE or DISCONNECT of a shipped client is ever rejected, and while
      the connection stands each is answered by its receipt alone. */
  lemma RequestsAccepted(run: seq<System>, i: nat, c: nat, text: string, shown: string)
    requires IsRun(run) && i < |run| && c in run[i].links && run[i].links[c].up != []
    requires !run[i].links[c].up[0].Connect? && !run[i].links[c].up[0].Report?
    requires IsClientText(text, K.RequestFrame(run[i].links[c].up[0]))
    ensures c in run[i].server.sessions && ServerParse(text).Some?
    ensures Enabled(run[i], Serve(c, text, shown)) <==> |text| <= LIMIT
    ensures Answered(run[i].server, c, run[i].links[c], ServerParse(text).value, shown)
  {
    hide LinkInv, S.IndexInv, S.LoginInv, P.Act, P.Judge, IsRun, Matches;
    hide K.RequestFrame, K.CanType, Word, IsClientText, ServerParse;
    RunInv(run, i);
    ServeVerdict(run[i], c, text);
    var f := ServerParse(text).value;
    ServedReceipt(run[i].server, c, run[i].links[c], f, P.Judge(S.Before(run[i].server, c), f), shown);
  }

  /** While the connection stands, the receipt ids in flight, as requests or as RECEIPTs, are
      without duplicates and exactly the keys of the client's receipt map. */
  lemma ReceiptsMatch(run: seq<System>, i: nat, c: nat)
    requires IsRun(run) && i < |run| && c in run[i].links && !run[i].links[c].lost
    ensures var flight := InFlight(C.Out(run[i].server.reg, c), run[i].links[c].up);
            && (forall j, k :: 0 <= j < k < |flight| ==> flight[j] != flight[k])
            && forall n :: n in flight <==> n in run[i].links[c].client.receipts
  {
    hide P.Judge, P.Act;
    RunInv(run, i);
    assert LinkInv(run[i].server, c, run[i].links[c]);
  }

  /** The branch of handleReceipt for an unknown id is unreachable. */
  lemma NoUnknownReceipt(run: seq<System>, i: nat, c: nat, text: string)
    requires IsRun(run) && i < |run| && c in run[i].links && !run[i].links[c].lost
    requires C.Out(run[i].server.reg, c) != [] && IsServerText(text, C.Out(run[i].server.reg, c)[0])
    ensures !K.UnknownReceipt(run[i].links[c].client, ClientParse(FirstPiece(text)))
  {
    hide P.Judge, P.Act, K.UnknownReceipt, IsServerText, LinkInv, IsRun, ClientParse, FirstPiece;
    RunInv(run, i);
    DeliveredLink(run[i].server, S.Apply(run[i].server, S.Deliver(c)), c, run[i].links[c], text);
  }

  /** With shipped clients only, the server's two subscription indexes agree for every
      registered connection. */
  lemma ClientsKeepIndexes(run: seq<System>, i: nat, c: nat)
    requires IsRun(run) && i < |run| && c in run[i].server.reg.registered
    ensures c in run[i].server.sessions && S.Agree(run[i].server.reg, c, run[i].server.sessions[c].subs)
  {
    hide P.Judge, P.Act;
    RunInv(run, i);
  }

  /** Every MESSAGE on its way to a client names a subscription and a topic the client asked for
      together, and whatever its printed text, it arrives with those headers and the relayed
      body. */
  lemma MessagesWereAskedFor(run: seq<System>, i: nat, c: nat, j: nat, text: string)
    requires IsRun(run) && i < |run| && c in run[i].links && j < |C.Out(run[i].server.reg, c)|
    requires C.Out(run[i].server.reg, c)[j].command == "MESSAGE" && IsServerText(text, C.Out(run[i].server.reg, c)[j])
    ensures var l, f, g := run[i].links[c], C.Out(run[i].server.reg, c)[j], ClientParse(FirstPiece(text));
            && g == f.(body := Relayed(f.body)) && "destination" in g.headers
            && exists id :: id in l.issued && P.Header(g, "subscription") == Some(Decimal(id)) && g.headers["destination"] == l.issued[id]
  {
    hide P.Judge, P.Act;
    RunInv(run, i);
    var l, f := run[i].links[c], C.Out(run[i].server.reg, c)[j];
    assert LinkInv(run[i].server, c, l) && Proper(l.issued, f);
    hide LinkInv, Inv, IsRun, IsServerText, ClientParse, FirstPiece;
    assert IsMessage(l.issued, f);
    FrameArrives(l.issued, f, text);
  }

  /** Serving is never blocked: the next request of any session has a text, which parses; only
      one longer than the decoder's array cannot be served. */
  lemma CanServe(run: seq<System>, i: nat, c: nat, shown: string) returns (text: string)
    requires IsRun(run) && i < |run| && c in run[i].links && run[i].links[c].up != []
    ensures IsClientText(text, K.RequestFrame(run[i].links[c].up[0]))
    ensures Enabled(run[i], Serve(c, text, shown)) <==> |text| <= LIMIT
  {
    hide P.Judge, P.Act, IsRun, LinkInv, S.IndexInv, S.LoginInv;
    RunInv(run, i);
    text := P.SomeClientText(K.RequestFrame(run[i].links[c].up[0]));
    ServeVerdict(run[i], c, text);
  }

  /** Nor is delivery, while the client still reads. */
  lemma CanDeliver(run: seq<System>, i: nat, c: nat) returns (text: string)
    requires IsRun(run) && i < |run| && c in run[i].links && !run[i].links[c].client.stopped && C.Out(run[i].server.reg, c) != []
    ensures Enabled(run[i], Deliver(c, text))
  {
    text := P.SomeText(C.Out(run[i].server.reg, c)[0]);
  }
}
