/** What a client's state says about its past, over whole runs of sessions: what it has stored is
    what was relayed to it, and it has stopped exactly when it had to. */
module ClientHistory {
  import opened Text
  import opened StompFrames
  import opened FrameRoundTrip
  import opened Events
  import opened Sessions
  import opened SessionServe
  import opened SessionRuns
  import opened SessionHistory
  import C = Connections
  import P = StompProtocols
  import S = ServerRuns
  import K = Clients

  // ---------- the frame handed over ----------

  function Handed(st: Step): Frame
    requires st.Deliver?
  {
    ClientParse(FirstPiece(st.text))
  }

  predicate Fatal(g: Frame) {
    g.command == "ERROR" || (g.command == "MESSAGE" && ParseEvent(g.body).None?)
  }

  /** Among the frames the server sends, a RECEIPT always has its number, and a MESSAGE its
      destination. */
  lemma HandedFrame(issued: map<int, string>, f: Frame, text: string)
    requires Proper(issued, f) && IsServerText(text, f) && forall id :: id in issued ==> Word(issued[id])
    ensures var g := ClientParse(FirstPiece(text));
            && AckOf(g) == (match K.Number(g) case Some(n) => [n] case None => [])
            && (K.Breaks(g) <==> Fatal(g))
  {
    hide ClientParse, FirstPiece, IsServerText, ParseEvent, Stoi, Decimal, Word;
    var g := ClientParse(FirstPiece(text));
    FrameArrives(issued, f, text);
    ProperReceipt(issued, f);
    if IsMessage(issued, f) { assert "destination" in f.headers; }
  }

  lemma HandedNow(s: System, st: Step)
    requires Inv(s) && Enabled(s, st) && st.Deliver?
    ensures AckOf(Handed(st)) == (match K.Number(Handed(st)) case Some(n) => [n] case None => [])
    ensures K.Breaks(Handed(st)) <==> Fatal(Handed(st))
  {
    hide S.IndexInv, S.LoginInv, MirrorInv, ReceiptInv, PhaseInv, Proper, Word, AckOf, K.Number, K.Breaks, Fatal;
    hide ClientParse, FirstPiece, IsServerText;
    var c := st.c;
    assert LinkInv(s.server, c, s.links[c]);
    HandedFrame(s.links[c].issued, C.Out(s.server.reg, c)[0], st.text);
  }

  // ---------- stopping ----------

  /** The receipt numbers of client `c`'s own DISCONNECTs. */
  ghost function LogoutBy(s: System, st: Step, c: nat): seq<int>
    requires Enabled(s, st)
  {
    if st == Logout(c) then [s.links[c].client.nextReceipt] else []
  }

  ghost function Logouts(run: seq<System>, steps: seq<Step>, c: nat): seq<int>
    requires Follows(run, steps)
    decreases |steps|
  {
    if steps == [] then []
    else
      var n := |steps| - 1;
      FollowsButLast(run, steps);
      Logouts(run[..n + 1], steps[..n], c) + LogoutBy(run[n], steps[n], c)
  }

  predicate BreaksIn(st: Step, c: nat) {
    st.Deliver? && st.c == c && Fatal(Handed(st))
  }

  /** Client `c` has been handed an ERROR, or a MESSAGE that is no event. */
  predicate Broken(steps: seq<Step>, c: nat) {
    exists i :: 0 <= i < |steps| && BreaksIn(steps[i], c)
  }

  lemma BrokenSnoc(steps: seq<Step>, c: nat)
    requires steps != []
    ensures var n := |steps| - 1; Broken(steps, c) <==> Broken(steps[..n], c) || BreaksIn(steps[n], c)
  {
    hide BreaksIn;
    var n := |steps| - 1;
    if Broken(steps[..n], c) {
      var i :| 0 <= i < n && BreaksIn(steps[..n][i], c);
      assert BreaksIn(steps[i], c);
    }
    if Broken(steps, c) && !BreaksIn(steps[n], c) {
      var i :| 0 <= i < |steps| && BreaksIn(steps[i], c);
      assert steps[..n][i] == steps[i];
    }
  }

  /** A client waits for one log-out at most, keeps its number noted until it is acknowledged,
      and has stopped exactly when that happened or something broke. */
  predicate StopInv(k: K.Client, acked: seq<int>, logouts: seq<int>, broken: bool) {
    && (k.waiting <==> logouts != []) && |logouts| <= 1
    && (logouts != [] && logouts[0] !in acked ==> logouts[0] in k.receipts)
    && (forall n :: n in k.receipts ==> (k.receipts[n] == "Logout" <==> n in logouts))
    && (k.failed <==> broken)
    && (k.stopped <==> broken || (logouts != [] && logouts[0] in acked))
  }

  lemma NotedLogout(k: K.Client, acked: seq<int>)
    requires StopInv(k, acked, [], false) && K.CanType(k) && k.nextReceipt !in acked
    ensures StopInv(K.Logout(k).client, acked, [k.nextReceipt], false)
  {
  }

  lemma NotedOther(k: K.Client, k': K.Client, acked: seq<int>, note: string)
    requires StopInv(k, acked, [], false) && note != "Logout"
    requires k' == k.(subs := k'.subs, nextId := k'.nextId, nextReceipt := k'.nextReceipt, receipts := k'.receipts)
    requires k'.receipts == k.receipts || k'.receipts == k.receipts[k.nextReceipt := note]
    ensures StopInv(k', acked, [], false)
  {
  }

  lemma StopTyped(s: System, st: Step, c: nat, acked: seq<int>, logouts: seq<int>, broken: bool)
    requires Enabled(s, st) && c in s.links && (st.Join? || st.Exit? || st.Report? || st.Logout?) && st.c == c
    requires StopKnown(s, c, acked, logouts, broken) && s.links[c].client.nextReceipt !in acked
    ensures StopKnown(Apply(s, st), c, acked, logouts + LogoutBy(s, st, c), broken)
  {
    var k := s.links[c].client;
    assert logouts == [] && !broken;
    assert logouts + LogoutBy(s, st, c) == LogoutBy(s, st, c);
    hide StopInv;
    match st {
      case Join(_, channel) =>
        assert ("Joined channel " + channel)[0] == 'J';
        NotedOther(k, K.Join(k, channel).client, acked, "Joined channel " + channel);
      case Exit(_, channel) =>
        assert ("Exited channel " + channel)[0] == 'E';
        NotedOther(k, K.Exit(k, channel).client, acked, "Exited channel " + channel);
      case Report(_, _, _) =>
      case Logout(_) => NotedLogout(k, acked);
      case Login(_, _, _) =>
      case Serve(_, _, _) =>
      case Deliver(_, _) =>
      case Close(_) =>
    }
  }

  /** A frame handed to a client that has not stopped. */
  lemma StopHanded(k: K.Client, g: Frame, acked: seq<int>, logouts: seq<int>)
    requires StopInv(k, acked, logouts, false) && !k.stopped
    ensures var more := match K.Number(g) case Some(n) => [n] case None => [];
            StopInv(K.HandleFrame(k, g), acked + more, logouts, K.Breaks(g))
  {
    hide K.Number, K.Breaks, K.HandleFrame;
    K.StopsIff(k, g);
    K.Retires(k, g);
    HandleKeeps(k, g);
    if K.Number(g).None? { assert acked + [] == acked; }
  }

  ghost predicate StopKnown(s: System, c: nat, acked: seq<int>, logouts: seq<int>, broken: bool) {
    if c in s.links then StopInv(s.links[c].client, acked, logouts, broken) else logouts == [] && !broken
  }

  lemma Handles(s: System, st: Step)
    requires Enabled(s, st) && st.Deliver?
    ensures st.c in s.links && st.c in Apply(s, st).links && !s.links[st.c].client.stopped
    ensures Apply(s, st).links[st.c].client == K.HandleFrame(s.links[st.c].client, Handed(st))
  {
    hide P.Judge, P.Act, K.HandleFrame, ClientParse, FirstPiece, IsServerText;
  }

  lemma StopDelivered(s: System, st: Step, c: nat, acked: seq<int>, logouts: seq<int>, broken: bool)
    requires Inv(s) && Enabled(s, st) && c in s.links && st.Deliver? && st.c == c && StopKnown(s, c, acked, logouts, broken)
    ensures StopKnown(Apply(s, st), c, acked + AckedBy(st, c), logouts, broken || BreaksIn(st, c))
  {
    hide Inv, Enabled, Apply, Handed, ClientParse, FirstPiece, IsServerText, K.HandleFrame, K.Number, K.Breaks, Fatal, AckOf;
    Handles(s, st);
    HandedNow(s, st);
    StopHanded(s.links[c].client, Handed(st), acked, logouts);
    HandedAck(st);
  }

  lemma HandedAck(st: Step)
    requires st.Deliver?
    ensures AckedBy(st, st.c) == AckOf(Handed(st)) && (BreaksIn(st, st.c) <==> Fatal(Handed(st)))
  {
    hide ClientParse, FirstPiece, AckOf, Fatal;
  }

  lemma FreshClient()
    ensures StopInv(K.START, [], [], false)
  {
  }

  lemma AckedBelow(s: System, c: nat, acked: seq<int>)
    requires OnceInv(s, c, acked)
    ensures c !in s.links ==> acked == []
    ensures c in s.links ==> s.links[c].client.nextReceipt !in acked
  {
    if c in s.links {
      BelowPrefix(acked, DownIds(C.Out(s.server.reg, c)), s.links[c].client.nextReceipt);
    }
  }

  lemma StepStop(s: System, st: Step, c: nat, acked: seq<int>, logouts: seq<int>, broken: bool)
    requires Inv(s) && Enabled(s, st) && OnceInv(s, c, acked) && StopKnown(s, c, acked, logouts, broken)
    ensures StopKnown(Apply(s, st), c, acked + AckedBy(st, c), logouts + LogoutBy(s, st, c), broken || BreaksIn(st, c))
  {
    AckedBelow(s, c, acked);
    FreshClient();
    hide Inv, OnceInv, StopInv, Enabled, Apply, AckedBy, LogoutBy, BreaksIn;
    if c in s.links && st.Deliver? && st.c == c {
      StopDelivered(s, st, c, acked, logouts, broken);
      NotTyped(s, st, c, logouts);
    } else if c in s.links && (st.Join? || st.Exit? || st.Report? || st.Logout?) && st.c == c {
      StopTyped(s, st, c, acked, logouts, broken);
      NotHanded(s, st, c, acked);
    } else {
      NotTyped(s, st, c, logouts);
      NotHanded(s, st, c, acked);
      SameClient(s, st, c);
    }
  }

  lemma NotTyped(s: System, st: Step, c: nat, logouts: seq<int>)
    requires Enabled(s, st) && (st == Logout(c) ==> c !in s.links)
    ensures logouts + LogoutBy(s, st, c) == logouts
    ensures st.Deliver? && st.c == c && c in s.links ==> c in Apply(s, st).links
  {
    hide P.Judge, P.Act, K.HandleFrame, ClientParse, FirstPiece, IsServerText;
  }

  lemma NotHanded(s: System, st: Step, c: nat, acked: seq<int>)
    requires Enabled(s, st) && !(st.Deliver? && st.c == c)
    ensures acked + AckedBy(st, c) == acked && !BreaksIn(st, c)
    ensures c in s.links ==> c in Apply(s, st).links
  {
    hide P.Judge, P.Act, K.HandleFrame, ClientParse, FirstPiece, IsServerText, Fatal, AckOf;
  }

  /** A client changes only by its own commands and by what it is handed. */
  lemma SameClient(s: System, st: Step, c: nat)
    requires Enabled(s, st)
    requires c in s.links ==> !((st.Join? || st.Exit? || st.Report? || st.Logout? || st.Deliver?) && st.c == c)
    ensures c in s.links ==> c in Apply(s, st).links && Apply(s, st).links[c].client == s.links[c].client
    ensures c !in s.links && c in Apply(s, st).links ==> Apply(s, st).links[c].client == K.START
    ensures c !in s.links ==> !(st.Deliver? && st.c == c) && st != Logout(c)
  {
    hide P.Judge, P.Act, K.HandleFrame, ClientParse, FirstPiece, IsServerText;
  }

  lemma {:induction false} RunStop(run: seq<System>, steps: seq<Step>, c: nat)
    requires Follows(run, steps)
    ensures StopKnown(run[|steps|], c, Acked(steps, c), Logouts(run, steps, c), Broken(steps, c))
    decreases |steps|
  {
    if steps != [] {
      hide Inv, Enabled, Apply, Follows, OnceInv, StopKnown, AckedBy, LogoutBy, BreaksIn, Broken;
      var n := |steps| - 1;
      FollowsButLast(run, steps);
      RunStop(run[..n + 1], steps[..n], c);
      RunOnce(run[..n + 1], steps[..n], c);
      FollowsInv(run[..n + 1], steps[..n]);
      BrokenSnoc(steps, c);
      StepStop(run[n], steps[n], c, Acked(steps[..n], c), Logouts(run[..n + 1], steps[..n], c), Broken(steps[..n], c));
    }
  }

  /** Over every run, a client's reader has stopped if and only if its one DISCONNECT has been
      acknowledged or it was handed an ERROR or a MESSAGE that is no event, and has failed if and
      only if the latter. */
  lemma StoppedIff(run: seq<System>, steps: seq<Step>, c: nat)
    requires Follows(run, steps) && c in run[|steps|].links
    ensures var k, logouts := run[|steps|].links[c].client, Logouts(run, steps, c);
            && |logouts| <= 1
            && (k.failed <==> Broken(steps, c))
            && (k.stopped <==> Broken(steps, c) || (logouts != [] && logouts[0] in Acked(steps, c)))
  {
    hide Acked, Logouts, Broken;
    RunStop(run, steps, c);
  }

  // ---------- storing ----------

  /** The event of a frame body as the client reads it, if it is one. */
  function EventIn(body: string): seq<Event> {
    match ParseEvent(body) case Some(e) => [e] case None => []
  }

  /** The event a step hands to client `c` on a channel. */
  function DeliveredBy(st: Step, c: nat, channel: string): seq<Event> {
    if st.Deliver? && st.c == c && Handed(st).command == "MESSAGE" && P.Header(Handed(st), "destination") == Some(channel)
    then EventIn(Handed(st).body) else []
  }

  /** All events delivered to client `c` on a channel, in order. */
  function Delivered(steps: seq<Step>, c: nat, channel: string): seq<Event> {
    if steps == [] then []
    else Delivered(steps[..|steps| - 1], c, channel) + DeliveredBy(steps[|steps| - 1], c, channel)
  }

  /** The event of an accepted SEND to a channel that registered connection `x` subscribes to. */
  ghost function RelayedTo(v: P.Served, f: Frame, x: nat, channel: string): seq<Event> {
    if P.Judge(v, f) == P.Relay(channel) && x in v.reg.registered && exists id :: C.Has(v.reg, channel, x, id)
    then EventIn(Relayed(f.body)) else []
  }

  ghost function RelayedBy(s: System, st: Step, x: nat, channel: string): seq<Event>
    requires Enabled(s, st)
  {
    if st.Serve? then RelayedTo(S.Before(s.server, st.c), ServerParse(st.text).value, x, channel) else []
  }

  /** All events relayed to connection `x` on a channel, in order. */
  ghost function RelayedEvents(run: seq<System>, steps: seq<Step>, x: nat, channel: string): seq<Event>
    requires Follows(run, steps)
    decreases |steps|
  {
    if steps == [] then []
    else
      var n := |steps| - 1;
      FollowsButLast(run, steps);
      RelayedEvents(run[..n + 1], steps[..n], x, channel) + RelayedBy(run[n], steps[n], x, channel)
  }

  /** The event a frame in an outbox will bring, once printed and parsed. */
  function Pending(f: Frame, channel: string): seq<Event> {
    if f.command == "MESSAGE" && P.Header(f, "destination") == Some(channel) then EventIn(Relayed(f.body)) else []
  }

  function PendingIn(out: seq<Frame>, channel: string): seq<Event> {
    if out == [] then [] else Pending(out[0], channel) + PendingIn(out[1..], channel)
  }

  lemma {:induction false} PendingAppend(out: seq<Frame>, more: seq<Frame>, channel: string)
    ensures PendingIn(out + more, channel) == PendingIn(out, channel) + PendingIn(more, channel)
    decreases |out|
  {
    hide Pending;
    if out == [] {
      assert out + more == more;
    } else {
      assert (out + more)[1..] == out[1..] + more;
      PendingAppend(out[1..], more, channel);
      Grouped(Pending(out[0], channel), PendingIn(out[1..], channel), PendingIn(more, channel));
    }
  }

  lemma Grouped<T>(a: seq<T>, b: seq<T>, c: seq<T>)
    ensures a + b + c == a + (b + c)
  {
  }

  lemma {:induction false} QuietFrames(more: seq<Frame>, channel: string)
    requires forall i :: 0 <= i < |more| ==> more[i].command != "MESSAGE"
    ensures PendingIn(more, channel) == []
  {
    if more != [] {
      QuietFrames(more[1..], channel);
    }
  }

  lemma ShareBrings(v: P.Served, f: Frame, t: string, x: nat, channel: string)
    requires P.Judge(v, f) == P.Relay(t)
    ensures var more := P.Share(v.reg, C.Subscribers(v.reg, t), x, t, C.NextInt(v.reg.counter), f.body);
            PendingIn(more, channel) == RelayedTo(v, f, x, channel)
  {
    hide P.Judge, EventIn, Relayed;
    var more := P.Share(v.reg, C.Subscribers(v.reg, t), x, t, C.NextInt(v.reg.counter), f.body);
    if more != [] {
      assert C.Has(v.reg, t, x, v.reg.topics[t][x]);
      assert more == [more[0]] && more[1..] == [];
      assert PendingIn(more, channel) == Pending(more[0], channel) + PendingIn([], channel);
    }
  }

  lemma RepliesQuiet(v: P.Served, x: nat, f: Frame, d: P.Verdict, shown: string, channel: string)
    requires !d.Relay?
    ensures PendingIn(Replies(v, x, f, d, shown), channel) == []
  {
    QuietFrames(Replies(v, x, f, d, shown), channel);
  }

  /** What serving connection `c` adds to the outbox of `x`. */
  lemma ServeBrings(v: P.Served, c: nat, f: Frame, shown: string, x: nat, channel: string)
    ensures PendingIn(C.Out(P.Act(v, c, f, P.Judge(v, f), shown).reg, x), channel)
         == PendingIn(C.Out(v.reg, x), channel) + RelayedTo(v, f, x, channel)
  {
    hide P.Judge, P.Act, Pending, EventIn;
    var d, out := P.Judge(v, f), C.Out(v.reg, x);
    var more := if (x == c && c in v.reg.registered) || (x != c && d.Relay?) then Replies(v, x, f, d, shown) else [];
    if x == c { OwnOut(v, c, f, d, shown); } else { OthersOut(v, c, f, d, shown, x); }
    assert C.Out(P.Act(v, c, f, d, shown).reg, x) == out + more;
    PendingAppend(out, more, channel);
    if d.Relay? { ShareBrings(v, f, d.topic, x, channel); } else { RepliesQuiet(v, x, f, d, shown, channel); }
  }

  /** Stored under the channel is what was delivered, and what is still in the outbox makes it
      what was relayed. */
  ghost predicate StoreInv(s: System, c: nat, channel: string, delivered: seq<Event>, relayed: seq<Event>) {
    if c in s.links then
      var k := s.links[c].client;
      && K.Stored(k, channel) == delivered && (channel in k.summary <==> delivered != [])
      && delivered + PendingIn(C.Out(s.server.reg, c), channel) == relayed
    else delivered == [] && relayed == []
  }

  lemma HandedBrings(st: Step, c: nat, channel: string)
    requires st.Deliver? && st.c == c
    ensures DeliveredBy(st, c, channel) == K.Brings(Handed(st), channel)
  {
    hide ParseEvent;
  }

  lemma StoreDelivered(s: System, st: Step, c: nat, channel: string, delivered: seq<Event>, relayed: seq<Event>)
    requires Inv(s) && Enabled(s, st) && c in s.links && st.Deliver? && st.c == c && StoreInv(s, c, channel, delivered, relayed)
    ensures StoreInv(Apply(s, st), c, channel, delivered + DeliveredBy(st, c, channel), relayed)
  {
    hide S.IndexInv, S.LoginInv, LinkInv, ClientParse, FirstPiece, IsServerText, K.HandleFrame, K.Stored, K.Brings, ParseEvent, Relayed;
    var out := C.Out(s.server.reg, c);
    HeadRead(s.server, c, s.links[c], st.text);
    HandedBrings(st, c, channel);
    K.HandleAppends(s.links[c].client, Handed(st), channel);
    assert DeliveredBy(st, c, channel) == Pending(out[0], channel);
    hide DeliveredBy, Pending;
    Grouped(delivered, Pending(out[0], channel), PendingIn(out[1..], channel));
  }

  lemma StoreServed(s: System, st: Step, c: nat, channel: string, delivered: seq<Event>, relayed: seq<Event>)
    requires Inv(s) && Enabled(s, st) && st.Serve? && StoreInv(s, c, channel, delivered, relayed)
    ensures StoreInv(Apply(s, st), c, channel, delivered, relayed + RelayedBy(s, st, c, channel))
  {
    hide S.LoginInv, LinkInv, IsClientText, ServerParse, K.Stored, K.RequestFrame, PendingIn, P.Judge, P.Act, EventIn;
    var v, f := S.Before(s.server, st.c), ServerParse(st.text).value;
    if c in s.links {
      ServeBrings(v, st.c, f, st.shown, c, channel);
      Grouped(delivered, PendingIn(C.Out(s.server.reg, c), channel), RelayedTo(v, f, c, channel));
    } else {
      assert c !in s.server.reg.registered;
    }
  }

  /** Steps that leave the client's lists and its outbox alone. */
  lemma StoreKept(s: System, st: Step, c: nat, channel: string, delivered: seq<Event>, relayed: seq<Event>)
    requires Inv(s) && Enabled(s, st) && StoreInv(s, c, channel, delivered, relayed)
    requires !st.Serve? && !(st.Deliver? && st.c == c)
    ensures StoreInv(Apply(s, st), c, channel, delivered, relayed)
  {
    hide Inv, Enabled, Apply, C.Out, Pending;
    SameOutbox(s, st, c);
    SameSummary(s, st, c);
  }

  lemma SameOutbox(s: System, st: Step, c: nat)
    requires Inv(s) && Enabled(s, st) && !st.Serve? && !(st.Deliver? && st.c == c)
    ensures C.Out(Apply(s, st).server.reg, c) == C.Out(s.server.reg, c)
    ensures c !in s.links ==> C.Out(s.server.reg, c) == []
  {
    hide S.IndexInv, S.LoginInv, LinkInv, ClientParse, FirstPiece, IsServerText, K.HandleFrame;
  }

  lemma SameSummary(s: System, st: Step, c: nat)
    requires Enabled(s, st) && !(st.Deliver? && st.c == c)
    ensures c in s.links ==> c in Apply(s, st).links && Apply(s, st).links[c].client.summary == s.links[c].client.summary
    ensures c !in s.links && c in Apply(s, st).links ==> Apply(s, st).links[c].client.summary == map[]
  {
    hide P.Judge, P.Act, K.HandleFrame, ClientParse, FirstPiece, IsServerText;
  }

  lemma StepStore(s: System, st: Step, c: nat, channel: string, delivered: seq<Event>, relayed: seq<Event>)
    requires Inv(s) && Enabled(s, st) && StoreInv(s, c, channel, delivered, relayed)
    ensures StoreInv(Apply(s, st), c, channel, delivered + DeliveredBy(st, c, channel), relayed + RelayedBy(s, st, c, channel))
  {
    hide Inv, StoreInv, Apply, ParseEvent, Relayed, Handed, RelayedTo, ServerParse, IsServerText, IsClientText;
    assert delivered + [] == delivered && relayed + [] == relayed;
    if st.Serve? {
      StoreServed(s, st, c, channel, delivered, relayed);
    } else if st.Deliver? && st.c == c {
      StoreDelivered(s, st, c, channel, delivered, relayed);
    } else {
      StoreKept(s, st, c, channel, delivered, relayed);
    }
  }

  lemma {:induction false} RunStore(run: seq<System>, steps: seq<Step>, c: nat, channel: string)
    requires Follows(run, steps)
    ensures StoreInv(run[|steps|], c, channel, Delivered(steps, c, channel), RelayedEvents(run, steps, c, channel))
    decreases |steps|
  {
    if steps != [] {
      hide Inv, Enabled, Apply, Follows, StoreInv, DeliveredBy, RelayedBy;
      var n := |steps| - 1;
      FollowsButLast(run, steps);
      RunStore(run[..n + 1], steps[..n], c, channel);
      FollowsInv(run[..n + 1], steps[..n]);
      StepStore(run[n], steps[n], c, channel, Delivered(steps[..n], c, channel), RelayedEvents(run[..n + 1], steps[..n], c, channel));
    }
  }

  /** Over every run, what a client has stored under a channel is exactly what was delivered to
      it there, in order, each once; together with what is still in its outbox it is exactly what
      the server relayed to it there: no event is lost, repeated or reordered. */
  lemma StoredInOrder(run: seq<System>, steps: seq<Step>, c: nat, channel: string)
    requires Follows(run, steps) && c in run[|steps|].links
    ensures var s, delivered := run[|steps|], Delivered(steps, c, channel);
            && (channel in s.links[c].client.summary <==> delivered != [])
            && (channel in s.links[c].client.summary ==> s.links[c].client.summary[channel] == delivered)
            && delivered + PendingIn(C.Out(s.server.reg, c), channel) == RelayedEvents(run, steps, c, channel)
  {
    hide Delivered, RelayedEvents, PendingIn;
    RunStore(run, steps, c, channel);
  }
}
