/** What holds of a whole run of sessions, not only of each state: every receipt number is
    acknowledged at most once, and everything a client stores was reported by some client. */
module SessionHistory {
  import opened Text
  import opened StompFrames
  import opened FrameRoundTrip
  import opened Events
  import opened Sessions
  import opened SessionServe
  import opened SessionRuns
  import C = Connections
  import P = StompProtocols
  import S = ServerRuns
  import K = Clients
  import V = EventRelay

  /** `run` is what happens when `steps` are taken one after the other. */
  ghost predicate Follows(run: seq<System>, steps: seq<Step>) {
    && |run| == |steps| + 1 && Init(run[0])
    && forall k :: 0 <= k < |steps| ==> Enabled(run[k], steps[k]) && run[k + 1] == Apply(run[k], steps[k])
  }

  lemma FollowsButLast(run: seq<System>, steps: seq<Step>)
    requires Follows(run, steps) && steps != []
    ensures var n := |steps| - 1;
            && Follows(run[..n + 1], steps[..n]) && run[..n + 1][n] == run[n]
            && Enabled(run[n], steps[n]) && run[n + 1] == Apply(run[n], steps[n])
  {
    hide Enabled, Apply, Init;
  }

  lemma {:induction false} FollowsInv(run: seq<System>, steps: seq<Step>)
    requires Follows(run, steps)
    ensures Inv(run[|steps|])
    decreases |steps|
  {
    if steps == [] {
      StartInv(run[0]);
    } else {
      hide Inv, Enabled, Apply, Follows;
      FollowsButLast(run, steps);
      FollowsInv(run[..|steps|], steps[..|steps| - 1]);
      StepInv(run[|steps| - 1], steps[|steps| - 1]);
    }
  }

  lemma StartInv(s: System)
    requires Init(s)
    ensures Inv(s)
  {
  }

  // ---------- acknowledgements ----------

  /** The receipt number of the frame a client is handed in this step, if it is a RECEIPT. */
  function AckedBy(st: Step, c: nat): seq<int> {
    if st.Deliver? && st.c == c then AckOf(ClientParse(FirstPiece(st.text))) else []
  }

  /** The receipt numbers acknowledged to client `c`, in order. */
  function Acked(steps: seq<Step>, c: nat): seq<int> {
    if steps == [] then [] else Acked(steps[..|steps| - 1], c) + AckedBy(steps[|steps| - 1], c)
  }

  /** The numbers acknowledged, then those in flight: each once, in increasing order. */
  ghost predicate OnceInv(s: System, c: nat, acked: seq<int>) {
    && (c !in s.links ==> acked == [])
    && (c in s.links ==>
          var out, l := C.Out(s.server.reg, c), s.links[c];
          && (l.lost ==> c !in s.server.reg.registered)
          && Increasing(acked + DownIds(out)) && Below(acked + DownIds(out), l.client.nextReceipt)
          && (!l.lost ==> Increasing(acked + InFlight(out, l.up)) && Below(acked + InFlight(out, l.up), l.client.nextReceipt)))
  }

  ghost predicate Below(ids: seq<int>, bound: int) {
    forall i :: 0 <= i < |ids| ==> ids[i] < bound
  }

  lemma IncreasingPrefix(a: seq<int>, b: seq<int>)
    requires Increasing(a + b)
    ensures Increasing(a)
  {
    forall i, j | 0 <= i < j < |a| ensures a[i] < a[j] {
      assert (a + b)[i] < (a + b)[j];
    }
  }

  lemma FlightPrefix(acked: seq<int>, out: seq<Frame>, up: seq<K.Request>, bound: int)
    requires Increasing(acked + InFlight(out, up)) && Below(acked + InFlight(out, up), bound)
    ensures Increasing(acked + DownIds(out)) && Below(acked + DownIds(out), bound)
  {
    hide DownIds, UpIds;
    Regroup(acked, DownIds(out), UpIds(up));
    IncreasingPrefix(acked + DownIds(out), UpIds(up));
    BelowPrefix(acked + DownIds(out), UpIds(up), bound);
  }

  lemma BelowPrefix(a: seq<int>, b: seq<int>, bound: int)
    requires Below(a + b, bound)
    ensures Below(a, bound)
  {
    forall i | 0 <= i < |a| ensures a[i] < bound {
      assert (a + b)[i] < bound;
    }
  }

  /** What keeps the numbers of a connection in order, whatever the step. */
  lemma OnceKept(s: System, s': System, c: nat, acked: seq<int>, acked': seq<int>)
    requires OnceInv(s, c, acked) && c in s.links && c in s'.links
    requires s'.links[c].client.nextReceipt >= s.links[c].client.nextReceipt
    requires s'.links[c].lost ==>
               && c !in s'.server.reg.registered
               && acked' + DownIds(C.Out(s'.server.reg, c)) == acked + DownIds(C.Out(s.server.reg, c))
    requires !s'.links[c].lost ==>
               && !s.links[c].lost
               && acked' + InFlight(C.Out(s'.server.reg, c), s'.links[c].up) == acked + InFlight(C.Out(s.server.reg, c), s.links[c].up)
    ensures OnceInv(s', c, acked')
  {
    hide DownIds, InFlight, Increasing;
    if !s'.links[c].lost {
      FlightPrefix(acked', C.Out(s'.server.reg, c), s'.links[c].up, s'.links[c].client.nextReceipt);
    }
  }

  /** A command that takes the next receipt number. */
  lemma OnceSent(s: System, s': System, c: nat, acked: seq<int>, r: K.Request)
    requires OnceInv(s, c, acked) && c in s.links && c in s'.links && s'.server == s.server
    requires s'.links[c].lost == s.links[c].lost && s'.links[c].up == s.links[c].up + [r]
    requires ReceiptOf(r) == [s.links[c].client.nextReceipt]
    requires s'.links[c].client.nextReceipt == s.links[c].client.nextReceipt + 1
    ensures OnceInv(s', c, acked)
  {
    hide DownIds, UpIds;
    var l, out := s.links[c], C.Out(s.server.reg, c);
    var n := l.client.nextReceipt;
    UpIdsSnoc(l.up, r);
    Regroup(DownIds(out), UpIds(l.up), [n]);
    Regroup(acked, InFlight(out, l.up), [n]);
    if !l.lost { IncreasingSnoc(acked + InFlight(out, l.up), n); }
  }

  lemma IncreasingSnoc(ids: seq<int>, n: int)
    requires Increasing(ids) && Below(ids, n)
    ensures Increasing(ids + [n]) && Below(ids + [n], n + 1)
  {
  }

  /** A command that takes none. */
  lemma OnceQuiet(s: System, s': System, c: nat, acked: seq<int>)
    requires OnceInv(s, c, acked) && c in s.links && c in s'.links && s'.server == s.server
    requires s'.links[c].lost == s.links[c].lost && UpIds(s'.links[c].up) == UpIds(s.links[c].up)
    requires s'.links[c].client.nextReceipt >= s.links[c].client.nextReceipt
    ensures OnceInv(s', c, acked)
  {
    OnceKept(s, s', c, acked, acked);
  }

  lemma OnceTyped(s: System, st: Step, c: nat, acked: seq<int>)
    requires Inv(s) && Enabled(s, st) && OnceInv(s, c, acked) && c in s.links
    requires (st.Join? || st.Exit? || st.Report? || st.Logout?) && st.c == c
    ensures OnceInv(Apply(s, st), c, acked)
  {
    hide OnceInv, Inv;
    var s', l := Apply(s, st), s.links[c];
    match st {
      case Join(_, channel) =>
        if channel in l.client.subs { assert s'.links[c].up == l.up; OnceQuiet(s, s', c, acked); }
        else { OnceSent(s, s', c, acked, K.Subscribe(channel, l.client.nextId, l.client.nextReceipt)); }
      case Exit(_, channel) =>
        if channel !in l.client.subs || l.client.subs[channel] == -1 {
          assert s'.links[c].up == l.up;
          OnceQuiet(s, s', c, acked);
        } else {
          OnceSent(s, s', c, acked, K.Unsubscribe(l.client.subs[channel], l.client.nextReceipt));
        }
      case Report(_, channel, bodies) =>
        ReportsSilent(l.up, channel, bodies);
        OnceQuiet(s, s', c, acked);
      case Logout(_) => OnceSent(s, s', c, acked, K.Disconnect(l.client.nextReceipt));
      case Login(_, _, _) =>
      case Serve(_, _, _) =>
      case Deliver(_, _) =>
      case Close(_) =>
    }
  }

  lemma {:induction false} ReportsSilent(up: seq<K.Request>, channel: string, bodies: seq<string>)
    ensures UpIds(up + K.Reports(channel, bodies)) == UpIds(up)
    decreases |bodies|
  {
    hide UpIds;
    var rs := K.Reports(channel, bodies);
    if bodies == [] {
      assert up + rs == up;
    } else {
      var n := |bodies| - 1;
      ReportsSilent(up, channel, bodies[..n]);
      assert up + rs == (up + K.Reports(channel, bodies[..n])) + [rs[n]];
      UpIdsSnoc(up + K.Reports(channel, bodies[..n]), rs[n]);
    }
  }

  /** Serving a request of a standing connection moves its number, and of a lost one nothing. */
  lemma FlightAfter(v: P.Served, c: nat, l: Link, f: Frame, d: P.Verdict, shown: string)
    requires P.Justified(v, d) && l.up != [] && WireSafe(l.up[0]) && Matches(l.up[0], f, d)
    ensures var out, out' := C.Out(v.reg, c), C.Out(P.Act(v, c, f, d, shown).reg, c);
            && (c !in v.reg.registered ==> out' == out && c !in P.Act(v, c, f, d, shown).reg.registered)
            && (c in v.reg.registered ==> InFlight(out', l.up[1..]) == InFlight(out, l.up))
  {
    hide P.Act, InFlight, Matches, WireSafe;
    OwnOut(v, c, f, d, shown);
    RegisteredAfter(v, c, f, d, shown);
    FlightServed(v, c, l.up, f, d, shown);
  }

  lemma OnceServed(s: System, st: Step, c: nat, acked: seq<int>)
    requires Inv(s) && Enabled(s, st) && OnceInv(s, c, acked) && c in s.links && st.Serve? && st.c == c
    ensures OnceInv(Apply(s, st), c, acked)
  {
    hide OnceInv, P.Judge, P.Act, S.IndexInv, S.LoginInv, LinkInv, Matches, InFlight, Increasing;
    ServeVerdict(s, c, st.text);
    var v, f, l := S.Before(s.server, c), ServerParse(st.text).value, s.links[c];
    HeadIsSafe(s.server, c, l);
    FlightAfter(v, c, l, f, P.Judge(v, f), st.shown);
    if l.lost { LostIsUnregistered(s, c, acked); }
    OnceKept(s, Apply(s, st), c, acked, acked);
  }

  lemma HeadIsSafe(server: S.Server, c: nat, l: Link)
    requires LinkInv(server, c, l) && l.up != []
    ensures WireSafe(l.up[0]) && (!l.lost ==> c in server.reg.registered)
  {
    hide InFlight, Increasing, MirrorInv, PhaseInv, WireSafe, Proper;
  }

  lemma LostIsUnregistered(s: System, c: nat, acked: seq<int>)
    requires OnceInv(s, c, acked) && c in s.links && s.links[c].lost
    ensures c !in s.server.reg.registered
  {
  }

  /** Serving one connection sends another at most a MESSAGE. */
  lemma DownIdsElsewhere(v: P.Served, c: nat, f: Frame, d: P.Verdict, shown: string, x: nat)
    requires P.Justified(v, d) && x != c
    ensures DownIds(C.Out(P.Act(v, c, f, d, shown).reg, x)) == DownIds(C.Out(v.reg, x))
  {
    OthersOut(v, c, f, d, shown, x);
    hide P.Act;
    var out := C.Out(v.reg, x);
    if d.Relay? && Replies(v, x, f, d, shown) != [] {
      QuietDown(out, Replies(v, x, f, d, shown)[0]);
      assert out + [Replies(v, x, f, d, shown)[0]] == out + Replies(v, x, f, d, shown);
    } else {
      assert out + [] == out;
    }
  }

  lemma OnceServedElsewhere(s: System, st: Step, c: nat, acked: seq<int>)
    requires Inv(s) && Enabled(s, st) && OnceInv(s, c, acked) && c in s.links && st.Serve? && st.c != c
    ensures OnceInv(Apply(s, st), c, acked)
  {
    hide OnceInv, Inv, P.Judge, P.Act, DownIds, UpIds;
    var v, f := S.Before(s.server, st.c), ServerParse(st.text).value;
    DownIdsElsewhere(v, st.c, f, P.Judge(v, f), st.shown, c);
    RegisteredAfter(v, st.c, f, P.Judge(v, f), st.shown);
    if s.links[c].lost { LostIsUnregistered(s, c, acked); }
    OnceKept(s, Apply(s, st), c, acked, acked);
  }

  /** What a client is handed is a RECEIPT exactly when it was sent as one. */
  lemma AckArrives(issued: map<int, string>, f: Frame, text: string)
    requires Proper(issued, f) && IsServerText(text, f) && forall id :: id in issued ==> Word(issued[id])
    ensures AckOf(ClientParse(FirstPiece(text))) == AckOf(f)
  {
    hide ClientParse, FirstPiece, IsServerText;
    FrameArrives(issued, f, text);
    ProperReceipt(issued, f);
  }

  lemma HeadArrives(server: S.Server, c: nat, l: Link, text: string)
    requires LinkInv(server, c, l) && C.Out(server.reg, c) != [] && IsServerText(text, C.Out(server.reg, c)[0])
    ensures AckOf(ClientParse(FirstPiece(text))) == AckOf(C.Out(server.reg, c)[0])
  {
    hide ClientParse, FirstPiece, IsServerText, AckOf, MirrorInv, ReceiptInv, PhaseInv, Proper, Word;
    AckArrives(l.issued, C.Out(server.reg, c)[0], text);
  }

  lemma OnceDelivered(s: System, st: Step, c: nat, acked: seq<int>)
    requires Inv(s) && Enabled(s, st) && OnceInv(s, c, acked) && c in s.links && st.Deliver? && st.c == c
    ensures OnceInv(Apply(s, st), c, acked + AckedBy(st, c))
  {
    hide OnceInv, S.IndexInv, S.LoginInv, LinkInv, ClientParse, FirstPiece, IsServerText, K.HandleFrame, AckOf, DownIds, UpIds;
    var l, out := s.links[c], C.Out(s.server.reg, c);
    HeadArrives(s.server, c, l, st.text);
    HandleKeeps(l.client, ClientParse(FirstPiece(st.text)));
    DownIdsUncons(out);
    FlightHead(out, l.up);
    Regroup(acked, AckOf(out[0]), DownIds(out[1..]));
    Regroup(acked, AckOf(out[0]), InFlight(out[1..], l.up));
    if l.lost { LostIsUnregistered(s, c, acked); }
    OnceKept(s, Apply(s, st), c, acked, acked + AckedBy(st, c));
  }

  lemma OnceOpened(s: System, st: Step)
    requires Inv(s) && Enabled(s, st) && st.Login? && OnceInv(s, st.c, [])
    ensures OnceInv(Apply(s, st), st.c, [])
  {
    hide S.IndexInv, S.LoginInv, LinkInv, InFlight, DownIds;
    var s', r := Apply(s, st), K.Connect(st.user, st.password);
    OpenedFlight(r, C.Out(s'.server.reg, st.c));
    NoneDown(C.Out(s'.server.reg, st.c));
    assert [] + InFlight(C.Out(s'.server.reg, st.c), [r]) == [];
    assert [] + DownIds(C.Out(s'.server.reg, st.c)) == [];
  }

  lemma NoneDown(out: seq<Frame>)
    requires out == []
    ensures DownIds(out) == []
  {
  }

  /** A connection closed now keeps its numbers and loses its registration. */
  lemma OnceClosed(s: System, st: Step, c: nat, acked: seq<int>)
    requires Inv(s) && Enabled(s, st) && OnceInv(s, c, acked) && c in s.links && st.Close?
    ensures OnceInv(Apply(s, st), c, acked)
  {
    hide OnceInv, Inv, DownIds, UpIds;
    if s.links[c].lost { LostIsUnregistered(s, c, acked); }
    DownIncreasing(s, c, acked);
    if c == st.c && !s.links[c].lost {
      OnceLost(s, Apply(s, st), c, acked);
    } else {
      OnceKept(s, Apply(s, st), c, acked, acked);
    }
  }

  lemma DownIncreasing(s: System, c: nat, acked: seq<int>)
    requires OnceInv(s, c, acked) && c in s.links
    ensures Increasing(acked + DownIds(C.Out(s.server.reg, c)))
  {
  }

  lemma OnceLost(s: System, s': System, c: nat, acked: seq<int>)
    requires OnceInv(s, c, acked) && c in s.links && c in s'.links && s'.links[c].lost
    requires C.Out(s'.server.reg, c) == C.Out(s.server.reg, c) && c !in s'.server.reg.registered
    requires s'.links[c].client == s.links[c].client
    ensures OnceInv(s', c, acked)
  {
  }

  /** Steps that leave the session, its outbox and its registration alone. */
  lemma OnceUntouched(s: System, s': System, c: nat, acked: seq<int>)
    requires OnceInv(s, c, acked) && (c in s.links <==> c in s'.links) && (c in s.links ==> s'.links[c] == s.links[c])
    requires C.Out(s'.server.reg, c) == C.Out(s.server.reg, c)
    requires c in s'.server.reg.registered ==> c in s.server.reg.registered
    ensures OnceInv(s', c, acked)
  {
  }

  lemma StepOnce(s: System, st: Step, c: nat, acked: seq<int>)
    requires Inv(s) && Enabled(s, st) && OnceInv(s, c, acked)
    ensures OnceInv(Apply(s, st), c, acked + AckedBy(st, c))
  {
    hide Inv, P.Judge, P.Act, K.HandleFrame, ClientParse, FirstPiece, AckOf, Increasing, InFlight, DownIds, Below;
    var s' := Apply(s, st);
    assert acked + [] == acked;
    if st.Login? {
      if st.c == c { OnceOpened(s, st); } else { OnceUntouched(s, s', c, acked); }
    } else if c !in s.links {
      assert c !in s'.links;
    } else if st.Serve? {
      if st.c == c { OnceServed(s, st, c, acked); } else { OnceServedElsewhere(s, st, c, acked); }
    } else if st.Deliver? {
      if st.c == c { OnceDelivered(s, st, c, acked); } else { OnceUntouched(s, s', c, acked); }
    } else if st.Close? {
      OnceClosed(s, st, c, acked);
    } else if st.c == c {
      OnceTyped(s, st, c, acked);
    } else {
      OnceUntouched(s, s', c, acked);
    }
  }

  lemma {:induction false} RunOnce(run: seq<System>, steps: seq<Step>, c: nat)
    requires Follows(run, steps)
    ensures OnceInv(run[|steps|], c, Acked(steps, c))
    decreases |steps|
  {
    if steps != [] {
      hide Inv, Enabled, Apply, Follows, OnceInv, AckedBy;
      var n := |steps| - 1;
      FollowsButLast(run, steps);
      RunOnce(run[..n + 1], steps[..n], c);
      FollowsInv(run[..n + 1], steps[..n]);
      StepOnce(run[n], steps[n], c, Acked(steps[..n], c));
    }
  }

  /** Over every run, each receipt number is acknowledged to a client at most once, in the order
      of the requests, and what is acknowledged is in flight no more. */
  lemma AcknowledgedOnce(run: seq<System>, steps: seq<Step>, c: nat)
    requires Follows(run, steps)
    ensures forall i, j :: 0 <= i < j < |Acked(steps, c)| ==> Acked(steps, c)[i] < Acked(steps, c)[j]
    ensures c in run[|steps|].links && !run[|steps|].links[c].lost ==>
              forall n :: n in Acked(steps, c) ==> n !in InFlight(C.Out(run[|steps|].server.reg, c), run[|steps|].links[c].up)
  {
    hide DownIds, InFlight, Acked;
    RunOnce(run, steps, c);
    var s, acked := run[|steps|], Acked(steps, c);
    if c in s.links {
      IncreasingPrefix(acked, DownIds(C.Out(s.server.reg, c)));
      if !s.links[c].lost {
        IncreasingApart(acked, InFlight(C.Out(s.server.reg, c), s.links[c].up));
      }
    }
  }

  lemma IncreasingApart(a: seq<int>, b: seq<int>)
    requires Increasing(a + b)
    ensures forall n :: n in a ==> n !in b
  {
    forall i, j | 0 <= i < |a| && 0 <= j < |b| ensures a[i] != b[j] {
      assert (a + b)[i] < (a + b)[|a| + j];
    }
  }

  // ---------- reports ----------

  /** A body reported to a channel. */
  datatype Post = Post(channel: string, body: string)

  function PostedBy(st: Step): set<Post> {
    if st.Report? then set i | 0 <= i < |st.bodies| :: Post(st.channel, st.bodies[i]) else {}
  }

  /** Everything the clients have reported. */
  function Posted(steps: seq<Step>): set<Post> {
    if steps == [] then {} else Posted(steps[..|steps| - 1]) + PostedBy(steps[|steps| - 1])
  }

  /** The channel names, which come from files, are one-line. */
  predicate OneLineChannels(steps: seq<Step>) {
    forall k :: 0 <= k < |steps| && steps[k].Report? ==> LF !in steps[k].channel
  }

  predicate FromPost(posts: set<Post>, f: Frame) {
    f.command == "MESSAGE" ==> "destination" in f.headers && Post(f.headers["destination"], f.body) in posts
  }

  /** The stored event is the parse of a body posted to that channel, with the printer's newline. */
  predicate StoredFrom(posts: set<Post>, channel: string, e: Event) {
    exists p :: p in posts && p.channel == channel && ParseEvent(Relayed(p.body)) == Some(e)
  }

  predicate RequestPosted(posts: set<Post>, r: K.Request) {
    r.Report? ==> LF !in r.channel && Post(r.channel, r.body) in posts
  }

  predicate SummaryFrom(posts: set<Post>, summary: map<string, seq<Event>>) {
    forall d, i :: d in summary && 0 <= i < |summary[d]| ==> StoredFrom(posts, d, summary[d][i])
  }

  ghost predicate LinkFrom(posts: set<Post>, out: seq<Frame>, l: Link) {
    && (forall i :: 0 <= i < |l.up| ==> RequestPosted(posts, l.up[i]))
    && (forall j :: 0 <= j < |out| ==> FromPost(posts, out[j]))
    && SummaryFrom(posts, l.client.summary)
  }

  /** Every report on its way, every MESSAGE in flight and every event stored goes back to a
      post. */
  ghost predicate PostInv(s: System, posts: set<Post>) {
    forall c :: c in s.links ==> LinkFrom(posts, C.Out(s.server.reg, c), s.links[c])
  }

  lemma MorePosts(posts: set<Post>, more: set<Post>, out: seq<Frame>, l: Link)
    requires LinkFrom(posts, out, l)
    ensures LinkFrom(posts + more, out, l)
  {
    hide ParseEvent;
    forall d, i | d in l.client.summary && 0 <= i < |l.client.summary[d]|
      ensures StoredFrom(posts + more, d, l.client.summary[d][i])
    {
      assert StoredFrom(posts, d, l.client.summary[d][i]);
    }
  }

  /** The frames a verdict sends, when the request is a post or no report at all. */
  lemma RepliesFromPosts(posts: set<Post>, v: P.Served, x: nat, r: K.Request, f: Frame, d: P.Verdict, shown: string)
    requires Matches(r, f, d) && RequestPosted(posts, r) && (r.Report? ==> f == K.SendFrame(r.channel, r.body))
    requires d.Relay? ==> P.Header(f, "destination") == Some(d.topic)
    ensures forall i :: 0 <= i < |Replies(v, x, f, d, shown)| ==> FromPost(posts, Replies(v, x, f, d, shown)[i])
  {
  }

  lemma RelayTopic(v: P.Served, f: Frame)
    ensures P.Judge(v, f).Relay? ==> P.Header(f, "destination") == Some(P.Judge(v, f).topic)
  {
  }

  lemma ServedPost(r: K.Request, text: string)
    requires WireSafe(r) && r.Report? && LF !in r.channel && IsClientText(text, K.RequestFrame(r))
    ensures ServerParse(text) == Some(K.SendFrame(r.channel, r.body))
  {
    ServedReportExact(r.channel, r.body, text);
  }

  /** What a connection's outbox gains when some connection is served. */
  ghost predicate GainsFrom(posts: set<Post>, before: seq<Frame>, after: seq<Frame>) {
    exists more :: after == before + more && forall i :: 0 <= i < |more| ==> FromPost(posts, more[i])
  }

  lemma ServeGains(v: P.Served, c: nat, r: K.Request, f: Frame, d: P.Verdict, shown: string, posts: set<Post>, x: nat)
    requires P.Justified(v, d) && Matches(r, f, d) && RequestPosted(posts, r) && (r.Report? ==> f == K.SendFrame(r.channel, r.body))
    requires d.Relay? ==> P.Header(f, "destination") == Some(d.topic)
    ensures GainsFrom(posts, C.Out(v.reg, x), C.Out(P.Act(v, c, f, d, shown).reg, x))
  {
    hide P.Act, Replies, Matches, FromPost, RequestPosted;
    RepliesFromPosts(posts, v, x, r, f, d, shown);
    var out := C.Out(v.reg, x);
    if x == c {
      OwnOut(v, c, f, d, shown);
    } else {
      OthersOut(v, c, f, d, shown, x);
    }
    var more := Replies(v, x, f, d, shown);
    assert out + [] == out;
    assert C.Out(P.Act(v, c, f, d, shown).reg, x) == out + more || C.Out(P.Act(v, c, f, d, shown).reg, x) == out + [];
  }

  lemma GainedLink(posts: set<Post>, before: seq<Frame>, after: seq<Frame>, l: Link)
    requires LinkFrom(posts, before, l) && GainsFrom(posts, before, after)
    ensures LinkFrom(posts, after, l)
  {
    hide FromPost, SummaryFrom, RequestPosted;
  }

  // ---------- every step ----------

  lemma PostsServed(s: System, st: Step, posts: set<Post>)
    requires Inv(s) && Enabled(s, st) && PostInv(s, posts) && st.Serve?
    ensures PostInv(Apply(s, st), posts)
  {
    hide P.Judge, P.Act, S.IndexInv, S.LoginInv, LinkInv, Matches, LinkFrom, GainsFrom, K.RequestFrame;
    var s', c := Apply(s, st), st.c;
    var v, f, l := S.Before(s.server, c), ServerParse(st.text).value, s.links[c];
    var d := P.Judge(v, f);
    ServeVerdict(s, c, st.text);
    RelayTopic(v, f);
    HeadIsSafe(s.server, c, l);
    HeadPosted(posts, C.Out(s.server.reg, c), l);
    if l.up[0].Report? { ServedPost(l.up[0], st.text); }
    forall x | x in s'.links ensures LinkFrom(posts, C.Out(s'.server.reg, x), s'.links[x]) {
      ServeGains(v, c, l.up[0], f, d, st.shown, posts, x);
      GainedLink(posts, C.Out(s.server.reg, x), C.Out(s'.server.reg, x), s.links[x]);
      if x == c { TailLink(posts, C.Out(s'.server.reg, c), l); }
    }
  }

  lemma HeadPosted(posts: set<Post>, out: seq<Frame>, l: Link)
    requires LinkFrom(posts, out, l) && l.up != []
    ensures RequestPosted(posts, l.up[0]) && (l.up[0].Report? ==> LF !in l.up[0].channel)
  {
    hide FromPost, SummaryFrom;
  }

  lemma TailLink(posts: set<Post>, out: seq<Frame>, l: Link)
    requires LinkFrom(posts, out, l) && l.up != []
    ensures LinkFrom(posts, out, l.(up := l.up[1..]))
  {
    hide FromPost, SummaryFrom, RequestPosted;
  }

  /** Handling a MESSAGE stores the event of its body under its destination; any other frame
      stores nothing. */
  lemma HandleStores(posts: set<Post>, k: K.Client, f: Frame, g: Frame)
    requires SummaryFrom(posts, k.summary) && FromPost(posts, f) && g.command == f.command
    requires f.command == "MESSAGE" ==> g == f.(body := Relayed(f.body))
    ensures SummaryFrom(posts, K.HandleFrame(k, g).summary)
  {
    hide ParseEvent;
    if g.command == "MESSAGE" {
      assert K.HandleFrame(k, g) == K.Remember(k, g.headers["destination"], ParseEvent(g.body));
      RememberStores(posts, k, f.headers["destination"], f.body);
    }
  }

  lemma RememberStores(posts: set<Post>, k: K.Client, channel: string, body: string)
    requires SummaryFrom(posts, k.summary) && Post(channel, body) in posts
    ensures SummaryFrom(posts, K.Remember(k, channel, ParseEvent(Relayed(body))).summary)
  {
    hide ParseEvent, Relayed;
    var summary := K.Remember(k, channel, ParseEvent(Relayed(body))).summary;
    forall d, i | d in summary && 0 <= i < |summary[d]| ensures StoredFrom(posts, d, summary[d][i]) {
      if d in k.summary && i < |k.summary[d]| {
        assert StoredFrom(posts, d, k.summary[d][i]);
      } else {
        assert Post(channel, body).channel == d;
      }
    }
  }

  /** What is handed over for the head of an outbox. */
  lemma HeadRead(server: S.Server, c: nat, l: Link, text: string)
    requires LinkInv(server, c, l) && C.Out(server.reg, c) != [] && IsServerText(text, C.Out(server.reg, c)[0])
    ensures var f, g := C.Out(server.reg, c)[0], ClientParse(FirstPiece(text));
            g.command == f.command && (f.command == "MESSAGE" ==> g == f.(body := Relayed(f.body)))
  {
    hide ClientParse, FirstPiece, IsServerText, MirrorInv, ReceiptInv, PhaseInv, Word;
    var f := C.Out(server.reg, c)[0];
    assert Proper(l.issued, f);
    FrameArrives(l.issued, f, text);
    if f.command == "MESSAGE" {
      assert IsMessage(l.issued, f);
    }
  }

  lemma DeliveredFrom(posts: set<Post>, out: seq<Frame>, l: Link, g: Frame)
    requires LinkFrom(posts, out, l) && out != [] && g.command == out[0].command
    requires out[0].command == "MESSAGE" ==> g == out[0].(body := Relayed(out[0].body))
    ensures LinkFrom(posts, out[1..], l.(client := K.HandleFrame(l.client, g)))
  {
    HandleStores(posts, l.client, out[0], g);
    hide FromPost, SummaryFrom, RequestPosted, K.HandleFrame;
  }

  lemma PostsDelivered(s: System, st: Step, posts: set<Post>)
    requires Inv(s) && Enabled(s, st) && PostInv(s, posts) && st.Deliver?
    ensures PostInv(Apply(s, st), posts)
  {
    hide S.IndexInv, S.LoginInv, LinkInv, LinkFrom, ClientParse, FirstPiece, IsServerText, K.HandleFrame;
    var s', c := Apply(s, st), st.c;
    HeadRead(s.server, c, s.links[c], st.text);
    DeliveredFrom(posts, C.Out(s.server.reg, c), s.links[c], ClientParse(FirstPiece(st.text)));
    forall x | x in s'.links ensures LinkFrom(posts, C.Out(s'.server.reg, x), s'.links[x]) {
      if x != c { assert C.Out(s'.server.reg, x) == C.Out(s.server.reg, x); }
    }
  }

  /** A command changes its own session's requests, and what it sends is posted by it. */
  lemma TypedFrom(posts: set<Post>, out: seq<Frame>, l: Link, l': Link, sent: seq<K.Request>)
    requires LinkFrom(posts, out, l) && l'.up == l.up + sent && l'.client.summary == l.client.summary
    requires forall i :: 0 <= i < |sent| ==> RequestPosted(posts, sent[i])
    ensures LinkFrom(posts, out, l')
  {
    hide FromPost, SummaryFrom, RequestPosted;
  }

  ghost function SentBy(s: System, st: Step): seq<K.Request>
    requires Enabled(s, st)
  {
    match st
    case Join(c, channel) => K.Join(s.links[c].client, channel).sent
    case Exit(c, channel) => K.Exit(s.links[c].client, channel).sent
    case Report(c, channel, bodies) => K.Reports(channel, bodies)
    case Logout(c) => K.Logout(s.links[c].client).sent
    case _ => []
  }

  lemma SentArePosted(s: System, st: Step, posts: set<Post>)
    requires Enabled(s, st) && PostedBy(st) <= posts && (st.Report? ==> LF !in st.channel)
    ensures forall i :: 0 <= i < |SentBy(s, st)| ==> RequestPosted(posts, SentBy(s, st)[i])
  {
    if st.Report? {
      forall i | 0 <= i < |st.bodies| ensures Post(st.channel, st.bodies[i]) in posts {
        assert Post(st.channel, st.bodies[i]) in PostedBy(st);
      }
    }
  }

  lemma PostsTyped(s: System, st: Step, posts: set<Post>)
    requires Enabled(s, st) && PostInv(s, posts) && PostedBy(st) <= posts && (st.Report? ==> LF !in st.channel)
    requires st.Join? || st.Exit? || st.Report? || st.Logout?
    ensures PostInv(Apply(s, st), posts)
  {
    hide LinkFrom, RequestPosted;
    var s', c := Apply(s, st), st.c;
    SentArePosted(s, st, posts);
    TypedFrom(posts, C.Out(s.server.reg, c), s.links[c], s'.links[c], SentBy(s, st));
  }

  lemma PostsOpened(s: System, st: Step, posts: set<Post>)
    requires Inv(s) && Enabled(s, st) && PostInv(s, posts) && (st.Login? || st.Close?)
    ensures PostInv(Apply(s, st), posts)
  {
    hide LinkInv, S.IndexInv, S.LoginInv;
    var s' := Apply(s, st);
    forall x | x in s'.links ensures LinkFrom(posts, C.Out(s'.server.reg, x), s'.links[x]) {
      assert C.Out(s'.server.reg, x) == C.Out(s.server.reg, x);
    }
  }

  lemma StepPosts(s: System, st: Step, posts: set<Post>)
    requires Inv(s) && Enabled(s, st) && PostInv(s, posts) && PostedBy(st) <= posts && (st.Report? ==> LF !in st.channel)
    ensures PostInv(Apply(s, st), posts)
  {
    hide Inv, Enabled, Apply, PostInv;
    if st.Serve? { PostsServed(s, st, posts); }
    else if st.Deliver? { PostsDelivered(s, st, posts); }
    else if st.Login? || st.Close? { PostsOpened(s, st, posts); }
    else { PostsTyped(s, st, posts); }
  }

  lemma InvMorePosts(s: System, posts: set<Post>, more: set<Post>)
    requires PostInv(s, posts)
    ensures PostInv(s, posts + more)
  {
    hide LinkFrom;
    forall c | c in s.links ensures LinkFrom(posts + more, C.Out(s.server.reg, c), s.links[c]) {
      MorePosts(posts, more, C.Out(s.server.reg, c), s.links[c]);
    }
  }

  lemma OneLineButLast(steps: seq<Step>)
    requires OneLineChannels(steps) && steps != []
    ensures var n := |steps| - 1;
            OneLineChannels(steps[..n]) && (steps[n].Report? ==> LF !in steps[n].channel)
  {
  }

  lemma {:induction false} RunPosts(run: seq<System>, steps: seq<Step>)
    requires Follows(run, steps) && OneLineChannels(steps)
    ensures PostInv(run[|steps|], Posted(steps))
    decreases |steps|
  {
    if steps != [] {
      hide Inv, Enabled, Apply, Follows, PostInv, PostedBy, OneLineChannels;
      var n := |steps| - 1;
      FollowsButLast(run, steps);
      OneLineButLast(steps);
      RunPosts(run[..n + 1], steps[..n]);
      FollowsInv(run[..n + 1], steps[..n]);
      InvMorePosts(run[n], Posted(steps[..n]), PostedBy(steps[n]));
      StepPosts(run[n], steps[n], Posted(steps));
    }
  }

  /** Over every run, the body of each MESSAGE in flight was reported by some client, to the
      channel it is relayed on. */
  lemma MessagesWereReported(run: seq<System>, steps: seq<Step>, c: nat, j: nat)
    requires Follows(run, steps) && OneLineChannels(steps)
    requires c in run[|steps|].links && j < |C.Out(run[|steps|].server.reg, c)|
    requires C.Out(run[|steps|].server.reg, c)[j].command == "MESSAGE"
    ensures var f := C.Out(run[|steps|].server.reg, c)[j];
            "destination" in f.headers && Post(f.headers["destination"], f.body) in Posted(steps)
  {
    hide SummaryFrom, RequestPosted, Posted;
    RunPosts(run, steps);
    assert LinkFrom(Posted(steps), C.Out(run[|steps|].server.reg, c), run[|steps|].links[c]);
  }

  /** When the reports are those of events the report format can carry, every event a client has
      stored under a channel is a reported one as received: same user, city, name and time, the
      description and the information up to what the format adds. */
  lemma StoredWasReported(run: seq<System>, steps: seq<Step>, c: nat, channel: string, i: nat)
    returns (user: string, e: Event, body: string)
    requires Follows(run, steps) && OneLineChannels(steps)
    requires forall p :: p in Posted(steps) ==> IsEventReport(p.body)
    requires c in run[|steps|].links && channel in run[|steps|].links[c].client.summary
    requires i < |run[|steps|].links[c].client.summary[channel]|
    ensures Post(channel, body) in Posted(steps) && Reportable(user, e) && IsReport(body, user, e)
    ensures run[|steps|].links[c].client.summary[channel][i] == V.Received(user, e)
  {
    var stored := run[|steps|].links[c].client.summary[channel][i];
    hide Posted, ParseEvent, Reportable, IsReport, FromPost, RequestPosted, Follows, V.Received;
    RunPosts(run, steps);
    assert StoredFrom(Posted(steps), channel, stored);
    var p :| p in Posted(steps) && p.channel == channel && ParseEvent(Relayed(p.body)) == Some(stored);
    body := p.body;
    user, e :| Reportable(user, e) && IsReport(body, user, e);
    V.ParseReport(user, e, body);
    ReportNotEmpty(user, e, body);
  }

  ghost predicate IsEventReport(body: string) {
    exists user, e :: Reportable(user, e) && IsReport(body, user, e)
  }

  lemma ReportNotEmpty(user: string, e: Event, body: string)
    requires IsReport(body, user, e)
    ensures body != "" && Relayed(body) == body + [LF]
  {
  }
}
