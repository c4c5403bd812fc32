/** From bytes to the server's state: every run of the pool and the read path is a run of the
    server that processes each connection's parsed messages in order. */
module IngestRuns {
  import opened Text
  import opened StompFrames
  import opened FrameRoundTrip
  import opened Framing
  import A = ActorPool
  import P = StompProtocols
  import S = ServerRuns
  import E = LoginEvents
  import F = FrameStreams
  import H = SessionServe
  import K = Clients
  import N = Sessions

  function Parsed(texts: seq<string>): (frames: seq<Frame>)
    requires forall i :: 0 <= i < |texts| ==> ServerParse(texts[i]).Some?
    ensures |frames| == |texts| && forall i :: 0 <= i < |texts| ==> ServerParse(texts[i]) == Some(frames[i])
  {
    seq(|texts|, i requires 0 <= i < |texts| => ServerParse(texts[i]).value)
  }

  /** The frames the server processes for connection `a`, in order. */
  function Handled(steps: seq<S.Step>, a: nat): seq<Frame> {
    if steps == [] then []
    else Handled(steps[..|steps| - 1], a)
         + (var st := steps[|steps| - 1]; if st.Handle? && st.c == a then [st.f] else [])
  }

  lemma HandledSnoc(steps: seq<S.Step>, st: S.Step, a: nat)
    ensures Handled(steps + [st], a) == Handled(steps, a) + (if st.Handle? && st.c == a then [st.f] else [])
  {
    assert (steps + [st])[..|steps|] == steps;
  }

  /** Every ERROR a frame may lead to shows a text of that frame. */
  ghost predicate Rendered(steps: seq<S.Step>) {
    forall k :: 0 <= k < |steps| && steps[k].Handle? ==> IsServerText(steps[k].shown, steps[k].f)
  }

  /** The server's run matches the pool's state: everyone is connected, and exactly the messages
      the decoders have handed over have been processed. */
  ghost predicate Matches(s: A.State, trace: seq<S.Server>, steps: seq<S.Step>) {
    && E.Follows(trace, steps) && Rendered(steps)
    && (forall a: nat :: a in trace[|steps|].sessions <==> a < |s.env.dec|)
    && forall a :: 0 <= a < |s.env.dec| ==>
         && Sound(s.env.dec[a]) && AllParse(s.env.dec[a].passed)
         && Handled(steps, a) == Parsed(s.env.dec[a].passed)
  }

  predicate AllParse(texts: seq<string>) {
    forall i :: 0 <= i < |texts| ==> ServerParse(texts[i]).Some?
  }

  lemma SameMessages(s: A.State, s': A.State, trace: seq<S.Server>, steps: seq<S.Step>)
    requires Matches(s, trace, steps) && |s'.env.dec| == |s.env.dec|
    requires forall a :: 0 <= a < |s.env.dec| ==> s'.env.dec[a].passed == s.env.dec[a].passed && Sound(s'.env.dec[a])
    ensures Matches(s', trace, steps)
  {
    hide E.Follows;
  }

  /** One more message on connection `b`. */
  lemma OneMore(s: A.State, s': A.State, b: nat, text: string, trace: seq<S.Server>, steps: seq<S.Step>)
    returns (trace': seq<S.Server>, steps': seq<S.Step>)
    requires Matches(s, trace, steps) && |s'.env.dec| == |s.env.dec| && b < |s.env.dec| && ServerParse(text).Some?
    requires s'.env.dec == s.env.dec[b := s'.env.dec[b]] && Sound(s'.env.dec[b])
    requires s'.env.dec[b].passed == s.env.dec[b].passed + [text]
    ensures Matches(s', trace', steps')
  {
    hide P.Judge, P.Act, ServerParse, IsServerText;
    var shown := P.SomeText(ServerParse(text).value);
    var st := S.Handle(b, ServerParse(text).value, shown);
    trace', steps' := E.Take(trace, steps, st);
    forall a | 0 <= a < |s.env.dec|
      ensures AllParse(s'.env.dec[a].passed) && Handled(steps', a) == Parsed(s'.env.dec[a].passed)
    {
      HandledSnoc(steps, st, a);
    }
  }

  /** All connections are accepted before anything is read. */
  lemma {:induction false} AllAccepted(n: nat) returns (trace: seq<S.Server>, steps: seq<S.Step>)
    ensures E.Follows(trace, steps) && (forall a: nat :: a in trace[|steps|].sessions <==> a < n)
    ensures forall k :: 0 <= k < |steps| ==> steps[k].Accept?
    ensures forall a :: Handled(steps, a) == []
  {
    if n == 0 {
      trace, steps := E.Start();
    } else {
      trace, steps := AllAccepted(n - 1);
      var before := steps;
      trace, steps := E.Take(trace, steps, S.Accept(n - 1));
      forall a ensures Handled(steps, a) == [] {
        HandledSnoc(before, S.Accept(n - 1), a);
      }
    }
  }

  lemma StartMatches(s: A.State) returns (trace: seq<S.Server>, steps: seq<S.Step>)
    requires A.Init(s)
    ensures Matches(s, trace, steps)
  {
    hide E.Follows, Handled;
    trace, steps := AllAccepted(|s.env.dec|);
    forall a | 0 <= a < |s.env.dec| ensures Handled(steps, a) == Parsed(s.env.dec[a].passed) {
      assert s.env.dec[a] == Decoder("", []);
    }
  }

  /** A failed read closes the connection and unregisters it. */
  lemma Closed(s: A.State, b: nat, trace: seq<S.Server>, steps: seq<S.Step>)
    returns (trace': seq<S.Server>, steps': seq<S.Step>)
    requires Matches(s, trace, steps) && b < |s.env.dec|
    ensures Matches(s, trace', steps') && steps' == steps + [S.Close(b)]
  {
    trace', steps' := E.Take(trace, steps, S.Close(b));
    forall a | 0 <= a < |s.env.dec| ensures Handled(steps', a) == Handled(steps, a) {
      HandledSnoc(steps, S.Close(b), a);
    }
  }

  lemma StepMatches(s: A.State, st: A.Step, trace: seq<S.Server>, steps: seq<S.Step>)
    returns (trace': seq<S.Server>, steps': seq<S.Step>)
    requires A.Shape(s) && Matches(s, trace, steps) && A.Enabled(s, st)
    ensures Matches(A.Apply(s, st), trace', steps')
  {
    hide E.Follows, Handled, Parsed, ServerParse, Feed;
    var s' := A.Apply(s, st);
    trace', steps' := trace, steps;
    if st.RunByte? {
      var p := s.threads[st.t];
      var d, b := s.env.dec[p.actor], s.env.mem[p.task.buf][p.pos];
      FeedSound(d, b);
      if s'.env.dec[p.actor].passed == d.passed {
        SameMessages(s, s', trace, steps);
      } else {
        trace', steps' := OneMore(s, s', p.actor, d.buffer, trace, steps);
      }
    } else {
      SameMessages(s, s', trace, steps);
      if st.ReadFails? {
        trace', steps' := Closed(s', s.threads[st.t].actor, trace, steps);
      }
    }
  }

  /** Every run of the pool induces a run of the server in which each connection's frames are the
      parsed messages its decoder has handed over, in order. */
  lemma {:induction false} Induces(run: seq<A.State>, i: nat)
    returns (trace: seq<S.Server>, steps: seq<S.Step>)
    requires A.IsRun(run) && i < |run|
    ensures Matches(run[i], trace, steps)
  {
    if i == 0 {
      trace, steps := StartMatches(run[0]);
    } else {
      hide Matches, A.Apply, A.Enabled, A.Shape;
      trace, steps := Induces(run, i - 1);
      A.RunInv(run, i - 1);
      assert A.Next(run[i - 1], run[(i - 1) + 1]);
      var st :| A.Enabled(run[i - 1], st) && run[i] == A.Apply(run[i - 1], st);
      trace, steps := StepMatches(run[i - 1], st, trace, steps);
    }
  }

  // ---------- from what a client writes ----------

  /** What a connection sends: NUL-free messages that parse and fit the decoder. */
  predicate Sendable(texts: seq<string>) {
    forall i :: 0 <= i < |texts| ==>
      NUL !in texts[i] && 2 <= |texts[i]| <= LIMIT && ServerParse(texts[i]).Some?
  }

  lemma PiecesSent(received: string, texts: seq<string>)
    requires Sendable(texts) && received <= F.Wire(texts)
    ensures Pieces(received) <= texts && AllDeliverable(Pieces(received))
    ensures received == F.Wire(texts) ==> Pieces(received) == texts
  {
    hide Pieces, ServerParse, F.Wire;
    F.PiecesOfWire(texts);
    var rest := F.Wire(texts)[|received|..];
    assert F.Wire(texts) == received + rest;
    PiecesPrefix(received, rest);
    forall p | p in Pieces(received) ensures Deliverable(p) {
      var i :| 0 <= i < |Pieces(received)| && Pieces(received)[i] == p;
      assert p == texts[i];
    }
  }

  lemma ParsedPrefix(some: seq<string>, all: seq<string>)
    requires some <= all && AllParse(all)
    ensures AllParse(some) && Parsed(some) <= Parsed(all)
  {
    hide ServerParse;
    assert forall i :: 0 <= i < |some| ==> some[i] == all[i];
  }

  lemma DeliverablePrefix(run: seq<A.State>, i: nat, a: nat)
    requires A.IsRun(run) && i < |run| && a < |run[i].pool.pending| && A.OneSelector(run[i])
    ensures A.Shape(run[i])
    ensures AllDeliverable(Pieces(run[i].env.received[a])) ==> AllDeliverable(Pieces(Flat(run[i].env.submitted[a])))
  {
    hide Pieces, A.IsRun;
    A.RunInv(run, i);
    A.ReceivedPieces(run[i], a);
    if AllDeliverable(Pieces(run[i].env.received[a])) {
      A.PrefixDeliverable(Pieces(Flat(run[i].env.submitted[a])), Pieces(run[i].env.received[a]));
    }
  }

  /** From the wire to the handlers, over every interleaving of the selector and the pool threads:
      if what has arrived of a connection is a first part of its messages' bytes, however cut,
      the server has processed a first part of its frames, in order and each once; and all of
      them once everything has arrived and nothing is left to run. */
  lemma FromTheWire(run: seq<A.State>, i: nat, a: nat, texts: seq<string>)
    returns (trace: seq<S.Server>, steps: seq<S.Step>)
    requires A.IsRun(run) && i < |run| && a < |run[i].pool.pending| && A.OneSelector(run[i])
    requires a < |run[i].env.received| && Sendable(texts) && run[i].env.received[a] <= F.Wire(texts)
    ensures Matches(run[i], trace, steps)
    ensures Handled(steps, a) <= Parsed(texts)
    ensures A.Quiescent(run[i]) && run[i].env.received[a] == F.Wire(texts) ==> Handled(steps, a) == Parsed(texts)
  {
    hide Pieces, A.IsRun, E.Follows, Handled, Rendered, ServerParse, F.Wire;
    trace, steps := Induces(run, i);
    PiecesSent(run[i].env.received[a], texts);
    DeliverablePrefix(run, i, a);
    A.IngestPrefix(run, i, a);
    ParsedPrefix(run[i].env.dec[a].passed, texts);
    if A.Quiescent(run[i]) {
      A.QuiescentIsDone(run, i, a);
    }
  }

  lemma ConnectNulFree(user: string, password: string)
    requires N.Word(user) && N.Word(password)
    ensures NulFree(K.RequestFrame(K.Connect(user, password)))
  {
  }

  lemma SubscribeNulFree(channel: string, id: int, n: int)
    requires N.Word(channel)
    ensures NulFree(K.RequestFrame(K.Subscribe(channel, id, n)))
  {
  }

  lemma UnsubscribeNulFree(id: int, n: int)
    ensures NulFree(K.RequestFrame(K.Unsubscribe(id, n)))
  {
  }

  lemma RequestNulFree(r: K.Request)
    requires N.WireSafe(r)
    ensures NulFree(K.RequestFrame(r))
  {
    match r {
      case Connect(user, password) => ConnectNulFree(user, password);
      case Subscribe(channel, id, n) => SubscribeNulFree(channel, id, n);
      case Unsubscribe(id, n) => UnsubscribeNulFree(id, n);
      case Report(_, _) =>
      case Disconnect(_) =>
    }
  }

  /** What the server makes of a client's request: exactly its frame; only a report whose channel
      name, which comes from a file, has a newline is just some SEND. */
  ghost predicate Understood(r: K.Request, f: Frame) {
    if r.Report? && LF in r.channel then f.command == "SEND" && NUL !in f.body else f == K.RequestFrame(r)
  }

  lemma RequestArrives(r: K.Request, text: string)
    requires N.WireSafe(r) && IsClientText(text, K.RequestFrame(r))
    ensures NUL !in text && |text| >= 2 && ServerParse(text).Some? && Understood(r, ServerParse(text).value)
  {
    hide K.RequestFrame, N.WireSafe;
    RequestNulFree(r);
    F.ClientTextIsMessage(K.RequestFrame(r), text);
    if r.Report? {
      ReportArrives(r, text);
    } else {
      H.ServedFrame(r, text);
    }
  }

  lemma ReportArrives(r: K.Request, text: string)
    requires N.WireSafe(r) && r.Report? && IsClientText(text, K.RequestFrame(r))
    ensures ServerParse(text).Some? && Understood(r, ServerParse(text).value)
  {
    H.ServedReport(r.channel, r.body, text);
    if LF !in r.channel {
      H.ServedReportExact(r.channel, r.body, text);
    }
  }

  /** The requests a client writes reach the handlers of its connection as that client's frames,
      in order and each once, whatever the header orders, the cutting into reads and the
      interleaving; only a text longer than the decoder's array does not. */
  lemma RequestsReachHandlers(run: seq<A.State>, i: nat, a: nat, requests: seq<K.Request>, texts: seq<string>)
    returns (trace: seq<S.Server>, steps: seq<S.Step>)
    requires A.IsRun(run) && i < |run| && a < |run[i].pool.pending| && A.OneSelector(run[i])
    requires |texts| == |requests| && a < |run[i].env.received| && run[i].env.received[a] <= F.Wire(texts)
    requires forall k :: 0 <= k < |requests| ==>
               N.WireSafe(requests[k]) && IsClientText(texts[k], K.RequestFrame(requests[k])) && |texts[k]| <= LIMIT
    ensures Matches(run[i], trace, steps)
    ensures |Handled(steps, a)| <= |requests|
    ensures forall k :: 0 <= k < |Handled(steps, a)| ==> Understood(requests[k], Handled(steps, a)[k])
    ensures A.Quiescent(run[i]) && run[i].env.received[a] == F.Wire(texts) ==> |Handled(steps, a)| == |requests|
  {
    hide Understood, ServerParse, K.RequestFrame, N.WireSafe, IsClientText, Handled, Matches, A.IsRun, A.Quiescent, F.Wire;
    forall k | 0 <= k < |texts|
      ensures NUL !in texts[k] && 2 <= |texts[k]| <= LIMIT && ServerParse(texts[k]).Some?
      ensures Understood(requests[k], ServerParse(texts[k]).value)
    {
      RequestArrives(requests[k], texts[k]);
    }
    trace, steps := FromTheWire(run, i, a, texts);
    forall k | 0 <= k < |Handled(steps, a)| ensures Understood(requests[k], Handled(steps, a)[k]) {
      assert Handled(steps, a)[k] == Parsed(texts)[k];
    }
  }
}
