/** From the server's handlers back to the client: what is enqueued on a connection, written in
    parts, and read frame by frame. */
module Downstream {
  import opened Text
  import opened StompFrames
  import opened FrameRoundTrip
  import opened Framing
  import opened Clients
  import W = WritePath
  import N = Sessions
  import R = SessionRuns

  // ---------- the client's communication thread ----------

  /** Handling the messages in order until one stops the client; the end of the stream, which
      is a lost connection, stops it too. */
  function AfterMessages(k: Client, messages: seq<string>): Client
    decreases |messages|
  {
    if k.stopped then k
    else if messages == [] then k.(stopped := true)
    else AfterMessages(HandleFrame(k, ClientParse(messages[0])), messages[1..])
  }

  /** `communicate`: read a frame, handle it, until the protocol stops or the connection is lost.
      `stream` is everything that will arrive. */
  method Communicate(protocol: StompProtocol, stream: string)
    modifies protocol
    ensures protocol.View() == AfterMessages(old(protocol.View()), Pieces(stream)) && protocol.wire == old(protocol.wire)
  {
    hide Pieces, Rest, HandleFrame, ClientParse;
    var unread := stream;
    ghost var messages := Pieces(stream);
    while !protocol.stopCommunication
      invariant protocol.wire == old(protocol.wire) && messages == Pieces(unread)
      invariant AfterMessages(old(protocol.View()), Pieces(stream)) == AfterMessages(protocol.View(), messages)
      decreases |unread|, !protocol.stopCommunication
    {
      var ok, response, rest := GetFrameAscii(unread, NUL);
      if !ok {
        protocol.stopCommunication := true;
        return;
      }
      assert messages[0] == response && messages[1..] == Pieces(rest);
      protocol.Receive(response);
      unread, messages := rest, messages[1..];
    }
  }

  /** The client once it has handled all of `messages`, the last of them last. */
  function AfterAll(k: Client, messages: seq<string>): Client {
    if messages == [] then k
    else HandleFrame(AfterAll(k, messages[..|messages| - 1]), ClientParse(messages[|messages| - 1]))
  }

  lemma {:induction false} AfterFirst(k: Client, messages: seq<string>)
    requires messages != []
    ensures AfterAll(k, messages) == AfterAll(HandleFrame(k, ClientParse(messages[0])), messages[1..])
    decreases |messages|
  {
    hide HandleFrame, ClientParse;
    var n := |messages| - 1;
    if n == 0 {
      assert messages[..0] == [] && messages[1..] == [];
    } else {
      AfterFirst(k, messages[..n]);
      assert messages[..n][1..] == messages[1..][..n - 1];
    }
  }

  predicate ReadsOn(k: Client, messages: seq<string>, n: nat)
    requires n <= |messages|
  {
    forall i :: 0 <= i < n ==> !AfterAll(k, messages[..i]).stopped
  }

  /** The reader handles the first `n` messages: none after one that stops it, and all of them
      if none does.  In the end it has stopped. */
  lemma {:induction false} ReadsUntilStopped(k: Client, messages: seq<string>) returns (n: nat)
    ensures n <= |messages| && ReadsOn(k, messages, n)
    ensures AfterAll(k, messages[..n]).stopped || n == |messages|
    ensures AfterMessages(k, messages) == AfterAll(k, messages[..n]).(stopped := true)
    decreases |messages|
  {
    hide HandleFrame, ClientParse;
    assert messages[..0] == [];
    if k.stopped || messages == [] {
      n := 0;
    } else {
      var k' := HandleFrame(k, ClientParse(messages[0]));
      var m := ReadsUntilStopped(k', messages[1..]);
      n := m + 1;
      forall i | 0 <= i <= n ensures i > 0 ==> AfterAll(k, messages[..i]) == AfterAll(k', messages[1..][..i - 1]) {
        if i > 0 {
          AfterFirst(k, messages[..i]);
          assert messages[..i][1..] == messages[1..][..i - 1];
        }
      }
    }
  }

  // ---------- what is written ----------

  /** The messages enqueued on channel `c`, in order. */
  ghost function Sent(run: seq<W.State>, steps: seq<W.Step>, c: nat): seq<string>
    requires W.Follows(run, steps)
    decreases |steps|
  {
    if steps == [] then []
    else
      var n := |steps| - 1;
      W.FollowsButLast(run, steps);
      Sent(run[..n + 1], steps[..n], c) + SentBy(run[n], steps[n], c)
  }

  function SentBy(s: W.State, st: W.Step, c: nat): seq<string> {
    if st.Add? && st.i < |s.senders| && s.senders[st.i].Adding? && s.senders[st.i].c == c then [s.senders[st.i].msg] else []
  }

  lemma StepLog(s: W.State, st: W.Step, c: nat)
    requires W.Enabled(s, st) && c < |s.chans|
    ensures |W.Apply(s, st).chans| == |s.chans|
    ensures W.Apply(s, st).chans[c].log == s.chans[c].log + W.Concat(SentBy(s, st, c))
  {
    if SentBy(s, st, c) != [] {
      var m := s.senders[st.i].msg;
      assert W.Concat([m]) == m + W.Concat([]) && [m][1..] == [];
    }
  }

  lemma {:induction false} ConcatConcat(a: seq<string>, b: seq<string>)
    ensures W.Concat(a + b) == W.Concat(a) + W.Concat(b)
    decreases |b|
  {
    if b == [] {
      assert a + b == a;
    } else {
      var n := |b| - 1;
      ConcatConcat(a, b[..n]);
      assert a + b == (a + b[..n]) + [b[n]] && b == b[..n] + [b[n]];
      hide W.Concat;
      W.ConcatSnoc(a + b[..n], b[n]);
      W.ConcatSnoc(b[..n], b[n]);
      W.JoinThree(W.Concat(a), W.Concat(b[..n]), b[n]);
    }
  }

  /** The channel's log is what was enqueued. */
  lemma {:induction false} LogIsSent(run: seq<W.State>, steps: seq<W.Step>, c: nat)
    requires W.Follows(run, steps) && W.Init(run[0]) && c < |run[0].chans|
    ensures W.Inv(run[|steps|]) && c < |run[|steps|].chans|
    ensures run[|steps|].chans[c].log == W.Concat(Sent(run, steps, c))
    decreases |steps|
  {
    if steps == [] {
      assert W.Conserved(run[0].chans[c]);
    } else {
      hide W.Follows, W.Inv, W.Init, W.Enabled, W.Apply, SentBy;
      var n := |steps| - 1;
      W.FollowsButLast(run, steps);
      LogIsSent(run[..n + 1], steps[..n], c);
      W.StepInv(run[n], steps[n]);
      StepLog(run[n], steps[n], c);
      ConcatConcat(Sent(run[..n + 1], steps[..n], c), SentBy(run[n], steps[n], c));
    }
  }

  // ---------- what is read ----------

  /** Each text ends with a terminator, and only the last, an ERROR's, may have one inside. */
  predicate OneEach(texts: seq<string>) {
    forall k :: 0 <= k < |texts| ==> EndsOnly(texts[k], k == |texts| - 1)
  }

  predicate EndsOnly(text: string, last: bool) {
    text != "" && text[|text| - 1] == NUL && (!last ==> NUL !in text[..|text| - 1])
  }

  /** The messages of a stream that starts with `text`. */
  lemma FirstMessage(text: string, more: string)
    requires EndsOnly(text, true)
    ensures Pieces(text + more) != [] && Pieces(text + more)[0] == N.FirstPiece(text)
    ensures NUL !in text[..|text| - 1] ==> Pieces(text + more) == [N.FirstPiece(text)] + Pieces(more)
  {
    hide Pieces;
    var i := IndexOf(text, NUL);
    assert text[|text| - 1] in text;
    var p, t := text[..i], text[i + 1..];
    assert text == p + [NUL] + t;
    assert text + more == p + [NUL] + (t + more);
    PiecesCons(p, text + more, t + more);
    if NUL !in text[..|text| - 1] {
      IndexOfIs(text, NUL, |text| - 1);
      assert t == "" && t + more == more;
    }
  }

  lemma {:induction false} MessagesOfTexts(texts: seq<string>)
    requires OneEach(texts)
    ensures |Pieces(W.Concat(texts))| >= |texts|
    ensures forall k :: 0 <= k < |texts| ==> Pieces(W.Concat(texts))[k] == N.FirstPiece(texts[k])
    ensures (forall k :: 0 <= k < |texts| ==> EndsOnly(texts[k], false)) ==> |Pieces(W.Concat(texts))| == |texts|
  {
    hide Pieces, N.FirstPiece;
    if texts == [] {
      PiecesNone("");
    } else {
      var rest := texts[1..];
      assert EndsOnly(texts[0], true);
      FirstMessage(texts[0], W.Concat(rest));
      assert OneEach(rest) by {
        forall k | 0 <= k < |rest| ensures EndsOnly(rest[k], k == |rest| - 1) {
          assert rest[k] == texts[k + 1] && EndsOnly(texts[k + 1], k + 1 == |texts| - 1);
        }
      }
      MessagesOfTexts(rest);
      if rest != [] {
        assert EndsOnly(texts[0], false);
      }
    }
  }

  /** What the client makes of a frame: a NUL-free printable one whole, up to the printer's
      newline, and of any other with a sane command at least the command. */
  ghost predicate Understood(f: Frame, g: Frame) {
    && (NulFree(f) && Printable(f) ==> g == f.(body := Relayed(f.body)))
    && (LF !in f.command && NUL !in f.command ==> g.command == f.command)
  }

  lemma TextRead(f: Frame, text: string)
    requires IsServerText(text, f)
    ensures Understood(f, ClientParse(N.FirstPiece(text))) && EndsOnly(text, true) && (NulFree(f) ==> EndsOnly(text, false))
  {
    var order :| Enumerates(order, f.headers) && text == Layout(f, order, Relayed(f.body)) + [NUL];
    if NulFree(f) {
      TextHasNoInnerNul(f, text);
      if Printable(f) { R.ArrivesWhole(f, text); }
    }
    if LF !in f.command && NUL !in f.command { R.CommandArrives(f, text); }
  }

  /** The frames given to a handler's `send`, and the texts it enqueued for them. */
  ghost predicate AreTexts(texts: seq<string>, frames: seq<Frame>) {
    && |texts| == |frames|
    && forall k :: 0 <= k < |frames| ==> IsServerText(texts[k], frames[k]) && (k < |frames| - 1 ==> NulFree(frames[k]))
  }

  /** From the handlers to the client, over every interleaving of senders, selector and partial
      writes: of what has been written, the client reads the sent frames, in order and each once
      (up to the first with a NUL inside, an ERROR, after which it stops); and all of them once
      the queue is empty. */
  lemma FramesReachClient(run: seq<W.State>, steps: seq<W.Step>, c: nat, frames: seq<Frame>)
    requires W.Follows(run, steps) && W.Init(run[0]) && c < |run[0].chans| && AreTexts(Sent(run, steps, c), frames)
    ensures c < |run[|steps|].chans|
    ensures var messages := Pieces(run[|steps|].chans[c].wire);
            && (forall k :: 0 <= k < |messages| && k < |frames| ==> Understood(frames[k], ClientParse(messages[k])))
            && (run[|steps|].chans[c].queue == [] ==> |messages| >= |frames|)
            && ((forall k :: 0 <= k < |frames| ==> NulFree(frames[k])) ==> |messages| <= |frames|)
  {
    var last := run[|steps|];
    hide Pieces, Understood, IsServerText, W.Follows, W.Init, ClientParse, N.FirstPiece, NulFree, EndsOnly;
    var texts := Sent(run, steps, c);
    LogIsSent(run, steps, c);
    assert W.Conserved(last.chans[c]);
    forall k | 0 <= k < |texts|
      ensures EndsOnly(texts[k], k == |texts| - 1) && (NulFree(frames[k]) ==> EndsOnly(texts[k], false))
      ensures Understood(frames[k], ClientParse(N.FirstPiece(texts[k])))
    {
      TextRead(frames[k], texts[k]);
    }
    MessagesOfTexts(texts);
    PiecesPrefix(last.chans[c].wire, W.Concat(last.chans[c].queue));
    if last.chans[c].queue == [] {
      assert last.chans[c].wire + "" == last.chans[c].wire;
    }
  }
}
