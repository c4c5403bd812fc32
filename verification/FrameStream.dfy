/** Frames over a stream: whatever is written as NUL-terminated texts and however the bytes are
    cut into chunks, the decoder hands over the same frames in the same order. */
module FrameStreams {
  import opened Text
  import opened StompFrames
  import opened FrameRoundTrip
  import opened Framing
  import W = WritePath

  /** The bytes on the wire: every text followed by the terminator. */
  function Wire(texts: seq<string>): string {
    if texts == [] then "" else texts[0] + [NUL] + Wire(texts[1..])
  }

  lemma {:induction false} PiecesOfWire(texts: seq<string>)
    requires forall i :: 0 <= i < |texts| ==> NUL !in texts[i]
    ensures Pieces(Wire(texts)) == texts && Rest(Wire(texts)) == ""
  {
    hide Pieces, Rest;
    if texts == [] {
      PiecesNone("");
    } else {
      PiecesOfWire(texts[1..]);
      PiecesCons(texts[0], Wire(texts), Wire(texts[1..]));
      assert [texts[0]] + texts[1..] == texts;
    }
  }

  /** Every text fits the decoder's array. */
  predicate AllFit(texts: seq<string>) {
    forall i :: 0 <= i < |texts| ==> |texts[i]| <= LIMIT
  }

  lemma WireDecodes(texts: seq<string>, chunks: seq<string>)
    requires Flat(chunks) == Wire(texts) && forall i :: 0 <= i < |texts| ==> NUL !in texts[i] && |texts[i]| >= 2
    ensures FeedChunks(chunks).passed == texts <==> AllFit(texts)
    ensures AllFit(texts) ==> FeedChunks(chunks) == Decoder("", texts)
  {
    PiecesOfWire(texts);
    IngestMeaning(chunks);
    assert AllDeliverable(texts) <==> AllFit(texts) by {
      if AllDeliverable(texts) {
        forall i | 0 <= i < |texts| ensures |texts[i]| <= LIMIT { assert texts[i] in texts; }
      }
    }
  }

  lemma ClientTextIsMessage(f: Frame, text: string)
    requires NulFree(f) && IsClientText(text, f)
    ensures NUL !in text && |text| >= 2
  {
    TextHasNoInnerNul(f, text);
    var order :| Enumerates(order, f.headers) && text == Layout(f, order, f.body);
    LayoutNotBare(f, order, f.body);
  }

  /** A client's NUL-free frames arrive at the server in order, with nothing left over, if and
      only if their texts fit, and each is parsed back exactly if and only if all are printable. */
  lemma ClientStream(frames: seq<Frame>, texts: seq<string>, chunks: seq<string>)
    requires |texts| == |frames| && Flat(chunks) == Wire(texts)
    requires forall i :: 0 <= i < |frames| ==> NulFree(frames[i]) && IsClientText(texts[i], frames[i])
    ensures FeedChunks(chunks).passed == texts <==> AllFit(texts)
    ensures AllFit(texts) ==> FeedChunks(chunks).buffer == ""
    ensures (forall i :: 0 <= i < |frames| ==> ServerParse(texts[i]) == Some(frames[i]))
       <==> (forall i :: 0 <= i < |frames| ==> Printable(frames[i]))
  {
    forall i | 0 <= i < |texts|
      ensures NUL !in texts[i] && |texts[i]| >= 2 && (ServerParse(texts[i]) == Some(frames[i]) <==> Printable(frames[i]))
    {
      ClientTextIsMessage(frames[i], texts[i]);
      ClientToServer(frames[i], texts[i]);
    }
    WireDecodes(texts, chunks);
  }

  function Bodies(texts: seq<string>): (r: seq<string>)
    requires forall i :: 0 <= i < |texts| ==> texts[i] != ""
    ensures |r| == |texts| && forall i :: 0 <= i < |texts| ==> r[i] == texts[i][..|texts[i]| - 1]
  {
    seq(|texts|, i requires 0 <= i < |texts| => texts[i][..|texts[i]| - 1])
  }

  lemma {:induction false} EncodedIsWire(texts: seq<string>)
    requires forall i :: 0 <= i < |texts| ==> texts[i] != "" && texts[i][|texts[i]| - 1] == NUL
    ensures W.Concat(texts) == Wire(Bodies(texts))
  {
    if texts != [] {
      EncodedIsWire(texts[1..]);
      assert Bodies(texts)[1..] == Bodies(texts[1..]);
      assert texts[0] == Bodies(texts)[0] + [NUL];
    }
  }

  lemma ServerTextIsMessage(f: Frame, text: string)
    requires NulFree(f) && IsServerText(text, f)
    ensures |text| >= 3 && text[|text| - 1] == NUL && NUL !in text[..|text| - 1]
    ensures ServerParse(text[..|text| - 1]) == ServerParse(text)
  {
    TextHasNoInnerNul(f, text);
    var order :| Enumerates(order, f.headers) && text == Layout(f, order, Relayed(f.body)) + [NUL];
    LayoutNotBare(f, order, Relayed(f.body));
    var m := text[..|text| - 1];
    assert m[|m| - 1] in m;
  }

  /** The server's own encoder and decoder: the texts of NUL-free frames come back in order if
      and only if they fit, and are parsed to the frames with exactly one newline added to each
      non-empty body if and only if all are printable. */
  lemma ServerStream(frames: seq<Frame>, texts: seq<string>, chunks: seq<string>)
    requires |texts| == |frames| && Flat(chunks) == W.Concat(texts)
    requires forall i :: 0 <= i < |frames| ==> NulFree(frames[i]) && IsServerText(texts[i], frames[i])
    ensures forall i :: 0 <= i < |texts| ==> texts[i] != ""
    ensures FeedChunks(chunks).passed == Bodies(texts) <==> AllFit(Bodies(texts))
    ensures AllFit(Bodies(texts)) ==> FeedChunks(chunks).buffer == ""
    ensures (forall i :: 0 <= i < |frames| ==>
               ServerParse(Bodies(texts)[i]) == Some(frames[i].(body := Relayed(frames[i].body))))
       <==> (forall i :: 0 <= i < |frames| ==> Printable(frames[i]))
  {
    forall i | 0 <= i < |texts|
      ensures |texts[i]| >= 3 && texts[i][|texts[i]| - 1] == NUL && NUL !in texts[i][..|texts[i]| - 1]
      ensures ServerParse(texts[i][..|texts[i]| - 1]) == Some(frames[i].(body := Relayed(frames[i].body))) <==> Printable(frames[i])
    {
      ServerTextIsMessage(frames[i], texts[i]);
      ServerRoundTrip(frames[i], texts[i]);
    }
    EncodedIsWire(texts);
    WireDecodes(Bodies(texts), chunks);
  }
}
