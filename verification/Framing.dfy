/** NUL-delimited framing of a byte stream, specified on whole streams and on one byte at a
    time, with the exception fromString throws on the message "\n". */
module Framing {
  import opened Text
  import opened StompFrames

  /** The complete messages of a stream, and what follows the last terminator. */
  function Pieces(s: string): (ps: seq<string>)
    ensures forall p :: p in ps ==> NUL !in p
    decreases |s|
  {
    var i := IndexOf(s, NUL);
    if i < |s| then [s[..i]] + Pieces(s[i + 1..]) else []
  }

  function Rest(s: string): (r: string)
    ensures NUL !in r
    decreases |s|
  {
    var i := IndexOf(s, NUL);
    if i < |s| then Rest(s[i + 1..]) else s
  }

  lemma PiecesCons(p: string, s: string, t: string)
    requires NUL !in p && s == p + [NUL] + t
    ensures Pieces(s) == [p] + Pieces(t) && Rest(s) == Rest(t)
  {
    IndexOfAfter(p, NUL, t);
    assert s[..|p|] == p && s[|p| + 1..] == t;
  }

  lemma PiecesNone(s: string)
    requires NUL !in s
    ensures Pieces(s) == [] && Rest(s) == s
  {
  }

  lemma {:induction false} PiecesConcat(s: string, t: string)
    ensures Pieces(s + t) == Pieces(s) + Pieces(Rest(s) + t)
    ensures Rest(s + t) == Rest(Rest(s) + t)
    decreases |s|
  {
    hide Pieces, Rest;
    var i := IndexOf(s, NUL);
    if i < |s| {
      var p, u := s[..i], s[i + 1..];
      assert s == p + [NUL] + u;
      PiecesCons(p, s, u);
      assert s + t == p + [NUL] + (u + t);
      PiecesCons(p, s + t, u + t);
      PiecesConcat(u, t);
    } else {
      PiecesNone(s);
    }
  }

  /** The message the parser rejects. */
  const BAD: string := [LF]

  /** The largest capacity the decoder's array reaches: doubling it again overflows an int. */
  const LIMIT: nat := 0x4000_0000

  /** The messages the server can take from the wire. */
  predicate Deliverable(p: string) {
    p != BAD && |p| <= LIMIT
  }

  predicate AllDeliverable(ps: seq<string>) {
    forall p :: p in ps ==> Deliverable(p)
  }

  /** What the decoder's buffer holds of an unfinished message. */
  function Held(rest: string): string {
    if |rest| <= LIMIT then rest else rest[..LIMIT]
  }

  lemma OnlyBadIsRejected(p: string)
    requires NUL !in p
    ensures ServerParse(p).None? <==> p == BAD
  {
    TwoParsersAgree(p);
  }

  /** The decoder between two bytes, with the messages parsed and handed to `process` so far. */
  datatype Decoder = Decoder(buffer: string, passed: seq<string>)

  datatype Fed = Fed(decoder: Decoder, thrown: bool)

  /** One byte.  A full array of `LIMIT` bytes cannot be doubled, and pushByte throws before it
      stores the byte; popFrame empties the buffer before the parser can throw. */
  function Feed(d: Decoder, b: char): Fed {
    if b != NUL then
      if |d.buffer| >= LIMIT then Fed(d, true) else Fed(d.(buffer := d.buffer + [b]), false)
    else if d.buffer == BAD then Fed(d.(buffer := ""), true)
    else Fed(Decoder("", d.passed + [d.buffer]), false)
  }

  /** A read task: feed the bytes in order; an exception abandons the rest of the chunk. */
  function FeedChunk(d: Decoder, chunk: string): Decoder
    decreases |chunk|
  {
    if chunk == "" then d
    else
      var r := Feed(d, chunk[0]);
      if r.thrown then r.decoder else FeedChunk(r.decoder, chunk[1..])
  }

  function FeedChunks(chunks: seq<string>): Decoder {
    if chunks == [] then Decoder("", [])
    else FeedChunk(FeedChunks(chunks[..|chunks| - 1]), chunks[|chunks| - 1])
  }

  function Flat(chunks: seq<string>): string {
    if chunks == [] then "" else Flat(chunks[..|chunks| - 1]) + chunks[|chunks| - 1]
  }

  lemma FlatSnoc(chunks: seq<string>, c: string)
    ensures Flat(chunks + [c]) == Flat(chunks) + c
    ensures FeedChunks(chunks + [c]) == FeedChunk(FeedChunks(chunks), c)
  {
    assert (chunks + [c])[..|chunks|] == chunks;
  }

  lemma {:induction false} FlatConcat(a: seq<string>, b: seq<string>)
    ensures Flat(a + b) == Flat(a) + Flat(b)
    decreases |b|
  {
    if b == [] {
      assert a + b == a;
    } else {
      var init, last := b[..|b| - 1], b[|b| - 1];
      FlatConcat(a, init);
      assert a + b == (a + init) + [last];
      FlatSnoc(a + init, last);
    }
  }

  /** Whatever is fed, only deliverable messages are handed over. */
  ghost predicate Sound(d: Decoder) {
    NUL !in d.buffer && |d.buffer| <= LIMIT && AllDeliverable(d.passed)
  }

  /** One byte hands over at most one message, and one that parses. */
  lemma FeedSound(d: Decoder, b: char)
    requires Sound(d)
    ensures var d' := Feed(d, b).decoder;
            Sound(d') && (d'.passed == d.passed || (d'.passed == d.passed + [d.buffer] && ServerParse(d.buffer).Some?))
  {
    OnlyBadIsRejected(d.buffer);
  }

  lemma {:induction false} FeedChunkSound(d: Decoder, chunk: string)
    requires Sound(d)
    ensures Sound(FeedChunk(d, chunk))
    decreases |chunk|
  {
    if chunk != "" {
      var r := Feed(d, chunk[0]);
      FeedSound(d, chunk[0]);
      if !r.thrown {
        FeedChunkSound(r.decoder, chunk[1..]);
      }
    }
  }

  lemma {:induction false} IngestSound(chunks: seq<string>)
    ensures Sound(FeedChunks(chunks))
  {
    if chunks != [] {
      IngestSound(chunks[..|chunks| - 1]);
      FeedChunkSound(FeedChunks(chunks[..|chunks| - 1]), chunks[|chunks| - 1]);
    }
  }

  lemma FirstIsPiece(s: string)
    requires NUL in s
    ensures s[..IndexOf(s, NUL)] in Pieces(s)
  {
    assert Pieces(s)[0] == s[..IndexOf(s, NUL)];
  }

  lemma IndexBeyond(u: string, chunk: string)
    requires NUL !in u && chunk != "" && chunk[0] != NUL
    ensures IndexOf(u + chunk, NUL) > |u|
  {
    var s := u + chunk;
    assert s[|u|] == chunk[0];
    assert forall k :: 0 <= k < |u| ==> s[k] == u[k];
  }

  /** A message longer than the limit would be a piece if a terminator followed. */
  lemma TooLongHasNoEnd(u: string, chunk: string)
    requires NUL !in u && chunk != "" && chunk[0] != NUL && |u| >= LIMIT && AllDeliverable(Pieces(u + chunk))
    ensures NUL !in u + chunk
  {
    hide Pieces;
    IndexBeyond(u, chunk);
    if NUL in u + chunk {
      FirstIsPiece(u + chunk);
    }
  }

  /** One chunk: with `u` fed since the last terminator, the decoder hands over the pieces of
      `u + chunk` and holds what follows them, if all of them are deliverable. */
  lemma {:induction false} FeedChunkMeaning(d: Decoder, u: string, chunk: string)
    requires NUL !in u && d.buffer == Held(u) && AllDeliverable(Pieces(u + chunk))
    ensures FeedChunk(d, chunk) == Decoder(Held(Rest(u + chunk)), d.passed + Pieces(u + chunk))
    decreases |chunk|
  {
    hide Pieces, Rest, AllDeliverable;
    if chunk == "" {
      assert u + chunk == u;
      PiecesNone(u);
    } else if chunk[0] != NUL && |d.buffer| >= LIMIT {
      TooLongHasNoEnd(u, chunk);
      PiecesNone(u + chunk);
      assert (u + chunk)[..LIMIT] == u[..LIMIT];
    } else if chunk[0] != NUL {
      assert u + chunk == (u + [chunk[0]]) + chunk[1..];
      FeedChunkMeaning(d.(buffer := u + [chunk[0]]), u + [chunk[0]], chunk[1..]);
    } else {
      FeedTerminator(d, u, chunk);
      FeedChunkMeaning(Decoder("", d.passed + [u]), "", chunk[1..]);
      Extend(d.passed, [u], Pieces(chunk[1..]), Pieces(u + chunk));
    }
  }

  lemma FeedTerminator(d: Decoder, u: string, chunk: string)
    requires NUL !in u && d.buffer == Held(u) && AllDeliverable(Pieces(u + chunk)) && chunk != "" && chunk[0] == NUL
    ensures Feed(d, NUL) == Fed(Decoder("", d.passed + [u]), false)
    ensures Pieces(u + chunk) == [u] + Pieces(chunk[1..]) && Rest(u + chunk) == Rest(chunk[1..])
    ensures "" + chunk[1..] == chunk[1..] && AllDeliverable(Pieces(chunk[1..]))
  {
    hide Pieces, Rest;
    assert u + chunk == u + [NUL] + chunk[1..];
    PiecesCons(u, u + chunk, chunk[1..]);
    assert Pieces(u + chunk)[0] == u;
    assert Deliverable(u);
    assert forall p :: p in Pieces(chunk[1..]) ==> p in Pieces(u + chunk);
  }

  lemma Extend(a: seq<string>, b: seq<string>, c: seq<string>, bc: seq<string>)
    requires bc == b + c
    ensures a + b + c == a + bc
  {
  }

  lemma {:induction false} IngestAll(chunks: seq<string>)
    requires AllDeliverable(Pieces(Flat(chunks)))
    ensures FeedChunks(chunks) == Decoder(Held(Rest(Flat(chunks))), Pieces(Flat(chunks)))
  {
    hide Pieces, Rest;
    if chunks == [] {
      PiecesNone("");
    } else {
      var init, c := chunks[..|chunks| - 1], chunks[|chunks| - 1];
      PiecesConcat(Flat(init), c);
      IngestAll(init);
      FeedChunkMeaning(FeedChunks(init), Rest(Flat(init)), c);
    }
  }

  /** Feeding chunk by chunk hands over exactly the NUL-terminated pieces of the whole stream,
      however it was cut into chunks, if and only if each is deliverable: not the bare newline
      and at most 2^30 bytes.  The buffer then holds the bytes since the last terminator, or the
      first 2^30 of them. */
  lemma IngestMeaning(chunks: seq<string>)
    ensures FeedChunks(chunks).passed == Pieces(Flat(chunks)) <==> AllDeliverable(Pieces(Flat(chunks)))
    ensures AllDeliverable(Pieces(Flat(chunks))) ==> FeedChunks(chunks).buffer == Held(Rest(Flat(chunks)))
  {
    IngestSound(chunks);
    if AllDeliverable(Pieces(Flat(chunks))) {
      IngestAll(chunks);
    }
  }

  lemma FeedChunksOne(c: string)
    ensures FeedChunks([c]) == FeedChunk(Decoder("", []), c) && Flat([c]) == c
  {
    assert [c][..0] == [];
  }

  lemma FeedChunksTwo(c1: string, c2: string)
    ensures FeedChunks([c1, c2]) == FeedChunk(FeedChunk(Decoder("", []), c1), c2) && Flat([c1, c2]) == c1 + c2
  {
    hide FeedChunk, FeedChunks, Flat;
    assert [c1] + [c2] == [c1, c2];
    FeedChunksOne(c1);
    FlatSnoc([c1], c2);
  }

  /** The array fills up, and the byte that does not fit costs the rest of the chunk. */
  lemma {:induction false} FeedChunkFull(d: Decoder, a: string, b: string)
    requires NUL !in a && |d.buffer| + |a| == LIMIT && b != "" && b[0] != NUL
    ensures FeedChunk(d, a + b) == Decoder(d.buffer + a, d.passed)
    decreases |a|
  {
    if a == "" {
      assert a + b == b && d.buffer + a == d.buffer;
    } else {
      assert (a + b)[1..] == a[1..] + b && d.buffer + [a[0]] + a[1..] == d.buffer + a;
      FeedChunkFull(d.(buffer := d.buffer + [a[0]]), a[1..], b);
    }
  }

  lemma BareNewlineIsLost()
    ensures FeedChunks([BAD + [NUL]]).passed == [] && Pieces(BAD + [NUL]) == [BAD]
  {
    FeedChunksOne(BAD + [NUL]);
    assert (BAD + [NUL])[1..] == [NUL] && [NUL][1..] == "" && "" + BAD == BAD;
    PiecesCons(BAD, BAD + [NUL], "");
  }

  lemma FirstPartKept(p: string)
    requires NUL !in p && |p| == LIMIT + 1
    ensures FeedChunk(Decoder("", []), p + [NUL]) == Decoder(p[..LIMIT], [])
  {
    hide FeedChunk;
    var a, b := p[..LIMIT], p[LIMIT..] + [NUL];
    assert p + [NUL] == a + b && "" + a == a && b[0] == p[LIMIT];
    FeedChunkFull(Decoder("", []), a, b);
  }

  lemma CutPieces(p: string)
    requires NUL !in p
    ensures Pieces(p + [NUL] + [NUL]) == [p, ""]
  {
    hide Pieces;
    assert [NUL] == "" + [NUL] + "";
    PiecesCons("", [NUL], "");
    PiecesNone("");
    PiecesCons(p, p + [NUL] + [NUL], [NUL]);
    assert [p] + [""] == [p, ""];
  }

  /** Of a message one byte over the limit the decoder keeps the first 2^30 bytes, and hands them
      over as a message when the next chunk starts with a terminator. */
  lemma TooLongIsCut(p: string)
    requires NUL !in p && |p| == LIMIT + 1
    ensures FeedChunks([p + [NUL], [NUL]]).passed == [p[..LIMIT]] && Pieces(Flat([p + [NUL], [NUL]])) == [p, ""]
  {
    hide Pieces, Flat, FeedChunk, FeedChunks;
    FeedChunksTwo(p + [NUL], [NUL]);
    FirstPartKept(p);
    TerminatorTakes(Decoder(p[..LIMIT], []));
    CutPieces(p);
    assert [] + [p[..LIMIT]] == [p[..LIMIT]];
  }

  lemma TerminatorTakes(d: Decoder)
    requires d.buffer != BAD
    ensures FeedChunk(d, [NUL]) == Decoder("", d.passed + [d.buffer])
  {
    assert [NUL][1..] == "";
  }

  /** Pieces of a prefix are a prefix of the pieces. */
  lemma PiecesPrefix(s: string, t: string)
    ensures Pieces(s) <= Pieces(s + t)
  {
    PiecesConcat(s, t);
  }

  function WithoutNul(s: string): string {
    if s == "" then "" else (if s[0] == NUL then "" else [s[0]]) + WithoutNul(s[1..])
  }

  lemma {:induction false} WithoutNulConcat(s: string, t: string)
    ensures WithoutNul(s + t) == WithoutNul(s) + WithoutNul(t)
  {
    if s == "" {
      assert s + t == t;
    } else {
      assert (s + t)[1..] == s[1..] + t;
      WithoutNulConcat(s[1..], t);
    }
  }

  lemma {:induction false} WithoutNulIs(s: string)
    requires NUL !in s
    ensures WithoutNul(s) == s
  {
    if s != "" {
      assert s[0] in s;
      WithoutNulIs(s[1..]);
    }
  }

  /** ConnectionHandler::getFrameAscii on the bytes that will arrive: it consumes up to and
      including the delimiter, keeps everything but NULs, and fails when the stream ends
      first.  For the NUL delimiter that is exactly the next piece. */
  method GetFrameAscii(stream: string, delimiter: char) returns (ok: bool, frame: string, rest: string)
    ensures ok <==> delimiter in stream
    ensures |rest| <= |stream| && rest == stream[|stream| - |rest|..]
    ensures ok ==> |stream| - |rest| == IndexOf(stream, delimiter) + 1
    ensures frame == WithoutNul(stream[..|stream| - |rest|])
    ensures ok && delimiter == NUL ==> Pieces(stream) == [frame] + Pieces(rest) && Rest(stream) == Rest(rest)
    ensures !ok && delimiter == NUL ==> Pieces(stream) == [] && frame == stream
  {
    frame, rest := "", stream;
    ok := false;
    ghost var n := 0;
    NothingTaken(stream);
    hide Pieces, Rest, WithoutNul;
    while !ok
      invariant 0 <= n <= |stream| && rest == stream[n..]
      invariant frame == WithoutNul(stream[0..n])
      invariant if ok then n > 0 && stream[n - 1] == delimiter && delimiter !in stream[0..n - 1]
                else delimiter !in stream[0..n]
      decreases |rest|, if ok then 0 else 1
    {
      if rest == "" {
        assert stream[0..n] == stream;
        if delimiter == NUL { AllTaken(stream); }
        return;
      }
      var ch := rest[0];
      SliceSnoc(stream, 0, n);
      WithoutNulSnoc(stream[0..n], ch);
      if ch != NUL {
        frame := frame + [ch];
      }
      rest := rest[1..];
      n := n + 1;
      ok := ch == delimiter;
    }
    FirstAt(stream, delimiter, n - 1);
    if delimiter == NUL { NextPiece(stream, stream[0..n - 1], rest); }
  }

  lemma NothingTaken(stream: string)
    ensures stream[0..0] == "" && WithoutNul("") == ""
  {
  }

  lemma AllTaken(stream: string)
    requires NUL !in stream
    ensures WithoutNul(stream) == stream && Pieces(stream) == []
  {
    WithoutNulIs(stream);
    PiecesNone(stream);
  }

  lemma WithoutNulSnoc(s: string, ch: char)
    ensures WithoutNul(s + [ch]) == WithoutNul(s) + (if ch == NUL then "" else [ch])
  {
    WithoutNulConcat(s, [ch]);
  }

  lemma FirstAt(s: string, c: char, i: nat)
    requires i < |s| && s[i] == c && c !in s[0..i]
    ensures IndexOf(s, c) == i && s == s[0..i] + [c] + s[i + 1..] && s[..i + 1] == s[0..i] + [c]
  {
    assert s[..i] == s[0..i];
    IndexOfIs(s, c, i);
  }

  lemma NextPiece(stream: string, p: string, rest: string)
    requires NUL !in p && stream == p + [NUL] + rest
    ensures WithoutNul(p + [NUL]) == p && p + [NUL] <= stream
    ensures Pieces(stream) == [p] + Pieces(rest) && Rest(stream) == Rest(rest)
  {
    WithoutNulConcat(p, [NUL]);
    WithoutNulIs(p);
    PiecesCons(p, stream, rest);
  }
}
