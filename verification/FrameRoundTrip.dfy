/** Printing and parsing undo each other, exactly for the frames the format can carry. */
module FrameRoundTrip {
  import opened Text
  import opened StompFrames

  /** What the text format can carry: a one-line command, one-line keys without ':', and
      one-line values. */
  ghost predicate Printable(f: Frame) {
    && LF !in f.command
    && forall k :: k in f.headers ==> LF !in k && ':' !in k && LF !in f.headers[k]
  }

  ghost predicate NulFree(f: Frame) {
    && NUL !in f.command && NUL !in f.body
    && forall k :: k in f.headers ==> NUL !in k && NUL !in f.headers[k]
  }

  /** The entries of `headers` listed so far, on top of `start`. */
  ghost function Listed(start: map<string, string>, order: seq<string>, headers: map<string, string>): map<string, string>
    requires forall k :: k in order ==> k in headers
  {
    map k | k in start.Keys + (set x | x in order) :: if k in order then headers[k] else start[k]
  }

  lemma PutPrinted(start: map<string, string>, k: string, v: string)
    requires ':' !in k
    ensures PutHeader(start, k + ":" + v) == start[k := v]
  {
    IndexOfAfter(k, ':', v);
    var l := k + ":" + v;
    assert l[..|k|] == k && l[|k| + 1..] == v;
  }

  lemma ListedStep(start: map<string, string>, order: seq<string>, headers: map<string, string>)
    requires order != [] && forall k :: k in order ==> k in headers
    ensures Listed(start[order[0] := headers[order[0]]], order[1..], headers) == Listed(start, order, headers)
  {
    assert forall x :: x in order <==> x == order[0] || x in order[1..];
  }

  lemma HeaderLinesStep(order: seq<string>, headers: map<string, string>, tail: string)
    requires order != [] && forall k :: k in order ==> k in headers
    ensures HeaderLines(order, headers) + [LF] + tail
         == (order[0] + ":" + headers[order[0]]) + [LF] + (HeaderLines(order[1..], headers) + [LF] + tail)
  {
  }

  /** One header line read back. */
  lemma ReadOne(start: map<string, string>, k: string, v: string, more: string)
    requires LF !in k && ':' !in k && LF !in v
    ensures ReadHeaders(start, (k + ":" + v) + [LF] + more) == ReadHeaders(start[k := v], more)
  {
    GetLineOf(k + ":" + v, LF, more);
    PutPrinted(start, k, v);
  }

  lemma {:induction false} ReadPrinted(start: map<string, string>, order: seq<string>, f: Frame, tail: string)
    requires Printable(f) && forall k :: k in order ==> k in f.headers
    ensures ReadHeaders(start, HeaderLines(order, f.headers) + [LF] + tail)
         == HeaderBlock(Listed(start, order, f.headers), tail)
    decreases |order|
  {
    if order == [] {
      assert HeaderLines(order, f.headers) + [LF] + tail == "" + [LF] + tail;
      GetLineOf("", LF, tail);
      assert Listed(start, order, f.headers) == start;
    } else {
      var k := order[0];
      assert k in order;
      HeaderLinesStep(order, f.headers, tail);
      ReadOne(start, k, f.headers[k], HeaderLines(order[1..], f.headers) + [LF] + tail);
      ReadPrinted(start[k := f.headers[k]], order[1..], f, tail);
      ListedStep(start, order, f.headers);
    }
  }

  lemma ListedAll(order: seq<string>, headers: map<string, string>)
    requires Enumerates(order, headers)
    ensures Listed(map[], order, headers) == headers
  {
  }

  /** Line-based parsing recovers a printed frame whatever the header order. */
  lemma LineParseLayout(f: Frame, order: seq<string>, tail: string)
    requires Printable(f) && Enumerates(order, f.headers)
    ensures LineParse(Layout(f, order, tail)) == f.(body := tail)
  {
    var block := HeaderLines(order, f.headers) + [LF] + tail;
    ReadPrinted(map[], order, f, tail);
    ListedAll(order, f.headers);
    LineParseWhole(f.command, block);
  }

  lemma LineParseWhole(command: string, block: string)
    requires LF !in command
    ensures LineParse(command + [LF] + block)
         == Frame(command, ReadHeaders(map[], block).headers, ReadHeaders(map[], block).rest)
  {
    GetLineOf(command, LF, block);
  }

  lemma LayoutNotBare(f: Frame, order: seq<string>, tail: string)
    requires forall k :: k in order ==> k in f.headers
    ensures |Layout(f, order, tail)| >= 2
    ensures tail == "" ==> Layout(f, order, tail)[|Layout(f, order, tail)| - 1] == LF
    ensures tail != "" ==> Layout(f, order, tail)[|Layout(f, order, tail)| - 1] == tail[|tail| - 1]
  {
  }

  lemma {:induction false} PutHeadersOneLine(start: map<string, string>, lines: seq<string>)
    requires forall l :: l in lines ==> LF !in l
    requires forall k :: k in start ==> LF !in k && ':' !in k && LF !in start[k]
    ensures var h := PutHeaders(start, lines);
            forall k :: k in h ==> LF !in k && ':' !in k && LF !in h[k]
    decreases |lines|
  {
    if lines != [] {
      assert lines[0] in lines;
      PutHeadersOneLine(PutHeader(start, lines[0]), lines[1..]);
    }
  }

  /** Whatever the message, a parsed frame is one the format can carry. */
  lemma ParsedIsPrintable(message: string)
    requires ServerParse(message).Some?
    ensures Printable(ServerParse(message).value)
  {
    var m := if message != "" && message[|message| - 1] == NUL then message[..|message| - 1] else message;
    var lines := JavaSplit(m[..BlankAt(m)], LF);
    assert lines[0] in lines;
    PutHeadersOneLine(map[], lines[1..]);
  }

  /** `fromString(toString(f))` is `f` with exactly one newline added to a non-empty body, for
      every header order, if and only if `f` is printable. */
  lemma ServerRoundTrip(f: Frame, text: string)
    requires IsServerText(text, f)
    ensures ServerParse(text) == Some(f.(body := Relayed(f.body))) <==> Printable(f)
  {
    var order :| Enumerates(order, f.headers) && text == Layout(f, order, Relayed(f.body)) + [NUL];
    var m := Layout(f, order, Relayed(f.body));
    assert text[..|text| - 1] == m;
    if Printable(f) {
      LayoutNotBare(f, order, Relayed(f.body));
      ServerParseStripped(text, m);
      LineParseLayout(f, order, Relayed(f.body));
    } else if ServerParse(text) == Some(f.(body := Relayed(f.body))) {
      ParsedIsPrintable(text);
      assert false;
    }
  }

  lemma ServerParseStripped(text: string, m: string)
    requires text == m + [NUL] && |m| >= 2 && m[|m| - 1] != NUL
    ensures ServerParse(text) == Some(LineParse(m))
  {
    assert text[..|text| - 1] == m;
    assert ServerParse(text) == ServerParse(m);
    ServerParseIsLineParse(m);
  }

  /** A frame written by the client's `send` reaches the server unchanged, if and only if it is
      printable (its text up to the terminator being NUL-free). */
  lemma ClientToServer(f: Frame, text: string)
    requires IsClientText(text, f) && NUL !in f.body
    ensures ServerParse(text) == Some(f) <==> Printable(f)
  {
    var order :| Enumerates(order, f.headers) && text == Layout(f, order, f.body);
    LayoutNotBare(f, order, f.body);
    if f.body != "" { assert f.body[|f.body| - 1] in f.body; }
    if Printable(f) {
      ServerParseIsLineParse(text);
      LineParseLayout(f, order, f.body);
    } else if ServerParse(text) == Some(f) {
      ParsedIsPrintable(text);
      assert false;
    }
  }

  /** The client reads one message up to the terminator; a NUL-free server frame arrives with
      the printer's newline added to a non-empty body. */
  lemma ServerToClient(f: Frame, text: string)
    requires IsServerText(text, f) && Printable(f) && NUL !in f.body
    ensures ClientParse(text[..|text| - 1]) == f.(body := Relayed(f.body))
  {
    var order :| Enumerates(order, f.headers) && text == Layout(f, order, Relayed(f.body)) + [NUL];
    assert text[..|text| - 1] == Layout(f, order, Relayed(f.body));
    LineParseLayout(f, order, Relayed(f.body));
  }

  lemma {:induction false} HeaderLinesNulFree(order: seq<string>, f: Frame)
    requires NulFree(f) && forall k :: k in order ==> k in f.headers
    ensures NUL !in HeaderLines(order, f.headers)
  {
    if order != [] {
      assert order[0] in order;
      HeaderLinesNulFree(order[1..], f);
    }
  }

  /** The only NUL in the text of a NUL-free frame is the terminator, so a NUL-delimited
      stream carries it as one message. */
  lemma TextHasNoInnerNul(f: Frame, text: string)
    requires NulFree(f)
    ensures IsClientText(text, f) ==> NUL !in text
    ensures IsServerText(text, f) ==> NUL !in text[..|text| - 1] && text[|text| - 1] == NUL
  {
    if IsClientText(text, f) {
      var order :| Enumerates(order, f.headers) && text == Layout(f, order, f.body);
      HeaderLinesNulFree(order, f);
    }
    if IsServerText(text, f) {
      var order :| Enumerates(order, f.headers) && text == Layout(f, order, Relayed(f.body)) + [NUL];
      HeaderLinesNulFree(order, f);
      assert text[..|text| - 1] == Layout(f, order, Relayed(f.body));
    }
  }

  /** The command survives even when the rest of the frame does not: any frame with a one-line
      command is parsed with that command, by either parser. */
  lemma CommandSurvives(f: Frame, order: seq<string>, tail: string)
    requires LF !in f.command && forall k :: k in order ==> k in f.headers
    ensures LineParse(Layout(f, order, tail)).command == f.command
  {
    GetLineOf(f.command, LF, HeaderLines(order, f.headers) + [LF] + tail);
  }
}
