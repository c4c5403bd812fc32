/** The text form of a STOMP frame: the server's printer and split-based parser
    (StompFrame.java), and the client's printer and line-based parser (StompProtocol.cpp). */
module StompFrames {
  import opened Text

  datatype Frame = Frame(command: string, headers: map<string, string>, body: string)

  /** `order` lists the keys of `headers` once each: one possible iteration order of the map. */
  ghost predicate Enumerates(order: seq<string>, headers: map<string, string>) {
    && (forall i, j :: 0 <= i < j < |order| ==> order[i] != order[j])
    && (forall k :: k in order <==> k in headers)
  }

  function HeaderLines(order: seq<string>, headers: map<string, string>): string
    requires forall k :: k in order ==> k in headers
  {
    if order == [] then ""
    else order[0] + ":" + headers[order[0]] + [LF] + HeaderLines(order[1..], headers)
  }

  lemma {:induction false} HeaderLinesSnoc(order: seq<string>, k: string, headers: map<string, string>)
    requires k in headers && forall x :: x in order ==> x in headers
    ensures HeaderLines(order + [k], headers)
         == HeaderLines(order, headers) + (k + ":" + headers[k] + [LF])
  {
    if order == [] {
      assert [k][1..] == [];
    } else {
      HeaderLinesSnoc(order[1..], k, headers);
      assert (order + [k])[1..] == order[1..] + [k];
    }
  }

  function Layout(f: Frame, order: seq<string>, tail: string): string
    requires forall k :: k in order ==> k in f.headers
  {
    f.command + [LF] + (HeaderLines(order, f.headers) + [LF] + tail)
  }

  /** What the server's printer does to a body: a non-empty one gains a newline. */
  function Relayed(body: string): string {
    if body == "" then "" else body + [LF]
  }

  /** `text` is what StompFrame.toString may return for `f`: the map's iteration order is open. */
  ghost predicate IsServerText(text: string, f: Frame) {
    exists order :: Enumerates(order, f.headers) && text == Layout(f, order, Relayed(f.body)) + [NUL]
  }

  /** `text` is what the client's `send` may write before the terminator. */
  ghost predicate IsClientText(text: string, f: Frame) {
    exists order :: Enumerates(order, f.headers) && text == Layout(f, order, f.body)
  }

  method PrintHeaders(f: Frame) returns (text: string, order: seq<string>)
    ensures Enumerates(order, f.headers)
    ensures text == f.command + [LF] + HeaderLines(order, f.headers)
  {
    text := f.command + [LF];
    order := [];
    var left := f.headers.Keys;
    while left != {}
      invariant left <= f.headers.Keys
      invariant forall k :: k in order <==> k in f.headers && k !in left
      invariant forall i, j :: 0 <= i < j < |order| ==> order[i] != order[j]
      invariant text == f.command + [LF] + HeaderLines(order, f.headers)
      decreases left
    {
      var k :| k in left;
      text := text + (k + ":" + f.headers[k] + [LF]);
      HeaderLinesSnoc(order, k, f.headers);
      order := order + [k];
      left := left - {k};
    }
  }

  method ToString(f: Frame) returns (text: string)
    ensures IsServerText(text, f)
  {
    var order;
    text, order := PrintHeaders(f);
    text := text + [LF];
    if f.body != "" {
      text := text + (f.body + [LF]);
    }
    assert text == Layout(f, order, Relayed(f.body));
    text := text + [NUL];
  }

  /** StompProtocol::send, up to the terminator that sendFrameAscii adds. */
  method ClientText(f: Frame) returns (text: string)
    ensures IsClientText(text, f)
  {
    var order;
    text, order := PrintHeaders(f);
    if f.body != "" {
      text := text + ([LF] + f.body);
    } else {
      text := text + [LF];
    }
    assert text == Layout(f, order, f.body);
  }

  // ---------- parsing ----------

  /** A header line without ':' is ignored; a repeated key keeps the last value. */
  function PutHeader(headers: map<string, string>, line: string): map<string, string> {
    var i := IndexOf(line, ':');
    if i < |line| then headers[line[..i] := line[i + 1..]] else headers
  }

  function PutHeaders(headers: map<string, string>, lines: seq<string>): map<string, string>
    decreases |lines|
  {
    if lines == [] then headers else PutHeaders(PutHeader(headers, lines[0]), lines[1..])
  }

  lemma {:induction false} PutHeadersSnoc(headers: map<string, string>, lines: seq<string>, last: string)
    ensures PutHeaders(headers, lines + [last]) == PutHeader(PutHeaders(headers, lines), last)
    decreases |lines|
  {
    if lines == [] {
      assert [last][1..] == [];
    } else {
      assert (lines + [last])[1..] == lines[1..] + [last];
      PutHeadersSnoc(PutHeader(headers, lines[0]), lines[1..], last);
    }
  }

  /** Position of the first empty line's "\n\n", or `|s|`. */
  function BlankAt(s: string): (k: nat)
    ensures k <= |s|
    ensures k < |s| ==> k + 1 < |s| && s[k] == LF && s[k + 1] == LF
  {
    if |s| < 2 then |s|
    else if s[0] == LF && s[1] == LF then 0
    else 1 + BlankAt(s[1..])
  }

  /** What follows the first "\n\n". */
  function AfterBlank(s: string): string {
    var k := BlankAt(s);
    if k < |s| then s[k + 2..] else ""
  }

  /** StompFrame.fromString; `None` stands for ArrayIndexOutOfBoundsException. */
  function ServerParse(message: string): Option<Frame> {
    var m := if message != "" && message[|message| - 1] == NUL then message[..|message| - 1] else message;
    var lines := JavaSplit(m[..BlankAt(m)], LF);
    if lines == [] then None
    else Some(Frame(lines[0], PutHeaders(map[], lines[1..]), AfterBlank(m)))
  }

  method FromString(message: string) returns (r: Option<Frame>)
    ensures r == ServerParse(message)
  {
    hide BlankAt, JavaSplit;
    var m := message;
    if m != "" && m[|m| - 1] == NUL {
      m := m[..|m| - 1];
    }
    var k := BlankAt(m);
    var body := if k < |m| then m[k + 2..] else "";
    var lines := JavaSplit(m[..k], LF);
    if lines == [] {
      return None;
    }
    var headers := map[];
    var i := 1;
    while i < |lines|
      invariant 1 <= i <= |lines|
      invariant headers == PutHeaders(map[], lines[1..i])
    {
      var colon := IndexOf(lines[i], ':');
      PutHeadersSnoc(map[], lines[1..i], lines[i]);
      SliceSnoc(lines, 1, i);
      if colon < |lines[i]| {
        headers := headers[lines[i][..colon] := lines[i][colon + 1..]];
      }
      i := i + 1;
    }
    assert lines[1..|lines|] == lines[1..];
    return Some(Frame(lines[0], headers, body));
  }

  datatype HeaderBlock = HeaderBlock(headers: map<string, string>, rest: string)

  /** The client's header loop: read lines until an empty one or the end of the stream. */
  function ReadHeaders(headers: map<string, string>, unread: string): HeaderBlock
    decreases |unread|
  {
    var l := GetLine(unread, LF);
    if !l.ok || l.line == "" then HeaderBlock(headers, l.rest)
    else ReadHeaders(PutHeader(headers, l.line), l.rest)
  }

  /** Line by line up to the empty line, and the rest as the body. */
  function LineParse(message: string): Frame {
    var first := GetLine(message, LF);
    var block := ReadHeaders(map[], first.rest);
    Frame(first.line, block.headers, block.rest)
  }

  /** StompProtocol::parseFrame up to the choice of handler: the body stops at a NUL. */
  function ClientParse(message: string): Frame {
    var f := LineParse(message);
    f.(body := GetLine(f.body, NUL).line)
  }

  /** The rest of the header loop, once line `l` has been read. */
  function ReadFrom(headers: map<string, string>, l: Line): HeaderBlock {
    if !l.ok || l.line == "" then HeaderBlock(headers, l.rest) else ReadHeaders(PutHeader(headers, l.line), l.rest)
  }

  lemma ReadHeadersStep(headers: map<string, string>, unread: string)
    ensures ReadHeaders(headers, unread) == ReadFrom(headers, GetLine(unread, LF))
  {
    hide GetLine, PutHeader;
  }

  method ParseFrame(message: string) returns (f: Frame)
    ensures f == ClientParse(message)
  {
    hide GetLine, IndexOf, ReadHeaders;
    var l := GetLine(message, LF);
    var command, unread := l.line, l.rest;
    ghost var start := unread;
    var headers := map[];
    ReadHeadersStep(headers, unread);
    l := GetLine(unread, LF);
    unread := l.rest;
    while l.ok && l.line != ""
      invariant unread == l.rest && ReadHeaders(map[], start) == ReadFrom(headers, l)
      decreases l.ok, |unread|
    {
      var colon := IndexOf(l.line, ':');
      ReadHeadersStep(PutHeader(headers, l.line), unread);
      if colon < |l.line| {
        headers := headers[l.line[..colon] := l.line[colon + 1..]];
      }
      l := GetLine(unread, LF);
      unread := l.rest;
    }
    return Frame(command, headers, GetLine(unread, NUL).line);
  }

  // ---------- the two parsers agree ----------

  lemma {:induction false} BlankAtAfter(a: string, s: string)
    requires LF !in a && s != "" && s[0] == LF
    ensures BlankAt(a + s) == |a| + BlankAt(s)
  {
    if a == "" {
      assert a + s == s;
    } else {
      assert (a + s)[1..] == a[1..] + s;
      assert a[0] in a;
      BlankAtAfter(a[1..], s);
      if |a + s| < 2 { assert false; }
    }
  }

  lemma {:induction false} BlankAtNoLine(a: string)
    requires LF !in a
    ensures BlankAt(a) == |a|
  {
    if |a| >= 2 {
      assert a[0] in a;
      BlankAtNoLine(a[1..]);
    }
  }

  /** Empty lines change no header, so dropping trailing ones is harmless. */
  lemma {:induction false} TrailingEmptyIgnored(headers: map<string, string>, lines: seq<string>)
    ensures PutHeaders(headers, DropTrailingEmpty(lines)) == PutHeaders(headers, lines)
  {
    if lines != [] && lines[|lines| - 1] == "" {
      var init := lines[..|lines| - 1];
      TrailingEmptyIgnored(headers, init);
      PutHeadersSnoc(headers, init, "");
      assert lines == init + [""];
    }
  }

  lemma SplitCons(line: string, t: string)
    requires LF !in line
    ensures Split(line + [LF] + t, LF) == [line] + Split(t, LF)
  {
    IndexOfAfter(line, LF, t);
    var s := line + [LF] + t;
    assert s[..|line|] == line && s[|line| + 1..] == t;
  }

  lemma PutOne(headers: map<string, string>, line: string)
    ensures PutHeaders(headers, [line]) == PutHeader(headers, line)
  {
    assert [line][1..] == [];
  }

  /** How the split-based parser treats the text that follows a newline. */
  function AfterNewline(headers: map<string, string>, unread: string): HeaderBlock {
    var x := [LF] + unread;
    var k := BlankAt(x);
    HeaderBlock(if k == 0 then headers else PutHeaders(headers, Split(x[1..k], LF)), AfterBlank(x))
  }

  lemma AfterEmptyLine(headers: map<string, string>, t: string)
    ensures AfterNewline(headers, [LF] + t) == HeaderBlock(headers, t)
  {
    var x := [LF] + ([LF] + t);
    assert BlankAt(x) == 0 && x[2..] == t;
  }

  /** After a newline, text that starts with a non-empty line is split like a message. */
  lemma AfterNewlineOf(headers: map<string, string>, m: string)
    requires m != "" && m[0] != LF
    ensures AfterNewline(headers, m)
         == HeaderBlock(PutHeaders(headers, Split(m[..BlankAt(m)], LF)), AfterBlank(m))
  {
    var x := [LF] + m;
    assert x[1..] == m;
    var k := BlankAt(m);
    assert BlankAt(x) == 1 + k;
    assert x[1..1 + k] == m[..k];
    if k < |m| { assert x[1 + k + 2..] == m[k + 2..]; }
  }

  lemma AfterLastLine(headers: map<string, string>, line: string)
    requires LF !in line
    ensures AfterNewline(headers, line) == HeaderBlock(PutHeader(headers, line), "")
  {
    if line == "" {
      var x := [LF] + line;
      assert BlankAt(x) == 1 && x[1..1] == "";
    } else {
      assert line[0] in line;
      AfterNewlineOf(headers, line);
      BlankAtNoLine(line);
      assert line[..|line|] == line;
    }
    assert Split(line, LF) == [line];
    PutOne(headers, line);
  }

  /** The part of a message up to its blank line, when its first line is `c` and the rest,
      newline included, is `x`. */
  lemma HeadOfMessage(c: string, x: string, m: string)
    requires LF !in c && x != "" && x[0] == LF && m == c + x
    ensures BlankAt(m) == |c| + BlankAt(x) && AfterBlank(m) == AfterBlank(x)
    ensures BlankAt(x) == 0 ==> m[..BlankAt(m)] == c
    ensures BlankAt(x) > 0 ==> m[..BlankAt(m)] == c + [LF] + x[1..BlankAt(x)]
  {
    BlankAtAfter(c, x);
    var j := BlankAt(x);
    if j < |x| { assert m[|c| + j + 2..] == x[j + 2..]; }
    assert m[..|c| + j] == c + x[..j];
    if j > 0 { assert x[..j] == [LF] + x[1..j]; }
  }

  lemma AfterLine(headers: map<string, string>, line: string, t: string, m: string)
    requires line != "" && LF !in line && m == line + ([LF] + t)
    ensures AfterNewline(headers, m) == AfterNewline(PutHeader(headers, line), t)
  {
    assert m[0] == line[0] && line[0] in line;
    AfterNewlineOf(headers, m);
    var y := [LF] + t;
    HeadOfMessage(line, y, m);
    var j := BlankAt(y);
    if j == 0 {
      assert Split(line, LF) == [line];
      PutOne(headers, line);
    } else {
      SplitCons(line, y[1..j]);
      assert ([line] + Split(y[1..j], LF))[1..] == Split(y[1..j], LF);
    }
  }

  /** Reading lines until an empty one finds the headers before the first "\n\n" and stops
      right after it. */
  lemma {:induction false} HeadersAgree(headers: map<string, string>, unread: string)
    ensures ReadHeaders(headers, unread) == AfterNewline(headers, unread)
    decreases |unread|
  {
    var l := GetLine(unread, LF);
    if LF !in unread {
      AfterLastLine(headers, unread);
      if unread != "" {
        assert ReadHeaders(PutHeader(headers, unread), "") == HeaderBlock(PutHeader(headers, unread), "");
      }
    } else if l.line == "" {
      assert unread == [LF] + l.rest;
      AfterEmptyLine(headers, l.rest);
    } else {
      AfterLine(headers, l.line, l.rest, unread);
      HeadersAgree(PutHeader(headers, l.line), l.rest);
    }
  }

  lemma OneLineParsed(m: string)
    requires LF !in m && (m == "" || m[|m| - 1] != NUL)
    ensures ServerParse(m) == Some(LineParse(m))
  {
    BlankAtNoLine(m);
    assert m[..|m|] == m;
    assert JavaSplit(m, LF) == [m] && [m][1..] == [];
    assert AfterBlank(m) == "";
  }

  /** The split-based parser is the line-based one, on every message without a final NUL
      except the single newline, which it rejects. */
  lemma ServerParseIsLineParse(m: string)
    requires m == "" || m[|m| - 1] != NUL
    ensures ServerParse(m) == if m == [LF] then None else Some(LineParse(m))
  {
    if LF !in m {
      OneLineParsed(m);
    } else {
      hide BlankAt, JavaSplit, PutHeaders, ReadHeaders;
      var first := GetLine(m, LF);
      assert m == first.line + ([LF] + first.rest);
      HeadersAgree(map[], first.rest);
      LinesOfMessage(first.line, first.rest, m);
    }
  }

  lemma LinesOfMessage(c: string, u: string, m: string)
    requires LF !in c && m == c + ([LF] + u)
    ensures var lines := JavaSplit(m[..BlankAt(m)], LF);
            var block := AfterNewline(map[], u);
            && AfterBlank(m) == block.rest
            && if m == [LF] then lines == []
               else lines != [] && lines[0] == c && PutHeaders(map[], lines[1..]) == block.headers
  {
    var x := [LF] + u;
    HeadOfMessage(c, x, m);
    if BlankAt(x) == 0 {
      assert JavaSplit(c, LF) == [c] && [c][1..] == [];
    } else {
      LinesAfterCommand(c, u, m);
    }
  }

  /** The lines of a message whose header part extends beyond the command line `c`. */
  lemma LinesAfterCommand(c: string, u: string, m: string)
    requires LF !in c && m == c + ([LF] + u) && BlankAt([LF] + u) > 0
    ensures var lines := JavaSplit(m[..BlankAt(m)], LF);
            var rest := Split(([LF] + u)[1..BlankAt([LF] + u)], LF);
            if m == [LF] then lines == []
            else lines != [] && lines[0] == c && PutHeaders(map[], lines[1..]) == PutHeaders(map[], rest)
  {
    var x := [LF] + u;
    var j := BlankAt(x);
    HeadOfMessage(c, x, m);
    var head := m[..BlankAt(m)];
    var rest := Split(x[1..j], LF);
    SplitCons(c, x[1..j]);
    assert head[|c|] == LF;
    DropFirst(c, rest);
    if m == [LF] {
      assert c == "" && u == "";
      assert x[1..j] == "" && rest == [""];
      assert rest[..0] == [];
    } else {
      NotAllEmpty(c, u, j);
      TrailingEmptyIgnored(map[], rest);
      var kept := DropTrailingEmpty(rest);
      assert ([c] + kept)[1..] == kept;
    }
  }

  /** Dropping trailing empties reaches the head only when everything is empty. */
  lemma {:induction false} DropFirst(c: string, rest: seq<string>)
    ensures DropTrailingEmpty([c] + rest)
         == if c == "" && DropTrailingEmpty(rest) == [] then [] else [c] + DropTrailingEmpty(rest)
  {
    if rest == [] {
      assert [c][..0] == [] && [c] + rest == [c];
    } else {
      var all := [c] + rest;
      assert all[..|all| - 1] == [c] + rest[..|rest| - 1];
      if rest[|rest| - 1] == "" {
        DropFirst(c, rest[..|rest| - 1]);
      }
    }
  }

  /** Between the first newline and the blank line no two newlines are adjacent, so an empty
      command leaves a non-empty header line unless nothing follows. */
  lemma NotAllEmpty(c: string, u: string, j: nat)
    requires j == BlankAt([LF] + u) && j > 0 && !(c == "" && u == "")
    ensures !(c == "" && DropTrailingEmpty(Split(([LF] + u)[1..j], LF)) == [])
  {
    var x := [LF] + u;
    if c == "" {
      assert u[0] != LF;
      assert j > 1 by {
        assert x[1..] == u;
        if |u| == 1 { assert j == 1 + BlankAt(u); }
      }
      var hp := x[1..j];
      assert hp[0] == u[0];
      var parts := Split(hp, LF);
      assert parts[0] != "";
    }
  }

  lemma TwoParsersAgree(m: string)
    requires NUL !in m
    ensures ServerParse(m) == if m == [LF] then None else Some(ClientParse(m))
  {
    if m != "" { assert m[|m| - 1] in m; }
    ServerParseIsLineParse(m);
    LineParseKeepsChars(m);
  }

  lemma RestKeepsChars(unread: string, delimiter: char)
    requires NUL !in unread
    ensures NUL !in GetLine(unread, delimiter).rest
  {
  }

  lemma {:induction false} ReadHeadersKeepsChars(headers: map<string, string>, unread: string)
    requires NUL !in unread
    ensures NUL !in ReadHeaders(headers, unread).rest
    decreases |unread|
  {
    hide PutHeader;
    var l := GetLine(unread, LF);
    RestKeepsChars(unread, LF);
    if l.ok && l.line != "" {
      ReadHeadersKeepsChars(PutHeader(headers, l.line), l.rest);
    }
  }

  lemma LineParseKeepsChars(m: string)
    requires NUL !in m
    ensures NUL !in LineParse(m).body
  {
    RestKeepsChars(m, LF);
    ReadHeadersKeepsChars(map[], GetLine(m, LF).rest);
  }
}
