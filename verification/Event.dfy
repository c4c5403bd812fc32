/** Emergency events: the report body the client prints (StompClient.cpp) and the parser that
    reads it back (event.cpp). */
module Events {
  import opened Text
  import opened StompFrames
  import opened Keyboard

  datatype Event = Event(channelName: string, city: string, name: string, dateTime: int, description: string,
                         info: map<string, string>, owner: string)

  // ---------- printing ----------

  function InfoLines(order: seq<string>, info: map<string, string>): string
    requires forall k :: k in order ==> k in info
  {
    if order == [] then "" else " " + order[0] + ":" + info[order[0]] + [LF] + InfoLines(order[1..], info)
  }

  lemma JoinThree(a: string, b: string, c: string)
    ensures a + (b + c) == (a + b) + c
  {
  }

  lemma {:induction false} InfoLinesSnoc(order: seq<string>, k: string, info: map<string, string>)
    requires k in info && forall x :: x in order ==> x in info
    ensures InfoLines(order + [k], info) == InfoLines(order, info) + (" " + k + ":" + info[k] + [LF])
  {
    if order == [] {
      assert [k][1..] == [];
    } else {
      InfoLinesSnoc(order[1..], k, info);
      assert (order + [k])[1..] == order[1..] + [k];
      JoinThree(" " + order[0] + ":" + info[order[0]] + [LF], InfoLines(order[1..], info), " " + k + ":" + info[k] + [LF]);
    }
  }

  function Pair(key: string, value: string): string {
    key + ":" + value
  }

  /** The lines up to "general information:". */
  function Heading(user: string, e: Event): string {
    Pair("user", user) + [LF] + (Pair("city", e.city) + [LF] + (Pair("event name", e.name) + [LF]
    + (Pair("date time", Decimal(e.dateTime)) + [LF] + (Pair("general information", "") + [LF]))))
  }

  /** `body` is what the report command sends for `e`, in some order of the information. */
  ghost predicate IsReport(body: string, user: string, e: Event) {
    exists order :: Enumerates(order, e.info) && body == Report(user, e, order)
  }

  function Report(user: string, e: Event, order: seq<string>): string
    requires forall k :: k in order ==> k in e.info
  {
    Heading(user, e) + InfoLines(order, e.info) + (Pair("description", "") + [LF] + e.description + [LF])
  }

  method PrintReport(user: string, e: Event) returns (body: string)
    ensures IsReport(body, user, e)
  {
    body := Heading(user, e);
    var order := [];
    var left := e.info.Keys;
    while left != {}
      invariant left <= e.info.Keys
      invariant forall k :: k in order <==> k in e.info && k !in left
      invariant forall i, j :: 0 <= i < j < |order| ==> order[i] != order[j]
      invariant body == Heading(user, e) + InfoLines(order, e.info)
      decreases left
    {
      var k :| k in left;
      body := body + (" " + k + ":" + e.info[k] + [LF]);
      InfoLinesSnoc(order, k, e.info);
      order := order + [k];
      left := left - {k};
    }
    body := body + (Pair("description", "") + [LF] + e.description + [LF]);
    assert Enumerates(order, e.info) && body == Report(user, e, order);
  }

  // ---------- parsing ----------

  /** The parser between two lines: the event so far, the information collected so far, whether
      it has passed "general information", and what is still unread. */
  datatype Reader = Reader(e: Event, info: map<string, string>, inInfo: bool, unread: string)

  function AllLines(unread: string): string
    decreases |unread|
  {
    var l := GetLine(unread, LF);
    if l.ok then l.line + [LF] + AllLines(l.rest) else ""
  }

  /** The information map gains the key without its first character. */
  function Noted(r: Reader, key: string, val: string): Reader
    requires key != ""
  {
    if r.inInfo then r.(info := r.info[key[1..] := val]) else r
  }

  /** The field a key assigns, if any; `None` stands for the exception std::stoi throws. */
  function Assigned(r: Reader, key: string, val: string): (q: Option<Reader>)
    ensures q.Some? ==> |q.value.unread| <= |r.unread|
  {
    if key == "user" then Some(r.(e := r.e.(owner := val)))
    else if key == "channel name" then Some(r.(e := r.e.(channelName := val)))
    else if key == "city" then Some(r.(e := r.e.(city := val)))
    else if key == "event name" then Some(r.(e := r.e.(name := val)))
    else if key == "date time" then
      if Stoi(val).None? then None else Some(r.(e := r.e.(dateTime := Stoi(val).value)))
    else if key == "description" then
      Some(r.(e := r.e.(description := AllLines(r.unread)), unread := ""))
    else Some(r)
  }

  /** One line that has a ':'. */
  function OnPair(r: Reader, key: string, val: string): (q: Option<Reader>)
    requires key != ""
    ensures q.Some? ==> |q.value.unread| <= |r.unread|
  {
    if key == "general information" then Some(r.(inInfo := true))
    else
      var q := Assigned(r, key, val);
      if q.None? then None else Some(Noted(q.value, key, val))
  }

  /** `None` also stands for the exception vector::at throws on a line of colons only. */
  function OnLine(r: Reader, line: string): (q: Option<Reader>)
    ensures q.Some? ==> |q.value.unread| <= |r.unread|
  {
    if ':' !in line then Some(r)
    else
      var args := Tokens(line, ':');
      if args == [] then None
      else
        assert args[0] in args;
        OnPair(r, args[0], if |args| == 2 then args[1] else "")
  }

  function ReadOn(r: Reader): Option<Event>
    decreases |r.unread|
  {
    var l := GetLine(r.unread, LF);
    if !l.ok then Some(r.e.(info := r.info))
    else
      var q := OnLine(r.(unread := l.rest), l.line);
      if q.None? then None else ReadOn(q.value)
  }

  function Blank(body: string): Reader {
    Reader(Event("", "", "", 0, "", map[], ""), map[], false, body)
  }

  function ParseEvent(body: string): Option<Event> {
    ReadOn(Blank(body))
  }

  /** The parsing constructor Event(frame_body); `None` means that it throws. */
  method EventFromBody(body: string) returns (e: Option<Event>)
    ensures e == ParseEvent(body)
  {
    var r := Blank(body);
    while true
      invariant ParseEvent(body) == ReadOn(r)
      decreases |r.unread|
    {
      var l := GetLine(r.unread, LF);
      if !l.ok {
        return Some(r.e.(info := r.info));
      }
      r := r.(unread := l.rest);
      if ':' in l.line {
        var args := SplitStr(l.line, ':');
        if args == [] {
          return None;
        }
        assert args[0] in args;
        var key := args[0];
        var val := if |args| == 2 then args[1] else "";
        if key == "general information" {
          r := r.(inInfo := true);
          continue;
        }
        var q := AssignField(r, key, val);
        if q.None? {
          return None;
        }
        r := q.value;
        if r.inInfo {
          r := r.(info := r.info[key[1..] := val]);
        }
      }
    }
  }

  /** The chain of field assignments for one key. */
  method AssignField(r: Reader, key: string, val: string) returns (q: Option<Reader>)
    ensures q == Assigned(r, key, val)
  {
    var e, unread := r.e, r.unread;
    if key == "user" {
      e := e.(owner := val);
    }
    if key == "channel name" {
      e := e.(channelName := val);
    }
    if key == "city" {
      e := e.(city := val);
    } else if key == "event name" {
      e := e.(name := val);
    } else if key == "date time" {
      var n := Stoi(val);
      if n.None? {
        return None;
      }
      e := e.(dateTime := n.value);
    } else if key == "description" {
      var text := ReadRest(unread);
      e, unread := e.(description := text), "";
    }
    return Some(r.(e := e, unread := unread));
  }

  lemma AllLinesStep(text: string, left: string)
    ensures var l := GetLine(left, LF);
            text + AllLines(left) == if l.ok then (text + (l.line + [LF])) + AllLines(l.rest) else text
  {
    hide GetLine;
    var l := GetLine(left, LF);
    if l.ok { JoinThree(text, l.line + [LF], AllLines(l.rest)); }
  }

  method ReadRest(unread: string) returns (text: string)
    ensures text == AllLines(unread)
  {
    hide AllLines, GetLine;
    text := "";
    var left := unread;
    assert text + AllLines(left) == AllLines(left);
    while true
      invariant AllLines(unread) == text + AllLines(left)
      decreases |left|
    {
      var l := GetLine(left, LF);
      AllLinesStep(text, left);
      if !l.ok {
        return;
      }
      text := text + (l.line + [LF]);
      left := l.rest;
    }
  }

  // ---------- what a report becomes ----------

  lemma ReadLine(r: Reader, line: string, rest: string)
    requires LF !in line
    ensures var q := OnLine(r.(unread := rest), line);
            ReadOn(r.(unread := line + [LF] + rest)) == if q.None? then None else ReadOn(q.value)
  {
    GetLineOf(line, LF, rest);
  }

  lemma OnLineOfPair(r: Reader, key: string, val: string)
    requires key != "" && ':' !in key && ':' !in val
    ensures OnLine(r, Pair(key, val)) == OnPair(r, key, val)
  {
    TokensOfPair(key, val, ':');
    assert Pair(key, val)[|key|] == ':';
  }

  /** One printed line read back. */
  lemma ReadPair(r: Reader, key: string, val: string, rest: string)
    requires key != "" && ':' !in key && ':' !in val && LF !in key && LF !in val
    ensures var q := OnPair(r.(unread := rest), key, val);
            ReadOn(r.(unread := Pair(key, val) + [LF] + rest)) == if q.None? then None else ReadOn(q.value)
  {
    ReadLine(r, Pair(key, val), rest);
    OnLineOfPair(r.(unread := rest), key, val);
  }

  ghost predicate OneLine(s: string) {
    ':' !in s && LF !in s
  }

  /** What the report format can carry. */
  ghost predicate Reportable(user: string, e: Event) {
    && OneLine(user) && OneLine(e.city) && OneLine(e.name) && IsInt32(e.dateTime)
    && forall k :: k in e.info ==> OneLine(k) && OneLine(e.info[k])
  }

  /** `info` extended with the listed entries. */
  ghost function Noting(info: map<string, string>, order: seq<string>, all: map<string, string>): map<string, string>
    requires forall k :: k in order ==> k in all
  {
    map k | k in info.Keys + (set x | x in order) :: if k in order then all[k] else info[k]
  }

  lemma NotingStep(info: map<string, string>, order: seq<string>, all: map<string, string>)
    requires order != [] && forall k :: k in order ==> k in all
    ensures Noting(info[order[0] := all[order[0]]], order[1..], all) == Noting(info, order, all)
  {
    assert forall x :: x in order <==> x == order[0] || x in order[1..];
  }

  lemma NotingAll(order: seq<string>, all: map<string, string>)
    requires Enumerates(order, all)
    ensures Noting(map[], order, all) == all
  {
  }

  lemma OnInfo(r: Reader, k: string, val: string)
    requires r.inInfo
    ensures OnPair(r, " " + k, val) == Some(r.(info := r.info[k := val]))
  {
    var key := " " + k;
    assert key[0] == ' ' && key[1..] == k;
  }

  lemma InfoStep(order: seq<string>, info: map<string, string>, tail: string)
    requires order != [] && forall k :: k in order ==> k in info
    ensures InfoLines(order, info) + tail
         == Pair(" " + order[0], info[order[0]]) + [LF] + (InfoLines(order[1..], info) + tail)
  {
  }

  lemma {:induction false} ReadInfo(r: Reader, order: seq<string>, e: Event, tail: string)
    requires r.inInfo && forall k :: k in order ==> k in e.info && OneLine(k) && OneLine(e.info[k])
    ensures ReadOn(r.(unread := InfoLines(order, e.info) + tail))
         == ReadOn(r.(info := Noting(r.info, order, e.info), unread := tail))
    decreases |order|
  {
    if order == [] {
      assert InfoLines(order, e.info) + tail == tail;
      assert Noting(r.info, order, e.info) == r.info;
    } else {
      var k := order[0];
      assert k in order;
      InfoStep(order, e.info, tail);
      var rest := InfoLines(order[1..], e.info) + tail;
      ReadPair(r, " " + k, e.info[k], rest);
      OnInfo(r.(unread := rest), k, e.info[k]);
      ReadInfo(r.(info := r.info[k := e.info[k]]), order[1..], e, tail);
      NotingStep(r.info, order, e.info);
    }
  }

  /** Reading whole lines reproduces a text that ends with a newline. */
  lemma {:induction false} AllLinesIs(t: string)
    requires t == "" || t[|t| - 1] == LF
    ensures AllLines(t) == t
    decreases |t|
  {
    var l := GetLine(t, LF);
    if l.ok {
      assert LF in t;
      if l.rest != "" { assert l.rest[|l.rest| - 1] == t[|t| - 1]; }
      AllLinesIs(l.rest);
    }
  }

  /** The rest of a text that does not end with a newline gains one. */
  lemma {:induction false} AllLinesUnterminated(t: string)
    requires t != "" && t[|t| - 1] != LF
    ensures AllLines(t) == t + [LF]
    decreases |t|
  {
    var l := GetLine(t, LF);
    assert AllLines("") == "";
    assert AllLines(t) == l.line + [LF] + AllLines(l.rest);
    hide GetLine, AllLines;
    if LF in t {
      LastNewline(t, l.line, l.rest);
      AllLinesUnterminated(l.rest);
    }
  }

  lemma LastNewline(t: string, line: string, rest: string)
    requires t != "" && t[|t| - 1] != LF && t == line + [LF] + rest
    ensures rest != "" && rest[|rest| - 1] != LF
    ensures line + [LF] + (rest + [LF]) == t + [LF]
  {
    assert t[|line|] == LF;
    if rest != "" { assert t[|line| + |rest|] == rest[|rest| - 1]; }
  }

  // ---------- what one line does ----------

  /** A line without a ':' is skipped; of any other the non-empty pieces count: none is an
      exception, two are a key and its value, and any other number a key with the empty value. */
  lemma LineMeaning(r: Reader, line: string)
    ensures var pieces := NonEmpty(Split(line, ':'));
            && (':' !in line ==> OnLine(r, line) == Some(r))
            && (':' in line && pieces == [] ==> OnLine(r, line).None?)
            && (':' in line && pieces != [] ==> pieces[0] != "")
            && (':' in line && |pieces| == 2 ==> pieces[0] != "" && OnLine(r, line) == OnPair(r, pieces[0], pieces[1]))
            && (':' in line && pieces != [] && |pieces| != 2 ==> pieces[0] != "" && OnLine(r, line) == OnPair(r, pieces[0], ""))
  {
    TokensAreThePieces(line, ':');
    if Tokens(line, ':') != [] { assert Tokens(line, ':')[0] in Tokens(line, ':'); }
  }

  /** A value that contains a ':' is lost. */
  lemma ValueWithColonIsLost(r: Reader, tokens: seq<string>)
    requires |tokens| >= 3 && forall i :: 0 <= i < |tokens| ==> tokens[i] != "" && ':' !in tokens[i]
    ensures OnLine(r, Join(tokens, ':')) == OnPair(r, tokens[0], "")
  {
    TokensOfJoin(tokens, ':');
    JoinHasDelimiter(tokens, ':');
  }

  lemma JoinHasDelimiter(pieces: seq<string>, delimiter: char)
    requires |pieces| >= 2
    ensures delimiter in Join(pieces, delimiter)
  {
    assert Join(pieces, delimiter)[|pieces[0]|] == delimiter;
  }

  /** The six fields by name, each assigned from its own line; a time that is no int is the only
      value that throws. */
  lemma FieldsByName(r: Reader, val: string)
    ensures Assigned(r, "user", val) == Some(r.(e := r.e.(owner := val)))
    ensures Assigned(r, "channel name", val) == Some(r.(e := r.e.(channelName := val)))
    ensures Assigned(r, "city", val) == Some(r.(e := r.e.(city := val)))
    ensures Assigned(r, "event name", val) == Some(r.(e := r.e.(name := val)))
    ensures Assigned(r, "date time", val) == match Stoi(val) case None => None case Some(n) => Some(r.(e := r.e.(dateTime := n)))
    ensures Assigned(r, "description", val) == Some(r.(e := r.e.(description := AllLines(r.unread)), unread := ""))
  {
    hide Stoi, AllLines;
  }

  lemma OtherKeysAssignNothing(r: Reader, key: string, val: string)
    requires key !in {"user", "channel name", "city", "event name", "date time", "description"}
    ensures Assigned(r, key, val) == Some(r)
  {
    hide Stoi, AllLines;
  }

  /** Past "general information" every further line is also an entry, its key without the first
      character. */
  lemma InfoMeaning(r: Reader, key: string, val: string)
    requires key != ""
    ensures key == "general information" ==> OnPair(r, key, val) == Some(r.(inInfo := true))
    ensures OnPair(r, key, val).None? <==> key == "date time" && Stoi(val).None?
    ensures key != "general information" && OnPair(r, key, val).Some? ==>
              OnPair(r, key, val).value.info == if r.inInfo then r.info[key[1..] := val] else r.info
  {
    hide Stoi, AllLines;
  }
}
