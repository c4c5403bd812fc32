/** An event's whole journey: report body, client print, server parse, MESSAGE print, client
    parse, event parse. */
module EventRelay {
  import opened Text
  import opened StompFrames
  import opened FrameRoundTrip
  import opened StompProtocols
  import Clients
  import opened Events
  import opened Keyboard

  /** What the receiver stores: the reporter as owner, no channel name, the description with
      exactly two newlines added, and the stray entry left by the description line. */
  function Received(user: string, e: Event): Event {
    Event("", e.city, e.name, e.dateTime, e.description + [LF, LF], e.info["escription" := ""], user)
  }

  /** The reader after the heading. */
  function AfterHeading(user: string, e: Event, unread: string): Reader {
    Reader(Event("", e.city, e.name, e.dateTime, "", map[], user), map[], true, unread)
  }

  lemma OnUser(r: Reader, val: string)
    requires !r.inInfo
    ensures OnPair(r, "user", val) == Some(r.(e := r.e.(owner := val)))
  {
  }

  lemma OnCity(r: Reader, val: string)
    requires !r.inInfo
    ensures OnPair(r, "city", val) == Some(r.(e := r.e.(city := val)))
  {
  }

  lemma OnName(r: Reader, val: string)
    requires !r.inInfo
    ensures OnPair(r, "event name", val) == Some(r.(e := r.e.(name := val)))
  {
  }

  lemma OnTime(r: Reader, n: int)
    requires !r.inInfo && IsInt32(n)
    ensures OnPair(r, "date time", Decimal(n)) == Some(r.(e := r.e.(dateTime := n)))
  {
    StoiOfDecimal(n);
  }

  lemma OnGeneralInformation(r: Reader)
    ensures OnPair(r, "general information", "") == Some(r.(inInfo := true))
  {
  }

  lemma ReadTo(r: Reader, key: string, val: string, rest: string, r': Reader)
    requires key != "" && ':' !in key && ':' !in val && LF !in key && LF !in val
    requires OnPair(r.(unread := rest), key, val) == Some(r')
    ensures ReadOn(r.(unread := Pair(key, val) + [LF] + rest)) == ReadOn(r')
  {
    ReadPair(r, key, val, rest);
  }

  lemma ReadUser(r: Reader, user: string, rest: string)
    requires OneLine(user) && !r.inInfo
    ensures ReadOn(r.(unread := Pair("user", user) + [LF] + rest)) == ReadOn(r.(e := r.e.(owner := user), unread := rest))
  {
    OnUser(r.(unread := rest), user);
    ReadTo(r, "user", user, rest, r.(e := r.e.(owner := user), unread := rest));
  }

  lemma ReadCity(r: Reader, city: string, rest: string)
    requires OneLine(city) && !r.inInfo
    ensures ReadOn(r.(unread := Pair("city", city) + [LF] + rest)) == ReadOn(r.(e := r.e.(city := city), unread := rest))
  {
    OnCity(r.(unread := rest), city);
    ReadTo(r, "city", city, rest, r.(e := r.e.(city := city), unread := rest));
  }

  lemma ReadName(r: Reader, name: string, rest: string)
    requires OneLine(name) && !r.inInfo
    ensures ReadOn(r.(unread := Pair("event name", name) + [LF] + rest)) == ReadOn(r.(e := r.e.(name := name), unread := rest))
  {
    OnName(r.(unread := rest), name);
    ReadTo(r, "event name", name, rest, r.(e := r.e.(name := name), unread := rest));
  }

  lemma ReadTime(r: Reader, n: int, rest: string)
    requires IsInt32(n) && !r.inInfo
    ensures ReadOn(r.(unread := Pair("date time", Decimal(n)) + [LF] + rest)) == ReadOn(r.(e := r.e.(dateTime := n), unread := rest))
  {
    OnTime(r.(unread := rest), n);
    ReadTo(r, "date time", Decimal(n), rest, r.(e := r.e.(dateTime := n), unread := rest));
  }

  lemma ReadGeneralInformation(r: Reader, rest: string)
    ensures ReadOn(r.(unread := Pair("general information", "") + [LF] + rest)) == ReadOn(r.(inInfo := true, unread := rest))
  {
    OnGeneralInformation(r.(unread := rest));
    ReadTo(r, "general information", "", rest, r.(inInfo := true, unread := rest));
  }

  lemma ReadHeading(user: string, e: Event, rest: string)
    requires Reportable(user, e)
    ensures ReadOn(Blank(Heading(user, e) + rest)) == ReadOn(AfterHeading(user, e, rest))
  {
    var t4 := Pair("general information", "") + [LF] + rest;
    var t3 := Pair("date time", Decimal(e.dateTime)) + [LF] + t4;
    var t2 := Pair("event name", e.name) + [LF] + t3;
    var t1 := Pair("city", e.city) + [LF] + t2;
    HeadingParts(user, e, rest);
    var r0 := Blank("");
    var r1 := r0.(e := r0.e.(owner := user));
    var r2 := r1.(e := r1.e.(city := e.city));
    var r3 := r2.(e := r2.e.(name := e.name));
    var r4 := r3.(e := r3.e.(dateTime := e.dateTime));
    calc {
      ReadOn(Blank(Heading(user, e) + rest));
      { ReadUser(r0, user, t1); }
      ReadOn(r1.(unread := t1));
      { ReadCity(r1, e.city, t2); }
      ReadOn(r2.(unread := t2));
      { ReadName(r2, e.name, t3); }
      ReadOn(r3.(unread := t3));
      { ReadTime(r3, e.dateTime, t4); }
      ReadOn(r4.(unread := t4));
      { ReadGeneralInformation(r4, rest); }
      ReadOn(AfterHeading(user, e, rest));
    }
  }

  lemma HeadingParts(user: string, e: Event, rest: string)
    ensures Heading(user, e) + rest
         == Pair("user", user) + [LF] + (Pair("city", e.city) + [LF] + (Pair("event name", e.name) + [LF]
            + (Pair("date time", Decimal(e.dateTime)) + [LF] + (Pair("general information", "") + [LF] + rest))))
  {
  }

  lemma OnDescription(r: Reader)
    requires r.inInfo && (r.unread == "" || r.unread[|r.unread| - 1] == LF)
    ensures OnPair(r, "description", "")
         == Some(r.(e := r.e.(description := r.unread), info := r.info["escription" := ""], unread := ""))
  {
    hide AllLines;
    AllLinesIs(r.unread);
    assert "description"[1..] == "escription";
  }

  lemma ReadDescription(r: Reader, text: string)
    requires r.inInfo && (text == "" || text[|text| - 1] == LF)
    ensures ReadOn(r.(unread := Pair("description", "") + [LF] + text))
         == Some(r.e.(description := text, info := r.info["escription" := ""]))
  {
    OnDescription(r.(unread := text));
    ReadTo(r, "description", "", text,
           r.(e := r.e.(description := text), info := r.info["escription" := ""], unread := ""));
  }

  /** Parsing a report body that gained one more newline on the way. */
  lemma ParseReport(user: string, e: Event, body: string)
    requires Reportable(user, e) && IsReport(body, user, e)
    ensures ParseEvent(body + [LF]) == Some(Received(user, e))
  {
    hide ReadOn, InfoLines, Heading, Pair;
    var order :| Enumerates(order, e.info) && body == Report(user, e, order);
    var text := e.description + [LF, LF];
    var tail := Pair("description", "") + [LF] + text;
    var rest := InfoLines(order, e.info) + tail;
    assert body + [LF] == Heading(user, e) + rest;
    ReadHeading(user, e, rest);
    var r := AfterHeading(user, e, rest);
    ReadInfo(r, order, e, tail);
    NotingAll(order, e.info);
    ReadDescription(r.(info := e.info), text);
  }

  /** One journey: `sent` is the client's text, `relayed` the server's, for the MESSAGE built
      from whatever the server parsed. */
  ghost predicate Journey(channel: string, body: string, sent: string, id: int, messageId: int, relayed: string, got: Option<Event>) {
    && IsClientText(sent, Clients.SendFrame(channel, body))
    && ServerParse(sent).Some?
    && relayed != ""
    && IsServerText(relayed, MessageFrame(channel, id, messageId, ServerParse(sent).value.body))
    && got == ParseEvent(ClientParse(relayed[..|relayed| - 1]).body)
  }

  lemma {:induction false} InfoLinesNulFree(order: seq<string>, info: map<string, string>)
    requires forall k :: k in order ==> k in info && NUL !in k && NUL !in info[k]
    ensures NUL !in InfoLines(order, info)
  {
    if order != [] {
      assert order[0] in order;
      InfoLinesNulFree(order[1..], info);
    }
  }

  ghost predicate NoNul(user: string, e: Event) {
    && NUL !in user && NUL !in e.city && NUL !in e.name && NUL !in e.description
    && forall k :: k in e.info ==> NUL !in k && NUL !in e.info[k]
  }

  lemma HeadingNulFree(user: string, e: Event)
    requires NoNul(user, e)
    ensures NUL !in Heading(user, e) && Heading(user, e) != ""
  {
  }

  lemma ReportNulFree(user: string, e: Event, body: string)
    requires NoNul(user, e) && IsReport(body, user, e)
    ensures NUL !in body && body != ""
  {
    var order :| Enumerates(order, e.info) && body == Report(user, e, order);
    hide InfoLines, Heading;
    InfoLinesNulFree(order, e.info);
    HeadingNulFree(user, e);
  }

  lemma SendPrintable(channel: string, body: string)
    requires LF !in channel
    ensures Printable(Clients.SendFrame(channel, body))
  {
  }

  lemma MessagePrintable(channel: string, id: int, messageId: int, body: string)
    requires LF !in channel
    ensures Printable(MessageFrame(channel, id, messageId, body))
  {
  }

  /** The body crosses both wires and gains one newline. */
  lemma BodyCrosses(channel: string, body: string, sent: string, id: int, messageId: int, relayed: string, got: Option<Event>)
    requires LF !in channel && NUL !in body && body != ""
    requires Journey(channel, body, sent, id, messageId, relayed, got)
    ensures got == ParseEvent(body + [LF])
  {
    SendPrintable(channel, body);
    ClientToServer(Clients.SendFrame(channel, body), sent);
    MessagePrintable(channel, id, messageId, body);
    ServerToClient(MessageFrame(channel, id, messageId, body), relayed);
  }

  /** Every body makes such a journey. */
  lemma SomeJourney(channel: string, body: string, id: int, messageId: int)
    returns (sent: string, relayed: string, got: Option<Event>)
    requires LF !in channel && NUL !in body
    ensures Journey(channel, body, sent, id, messageId, relayed, got)
  {
    sent := SomeClientText(Clients.SendFrame(channel, body));
    SendPrintable(channel, body);
    ClientToServer(Clients.SendFrame(channel, body), sent);
    hide ParseEvent, ClientParse, MessageFrame, Layout;
    relayed := SomeText(MessageFrame(channel, id, messageId, ServerParse(sent).value.body));
    got := ParseEvent(ClientParse(relayed[..|relayed| - 1]).body);
  }

  /** Whatever the header orders, the subscription id and the message id, a reported event
      arrives as the same user, city, name and time, the same information plus the stray
      entry, and the description plus two newlines. */
  lemma EventArrives(channel: string, user: string, e: Event, body: string, sent: string, id: int, messageId: int,
                     relayed: string, got: Option<Event>)
    requires LF !in channel && NoNul(user, e) && Reportable(user, e)
    requires IsReport(body, user, e) && Journey(channel, body, sent, id, messageId, relayed, got)
    ensures got == Some(Received(user, e))
  {
    ReportNulFree(user, e, body);
    BodyCrosses(channel, body, sent, id, messageId, relayed, got);
    ParseReport(user, e, body);
  }

  // ---------- and only reportable events arrive ----------

  ghost predicate TidyInfo(info: map<string, string>) {
    forall k :: k in info ==> OneLine(k) && OneLine(info[k])
  }

  ghost predicate Tidy(r: Reader) {
    OneLine(r.e.owner) && OneLine(r.e.city) && OneLine(r.e.name) && IsInt32(r.e.dateTime) && TidyInfo(r.info)
  }

  lemma {:induction false} StoiInRange(s: string)
    ensures Stoi(s).Some? ==> IsInt32(Stoi(s).value)
  {
    if s != "" && IsSpace(s[0]) { StoiInRange(s[1..]); }
  }

  lemma AssignedTidy(r: Reader, key: string, val: string)
    requires Tidy(r) && OneLine(val) && Assigned(r, key, val).Some? && (Stoi(val).Some? ==> IsInt32(Stoi(val).value))
    ensures Tidy(Assigned(r, key, val).value)
  {
    hide Stoi, OneLine, TidyInfo, AllLines, IsInt32;
  }

  lemma NotedTidy(r: Reader, key: string, val: string)
    requires Tidy(r) && key != "" && OneLine(key) && OneLine(val)
    ensures Tidy(Noted(r, key, val))
  {
    assert forall c :: c in key[1..] ==> c in key;
  }

  lemma OnPairTidy(r: Reader, key: string, val: string)
    requires Tidy(r) && key != "" && OneLine(key) && OneLine(val) && OnPair(r, key, val).Some?
    ensures Tidy(OnPair(r, key, val).value)
  {
    StoiInRange(val);
    AssignedTidy(r, key, val);
    if key != "general information" { NotedTidy(Assigned(r, key, val).value, key, val); }
  }

  lemma OnLineTidy(r: Reader, line: string)
    requires Tidy(r) && LF !in line && OnLine(r, line).Some?
    ensures Tidy(OnLine(r, line).value)
  {
    if ':' in line {
      var args := Tokens(line, ':');
      TokensFrom(line, ':', LF);
      assert args[0] in args;
      if |args| == 2 { assert args[1] in args; }
      OnPairTidy(r, args[0], if |args| == 2 then args[1] else "");
    }
  }

  lemma {:induction false} ReadOnTidy(r: Reader)
    requires Tidy(r) && ReadOn(r).Some?
    ensures var e := ReadOn(r).value;
            OneLine(e.owner) && OneLine(e.city) && OneLine(e.name) && IsInt32(e.dateTime) && TidyInfo(e.info)
    decreases |r.unread|
  {
    var l := GetLine(r.unread, LF);
    if l.ok {
      OnLineTidy(r.(unread := l.rest), l.line);
      ReadOnTidy(OnLine(r.(unread := l.rest), l.line).value);
    }
  }

  lemma ArrivedIsReportable(user: string, e: Event, text: string)
    requires "escription" !in e.info && ParseEvent(text) == Some(Received(user, e))
    ensures Reportable(user, e)
  {
    ReadOnTidy(Blank(text));
    var info := e.info["escription" := ""];
    forall k | k in e.info ensures OneLine(k) && OneLine(e.info[k]) {
      assert k in info && info[k] == e.info[k];
    }
  }

  /** A NUL-free event arrives as described if and only if its short fields, keys and values
      have no ':' and no newline and its time is an int.  (An entry under the stray key itself
      is overwritten, so events that have one are outside the "only if".) */
  lemma EventArrivesIff(channel: string, user: string, e: Event, body: string, sent: string, id: int, messageId: int,
                        relayed: string, got: Option<Event>)
    requires LF !in channel && NoNul(user, e)
    requires IsReport(body, user, e) && Journey(channel, body, sent, id, messageId, relayed, got)
    ensures Reportable(user, e) ==> got == Some(Received(user, e))
    ensures "escription" !in e.info && got == Some(Received(user, e)) ==> Reportable(user, e)
  {
    ReportNulFree(user, e, body);
    BodyCrosses(channel, body, sent, id, messageId, relayed, got);
    if Reportable(user, e) {
      ParseReport(user, e, body);
    }
    if "escription" !in e.info && got == Some(Received(user, e)) {
      ArrivedIsReportable(user, e, body + [LF]);
    }
  }
}
