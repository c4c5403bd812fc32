/** KeyboardInput::split_str: the non-empty tokens of a line. */
module Keyboard {
  import opened Text

  function Tokens(s: string, delimiter: char): (ts: seq<string>)
    ensures forall t :: t in ts ==> t != "" && delimiter !in t
    decreases |s|
  {
    var l := GetLine(s, delimiter);
    if !l.ok then [] else if l.line == "" then Tokens(l.rest, delimiter) else [l.line] + Tokens(l.rest, delimiter)
  }

  method SplitStr(str: string, delimiter: char) returns (result: seq<string>)
    ensures result == Tokens(str, delimiter)
  {
    result := [];
    var unread := str;
    while true
      invariant Tokens(str, delimiter) == result + Tokens(unread, delimiter)
      decreases |unread|
    {
      var l := GetLine(unread, delimiter);
      if !l.ok {
        return;
      }
      Append(result, l.line, Tokens(l.rest, delimiter));
      unread := l.rest;
      if l.line != "" {
        result := result + [l.line];
      }
    }
  }

  lemma Append(result: seq<string>, first: string, rest: seq<string>)
    ensures result + ([first] + rest) == (result + [first]) + rest
    ensures result + ([] + rest) == result + rest
  {
  }

  /** Tokens keep the characters of the line: what the line does not contain, they do not. */
  lemma {:induction false} TokensFrom(s: string, delimiter: char, c: char)
    requires c !in s
    ensures forall t :: t in Tokens(s, delimiter) ==> c !in t
    decreases |s|
  {
    var l := GetLine(s, delimiter);
    if l.ok && delimiter in s {
      assert forall i :: 0 <= i < |l.line| ==> l.line[i] == s[i];
      assert forall i :: 0 <= i < |l.rest| ==> l.rest[i] == s[|l.line| + 1 + i];
      TokensFrom(l.rest, delimiter, c);
    }
  }

  /** A key and a value separated by one delimiter. */
  lemma TokensOfPair(key: string, value: string, delimiter: char)
    requires key != "" && delimiter !in key && delimiter !in value
    ensures Tokens(key + [delimiter] + value, delimiter) == if value == "" then [key] else [key, value]
  {
    GetLineOf(key, delimiter, value);
    if value != "" {
      assert GetLine(value, delimiter) == Line(true, value, "");
      assert Tokens("", delimiter) == [];
    }
  }

  // ---------- what the tokens are ----------

  function NonEmpty(pieces: seq<string>): seq<string> {
    if pieces == [] then []
    else (if pieces[0] == "" then [] else [pieces[0]]) + NonEmpty(pieces[1..])
  }

  /** For every line: its tokens are its non-empty pieces, all of them, in order. */
  lemma {:induction false} TokensAreThePieces(s: string, delimiter: char)
    ensures Tokens(s, delimiter) == NonEmpty(Split(s, delimiter))
    decreases |s|
  {
    var i := IndexOf(s, delimiter);
    if i < |s| {
      var rest := s[i + 1..];
      TokensAreThePieces(rest, delimiter);
      assert GetLine(s, delimiter) == Line(true, s[..i], rest);
      assert Split(s, delimiter)[1..] == Split(rest, delimiter);
    } else if s != "" {
      assert GetLine(s, delimiter) == Line(true, s, "") && Tokens("", delimiter) == [];
      assert [s][1..] == [];
    }
  }

  function Join(pieces: seq<string>, delimiter: char): string {
    if pieces == [] then "" else if |pieces| == 1 then pieces[0]
    else pieces[0] + [delimiter] + Join(pieces[1..], delimiter)
  }

  /** The pieces joined again are the line: nothing is lost between them. */
  lemma {:induction false} SplitRejoins(s: string, delimiter: char)
    ensures Join(Split(s, delimiter), delimiter) == s
    decreases |s|
  {
    var i := IndexOf(s, delimiter);
    if i < |s| {
      var rest := s[i + 1..];
      SplitRejoins(rest, delimiter);
      assert Split(s, delimiter) == [s[..i]] + Split(rest, delimiter);
      hide Split, IndexOf, Join;
      JoinCons(s[..i], Split(rest, delimiter), delimiter);
      Reglue(s, i);
    }
  }

  lemma JoinCons(piece: string, pieces: seq<string>, delimiter: char)
    requires pieces != []
    ensures Join([piece] + pieces, delimiter) == piece + [delimiter] + Join(pieces, delimiter)
  {
    assert ([piece] + pieces)[1..] == pieces;
  }

  lemma Reglue(s: string, i: nat)
    requires i < |s|
    ensures s[..i] + [s[i]] + s[i + 1..] == s
  {
  }

  /** Non-empty tokens without the delimiter come back exactly. */
  lemma {:induction false} TokensOfJoin(tokens: seq<string>, delimiter: char)
    requires forall i :: 0 <= i < |tokens| ==> tokens[i] != "" && delimiter !in tokens[i]
    ensures Tokens(Join(tokens, delimiter), delimiter) == tokens
    decreases |tokens|
  {
    if |tokens| == 1 {
      assert GetLine(tokens[0], delimiter) == Line(true, tokens[0], "") && Tokens("", delimiter) == [];
    } else if |tokens| > 1 {
      TokensOfJoin(tokens[1..], delimiter);
      GetLineOf(tokens[0], delimiter, Join(tokens[1..], delimiter));
    }
  }

  /** The four words of a login, the two of a join: any words joined by blanks, however many blanks
      stand between, before or after them. */
  lemma {:induction false} BlanksDoNotMatter(pieces: seq<string>, delimiter: char)
    requires forall i :: 0 <= i < |pieces| ==> delimiter !in pieces[i]
    ensures Tokens(Join(pieces, delimiter), delimiter) == NonEmpty(pieces)
    decreases |pieces|
  {
    if |pieces| == 1 {
      assert Tokens("", delimiter) == [] && pieces[1..] == [];
      if pieces[0] != "" { assert GetLine(pieces[0], delimiter) == Line(true, pieces[0], ""); }
    } else if |pieces| > 1 {
      BlanksDoNotMatter(pieces[1..], delimiter);
      GetLineOf(pieces[0], delimiter, Join(pieces[1..], delimiter));
    }
  }
}
