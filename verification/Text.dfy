/** Character-level library behaviour the two programs rely on: searching, Java's `split`,
    C++'s `getline` and decimal integers.  Strings are sequences of ASCII characters, and a
    byte is the character it decodes to. */
module Text {

  datatype Option<+T> = None | Some(value: T)

  const NUL: char := '\0'
  const LF: char := '\n'

  /** Position of the first `c` in `s`, or `|s|` when there is none. */
  function IndexOf(s: string, c: char): (i: nat)
    ensures i <= |s| && c !in s[..i]
    ensures i < |s| ==> s[i] == c
    ensures i == |s| <==> c !in s
  {
    if s == "" then 0
    else if s[0] == c then 0
    else
      var j := IndexOf(s[1..], c);
      assert s[..1 + j] == [s[0]] + s[1..][..j];
      1 + j
  }

  lemma {:induction false} IndexOfIs(s: string, c: char, i: nat)
    requires i <= |s| && c !in s[..i]
    requires i < |s| ==> s[i] == c
    ensures IndexOf(s, c) == i
  {
    if i > 0 {
      assert s[..i][0] == s[0] && s[1..][..i - 1] == s[..i][1..];
      IndexOfIs(s[1..], c, i - 1);
    }
  }

  lemma SliceSnoc<T>(s: seq<T>, i: nat, j: nat)
    requires i <= j < |s|
    ensures s[i..j + 1] == s[i..j] + [s[j]]
  {
  }

  /** The first `c` of `a + [c] + b`, when `a` has none, is right after `a`. */
  lemma IndexOfAfter(a: string, c: char, b: string)
    requires c !in a
    ensures IndexOf(a + [c] + b, c) == |a|
  {
    assert (a + [c] + b)[..|a|] == a;
    IndexOfIs(a + [c] + b, c, |a|);
  }

  /** What one `std::getline` extracts from the unread part of a stream: `ok` is false exactly
      at the end of the stream. */
  datatype Line = Line(ok: bool, line: string, rest: string)

  function GetLine(unread: string, delimiter: char): (r: Line)
    ensures r.ok <==> unread != ""
    ensures delimiter !in r.line
    ensures r.ok ==> |r.rest| < |unread|
    ensures r.ok ==> (delimiter in unread <==> unread == r.line + [delimiter] + r.rest)
    ensures delimiter !in unread ==> r.line == unread && r.rest == ""
  {
    var i := IndexOf(unread, delimiter);
    if i < |unread| then
      assert unread == unread[..i] + [delimiter] + unread[i + 1..];
      Line(true, unread[..i], unread[i + 1..])
    else
      assert delimiter !in unread && unread[..i] == unread;
      Line(unread != "", unread, "")
  }

  lemma GetLineOf(line: string, delimiter: char, rest: string)
    requires delimiter !in line
    ensures GetLine(line + [delimiter] + rest, delimiter) == Line(true, line, rest)
  {
    IndexOfAfter(line, delimiter, rest);
    var s := line + [delimiter] + rest;
    assert s[..|line|] == line && s[|line| + 1..] == rest;
  }

  /** All pieces between occurrences of `c`, empty ones included. */
  function Split(s: string, c: char): (parts: seq<string>)
    ensures parts != []
    ensures forall p :: p in parts ==> c !in p
    decreases |s|
  {
    var i := IndexOf(s, c);
    if i < |s| then [s[..i]] + Split(s[i + 1..], c) else [s]
  }

  function DropTrailingEmpty(parts: seq<string>): (r: seq<string>)
    ensures r <= parts
    ensures r != [] ==> r[|r| - 1] != ""
    ensures forall i :: |r| <= i < |parts| ==> parts[i] == ""
  {
    if parts == [] || parts[|parts| - 1] != "" then parts
    else DropTrailingEmpty(parts[..|parts| - 1])
  }

  /** Java's `s.split(c)`: trailing empty pieces are dropped, but a string without `c` is
      returned whole. */
  function JavaSplit(s: string, c: char): (parts: seq<string>)
    ensures forall p :: p in parts ==> c !in p
  {
    if c !in s then [s] else DropTrailingEmpty(Split(s, c))
  }

  /** Decimal digits of a natural number, as `std::to_string` and `String.valueOf` print them. */
  function Digits(n: nat): (s: string)
    ensures s != "" && AllDigits(s)
  {
    if n < 10 then [Digit(n)] else Digits(n / 10) + [Digit(n % 10)]
  }

  function Digit(d: nat): (c: char)
    requires d < 10
    ensures '0' <= c <= '9' && DigitValue(c) == d
  {
    '0' + d as char
  }

  function DigitValue(c: char): nat
    requires '0' <= c <= '9'
  {
    c as nat - '0' as nat
  }

  predicate AllDigits(s: string) {
    forall i :: 0 <= i < |s| ==> '0' <= s[i] <= '9'
  }

  function Value(s: string): nat
    requires AllDigits(s)
  {
    if s == "" then 0 else Value(s[..|s| - 1]) * 10 + DigitValue(s[|s| - 1])
  }

  lemma {:induction false} ValueOfDigits(n: nat)
    ensures Value(Digits(n)) == n
  {
    if n >= 10 {
      ValueOfDigits(n / 10);
      var s := Digits(n);
      assert s[..|s| - 1] == Digits(n / 10);
    }
  }

  /** No leading zero is printed. */
  lemma {:induction false} DigitsAreShortest(n: nat)
    ensures Digits(n)[0] == '0' ==> Digits(n) == "0"
  {
    if n >= 10 {
      DigitsAreShortest(n / 10);
      ValueOfDigits(n / 10);
      assert Digits(n)[0] == Digits(n / 10)[0];
      assert "0"[..0] == "" && Value("0") == 0;
    } else {
      assert Digits(n) == [Digit(n)];
    }
  }

  predicate IsInt32(n: int) {
    -0x8000_0000 <= n < 0x8000_0000
  }

  function Decimal(n: int): (s: string)
    ensures s != "" && LF !in s && NUL !in s && ':' !in s
  {
    if n < 0 then ['-'] + Digits(-n) else Digits(n)
  }

  /** `Integer.parseInt`: an optional sign and at least one digit, nothing else, in range;
      `None` stands for NumberFormatException. */
  function ParseInt(s: string): Option<int> {
    var signed := s != "" && (s[0] == '-' || s[0] == '+');
    var digits := if signed then s[1..] else s;
    if digits == "" || !AllDigits(digits) then None
    else
      var n: int := if signed && s[0] == '-' then -(Value(digits) as int) else Value(digits);
      if IsInt32(n) then Some(n) else None
  }

  lemma ParseIntOfDecimal(n: int)
    requires IsInt32(n)
    ensures ParseInt(Decimal(n)) == Some(n)
  {
    ValueOfDigits(if n < 0 then -n else n);
    var s := Decimal(n);
    if n < 0 {
      assert s[1..] == Digits(-n);
    } else {
      assert s[0] in s;
    }
  }

  predicate IsSpace(c: char) {
    c == ' ' || c == '\t' || c == '\n' || c == '\r' || c == (11 as char) || c == (12 as char)
  }

  /** Length of the longest all-digit prefix. */
  function DigitRun(s: string): (k: nat)
    ensures k <= |s| && AllDigits(s[..k])
    ensures k < |s| ==> !('0' <= s[k] <= '9')
  {
    if s == "" || !('0' <= s[0] <= '9') then 0
    else
      var k := DigitRun(s[1..]);
      assert s[..1 + k] == [s[0]] + s[1..][..k];
      1 + k
  }

  /** `std::stoi`: leading blanks, an optional sign and a run of digits; what follows is
      ignored.  `None` stands for invalid_argument and out_of_range. */
  function Stoi(s: string): Option<int> {
    if s != "" && IsSpace(s[0]) then Stoi(s[1..])
    else if s != "" && s[0] == '-' then LeadingInt(s[1..], -1)
    else if s != "" && s[0] == '+' then LeadingInt(s[1..], 1)
    else LeadingInt(s, 1)
  }

  function LeadingInt(s: string, sign: int): Option<int> {
    var k := DigitRun(s);
    if k > 0 && IsInt32(sign * Value(s[..k])) then Some(sign * Value(s[..k])) else None
  }

  lemma LeadingIntOfDigits(n: nat, sign: int)
    requires IsInt32(sign * n)
    ensures LeadingInt(Digits(n), sign) == Some(sign * n)
  {
    ValueOfDigits(n);
    var s := Digits(n);
    assert DigitRun(s) == |s| && s[..|s|] == s;
  }

  lemma StoiOfDecimal(n: int)
    requires IsInt32(n)
    ensures Stoi(Decimal(n)) == Some(n)
  {
    var s := Decimal(n);
    if n < 0 {
      assert s[1..] == Digits(-n);
      LeadingIntOfDigits(-n, -1);
    } else {
      assert '0' <= s[0] <= '9';
      LeadingIntOfDigits(n, 1);
    }
  }

  // ---------- exactly what the two integer parsers accept ----------

  function Signed(sign: string, n: nat): int {
    if sign == "-" then -(n as int) else n
  }

  predicate IsSign(sign: string) {
    sign == "" || sign == "+" || sign == "-"
  }

  lemma ParseIntMeaning(sign: string, digits: string)
    requires IsSign(sign) && digits != "" && AllDigits(digits)
    ensures ParseInt(sign + digits) == if IsInt32(Signed(sign, Value(digits))) then Some(Signed(sign, Value(digits))) else None
  {
    var s := sign + digits;
    if sign == "" {
      assert s == digits;
    } else {
      assert s[0] == sign[0] && s[1..] == digits;
    }
  }

  /** Nothing else parses. */
  lemma ParseIntOnlyDigits(s: string) returns (sign: string, digits: string)
    ensures ParseInt(s).Some? ==> IsSign(sign) && digits != "" && AllDigits(digits) && s == sign + digits
  {
    if s != "" && (s[0] == '-' || s[0] == '+') {
      sign, digits := [s[0]], s[1..];
    } else {
      sign, digits := "", s;
    }
  }

  /** Leading zeros do not count. */
  lemma {:induction false} ValueOfZeros(s: string)
    requires AllDigits(s)
    ensures AllDigits("0" + s) && Value("0" + s) == Value(s)
  {
    if s == "" {
      assert "0" + s == "0" && "0"[..0] == "" && Value("") == 0;
    } else {
      var n := |s| - 1;
      ValueOfZeros(s[..n]);
      assert ("0" + s)[..n + 1] == "0" + s[..n];
    }
  }

  lemma {:induction false} DigitRunIs(digits: string, rest: string)
    requires AllDigits(digits) && (rest == "" || !('0' <= rest[0] <= '9'))
    ensures DigitRun(digits + rest) == |digits|
    decreases |digits|
  {
    if digits == "" {
      assert digits + rest == rest;
    } else {
      assert (digits + rest)[1..] == digits[1..] + rest;
      DigitRunIs(digits[1..], rest);
    }
  }

  lemma LeadingIntMeaning(digits: string, rest: string, sign: int)
    requires AllDigits(digits) && (rest == "" || !('0' <= rest[0] <= '9'))
    ensures LeadingInt(digits + rest, sign)
         == if digits != "" && IsInt32(sign * Value(digits)) then Some(sign * Value(digits)) else None
  {
    hide Value;
    DigitRunIs(digits, rest);
    assert (digits + rest)[..|digits|] == digits;
  }

  /** What may stand after the blanks and the sign. */
  predicate Unread(sign: string, digits: string, rest: string) {
    && IsSign(sign) && AllDigits(digits) && (rest == "" || !('0' <= rest[0] <= '9'))
    && (sign == "" && digits == "" && rest != "" ==> !IsSpace(rest[0]) && rest[0] != '-' && rest[0] != '+')
  }

  lemma StoiAtSign(s: string)
    requires s == "" || !IsSpace(s[0])
    ensures Stoi(s) == if s != "" && s[0] == '-' then LeadingInt(s[1..], -1)
                       else if s != "" && s[0] == '+' then LeadingInt(s[1..], 1) else LeadingInt(s, 1)
  {
    hide LeadingInt;
  }

  lemma StoiSigned(sign: string, digits: string, rest: string)
    requires Unread(sign, digits, rest)
    ensures var n := Signed(sign, Value(digits));
            Stoi(sign + (digits + rest)) == if digits != "" && IsInt32(n) then Some(n) else None
  {
    hide LeadingInt, DigitRun, Value, Stoi;
    var t := digits + rest;
    LeadingIntMeaning(digits, rest, if sign == "-" then -1 else 1);
    if sign == "" {
      NothingBefore(digits, rest);
      StoiAtSign(t);
    } else {
      assert (sign + t)[0] == sign[0] && (sign + t)[1..] == t;
      StoiAtSign(sign + t);
    }
  }

  lemma NothingBefore(digits: string, rest: string)
    requires Unread("", digits, rest)
    ensures "" + (digits + rest) == digits + rest
    ensures var t := digits + rest; t != "" ==> !IsSpace(t[0]) && t[0] != '-' && t[0] != '+'
  {
    if digits != "" { assert (digits + rest)[0] == digits[0]; } else { assert digits + rest == rest; }
  }

  /** Blanks, a sign, a run of digits, and anything that does not go on with a digit. */
  lemma {:induction false} StoiMeaning(blanks: string, sign: string, digits: string, rest: string)
    requires Unread(sign, digits, rest) && forall i :: 0 <= i < |blanks| ==> IsSpace(blanks[i])
    ensures var n := Signed(sign, Value(digits));
            Stoi(blanks + (sign + (digits + rest))) == if digits != "" && IsInt32(n) then Some(n) else None
    decreases |blanks|
  {
    hide Unread, LeadingInt, Value;
    var tail := sign + (digits + rest);
    if blanks == "" {
      assert blanks + tail == tail;
      StoiSigned(sign, digits, rest);
    } else {
      assert (blanks + tail)[0] == blanks[0] && (blanks + tail)[1..] == blanks[1..] + tail;
      StoiMeaning(blanks[1..], sign, digits, rest);
    }
  }
}
