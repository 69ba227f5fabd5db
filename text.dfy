// The Python string operations the plugins use: `sep.join(parts)`,
// `s.replace(c, '')`, `str(int)`, `str(bool)` and `int(s)` on a string.
module Text {

  /** `sep.join(parts)`. */
  function Join(sep: string, parts: seq<string>): (r: string)
    ensures |parts| == 1 ==> r == parts[0]
  {
    if |parts| == 0 then ""
    else if |parts| == 1 then parts[0]
    else parts[0] + sep + Join(sep, parts[1..])
  }

  /** Joining one more part adds the separator and the part at the end. */
  lemma {:induction false} JoinAppend(sep: string, parts: seq<string>, p: string)
    requires |parts| >= 1
    ensures Join(sep, parts + [p]) == Join(sep, parts) + sep + p
    decreases |parts|
  {
    var all := parts + [p];
    assert all[1..] == parts[1..] + [p];
    if |parts| > 1 {
      JoinAppend(sep, parts[1..], p);
    }
  }

  /** `s.split(c)`: the pieces between occurrences of c, always at least one. */
  function Split(s: string, c: char): (r: seq<string>)
    ensures |r| >= 1
  {
    if s == [] then [""]
    else
      var rest := Split(s[1..], c);
      if s[0] == c then [""] + rest else [[s[0]] + rest[0]] + rest[1..]
  }

  lemma {:induction false} SplitNoSeparator(a: string, c: char)
    requires c !in a
    ensures Split(a, c) == [a]
  {
    if a != [] {
      SplitNoSeparator(a[1..], c);
      assert [a[0]] + a[1..] == a;
    }
  }

  lemma {:induction false} SplitAtSeparator(a: string, b: string, c: char)
    requires c !in a
    ensures Split(a + [c] + b, c) == [a] + Split(b, c)
  {
    var s := a + [c] + b;
    if a == [] {
      assert s[0] == c && s[1..] == b;
    } else {
      assert s[0] == a[0] && s[1..] == a[1..] + [c] + b;
      SplitAtSeparator(a[1..], b, c);
      assert [a[0]] + a[1..] == a;
    }
  }

  /** Splitting a join on its one-character separator gives the parts back when no part holds it. */
  lemma {:induction false} SplitJoin(parts: seq<string>, c: char)
    requires |parts| >= 1
    requires forall i :: 0 <= i < |parts| ==> c !in parts[i]
    ensures Split(Join([c], parts), c) == parts
    decreases |parts|
  {
    if |parts| == 1 {
      SplitNoSeparator(parts[0], c);
    } else {
      SplitAtSeparator(parts[0], Join([c], parts[1..]), c);
      SplitJoin(parts[1..], c);
      assert [parts[0]] + parts[1..] == parts;
    }
  }

  /** `s.replace(c, '')`: every occurrence of the character c removed. */
  function Remove(s: string, c: char): (r: string)
    ensures c !in r
    ensures c !in s ==> r == s
  {
    if s == [] then []
    else (if s[0] == c then [] else [s[0]]) + Remove(s[1..], c)
  }

  lemma {:induction false} RemoveConcat(a: string, b: string, c: char)
    ensures Remove(a + b, c) == Remove(a, c) + Remove(b, c)
  {
    if a == [] {
      assert a + b == b;
    } else {
      assert (a + b)[0] == a[0] && (a + b)[1..] == a[1..] + b;
      RemoveConcat(a[1..], b, c);
    }
  }

  /** Removing one character adds no other. */
  lemma {:induction false} RemoveKeeps(t: string, c: char, d: char)
    requires d !in t
    ensures d !in Remove(t, c)
    decreases |t|
  {
    if t != [] {
      RemoveKeeps(t[1..], c, d);
    }
  }

  function RemoveEach(parts: seq<string>, c: char): (r: seq<string>)
    ensures |r| == |parts|
    ensures forall i :: 0 <= i < |parts| ==> r[i] == Remove(parts[i], c)
  {
    seq(|parts|, i requires 0 <= i < |parts| => Remove(parts[i], c))
  }

  /** Removing a character the separator does not hold can be done part by part. */
  lemma {:induction false} RemoveJoin(sep: string, parts: seq<string>, c: char)
    requires c !in sep
    ensures Remove(Join(sep, parts), c) == Join(sep, RemoveEach(parts, c))
    decreases |parts|
  {
    if |parts| > 1 {
      RemoveConcat(parts[0] + sep, Join(sep, parts[1..]), c);
      RemoveConcat(parts[0], sep, c);
      RemoveJoin(sep, parts[1..], c);
      assert RemoveEach(parts, c)[1..] == RemoveEach(parts[1..], c);
    }
  }

  /** `str(b)` for a Python bool. */
  function PyBool(b: bool): (r: string)
    ensures r == "True" || r == "False"
    ensures (r == "True") == b
  {
    if b then "True" else "False"
  }

  function DigitChar(d: nat): (c: char)
    requires d < 10
    ensures '0' <= c <= '9'
    ensures (c as int) - ('0' as int) == d
  {
    "0123456789"[d]
  }

  predicate AllDigits(s: string) {
    forall i :: 0 <= i < |s| ==> '0' <= s[i] <= '9'
  }

  function NatToString(n: nat): (r: string)
    ensures |r| > 0
    ensures AllDigits(r)
    decreases n
  {
    if n < 10 then [DigitChar(n)] else NatToString(n / 10) + [DigitChar(n % 10)]
  }

  /** `str(i)` for a Python int: decimal digits, with a leading '-' when negative. */
  function IntToString(i: int): (r: string)
    ensures |r| > 0
    ensures (r[0] == '-') == (i < 0)
  {
    if i < 0 then "-" + NatToString(-i) else NatToString(i)
  }

  function DigitValue(c: char): (d: nat)
    requires '0' <= c <= '9'
    ensures d < 10
  {
    (c as int) - ('0' as int)
  }

  /**
   * The decimal value of the digits of s, read left to right; any other
   * character (the underscores `int()` allows between digits) is skipped.
   * On a plain digit string it is the inverse of NatToString.
   */
  function DigitsValue(s: string): (n: nat)
  {
    if s == [] then 0
    else if '0' <= s[|s| - 1] <= '9' then DigitsValue(s[..|s| - 1]) * 10 + DigitValue(s[|s| - 1])
    else DigitsValue(s[..|s| - 1])
  }

  /** Parsing what `str(n)` prints gives n back. */
  lemma {:induction false} NatToStringRoundTrip(n: nat)
    ensures DigitsValue(NatToString(n)) == n
    decreases n
  {
    var s := NatToString(n);
    if n >= 10 {
      NatToStringRoundTrip(n / 10);
      assert s[..|s| - 1] == NatToString(n / 10);
    } else {
      assert s[..|s| - 1] == [];
    }
  }

  /**
   * The whitespace `int()` ignores around a literal: the characters for which
   * Python's `str.isspace` holds.
   */
  predicate IsSpace(c: char) {
    var n := c as int;
    || 9 <= n <= 13 || 28 <= n <= 32 || n == 0x85 || n == 0xA0 || n == 0x1680
    || 0x2000 <= n <= 0x200A || n == 0x2028 || n == 0x2029 || n == 0x202F || n == 0x205F || n == 0x3000
  }

  /** `s.lstrip()`: the suffix of s that starts at its first non-space character. */
  function TrimLeft(s: string): string
  {
    if s != [] && IsSpace(s[0]) then TrimLeft(s[1..]) else s
  }

  /** `lstrip` removes a prefix of whitespace, and exactly up to the first other character. */
  lemma {:induction false} TrimLeftSpec(s: string)
    ensures |TrimLeft(s)| <= |s| && TrimLeft(s) == s[|s| - |TrimLeft(s)|..]
    ensures TrimLeft(s) != [] ==> !IsSpace(TrimLeft(s)[0])
    ensures forall k :: 0 <= k < |s| - |TrimLeft(s)| ==> IsSpace(s[k])
    decreases |s|
  {
    if s != [] && IsSpace(s[0]) {
      TrimLeftSpec(s[1..]);
      assert forall k :: 1 <= k < |s| ==> s[k] == s[1..][k - 1];
    }
  }

  /** `s.rstrip()`: the prefix of s that ends at its last non-space character. */
  function TrimRight(s: string): string
  {
    if s != [] && IsSpace(s[|s| - 1]) then TrimRight(s[..|s| - 1]) else s
  }

  /** `rstrip` removes a suffix of whitespace, and exactly back to the last other character. */
  lemma {:induction false} TrimRightSpec(s: string)
    ensures |TrimRight(s)| <= |s| && TrimRight(s) == s[..|TrimRight(s)|]
    ensures TrimRight(s) != [] ==> !IsSpace(TrimRight(s)[|TrimRight(s)| - 1])
    ensures forall k :: |TrimRight(s)| <= k < |s| ==> IsSpace(s[k])
    decreases |s|
  {
    if s != [] && IsSpace(s[|s| - 1]) {
      TrimRightSpec(s[..|s| - 1]);
    }
  }

  /** `s.strip()`. */
  function Trim(s: string): string
  {
    TrimRight(TrimLeft(s))
  }

  /** Decimal digits in groups separated by single underscores, as `int()` reads them. */
  predicate IsDigitGroups(u: string)
    decreases |u|
  {
    if u == [] || !('0' <= u[0] <= '9') then false
    else if |u| == 1 then true
    else if u[1] == '_' then IsDigitGroups(u[2..])
    else IsDigitGroups(u[1..])
  }

  /** A signed decimal literal: an optional '+' or '-' followed by digit groups. */
  predicate IsSignedDigits(t: string) {
    if t != [] && (t[0] == '-' || t[0] == '+') then IsDigitGroups(t[1..])
    else IsDigitGroups(t)
  }

  /** What `int(s)` accepts: a signed decimal literal with whitespace around it. */
  predicate IsIntLiteral(s: string) {
    IsSignedDigits(Trim(s))
  }

  /** The characters an integer literal may hold. */
  predicate LiteralChar(c: char) {
    IsSpace(c) || c == '-' || c == '+' || c == '_' || '0' <= c <= '9'
  }

  /** The value `int(s)` returns for a literal it accepts. */
  function IntLiteralValue(s: string): int
    requires IsIntLiteral(s)
  {
    var t := Trim(s);
    if t[0] == '-' then -(DigitsValue(t[1..]) as int)
    else if t[0] == '+' then DigitsValue(t[1..])
    else DigitsValue(t)
  }

  /** Digit groups hold only digits and underscores, and start and end with a digit. */
  lemma {:induction false} DigitGroupsChars(u: string)
    requires IsDigitGroups(u)
    ensures forall j :: 0 <= j < |u| ==> u[j] == '_' || '0' <= u[j] <= '9'
    ensures '0' <= u[0] <= '9' && '0' <= u[|u| - 1] <= '9'
    decreases |u|
  {
    if |u| > 1 {
      var k := if u[1] == '_' then 2 else 1;
      DigitGroupsChars(u[k..]);
      assert forall j :: k <= j < |u| ==> u[j] == u[k..][j - k];
    }
  }

  /** A non-empty plain digit string is a single digit group. */
  lemma {:induction false} DigitsAreGroups(u: string)
    requires u != [] && AllDigits(u)
    ensures IsDigitGroups(u)
    decreases |u|
  {
    if |u| > 1 {
      DigitsAreGroups(u[1..]);
    }
  }

  /** A signed literal holds only signs, digits and underscores, and ends in a digit. */
  lemma SignedDigitsChars(t: string)
    requires IsSignedDigits(t)
    ensures forall j :: 0 <= j < |t| ==> t[j] == '-' || t[j] == '+' || t[j] == '_' || '0' <= t[j] <= '9'
    ensures '0' <= t[|t| - 1] <= '9'
  {
    if t != [] && (t[0] == '-' || t[0] == '+') {
      DigitGroupsChars(t[1..]);
      assert forall j :: 1 <= j < |t| ==> t[j] == t[1..][j - 1];
    } else {
      DigitGroupsChars(t);
    }
  }

  /** `int()` accepts only whitespace, signs, digits and underscores, and at least one digit. */
  lemma LiteralChars(s: string)
    requires IsIntLiteral(s)
    ensures forall k :: 0 <= k < |s| ==> LiteralChar(s[k])
    ensures exists k :: 0 <= k < |s| && '0' <= s[k] <= '9'
  {
    var l := TrimLeft(s);
    var t := TrimRight(l);
    var off := |s| - |l|;
    TrimLeftSpec(s);
    TrimRightSpec(l);
    SignedDigitsChars(t);
    forall k | 0 <= k < |s|
      ensures LiteralChar(s[k])
    {
      if k >= off {
        var j := k - off;
        assert s[k] == l[j];
        if j < |t| {
          assert l[j] == t[j];
        }
      }
    }
    var d := |t| - 1;
    assert s[off + d] == l[d] == t[d];
  }

  /** `int(" 42\\n") == 42`: the whitespace around the digits is ignored. */
  lemma SpacedLiteral()
    ensures IsIntLiteral(" 42\n") && IntLiteralValue(" 42\n") == 42
  {
    var s := " 42\n";
    assert s[1..] == "42\n";
    assert TrimLeft(s) == "42\n";
    assert "42\n"[..2] == "42";
    assert Trim(s) == "42";
    assert "42"[..1] == "4" && "4"[..0] == "";
  }

  /**
   * `int("1_000") == 1000` and `int("\xa0-7") == -7`, while "1__0", "_1" and
   * "1_" are refused: one underscore between digits, and Unicode spaces.
   */
  lemma UnderscoredLiteral()
    ensures IsIntLiteral("1_000") && IntLiteralValue("1_000") == 1000
    ensures IsIntLiteral("\U{00A0}-7") && IntLiteralValue("\U{00A0}-7") == -7
    ensures !IsIntLiteral("1__0") && !IsIntLiteral("_1") && !IsIntLiteral("1_")
  {
    var s := "1_000";
    assert "1"[..0] == "" && "1_"[..1] == "1" && "1_0"[..2] == "1_" && "1_00"[..3] == "1_0" && s[..4] == "1_00";
    assert DigitsValue("1") == 1 && DigitsValue("1_") == 1 && DigitsValue("1_0") == 10;
    assert DigitsValue("1_00") == 100;
    assert s[2..] == "000" && "000"[1..] == "00" && "00"[1..] == "0";
    TrimNoSpace(s);
    var m := "\U{00A0}-7";
    assert m[1..] == "-7" && TrimLeft(m) == "-7";
    TrimNoSpace("-7");
    assert "-7"[1..] == "7" && "7"[..0] == "";
    TrimNoSpace("1__0");
    assert "1__0"[2..] == "_0";
    TrimNoSpace("_1");
    TrimNoSpace("1_");
    assert "1_"[2..] == "";
  }

  /** A string with no whitespace at either end is its own strip. */
  lemma TrimNoSpace(s: string)
    requires s != [] && !IsSpace(s[0]) && !IsSpace(s[|s| - 1])
    ensures Trim(s) == s
  {
    assert TrimLeft(s) == s;
  }

  /** Parsing what `str(i)` prints gives i back: `int(str(i)) == i`. */
  lemma IntToStringRoundTrip(i: int)
    ensures IsIntLiteral(IntToString(i))
    ensures IntLiteralValue(IntToString(i)) == i
  {
    var s := IntToString(i);
    var digits := NatToString(if i < 0 then -i else i);
    assert s == if i < 0 then "-" + digits else digits;
    assert s[|s| - 1] == digits[|digits| - 1];
    TrimNoSpace(s);
    NatToStringRoundTrip(if i < 0 then -i else i);
    DigitsAreGroups(digits);
    if i < 0 {
      assert s[1..] == digits;
    }
  }
}
