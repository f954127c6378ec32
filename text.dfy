/**
 * The string primitives the selection code relies on: `String.prototype.split(",")`,
 * `Array.prototype.join(",")` on numbers, the global `parseInt` with no radix, and the
 * conversion of an integral `Number` to its decimal text.
 */
module Text {
  import opened Wrappers

  /** `s.split(",")`: the pieces between commas; never empty, `""` gives `[""]`. */
  function Split(s: string): (r: seq<string>)
    ensures |r| >= 1
    ensures ',' !in s ==> r == [s]
  {
    if |s| == 0 then [""]
    else
      var rest := Split(s[1..]);
      assert s == [s[0]] + s[1..];
      assert ',' !in s ==> ',' !in s[1..] && rest == [s[1..]];
      if s[0] == ',' then [""] + rest
      else [[s[0]] + rest[0]] + rest[1..]
  }

  /** `tokens.join(",")`: starts with the first token and ends with the last. */
  function Join(tokens: seq<string>): (r: string)
  {
    if |tokens| == 0 then ""
    else if |tokens| == 1 then tokens[0]
    else tokens[0] + "," + Join(tokens[1..])
  }

  /** Splitting a comma-free piece followed by more text glues the piece onto the first token. */
  lemma {:induction false} SplitPrefix(t: string, rest: string)
    requires ',' !in t
    ensures Split(t + rest) == [t + Split(rest)[0]] + Split(rest)[1..]
  {
    if |t| > 0 {
      assert (t + rest)[1..] == t[1..] + rest;
      SplitPrefix(t[1..], rest);
      assert [t[0]] + (t[1..] + Split(rest)[0]) == t + Split(rest)[0];
    } else {
      var r := Split(rest);
      assert t + rest == rest && t + r[0] == r[0];
      assert r == [r[0]] + r[1..];
    }
  }

  /** Split undoes Join when no token holds a comma. */
  lemma {:induction false} SplitJoin(tokens: seq<string>)
    requires |tokens| >= 1
    requires forall i :: 0 <= i < |tokens| ==> ',' !in tokens[i]
    ensures Split(Join(tokens)) == tokens
  {
    if |tokens| == 1 {
      SplitPrefix(tokens[0], "");
      assert tokens[0] + "" == tokens[0];
    } else {
      var tail := Join(tokens[1..]);
      SplitJoin(tokens[1..]);
      assert tokens[0] + "," + tail == tokens[0] + ("," + tail);
      SplitPrefix(tokens[0], "," + tail);
      assert ("," + tail)[1..] == tail;
      assert tokens[0] + "" == tokens[0];
      assert tokens == [tokens[0]] + tokens[1..];
    }
  }

  // ---------------------------------------------------------------------------
  // parseInt(string) with no radix argument

  /** The characters `parseInt` skips at the front: ECMAScript WhiteSpace and LineTerminator. */
  predicate IsJsSpace(c: char)
  {
    c == '\t' || c == '\n' || c == '\U{000B}' || c == '\U{000C}' || c == '\r' || c == ' ' ||
    c == '\U{00A0}' || c == '\U{1680}' || ('\U{2000}' <= c <= '\U{200A}') ||
    c == '\U{2028}' || c == '\U{2029}' || c == '\U{202F}' || c == '\U{205F}' ||
    c == '\U{3000}' || c == '\U{FEFF}'
  }

  function TrimStart(s: string): (r: string)
    ensures |r| <= |s|
  {
    if |s| > 0 && IsJsSpace(s[0]) then TrimStart(s[1..]) else s
  }

  /** TrimStart drops exactly the leading white space: a suffix remains, not starting with white space. */
  lemma {:induction false} TrimStartDropsSpace(s: string)
    ensures var r := TrimStart(s); r == s[|s| - |r|..]
    ensures forall i :: 0 <= i < |s| - |TrimStart(s)| ==> IsJsSpace(s[i])
    ensures |TrimStart(s)| > 0 ==> !IsJsSpace(TrimStart(s)[0])
  {
    if |s| > 0 && IsJsSpace(s[0]) {
      TrimStartDropsSpace(s[1..]);
    }
  }

  predicate IsDigit(c: char, radix: nat)
  {
    if radix == 16 then '0' <= c <= '9' || 'a' <= c <= 'f' || 'A' <= c <= 'F'
    else '0' <= c <= '9'
  }

  function DigitValue(c: char): nat
  {
    if '0' <= c <= '9' then c as int - '0' as int
    else if 'a' <= c <= 'f' then c as int - 'a' as int + 10
    else if 'A' <= c <= 'F' then c as int - 'A' as int + 10
    else 0
  }

  /** Length of the longest prefix of `s` made of digits of `radix`. */
  function DigitRun(s: string, radix: nat): (n: nat)
    ensures n <= |s|
  {
    if |s| == 0 || !IsDigit(s[0], radix) then 0 else 1 + DigitRun(s[1..], radix)
  }

  /** DigitRun finds the longest prefix of digits. */
  lemma {:induction false} DigitRunIsLongest(s: string, radix: nat)
    ensures forall i :: 0 <= i < DigitRun(s, radix) ==> IsDigit(s[i], radix)
    ensures DigitRun(s, radix) < |s| ==> !IsDigit(s[DigitRun(s, radix)], radix)
  {
    if |s| > 0 && IsDigit(s[0], radix) {
      DigitRunIsLongest(s[1..], radix);
    }
  }

  /** The value of a digit string, most significant digit first. */
  function DigitsValue(digits: string, radix: nat): nat
  {
    if |digits| == 0 then 0
    else if radix == 16 then DigitsValue(digits[..|digits| - 1], radix) * 16 + DigitValue(digits[|digits| - 1])
    else DigitsValue(digits[..|digits| - 1], radix) * 10 + DigitValue(digits[|digits| - 1])
  }

  /**
   * `parseInt(t)`: skip leading white space, take an optional sign, switch to radix 16 after
   * a `0x`/`0X` prefix, then read the longest run of digits; `None` stands for `NaN` (no digit).
   * Whatever follows the digit run is ignored.
   */
  function ParseInt(t: string): Option<int>
  {
    var body := Body(t);
    var n := DigitRun(body, RadixOf(t));
    var value: int := DigitsValue(body[..n], RadixOf(t));
    if n == 0 then None else if Negative(t) then Some(-value) else Some(value)
  }

  /** White space in front of a token does not change what parseInt reads. */
  lemma ParseIntSkipsSpace(c: char, t: string)
    requires IsJsSpace(c)
    ensures ParseInt([c] + t) == ParseInt(t)
  {
    assert ([c] + t)[1..] == t;
    assert TrimStart([c] + t) == TrimStart(t);
    assert Unsigned([c] + t) == Unsigned(t);
  }

  /**
   * A token that is empty, or whose first character is neither white space, a sign nor a decimal
   * digit, reads as `NaN`.
   */
  lemma ParseIntNaN(t: string)
    requires |t| == 0 || (!IsJsSpace(t[0]) && t[0] != '-' && t[0] != '+' && !IsDigit(t[0], 10))
    ensures ParseInt(t) == None
  {
  }

  /** The text after white space and sign. */
  function Unsigned(t: string): string
  {
    var s := TrimStart(t);
    if |s| > 0 && (s[0] == '-' || s[0] == '+') then s[1..] else s
  }

  /** A `-` sign follows the white space. */
  predicate Negative(t: string)
  {
    var s := TrimStart(t);
    |s| > 0 && s[0] == '-'
  }

  predicate HasHexPrefix(u: string)
  {
    |u| >= 2 && u[0] == '0' && (u[1] == 'x' || u[1] == 'X')
  }

  function RadixOf(t: string): nat
  {
    if HasHexPrefix(Unsigned(t)) then 16 else 10
  }

  /** The text whose leading digits `parseInt` reads. */
  function Body(t: string): string
  {
    var u := Unsigned(t);
    if HasHexPrefix(u) then u[2..] else u
  }

  // ---------------------------------------------------------------------------
  // Number to decimal text, as `String(n)` and `join` write an integral number

  function DigitChar(d: nat): (c: char)
    requires d < 10
    ensures IsDigit(c, 10) && DigitValue(c) == d
  {
    ['0', '1', '2', '3', '4', '5', '6', '7', '8', '9'][d]
  }

  function NatToString(n: nat): (s: string)
    ensures |s| >= 1
    ensures forall i :: 0 <= i < |s| ==> IsDigit(s[i], 10)
    ensures DigitsValue(s, 10) == n
  {
    if n < 10 then [DigitChar(n)]
    else
      var s := NatToString(n / 10) + [DigitChar(n % 10)];
      assert s[..|s| - 1] == NatToString(n / 10);
      s
  }

  function IntToString(n: int): (s: string)
    ensures ',' !in s
  {
    if n < 0 then "-" + NatToString(-n) else NatToString(n)
  }

  /** Every integer's decimal text reads back as that integer. */
  lemma ParseIntToString(n: int)
    ensures ParseInt(IntToString(n)) == Some(n)
  {
    var m: nat := if n < 0 then -n else n;
    var digits := NatToString(m);
    var t := IntToString(n);
    assert TrimStart(t) == t;
    assert Unsigned(t) == digits;
    assert !HasHexPrefix(digits);
    assert Body(t) == digits;
    DigitRunAll(digits);
    assert digits[..|digits|] == digits;
  }

  lemma {:induction false} DigitRunAll(s: string)
    requires forall i :: 0 <= i < |s| ==> IsDigit(s[i], 10)
    ensures DigitRun(s, 10) == |s|
  {
    if |s| > 0 {
      DigitRunAll(s[1..]);
    }
  }
}
