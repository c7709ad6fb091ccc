/** The pieces of Python's `str` and `int` that the integration relies on:
    `str.strip()`, `str.replace("ch", "")`, `int(str)` and `str(int)`. */
module PyText {
  import opened Wrappers

  /** The characters `str.isspace()` accepts, which `str.strip()` removes. */
  predicate IsSpace(c: char) {
    ('\U{0009}' <= c <= '\U{000D}') || ('\U{001C}' <= c <= '\U{001F}') || c == ' '
    || c == '\U{0085}' || c == '\U{00A0}' || c == '\U{1680}'
    || ('\U{2000}' <= c <= '\U{200A}') || c == '\U{2028}' || c == '\U{2029}'
    || c == '\U{202F}' || c == '\U{205F}' || c == '\U{3000}'
  }

  /** `s.lstrip()`: the suffix of `s` left after its leading white space. */
  function StripLeft(s: string): (r: string)
    ensures |r| <= |s| && r == s[|s| - |r|..]
    ensures forall k :: 0 <= k < |s| - |r| ==> IsSpace(s[k])
    ensures |r| > 0 ==> !IsSpace(r[0])
  {
    if |s| > 0 && IsSpace(s[0]) then StripLeft(s[1..]) else s
  }

  /** `s.rstrip()`: the prefix of `s` left before its trailing white space. */
  function StripRight(s: string): (r: string)
    ensures |r| <= |s| && r == s[..|r|]
    ensures forall k :: |r| <= k < |s| ==> IsSpace(s[k])
    ensures |r| > 0 ==> !IsSpace(r[|r| - 1])
  {
    if |s| > 0 && IsSpace(s[|s| - 1]) then StripRight(s[..|s| - 1]) else s
  }

  /** `s.strip()`. */
  function Strip(s: string): (r: string)
    ensures |r| <= |s|
    ensures |r| > 0 ==> !IsSpace(r[0]) && !IsSpace(r[|r| - 1])
    ensures (forall k :: 0 <= k < |s| ==> IsSpace(s[k])) ==> r == ""
  {
    StripRight(StripLeft(s))
  }

  lemma StripLeftIs(s: string, i: nat)
    requires i <= |s|
    requires forall k :: 0 <= k < i ==> IsSpace(s[k])
    requires i < |s| ==> !IsSpace(s[i])
    ensures StripLeft(s) == s[i..]
  {
  }

  /** rstrip of the suffix `s[i..]` stops at `j` when everything from `j` on is
      white space and the character before `j` is not. */
  lemma {:induction false} StripRightIs(s: string, i: nat, j: nat)
    requires i <= j <= |s|
    requires forall k :: j <= k < |s| ==> IsSpace(s[k])
    requires i < j ==> !IsSpace(s[j - 1])
    ensures StripRight(s[i..]) == s[i..j]
    decreases |s|
  {
    if j < |s| {
      var u := s[..|s| - 1];
      assert s[i..][..|s[i..]| - 1] == u[i..];
      StripRightIs(u, i, j);
      assert u[i..j] == s[i..j];
    } else {
      assert s[i..] == s[i..j];
      if i < j {
        assert s[i..][|s[i..]| - 1] == s[j - 1];
      }
    }
  }

  /** `s.strip()` is exactly the part of `s` between its leading and its
      trailing white space. */
  lemma StripIsCore(s: string, i: nat, j: nat)
    requires i <= j <= |s|
    requires forall k :: 0 <= k < i ==> IsSpace(s[k])
    requires forall k :: j <= k < |s| ==> IsSpace(s[k])
    requires i < j ==> !IsSpace(s[i]) && !IsSpace(s[j - 1])
    ensures Strip(s) == s[i..j]
  {
    if i == j {
      forall k | 0 <= k < |s| ensures IsSpace(s[k]) {
        if k < i {
        } else {
          assert j <= k;
        }
      }
    } else {
      StripLeftIs(s, i);
      StripRightIs(s, i, j);
    }
  }

  /** Stripping twice is stripping once. */
  lemma StripIdempotent(s: string)
    ensures Strip(Strip(s)) == Strip(s)
  {
    var r := Strip(s);
    StripIsCore(r, 0, |r|);
  }

  /** `haystack` contains the two-character string "ch". */
  predicate ContainsCh(s: string) {
    exists k :: 0 <= k < |s| - 1 && s[k] == 'c' && s[k + 1] == 'h'
  }

  /** `s.replace("ch", "")`: one left-to-right pass deleting every
      non-overlapping occurrence of "ch". */
  function RemoveCh(s: string): (r: string)
    ensures |r| <= |s|
  {
    if |s| == 0 then ""
    else if |s| >= 2 && s[0] == 'c' && s[1] == 'h' then RemoveCh(s[2..])
    else [s[0]] + RemoveCh(s[1..])
  }

  /** A string without "ch" is left as it is. */
  lemma {:induction false} RemoveChNoOccurrence(s: string)
    requires !ContainsCh(s)
    ensures RemoveCh(s) == s
  {
    if |s| > 0 {
      RemoveChNoOccurrence(s[1..]);
    }
  }

  /** The tag "ch" + id gives back the id, as long as the id holds no "ch". */
  lemma TagToId(id: string)
    requires !ContainsCh(id)
    ensures RemoveCh("ch" + id) == id
  {
    assert ("ch" + id)[2..] == id;
    RemoveChNoOccurrence(id);
  }

  predicate IsDigit(c: char) { '0' <= c <= '9' }

  /** The body of a base-10 literal `int()` accepts: ASCII digits, with single
      underscores allowed between two digits (it starts and ends with a digit,
      and no two underscores are adjacent). */
  predicate IsDecimalLiteral(s: string) {
    && |s| > 0 && IsDigit(s[0]) && IsDigit(s[|s| - 1])
    && (forall k :: 0 <= k < |s| ==> IsDigit(s[k]) || s[k] == '_')
    && (forall k, l :: 0 <= k < |s| && k < l < |s| && l == k + 1 && s[k] == '_' ==> s[l] != '_')
  }

  function DigitValue(c: char): nat
    requires IsDigit(c)
  {
    c as int - '0' as int
  }

  /** The number the digits of `s` spell, underscores ignored. */
  function DigitsValue(s: string): nat {
    if s == [] then 0
    else if IsDigit(s[|s| - 1]) then DigitsValue(s[..|s| - 1]) * 10 + DigitValue(s[|s| - 1])
    else DigitsValue(s[..|s| - 1])
  }

  /** Python's default limit on the number of digits `int()` and `str()`
      convert between text and integers (`sys.int_info.default_max_str_digits`);
      beyond it they raise ValueError. */
  const MAX_STR_DIGITS := 4300

  /** The number of digits in `s`, underscores not counted. */
  function DigitCount(s: string): nat {
    if s == [] then 0
    else DigitCount(s[..|s| - 1]) + (if IsDigit(s[|s| - 1]) then 1 else 0)
  }

  /** An unsigned decimal literal as a number, or None when `s` is not one or
      has more digits than the limit allows. */
  function ParseUnsigned(s: string): Option<nat> {
    if IsDecimalLiteral(s) && DigitCount(s) <= MAX_STR_DIGITS then Some(DigitsValue(s)) else None
  }

  /** An optional sign followed by an unsigned literal, as a number. */
  function ParseLiteral(t: string): Option<int> {
    if |t| > 0 && (t[0] == '+' || t[0] == '-') then
      match ParseUnsigned(t[1..])
      case None => None
      case Some(v) => Some(if t[0] == '-' then -(v as int) else v)
    else
      ParseUnsigned(t)
  }

  /** `int(s)` in base 10: surrounding white space, an optional sign, then a
      decimal literal of at most MAX_STR_DIGITS digits; anything else raises
      ValueError (here: None). */
  function ParseInt(s: string): (r: Option<int>)
    ensures r.Some? ==> |Strip(s)| > 0 && IsDigit(Strip(s)[|Strip(s)| - 1])
    ensures r.Some? && r.value < 0 ==> Strip(s)[0] == '-'
  {
    ParseLiteral(Strip(s))
  }

  function DigitChar(d: nat): (c: char)
    requires d < 10
    ensures IsDigit(c) && DigitValue(c) == d
  {
    ('0' as int + d) as char
  }

  /** `str(n)` for a natural number. */
  function FormatNat(n: nat): (r: string)
    ensures |r| > 0 && forall k :: 0 <= k < |r| ==> IsDigit(r[k])
  {
    if n < 10 then [DigitChar(n)] else FormatNat(n / 10) + [DigitChar(n % 10)]
  }

  /** `str(n)` for an integer. */
  function FormatInt(n: int): (r: string)
    ensures |r| > 0 && (r[0] == '-' <==> n < 0)
    ensures forall k :: (if n < 0 then 1 else 0) <= k < |r| ==> IsDigit(r[k])
  {
    if n < 0 then "-" + FormatNat(-n) else FormatNat(n)
  }

  lemma {:induction false} DigitsValueFormatNat(n: nat)
    ensures DigitsValue(FormatNat(n)) == n
  {
    var s := FormatNat(n);
    if n >= 10 {
      assert s[..|s| - 1] == FormatNat(n / 10);
      DigitsValueFormatNat(n / 10);
    } else {
      assert s[..|s| - 1] == [];
    }
  }

  /** Text without padding strips to itself. */
  lemma StripUnpadded(s: string)
    requires |s| > 0 && !IsSpace(s[0]) && !IsSpace(s[|s| - 1])
    ensures Strip(s) == s
  {
    StripIsCore(s, 0, |s|);
    assert s[0..|s|] == s;
  }

  /** A non-empty run of digits is a decimal literal, each character a digit. */
  lemma {:induction false} DigitsAreLiteral(d: string)
    requires |d| > 0 && forall k :: 0 <= k < |d| ==> IsDigit(d[k])
    ensures IsDecimalLiteral(d)
    ensures DigitCount(d) == |d|
  {
    if |d| > 1 {
      DigitsAreLiteral(d[..|d| - 1]);
    } else {
      assert d[..|d| - 1] == [];
    }
  }

  /** A run of digits within the limit reads as the number it spells. */
  lemma ParseUnsignedDigits(d: string)
    requires |d| > 0 && forall k :: 0 <= k < |d| ==> IsDigit(d[k])
    requires |d| <= MAX_STR_DIGITS
    ensures ParseUnsigned(d) == Some(DigitsValue(d))
  {
    DigitsAreLiteral(d);
  }

  /** `int(str(n)) == n` for a natural number within the digit limit. */
  lemma ParseFormatNat(n: nat)
    requires |FormatNat(n)| <= MAX_STR_DIGITS
    ensures ParseInt(FormatNat(n)) == Some(n)
  {
    var s := FormatNat(n);
    StripUnpadded(s);
    ParseUnsignedDigits(s);
    DigitsValueFormatNat(n);
    assert !(s[0] == '+' || s[0] == '-') by { assert IsDigit(s[0]); }
  }

  /** `int(str(-n)) == -n` for a positive number within the digit limit. */
  lemma ParseFormatNegative(n: nat)
    requires n > 0
    requires |FormatNat(n)| <= MAX_STR_DIGITS
    ensures ParseInt("-" + FormatNat(n)) == Some(-(n as int))
  {
    var digits := FormatNat(n);
    var s := "-" + digits;
    assert s[|s| - 1] == digits[|digits| - 1];
    StripUnpadded(s);
    assert s[1..] == digits;
    ParseUnsignedDigits(digits);
    DigitsValueFormatNat(n);
  }

  /** `int(str(n)) == n` for an integer within the digit limit. */
  lemma ParseFormatInt(n: int)
    requires |FormatNat(if n < 0 then -n else n)| <= MAX_STR_DIGITS
    ensures ParseInt(FormatInt(n)) == Some(n)
  {
    if n < 0 {
      var m: nat := -n;
      assert FormatInt(n) == "-" + FormatNat(m);
      ParseFormatNegative(m);
    } else {
      ParseFormatNat(n);
    }
  }

  /** `int()` refuses a literal with more digits than the limit. */
  lemma ParseIntTooManyDigits(s: string)
    requires IsDecimalLiteral(s) && DigitCount(s) > MAX_STR_DIGITS
    ensures ParseInt(s) == None
  {
    StripUnpadded(s);
    assert !(s[0] == '+' || s[0] == '-') by { assert IsDigit(s[0]); }
  }

  /** `int()` reads a value the same with or without its padding. */
  lemma ParseIntStrips(s: string)
    ensures ParseInt(s) == ParseInt(Strip(s))
  {
    StripIdempotent(s);
  }

  lemma ParseInt42()
    ensures ParseInt("42") == Some(42)
  {
    var t := "42";
    StripIsCore(t, 0, 2);
    assert !(t[0] == '+' || t[0] == '-');
    assert IsDecimalLiteral(t) by {
      forall k | 0 <= k < |t| ensures IsDigit(t[k]) {
        if k == 0 {} else {}
      }
    }
    assert t[..1] == "4" && "4"[..0] == "";
    assert DigitsValue(t) == 42;
  }

  /** `int()` ignores the padding around a value. */
  lemma ParseIntPadded()
    ensures ParseInt(" 42\n") == Some(42)
  {
    var s := " 42\n";
    StripIsCore(s, 1, 3);
    assert s[1..3] == "42";
    ParseIntStrips(s);
    ParseInt42();
  }

  /** `int()` accepts a single underscore between digits. */
  lemma ParseIntUnderscore()
    ensures ParseInt("1_0") == Some(10)
  {
    var t := "1_0";
    StripIsCore(t, 0, 3);
    assert !(t[0] == '+' || t[0] == '-');
    assert IsDecimalLiteral(t) by {
      forall k | 0 <= k < |t| ensures IsDigit(t[k]) || t[k] == '_' {
        if k == 0 {} else if k == 1 {} else {}
      }
    }
    assert t[..2] == "1_" && "1_"[..1] == "1" && "1"[..0] == "";
    assert DigitsValue(t) == 10;
  }

  /** `int()` rejects a fraction. */
  lemma ParseIntRejectsFraction()
    ensures ParseInt("4.5") == None
  {
    var t := "4.5";
    StripIsCore(t, 0, 3);
    assert Strip(t) == t by { assert t[0..3] == t; }
    assert !IsDecimalLiteral(t) by { assert t[1] == '.'; }
  }

  /** `int()` rejects two underscores in a row. */
  lemma ParseIntRejectsDoubledUnderscore()
    ensures ParseInt("1__0") == None
  {
    var t := "1__0";
    StripIsCore(t, 0, 4);
    assert Strip(t) == t by { assert t[0..4] == t; }
    assert !IsDecimalLiteral(t) by { assert t[1] == '_' && t[2] == '_' && 2 == 1 + 1; }
  }

  /** `int()` rejects the empty text. */
  lemma ParseIntRejectsEmpty()
    ensures ParseInt("") == None
  {
    assert Strip("") == "";
  }

  /** Python's `str(x)` of an optional string, as an f-string renders it. */
  function PyStr(x: Option<string>): string {
    match x
    case None => "None"
    case Some(s) => s
  }
}
