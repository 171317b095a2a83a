/*
 * Shared vocabulary of the model: optional values, the JSON / QVariant value
 * tree exchanged between the components, bytes, and the small string
 * routines (join, split, last-index, decimal rendering) that several
 * components rely on.
 */
module Common {

  datatype Option<T> = None | Some(value: T)

  /** The value of an option as a list of at most one element. */
  function OptionToSeq<T>(o: Option<T>): seq<T>
  {
    if o.Some? then [o.value] else []
  }

  /** An unsigned 8-bit value as carried on a serial line, BLE or I2C. */
  type byte = x: int | 0 <= x < 256

  /**
   * A JSON document / QVariant tree. Numbers are integers: the model never
   * needs a fractional JSON number.
   */
  datatype Value =
    | Null
    | Bool(b: bool)
    | Int(i: int)
    | Str(s: string)
    | List(items: seq<Value>)
    | Object(fields: map<string, Value>)

  /** `QVariantMap::value(key)` / `dict.get(key)`: Null when the key is absent. */
  function Get(m: map<string, Value>, key: string): (r: Value)
    ensures key !in m ==> r == Null
    ensures key in m ==> r == m[key]
  {
    if key in m then m[key] else Null
  }

  /**
   * QVariant `toLongLong()` / `toInt()`: a number converts, a bool gives 0
   * or 1, a string is read as a decimal integer (`QString::toLongLong`),
   * anything else gives 0.
   */
  function ToInt(v: Value): int
  {
    match v
    case Int(i) => i
    case Bool(b) => if b then 1 else 0
    case Str(s) => StringToLongLong(s)
    case _ => 0
  }

  /**
   * QVariant `toString()`: a string converts, a number is written in
   * decimal, a bool as "true" or "false"; anything else gives "".
   */
  function ToStr(v: Value): string
  {
    match v
    case Str(s) => s
    case Int(i) => IntToString(i)
    case Bool(b) => if b then "true" else "false"
    case _ => ""
  }

  /**
   * QVariant `toBool()`: a bool converts, a number is true when non-zero, a
   * string is true unless it is empty, "0" or "false" in any letter case;
   * anything else gives false.
   */
  function ToBool(v: Value): bool
  {
    match v
    case Bool(b) => b
    case Int(i) => i != 0
    case Str(s) => !(s == "" || s == "0" || IsFalseWord(s))
    case _ => false
  }

  /** "false" in any mix of letter case (ASCII letters). */
  predicate IsFalseWord(s: string)
  {
    |s| == 5 && forall i :: 0 <= i < 5 ==> LowerAsciiChar(s[i]) == "false"[i]
  }

  /** An ASCII capital letter lower-cased; every other character kept. */
  function LowerAsciiChar(c: char): char
  {
    if 'A' <= c <= 'Z' then (c as int + 32) as char else c
  }

  /**
   * `QChar::isSpace`: the ASCII whitespace, U+0085, and the Unicode space,
   * line and paragraph separators (no-break spaces included).
   */
  predicate IsQtSpace(c: char)
  {
    var n := c as int;
    IsSpace(c) || n == 0x85 || n == 0xA0 || n == 0x1680 || 0x2000 <= n <= 0x200A
    || n == 0x2028 || n == 0x2029 || n == 0x202F || n == 0x205F || n == 0x3000
  }

  /** `QString::trimmed`: leading and trailing `QChar::isSpace` characters removed. */
  function Trimmed(s: string): (r: string)
    ensures |r| <= |s|
    ensures r != [] ==> !IsQtSpace(r[0]) && !IsQtSpace(r[|r| - 1])
    ensures (s == [] || (!IsQtSpace(s[0]) && !IsQtSpace(s[|s| - 1]))) ==> r == s
    decreases |s|
  {
    if |s| > 0 && IsQtSpace(s[0]) then Trimmed(s[1..])
    else if |s| > 0 && IsQtSpace(s[|s| - 1]) then Trimmed(s[..|s| - 1])
    else s
  }

  /** A non-empty run of decimal digits. */
  predicate AllDigits(s: string)
  {
    |s| >= 1 && forall i :: 0 <= i < |s| ==> IsDigit(s[i])
  }

  /** The range of a signed 64-bit integer (`qlonglong`). */
  predicate InLongLong(n: int)
  {
    -0x8000_0000_0000_0000 <= n < 0x8000_0000_0000_0000
  }

  /**
   * The integer a string spells, ignoring surrounding spaces: an optional
   * sign and decimal digits, or None.
   */
  function DecimalValue(s: string): (r: Option<int>)
  {
    SignedInteger(Trimmed(s))
  }

  /** An optional sign and decimal digits, with nothing around them, as an integer; None otherwise. */
  function SignedInteger(t: string): (r: Option<int>)
  {
    if |t| >= 2 && t[0] == '-' && AllDigits(t[1..]) then Some(-(ParseNat(t[1..]) as int))
    else if |t| >= 2 && t[0] == '+' && AllDigits(t[1..]) then Some(ParseNat(t[1..]))
    else if AllDigits(t) then Some(ParseNat(t))
    else None
  }

  /**
   * `QString::toLongLong()`: the decimal value of the trimmed text when it
   * is a signed run of digits that fits in 64 bits, 0 otherwise.
   */
  function StringToLongLong(s: string): (r: int)
    ensures InLongLong(r)
    ensures r != 0 ==> DecimalValue(s) == Some(r)
    ensures DecimalValue(s).Some? && InLongLong(DecimalValue(s).value) ==> r == DecimalValue(s).value
  {
    var v := DecimalValue(s);
    if v.Some? && InLongLong(v.value) then v.value else 0
  }

  /** A 64-bit integer written in decimal reads back as itself. */
  lemma DecimalRoundTrip(n: int)
    requires InLongLong(n)
    ensures StringToLongLong(IntToString(n)) == n
  {
    var t := IntToString(n);
    var digits := NatToString(if n >= 0 then n else -n);
    assert !IsQtSpace(digits[0]) && !IsQtSpace(digits[|digits| - 1]);
    if n >= 0 {
      assert Trimmed(t) == t;
      assert AllDigits(t);
    } else {
      assert t[0] == '-' && t[|t| - 1] == digits[|digits| - 1];
      assert Trimmed(t) == t;
      assert t[1..] == digits;
    }
  }

  /** Ten to the power `n`. */
  function Pow10(n: nat): (r: nat)
    ensures r >= 1
  {
    if n == 0 then 1 else 10 * Pow10(n - 1)
  }

  /**
   * An unsigned decimal, "ddd" or "ddd.ddd", as an exact value; None for
   * any other text.
   */
  function UnsignedDecimal(t: string): (r: Option<real>)
    ensures r.Some? ==> r.value >= 0.0
  {
    var dot := LastIndexOf(t, ".");
    if dot == -1 then (if AllDigits(t) then Some(ParseNat(t) as real) else None)
    else if AllDigits(t[..dot]) && AllDigits(t[dot + 1..]) then
      Some(ParseNat(t[..dot]) as real + ParseNat(t[dot + 1..]) as real / Pow10(|t| - dot - 1) as real)
    else None
  }

  /**
   * The decimal a string spells, ignoring surrounding spaces: an optional
   * sign, digits, and optionally a point and more digits; None otherwise.
   */
  function DecimalReal(s: string): (r: Option<real>)
  {
    SignedDecimal(Trimmed(s))
  }

  /** An optional sign and an unsigned decimal, with nothing around them; None otherwise. */
  function SignedDecimal(t: string): (r: Option<real>)
  {
    if |t| >= 1 && (t[0] == '-' || t[0] == '+') then
      var u := UnsignedDecimal(t[1..]);
      if u.None? then None else Some(if t[0] == '-' then -u.value else u.value)
    else UnsignedDecimal(t)
  }

  /**
   * QVariant `toReal()`: a number converts, a bool gives 1 or 0, a string
   * is read as a decimal (`QString::toDouble`, 0 when it is none); anything
   * else gives 0.
   */
  function ToReal(v: Value): (r: real)
    ensures v.Int? ==> r == v.i as real
    ensures v.Bool? ==> r == if v.b then 1.0 else 0.0
    ensures v.Str? && DecimalReal(v.s).Some? ==> r == DecimalReal(v.s).value
    ensures v.Str? && DecimalReal(v.s).None? ==> r == 0.0
  {
    match v
    case Int(i) => i as real
    case Bool(b) => if b then 1.0 else 0.0
    case Str(s) => if DecimalReal(s).Some? then DecimalReal(s).value else 0.0
    case _ => 0.0
  }

  /** A number or a flag turned into text by `toString()` converts back to itself. */
  lemma TextConversionsRoundTrip(n: int, b: bool)
    requires InLongLong(n)
    ensures ToInt(Str(ToStr(Int(n)))) == n
    ensures ToBool(Str(ToStr(Bool(b)))) == b
  {
    DecimalRoundTrip(n);
    assert !IsFalseWord("true");
  }

  /** Text without a '.' character has no point for the decimal reader to find. */
  lemma NoPointFound(t: string)
    requires forall i :: 0 <= i < |t| ==> t[i] != '.'
    ensures LastIndexOf(t, ".") == -1
  {
    var j := LastIndexOf(t, ".");
    if j != -1 {
      OccursAtChar(t, '.', j);
    }
  }

  /** A run of digits is read as an unsigned decimal with no fraction. */
  lemma DigitsAsDecimal(t: string)
    requires AllDigits(t)
    ensures UnsignedDecimal(t) == Some(ParseNat(t) as real)
  {
    NoPointFound(t);
  }

  /** A signed run of digits has the same value read as an integer or as a decimal. */
  lemma SignedIntegerAsDecimal(t: string)
    requires SignedInteger(t).Some?
    ensures SignedDecimal(t) == Some(SignedInteger(t).value as real)
  {
    if |t| >= 2 && (t[0] == '-' || t[0] == '+') && AllDigits(t[1..]) {
      DigitsAsDecimal(t[1..]);
    } else {
      assert AllDigits(t) && IsDigit(t[0]);
      DigitsAsDecimal(t);
    }
  }

  /** Integer text reads as the same number whether read as a whole number or as a decimal. */
  lemma IntegerTextAsReal(s: string)
    requires DecimalValue(s).Some?
    ensures ToReal(Str(s)) == DecimalValue(s).value as real
  {
    SignedIntegerAsDecimal(Trimmed(s));
  }

  /** A number written as text by `toString()` and read back by `toReal()` is that number. */
  lemma RealFromNumberText(n: int)
    requires InLongLong(n)
    ensures ToReal(Str(ToStr(Int(n)))) == ToReal(Int(n))
  {
    DecimalRoundTrip(n);
    IntegerTextAsReal(IntToString(n));
  }

  /** `toMap()` / `toObject()`: an object converts, anything else gives the empty map. */
  function ToObject(v: Value): map<string, Value>
  {
    if v.Object? then v.fields else map[]
  }

  /** `toList()` / `toArray()`: a list converts, anything else gives the empty list. */
  function ToList(v: Value): seq<Value>
  {
    if v.List? then v.items else []
  }

  /** `dict.get(key, default)`: the stored value, even a null one, when the key is present. */
  function GetOr(m: map<string, Value>, key: string, default: Value): (r: Value)
    ensures key in m ==> r == m[key]
    ensures key !in m ==> r == default
  {
    if key in m then m[key] else default
  }

  /** Python truthiness: None, False, 0, "", [] and {} are false; everything else is true. */
  predicate Truthy(v: Value)
  {
    match v
    case Null => false
    case Bool(b) => b
    case Int(i) => i != 0
    case Str(s) => s != ""
    case List(items) => items != []
    case Object(fields) => fields != map[]
  }

  /**
   * Python `str(v)` of a decoded JSON value, as an f-string shows it:
   * None, True/False, the decimal number, the text itself. Lists and
   * objects are shown by a placeholder.
   */
  function PyStr(v: Value): (r: string)
    ensures v.Str? ==> r == v.s
    ensures v == Null ==> r == "None"
  {
    match v
    case Null => "None"
    case Bool(b) => if b then "True" else "False"
    case Int(i) => IntToString(i)
    case Str(s) => s
    case List(_) => "[...]"
    case Object(_) => "{...}"
  }

  // ---------------------------------------------------------------------
  // Strings
  // ---------------------------------------------------------------------

  /** `parts.join(sep)`: the parts with `sep` between consecutive ones. */
  function Join(parts: seq<string>, sep: string): string
  {
    if |parts| == 0 then ""
    else if |parts| == 1 then parts[0]
    else parts[0] + sep + Join(parts[1..], sep)
  }

  /** Every piece between occurrences of `c`, empty pieces included. */
  function SplitAll(s: string, c: char): (r: seq<string>)
    ensures |r| >= 1
    ensures forall i :: 0 <= i < |r| ==> c !in r[i]
  {
    if |s| == 0 then [""]
    else
      var rest := SplitAll(s[1..], c);
      if s[0] == c then [""] + rest
      else [[s[0]] + rest[0]] + rest[1..]
  }

  /** Drop the empty strings at the end of a list. */
  function DropTrailingEmpty(parts: seq<string>): (r: seq<string>)
    ensures |r| <= |parts| && r == parts[..|r|]
    ensures |r| > 0 ==> r[|r| - 1] != ""
    ensures forall i :: |r| <= i < |parts| ==> parts[i] == ""
  {
    if |parts| > 0 && parts[|parts| - 1] == "" then DropTrailingEmpty(parts[..|parts| - 1])
    else parts
  }

  /**
   * Java's `String.split` with a one-character, non-meta separator: when the
   * separator never occurs the input comes back whole; otherwise the pieces,
   * with trailing empty pieces removed.
   */
  function JavaSplit(s: string, c: char): (r: seq<string>)
    ensures c !in s ==> r == [s]
  {
    if c !in s then [s] else DropTrailingEmpty(SplitAll(s, c))
  }

  lemma {:induction false} SplitAllNoSeparator(p: string, c: char)
    requires c !in p
    ensures SplitAll(p, c) == [p]
    decreases |p|
  {
    if |p| > 0 {
      SplitAllNoSeparator(p[1..], c);
      assert p == [p[0]] + p[1..];
    }
  }

  lemma {:induction false} SplitAllFront(p: string, c: char, t: string)
    requires c !in p
    ensures SplitAll(p + [c] + t, c) == [p] + SplitAll(t, c)
    decreases |p|
  {
    var s := p + [c] + t;
    if |p| == 0 {
      assert s[1..] == t;
    } else {
      assert s[1..] == p[1..] + [c] + t;
      SplitAllFront(p[1..], c, t);
      assert [p[0]] + p[1..] == p;
    }
  }

  /** Splitting a join on a separator no part contains gives back the parts. */
  lemma {:induction false} SplitAllJoin(parts: seq<string>, c: char)
    requires |parts| >= 1
    requires forall i :: 0 <= i < |parts| ==> c !in parts[i]
    ensures SplitAll(Join(parts, [c]), c) == parts
    decreases |parts|
  {
    if |parts| == 1 {
      SplitAllNoSeparator(parts[0], c);
    } else {
      SplitAllJoin(parts[1..], c);
      SplitAllFront(parts[0], c, Join(parts[1..], [c]));
    }
  }

  /** `pat` occurs in `s` starting at index `j`. */
  predicate OccursAt(s: string, pat: string, j: int)
  {
    0 <= j <= |s| - |pat| && s[j..j + |pat|] == pat
  }

  /**
   * Java `s.lastIndexOf(pat)`: the largest index at which `pat` occurs in
   * `s`, or -1 when it does not occur.
   */
  function LastIndexOf(s: string, pat: string): (r: int)
    ensures r == -1 || OccursAt(s, pat, r)
    ensures forall j :: r < j ==> !OccursAt(s, pat, j)
  {
    LastIndexAtOrBefore(s, pat, |s| - |pat|)
  }

  function LastIndexAtOrBefore(s: string, pat: string, k: int): (r: int)
    requires k <= |s| - |pat|
    ensures r == -1 || (OccursAt(s, pat, r) && r <= k)
    ensures forall j :: r < j <= k ==> !OccursAt(s, pat, j)
    decreases k + 1
  {
    if k < 0 then -1
    else if s[k..k + |pat|] == pat then k
    else LastIndexAtOrBefore(s, pat, k - 1)
  }

  /** An occurrence with none after it is the last one. */
  lemma LastIndexOfIs(s: string, pat: string, p: int)
    requires OccursAt(s, pat, p)
    requires forall j :: p < j ==> !OccursAt(s, pat, j)
    ensures LastIndexOf(s, pat) == p
  {
  }

  /** A one-character pattern occurs exactly where that character stands. */
  lemma OccursAtChar(s: string, c: char, j: int)
    ensures OccursAt(s, [c], j) <==> 0 <= j < |s| && s[j] == c
  {
    if 0 <= j < |s| {
      assert s[j..j + 1] == [s[j]];
    }
  }

  /** Whether `pat` occurs somewhere in `s`. */
  predicate Contains(s: string, pat: string)
  {
    exists j | 0 <= j <= |s| - |pat| :: OccursAt(s, pat, j)
  }

  function DigitChar(d: int): (c: char)
    requires 0 <= d < 10
    ensures '0' <= c <= '9' && c as int - '0' as int == d
  {
    ('0' as int + d) as char
  }

  predicate IsDigit(c: char)
  {
    '0' <= c <= '9'
  }

  function DigitValue(c: char): int
  {
    c as int - '0' as int
  }

  /** Two-digit zero padding, as `HH`, `mm` or `padStart(2, '0')`. */
  function Pad2(n: int): (r: string)
    requires 0 <= n < 100
    ensures |r| == 2 && IsDigit(r[0]) && IsDigit(r[1])
    ensures DigitValue(r[0]) * 10 + DigitValue(r[1]) == n
  {
    [DigitChar(n / 10), DigitChar(n % 10)]
  }

  /** Decimal rendering of a natural number, most significant digit first. */
  function NatToString(n: nat): (r: string)
    ensures |r| >= 1
    ensures forall i :: 0 <= i < |r| ==> IsDigit(r[i])
    ensures ParseNat(r) == n
  {
    if n < 10 then [DigitChar(n)]
    else
      var r := NatToString(n / 10) + [DigitChar(n % 10)];
      assert r[..|r| - 1] == NatToString(n / 10);
      r
  }

  /** The value of a string of decimal digits. */
  function ParseNat(s: string): nat
  {
    if |s| == 0 then 0
    else
      var d := DigitValue(s[|s| - 1]);
      ParseNat(s[..|s| - 1]) * 10 + (if 0 <= d < 10 then d else 0)
  }

  /** Decimal rendering of any integer, with a leading '-' when negative. */
  function IntToString(n: int): (r: string)
    ensures n >= 0 ==> r == NatToString(n)
    ensures n < 0 ==> r == "-" + NatToString(-n)
  {
    if n >= 0 then NatToString(n) else "-" + NatToString(-n)
  }

  /** Whether a string is all Python whitespace (`s.strip() == ""`). */
  predicate IsBlank(s: string)
  {
    forall i :: 0 <= i < |s| ==> IsPyWhitespace(s[i])
  }

  /**
   * Python `str.isspace` for one character: the ASCII whitespace, the
   * separators U+001C to U+001F, U+0085, and the Unicode space, line and
   * paragraph separators (no-break spaces included).
   */
  predicate IsPyWhitespace(c: char)
  {
    var n := c as int;
    IsSpace(c) || 0x1C <= n <= 0x1F || n == 0x85 || n == 0xA0 || n == 0x1680 || 0x2000 <= n <= 0x200A
    || n == 0x2028 || n == 0x2029 || n == 0x202F || n == 0x205F || n == 0x3000
  }

  /** Space, tab, line feed, vertical tab, form feed or carriage return. */
  predicate IsSpace(c: char)
  {
    c == ' ' || '\t' <= c <= '\r'
  }

  /** Java `s.trim().isEmpty()`: every character is at most U+0020. */
  predicate TrimsToEmpty(s: string)
  {
    forall i :: 0 <= i < |s| ==> s[i] <= ' '
  }

  /**
   * Java `Character.isWhitespace`: the ASCII whitespace above, the
   * separators U+001C to U+001F, and the Unicode space, line and paragraph
   * separators other than the no-break spaces.
   */
  predicate IsJavaWhitespace(c: char)
  {
    var n := c as int;
    IsSpace(c) || 0x1C <= n <= 0x1F || n == 0x1680 || 0x2000 <= n <= 0x2006 || 0x2008 <= n <= 0x200A
    || n == 0x2028 || n == 0x2029 || n == 0x205F || n == 0x3000
  }

  /**
   * JavaScript white space and line terminators, as `String.prototype.trim`
   * and `parseInt` skip them: tab, line feed, vertical tab, form feed,
   * carriage return, U+FEFF and the Unicode space separators, line and
   * paragraph separators (no-break spaces included).
   */
  predicate IsJsWhitespace(c: char)
  {
    var n := c as int;
    IsSpace(c) || n == 0xA0 || n == 0x1680 || 0x2000 <= n <= 0x200A || n == 0x2028 || n == 0x2029
    || n == 0x202F || n == 0x205F || n == 0x3000 || n == 0xFEFF
  }

  /** Spring `StringUtils.hasText`: non-null and holding a character that is not Java whitespace. */
  predicate HasText(s: Option<string>)
  {
    s.Some? && exists i :: 0 <= i < |s.value| && !IsJavaWhitespace(s.value[i])
  }

  predicate IsPrefix(p: string, s: string)
  {
    |p| <= |s| && s[..|p|] == p
  }

  /** Some element of a non-empty set of ids. */
  method PickKey(keys: set<int>) returns (k: int)
    requires keys != {}
    ensures k in keys
  {
    if forall j :: j !in keys {
      assert false;
    }
    k :| k in keys;
  }
}
