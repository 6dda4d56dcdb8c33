/**
  Conversions between integers and their decimal text: Python's `str(n)` for
  an integer chat id and `int(s)` for a line of the users file or a piece of
  the event date.
 */
module Numerals {
  import opened Wrappers
  import opened Text

  function DigitValue(c: char): nat
    requires IsDigit(c)
  {
    c as int - '0' as int
  }

  function DigitChar(k: nat): (c: char)
    requires k < 10
    ensures IsDigit(c) && DigitValue(c) == k
  {
    ('0' as int + k) as char
  }

  /** The value of a string of decimal digits, most significant first. */
  function DigitsValue(s: string): nat
    requires AllDigits(s)
  {
    if s == [] then 0 else DigitsValue(s[..|s| - 1]) * 10 + DigitValue(s[|s| - 1])
  }

  /** The decimal digits of a natural number, without leading zeros. */
  function NatToString(n: nat): (r: string)
    ensures r != [] && AllDigits(r)
    ensures DigitsValue(r) == n
    ensures |r| > 1 ==> r[0] != '0'
  {
    if n < 10 then [DigitChar(n)]
    else
      var prefix := NatToString(n / 10);
      var r := prefix + [DigitChar(n % 10)];
      assert r[..|r| - 1] == prefix;
      r
  }

  /** Python's `str(n)` for an integer. */
  function IntToString(n: int): (r: string)
    ensures r != [] && !IsSpace(r[0]) && !IsSpace(r[|r| - 1])
  {
    if n < 0 then "-" + NatToString(-n) else NatToString(n)
  }

  /**
    CPython's default limit on the number of digits `int()` converts
    (`sys.get_int_max_str_digits()`); a longer run raises ValueError.
   */
  const MaxStrDigits: nat := 4300

  function Pow10(k: nat): (r: nat)
    ensures r >= 1
  {
    if k == 0 then 1 else 10 * Pow10(k - 1)
  }

  /** The integers whose decimal text has at most `MaxStrDigits` digits. */
  predicate WithinDigitLimit(n: int) {
    var bound: int := Pow10(MaxStrDigits);
    -bound < n < bound
  }

  /**
    The characters `int()` skips around the number: the ASCII whitespace tab,
    line feed, vertical tab, form feed, carriage return and space, and the
    non-ASCII characters `str.isspace()` accepts. Unlike `str.strip()` it
    keeps the ASCII separators U+001C to U+001F.
   */
  predicate IntSpace(c: char) {
    IsSpace(c) && !('\U{1C}' <= c <= '\U{1F}')
  }

  function IntTrimLeft(s: string): (r: string)
    ensures |r| <= |s|
    ensures r != [] ==> !IntSpace(r[0])
  {
    if s != [] && IntSpace(s[0]) then IntTrimLeft(s[1..]) else s
  }

  function IntTrimRight(s: string): (r: string)
    ensures |r| <= |s|
    ensures r != [] ==> !IntSpace(r[|r| - 1])
  {
    if s != [] && IntSpace(s[|s| - 1]) then IntTrimRight(s[..|s| - 1]) else s
  }

  /** What the right trim keeps is a prefix of its argument. */
  lemma {:induction false} IntTrimRightPrefix(s: string)
    ensures IntTrimRight(s) == s[..|IntTrimRight(s)|]
  {
    if s != [] && IntSpace(s[|s| - 1]) {
      IntTrimRightPrefix(s[..|s| - 1]);
    }
  }

  /** The text `int()` reads: the argument without the surrounding `IntSpace`. */
  function IntStrip(s: string): string {
    IntTrimRight(IntTrimLeft(s))
  }

  /**
    Python's `int(s)`: surrounding whitespace (`IntSpace`) is ignored, an
    optional sign is followed by at least one and at most `MaxStrDigits`
    decimal digits, and anything else raises ValueError, modelled as None.
   */
  function ParseInt(s: string): Option<int> {
    var t := IntStrip(s);
    if t == [] then None
    else
      var body := if t[0] == '-' || t[0] == '+' then t[1..] else t;
      if body == [] || !AllDigits(body) || |body| > MaxStrDigits then None
      else
        var v: int := DigitsValue(body);
        Some(if t[0] == '-' then -v else v)
  }

  /** A text that neither starts nor ends with `IntSpace` is read as it is. */
  lemma IntStripUnpadded(s: string)
    requires s != [] ==> !IntSpace(s[0]) && !IntSpace(s[|s| - 1])
    ensures IntStrip(s) == s
  {
  }

  /**
    A leading ASCII separator U+001C to U+001F is not skipped: `int()` raises
    ValueError, although `str.strip()` would remove it.
   */
  lemma SeparatorNotSkipped(c: char, s: string)
    requires '\U{1C}' <= c <= '\U{1F}'
    ensures IsSpace(c)
    ensures ParseInt([c] + s) == None
  {
    var x := [c] + s;
    assert IntTrimLeft(x) == x;
    IntTrimRightPrefix(x);
    if IntStrip(x) != [] {
      assert IntStrip(x)[0] == c;
    }
  }

  /** A bare run of digits reads as its decimal value. */
  lemma ParseDigits(s: string)
    requires s != [] && AllDigits(s) && |s| <= MaxStrDigits
    ensures ParseInt(s) == Some(DigitsValue(s))
  {
    IntStripUnpadded(s);
  }

  /** Two digits read as tens and units. */
  lemma TwoDigitsValue(a: char, b: char)
    requires IsDigit(a) && IsDigit(b)
    ensures AllDigits([a, b]) && DigitsValue([a, b]) == DigitValue(a) * 10 + DigitValue(b)
  {
    var s := [a, b];
    assert s[..1] == [a];
    assert DigitsValue([a]) == DigitValue(a) by {
      assert [a][..0] == [];
    }
  }

  /** A natural number below 10^k has at most k digits. */
  lemma {:induction false} NatToStringLength(n: nat, k: nat)
    requires 1 <= k && n < Pow10(k)
    ensures |NatToString(n)| <= k
  {
    if n >= 10 {
      assert n / 10 < Pow10(k - 1);
      NatToStringLength(n / 10, k - 1);
    }
  }

  /**
    `int(str(n)) == n`: every id the bot writes can be read back, as long as
    its text stays within the digit limit.
   */
  lemma ParseIntRoundTrip(n: int)
    requires WithinDigitLimit(n)
    ensures ParseInt(IntToString(n)) == Some(n)
  {
    var s := IntToString(n);
    NatToStringLength(if n < 0 then -n else n, MaxStrDigits);
    IntStripUnpadded(s);
    if n < 0 {
      assert s[1..] == NatToString(-n);
    }
  }

  /** Different ids have different decimal texts. */
  lemma IntToStringInjective(m: int, n: int)
    requires IntToString(m) == IntToString(n)
    ensures m == n
  {
    var s := IntToString(m);
    if m < 0 {
      assert s[1..] == NatToString(-m);
    }
    if n < 0 {
      assert s[1..] == NatToString(-n);
    }
  }
}
