/**
  The Python string operations the bot relies on: `str.strip()`, `str.lower()`,
  `str.split(sep)` and `str.isdigit()` on ASCII, plus the localized cancel word
  that every registration step recognises.
 */
module Text {

  /** ASCII decimal digit. */
  predicate IsDigit(c: char) {
    '0' <= c <= '9'
  }

  predicate AllDigits(s: string) {
    forall i :: 0 <= i < |s| ==> IsDigit(s[i])
  }

  /** The characters Python's `str.isspace()` accepts, which `str.strip()` removes. */
  predicate IsSpace(c: char) {
    || c == ' '
    || '\t' <= c <= '\r'
    || '\U{1C}' <= c <= '\U{1F}'
    || c == '\U{85}' || c == '\U{A0}' || c == '\U{1680}'
    || '\U{2000}' <= c <= '\U{200A}'
    || c == '\U{2028}' || c == '\U{2029}' || c == '\U{202F}' || c == '\U{205F}' || c == '\U{3000}'
  }

  /** `s.lstrip()`: drops the leading whitespace and nothing else. */
  function TrimLeft(s: string): (r: string)
    ensures |r| <= |s|
    ensures forall i :: 0 <= i < |s| - |r| ==> IsSpace(s[i])
    ensures r != [] ==> !IsSpace(r[0])
  {
    if s != [] && IsSpace(s[0]) then TrimLeft(s[1..]) else s
  }

  /** `s.rstrip()`: drops the trailing whitespace and nothing else. */
  function TrimRight(s: string): (r: string)
    ensures |r| <= |s|
    ensures forall i :: |r| <= i < |s| ==> IsSpace(s[i])
    ensures r != [] ==> !IsSpace(r[|r| - 1])
  {
    if s != [] && IsSpace(s[|s| - 1]) then TrimRight(s[..|s| - 1]) else s
  }

  /** What `lstrip()` keeps is a suffix of its argument. */
  lemma {:induction false} TrimLeftSuffix(s: string)
    ensures TrimLeft(s) == s[|s| - |TrimLeft(s)|..]
  {
    if s != [] && IsSpace(s[0]) {
      TrimLeftSuffix(s[1..]);
    }
  }

  /** What `rstrip()` keeps is a prefix of its argument. */
  lemma {:induction false} TrimRightPrefix(s: string)
    ensures TrimRight(s) == s[..|TrimRight(s)|]
  {
    if s != [] && IsSpace(s[|s| - 1]) {
      TrimRightPrefix(s[..|s| - 1]);
    }
  }

  /** `s.strip()`. */
  function Strip(s: string): (r: string)
    ensures |r| <= |s|
    ensures r != [] ==> !IsSpace(r[0]) && !IsSpace(r[|r| - 1])
  {
    var l := TrimLeft(s);
    TrimRightPrefix(l);
    TrimRight(l)
  }

  /** Only an all-whitespace string strips to the empty string. */
  lemma StripEmpty(s: string)
    ensures Strip(s) == [] <==> forall i :: 0 <= i < |s| ==> IsSpace(s[i])
  {
    var l := TrimLeft(s);
    TrimLeftSuffix(s);
    TrimRightPrefix(l);
    if l != [] {
      assert !IsSpace(s[|s| - |l|]);
    }
  }

  /** Whitespace on either side of a word is exactly what strip removes. */
  lemma {:induction false} StripPadded(pre: string, w: string, post: string)
    requires forall i :: 0 <= i < |pre| ==> IsSpace(pre[i])
    requires forall i :: 0 <= i < |post| ==> IsSpace(post[i])
    requires w != [] && !IsSpace(w[0]) && !IsSpace(w[|w| - 1])
    ensures Strip(pre + w + post) == w
  {
    TrimLeftSpaces(pre, w + post);
    assert TrimLeft(pre + w + post) == w + post by {
      assert pre + w + post == pre + (w + post);
    }
    TrimRightSpaces(w, post);
  }

  lemma {:induction false} TrimLeftSpaces(pre: string, x: string)
    requires forall i :: 0 <= i < |pre| ==> IsSpace(pre[i])
    requires x != [] && !IsSpace(x[0])
    ensures TrimLeft(pre + x) == x
  {
    if pre != [] {
      assert (pre + x)[1..] == pre[1..] + x;
      TrimLeftSpaces(pre[1..], x);
    }
  }

  lemma {:induction false} TrimRightSpaces(x: string, post: string)
    requires forall i :: 0 <= i < |post| ==> IsSpace(post[i])
    requires x != [] && !IsSpace(x[|x| - 1])
    ensures TrimRight(x + post) == x
    decreases |post|
  {
    if post != [] {
      var p := post[..|post| - 1];
      assert (x + post)[..|x + post| - 1] == x + p;
      TrimRightSpaces(x, p);
    }
  }

  /**
    Python's `str.lower()` on the ASCII capitals, the Cyrillic capitals
    U+0400 to U+042F (including the Ukrainian І, Ї and Є) and Ґ; every other
    character is left unchanged.
   */
  function LowerChar(c: char): char {
    if 'A' <= c <= 'Z' then (c as int + 0x20) as char
    else if '\U{0410}' <= c <= '\U{042F}' then (c as int + 0x20) as char
    else if '\U{0400}' <= c <= '\U{040F}' then (c as int + 0x50) as char
    else if c == '\U{0490}' then '\U{0491}'
    else c
  }

  function Lower(s: string): string {
    if s == [] then [] else [LowerChar(s[0])] + Lower(s[1..])
  }

  /** `lower()` maps each character on its own and keeps the length. */
  lemma {:induction false} LowerEach(s: string)
    ensures |Lower(s)| == |s|
    ensures forall i :: 0 <= i < |s| ==> Lower(s)[i] == LowerChar(s[i])
  {
    if s != [] {
      LowerEach(s[1..]);
    }
  }

  /** The localized word for "cancel" that ends a registration at any step. */
  const CancelWord: string := "відміна"

  /** `text.strip().lower() == "відміна"`. */
  predicate IsCancel(text: string) {
    Lower(Strip(text)) == CancelWord
  }

  /**
    The cancel word is recognised in any mix of upper and lower case and with
    any surrounding whitespace.
   */
  lemma CancelAnyCaseAndPadding(pre: string, w: string, post: string)
    requires forall i :: 0 <= i < |pre| ==> IsSpace(pre[i])
    requires forall i :: 0 <= i < |post| ==> IsSpace(post[i])
    requires Lower(w) == CancelWord
    ensures IsCancel(pre + w + post)
  {
    LowerEach(w);
    assert LowerChar(w[0]) == CancelWord[0];
    assert LowerChar(w[|w| - 1]) == CancelWord[6];
    StripPadded(pre, w, post);
  }

  /** Python's `s.split(sep)`: the pieces between occurrences of `sep`. */
  function Split(s: string, sep: char): (parts: seq<string>)
    ensures |parts| >= 1
    ensures forall i :: 0 <= i < |parts| ==> sep !in parts[i]
  {
    if s == [] then [[]]
    else
      var rest := Split(s[1..], sep);
      if s[0] == sep then [[]] + rest
      else [[s[0]] + rest[0]] + rest[1..]
  }

  /** `sep.join(parts)`. */
  function Join(parts: seq<string>, sep: char): string
    requires |parts| >= 1
  {
    if |parts| == 1 then parts[0] else parts[0] + [sep] + Join(parts[1..], sep)
  }

  /** Splitting loses nothing: joining the pieces back gives the original text. */
  lemma {:induction false} JoinSplit(s: string, sep: char)
    ensures Join(Split(s, sep), sep) == s
  {
    if s != [] {
      var rest := Split(s[1..], sep);
      JoinSplit(s[1..], sep);
      if s[0] != sep {
        var parts := Split(s, sep);
        assert parts[0] == [s[0]] + rest[0];
        assert parts[1..] == rest[1..];
        if |rest| > 1 {
          assert Join(rest, sep) == rest[0] + [sep] + Join(rest[1..], sep);
        }
      }
    }
  }

  /** Text without the separator is a single piece. */
  lemma {:induction false} SplitNoSeparator(a: string, sep: char)
    requires sep !in a
    ensures Split(a, sep) == [a]
  {
    if a != [] {
      assert a[0] != sep && [a[0]] + a[1..] == a;
      SplitNoSeparator(a[1..], sep);
    }
  }

  /** The first separator ends the first piece. */
  lemma {:induction false} SplitAtSeparator(a: string, sep: char, b: string)
    requires sep !in a
    ensures Split(a + [sep] + b, sep) == [a] + Split(b, sep)
  {
    if a == [] {
      assert a + [sep] + b == [sep] + b;
      assert ([sep] + b)[1..] == b;
    } else {
      var s := a + [sep] + b;
      assert s[0] == a[0] != sep && [a[0]] + a[1..] == a;
      assert s[1..] == a[1..] + [sep] + b;
      SplitAtSeparator(a[1..], sep, b);
      var rest := Split(s[1..], sep);
      assert rest == [a[1..]] + Split(b, sep);
      assert Split(s, sep) == [[a[0]] + rest[0]] + rest[1..];
    }
  }
}
