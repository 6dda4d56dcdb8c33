/**
  Phone normalisation and validation of the registration's phone step
  (`get_phone`, bot.py:330-347): keep only digits and '+', put a '+' in front
  when missing, and accept only a Ukrainian mobile number "+380" followed by
  nine digits.
 */
module PhoneNumber {
  import opened Wrappers
  import opened Text

  predicate IsPhoneChar(c: char) {
    IsDigit(c) || c == '+'
  }

  predicate AllPhoneChars(s: string) {
    forall i :: 0 <= i < |s| ==> IsPhoneChar(s[i])
  }

  /** `re.sub(r"[^\d+]", "", s)`: the digits and plus signs of `s`, in order. */
  function KeepPhoneChars(s: string): (r: string)
    ensures AllPhoneChars(r)
    ensures |r| <= |s|
  {
    if s == [] then []
    else (if IsPhoneChar(s[0]) then [s[0]] else []) + KeepPhoneChars(s[1..])
  }

  /** Filtering text piece by piece is filtering it whole. */
  lemma {:induction false} KeepPhoneCharsConcat(a: string, b: string)
    ensures KeepPhoneChars(a + b) == KeepPhoneChars(a) + KeepPhoneChars(b)
  {
    if a != [] {
      assert (a + b)[0] == a[0];
      assert (a + b)[1..] == a[1..] + b;
      KeepPhoneCharsConcat(a[1..], b);
    } else {
      assert a + b == b;
    }
  }

  /** Text made only of digits and '+' passes the filter unchanged. */
  lemma {:induction false} KeepPhoneCharsIdentity(s: string)
    requires AllPhoneChars(s)
    ensures KeepPhoneChars(s) == s
  {
    if s != [] {
      KeepPhoneCharsIdentity(s[1..]);
    }
  }

  /** The phone as cleaned by `get_phone` before it is checked. */
  function Normalize(raw: string): (p: string)
    ensures p != [] && p[0] == '+'
    ensures AllPhoneChars(p)
  {
    var kept := KeepPhoneChars(raw);
    if |kept| > 0 && kept[0] == '+' then kept else "+" + kept
  }

  /** Normalising twice is normalising once. */
  lemma NormalizeIdempotent(raw: string)
    ensures Normalize(Normalize(raw)) == Normalize(raw)
  {
    KeepPhoneCharsIdentity(Normalize(raw));
  }

  /** `phone.startswith("+380") and len(phone) == 13 and phone[1:].isdigit()`. */
  predicate IsValidPhone(p: string) {
    |p| == 13 && p[..4] == "+380" && AllDigits(p[1..])
  }

  /** The phone the step stores, or None when it re-prompts. */
  function CheckPhone(raw: string): (r: Option<string>)
    ensures r.Some? ==> IsValidPhone(r.value) && r.value == Normalize(raw)
  {
    var p := Normalize(raw);
    if IsValidPhone(p) then Some(p) else None
  }

  /**
    A phone is accepted exactly when its digits and plus signs spell
    "380" or "+380" followed by nine digits, whatever else surrounds them.
   */
  lemma CheckPhoneAcceptsExactly(raw: string)
    ensures CheckPhone(raw).Some? <==>
      var k := KeepPhoneChars(raw);
      || (|k| == 12 && k[..3] == "380" && AllDigits(k))
      || (|k| == 13 && k[..4] == "+380" && AllDigits(k[1..]))
  {
    var k := KeepPhoneChars(raw);
    if |k| > 0 && k[0] == '+' {
    } else {
      var p := "+" + k;
      assert p[1..] == k;
      if |k| == 12 && k[..3] == "380" {
        assert p[..4] == "+" + k[..3];
      }
      if |p| == 13 && p[..4] == "+380" {
        assert k[..3] == p[1..4];
      }
    }
  }

  /** Every accepted phone is "+380" followed by nine digits. */
  lemma AcceptedPhoneShape(raw: string)
    requires CheckPhone(raw).Some?
    ensures var p := CheckPhone(raw).value;
      p == "+380" + p[4..] && |p[4..]| == 9 && AllDigits(p[4..])
  {
    var p := CheckPhone(raw).value;
    assert p == p[..4] + p[4..];
    forall i | 0 <= i < 9 ensures IsDigit(p[4..][i]) {
      assert p[4..][i] == p[1..][i + 3];
    }
  }

  /** Text without digits or '+' vanishes in the filter. */
  lemma {:induction false} KeepPhoneCharsNone(x: string)
    requires forall i :: 0 <= i < |x| ==> !IsPhoneChar(x[i])
    ensures KeepPhoneChars(x) == []
  {
    if x != [] {
      KeepPhoneCharsNone(x[1..]);
    }
  }

  /**
    Spaces, brackets, dashes or any other separators inserted into a number
    change neither the cleaned phone nor the verdict.
   */
  lemma SeparatorsIgnored(a: string, x: string, b: string)
    requires forall i :: 0 <= i < |x| ==> !IsPhoneChar(x[i])
    ensures Normalize(a + x + b) == Normalize(a + b)
    ensures CheckPhone(a + x + b) == CheckPhone(a + b)
  {
    assert KeepPhoneChars(a + x + b) == KeepPhoneChars(a + b) by {
      KeepPhoneCharsConcat(a + x, b);
      KeepPhoneCharsConcat(a, x);
      KeepPhoneCharsConcat(a, b);
      KeepPhoneCharsNone(x);
      assert KeepPhoneChars(a) + [] == KeepPhoneChars(a);
    }
  }

  /**
    Nine digits after "380" or after "+380" (the contact-card and typed forms)
    are accepted and stored as "+380" and the nine digits.
   */
  lemma NationalNumberAccepted(d: string)
    requires |d| == 9 && AllDigits(d)
    ensures CheckPhone("380" + d) == Some("+380" + d)
    ensures CheckPhone("+380" + d) == Some("+380" + d)
  {
    var p := "+380" + d;
    assert AllPhoneChars(p) by {
      forall i | 0 <= i < |p| ensures IsPhoneChar(p[i]) {
        if i >= 4 { assert p[i] == d[i - 4]; }
      }
    }
    assert AllDigits(p[1..]) by {
      forall i | 0 <= i < 12 ensures IsDigit(p[1..][i]) {
        if i >= 3 { assert p[1..][i] == d[i - 3]; }
      }
    }
    KeepPhoneCharsIdentity(p);
    KeepPhoneCharsIdentity(p[1..]);
    assert p[1..] == "380" + d;
    assert "+" + ("380" + d) == p;
  }
}
