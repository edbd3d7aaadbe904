/** Strings as the program uses them: JavaScript `trim`, decimal digits, `padStart`. */
module Text {

  /** The WhiteSpace and LineTerminator code points of ECMAScript, which
      `String.prototype.trim` removes from both ends of a string. */
  predicate IsWhitespace(c: char) {
    || c == '\t' || c == '\n' || c == '\U{000B}' || c == '\U{000C}' || c == '\r'
    || c == ' ' || c == '\U{00A0}' || c == '\U{1680}'
    || ('\U{2000}' <= c <= '\U{200A}')
    || c == '\U{2028}' || c == '\U{2029}' || c == '\U{202F}' || c == '\U{205F}'
    || c == '\U{3000}' || c == '\U{FEFF}'
  }

  predicate AllWhitespace(s: string) {
    forall k :: 0 <= k < |s| ==> IsWhitespace(s[k])
  }

  /** `s` with its leading whitespace removed: a suffix of `s`. */
  function TrimStart(s: string): (r: string)
    ensures |r| <= |s| && r == s[|s| - |r|..]
    ensures AllWhitespace(s[..|s| - |r|])
    ensures |r| > 0 ==> !IsWhitespace(r[0])
  {
    if |s| > 0 && IsWhitespace(s[0]) then TrimStart(s[1..]) else s
  }

  /** `s` with its trailing whitespace removed: a prefix of `s`. */
  function TrimEnd(s: string): (r: string)
    ensures |r| <= |s| && r == s[..|r|]
    ensures AllWhitespace(s[|r|..])
    ensures |r| > 0 ==> !IsWhitespace(r[|r| - 1])
  {
    if |s| > 0 && IsWhitespace(s[|s| - 1]) then TrimEnd(s[..|s| - 1]) else s
  }

  /** JavaScript's `s.trim()`: the infix of `s` left once the whitespace at both
      ends is gone. */
  function Trim(s: string): (r: string)
    ensures |r| <= |s|
    ensures |r| > 0 ==> !IsWhitespace(r[0]) && !IsWhitespace(r[|r| - 1])
    ensures r == [] <==> AllWhitespace(s)
  {
    var t := TrimStart(s);
    var r := TrimEnd(t);
    if r == [] then
      assert AllWhitespace(t) by { assert t[|r|..] == t; }
      assert s == s[..|s| - |t|] + t;
      r
    else
      r
  }

  /** Whitespace in front of a string that does not start with whitespace is
      exactly what `TrimStart` removes. */
  lemma {:induction false} TrimStartOfPadded(lead: string, u: string)
    requires AllWhitespace(lead)
    requires |u| > 0 ==> !IsWhitespace(u[0])
    ensures TrimStart(lead + u) == u
  {
    if |lead| == 0 {
      assert lead + u == u;
    } else {
      assert (lead + u)[0] == lead[0];
      assert (lead + u)[1..] == lead[1..] + u;
      TrimStartOfPadded(lead[1..], u);
    }
  }

  /** Whitespace behind a string that does not end with whitespace is exactly
      what `TrimEnd` removes. */
  lemma {:induction false} TrimEndOfPadded(u: string, trail: string)
    requires AllWhitespace(trail)
    requires |u| > 0 ==> !IsWhitespace(u[|u| - 1])
    ensures TrimEnd(u + trail) == u
  {
    if |trail| == 0 {
      assert u + trail == u;
    } else {
      var s := u + trail;
      assert s[|s| - 1] == trail[|trail| - 1];
      assert s[..|s| - 1] == u + trail[..|trail| - 1];
      TrimEndOfPadded(u, trail[..|trail| - 1]);
    }
  }

  /** Trimming a string whose ends are not whitespace, padded with whitespace
      on both sides, gives that string back: whatever `trim` keeps is determined
      by the non-whitespace ends alone. */
  lemma TrimOfPadded(lead: string, t: string, trail: string)
    requires AllWhitespace(lead) && AllWhitespace(trail)
    requires |t| > 0 ==> !IsWhitespace(t[0]) && !IsWhitespace(t[|t| - 1])
    ensures Trim(lead + t + trail) == t
  {
    var s := lead + t + trail;
    if |t| == 0 {
      assert s == lead + trail;
      assert AllWhitespace(s) by {
        forall k | 0 <= k < |s| ensures IsWhitespace(s[k]) {
          if k < |lead| { assert s[k] == lead[k]; } else { assert s[k] == trail[k - |lead|]; }
        }
      }
    } else {
      assert s == lead + (t + trail);
      assert (t + trail)[0] == t[0];
      TrimStartOfPadded(lead, t + trail);
      TrimEndOfPadded(t, trail);
    }
  }

  /** Trimming twice is trimming once. */
  lemma TrimIdempotent(s: string)
    ensures Trim(Trim(s)) == Trim(s)
  {
    TrimOfPadded([], Trim(s), []);
    assert [] + Trim(s) + [] == Trim(s);
  }

  predicate IsDigit(c: char) {
    '0' <= c <= '9'
  }

  predicate AllDigits(s: string) {
    forall k :: 0 <= k < |s| ==> IsDigit(s[k])
  }

  function DigitChar(d: nat): (c: char)
    requires d < 10
    ensures IsDigit(c) && c as int - '0' as int == d
  {
    ('0' as int + d) as char
  }

  function DigitValue(c: char): (d: nat)
    requires IsDigit(c)
    ensures d < 10 && DigitChar(d) == c
  {
    c as int - '0' as int
  }

  /** The value of a string of decimal digits (`parseInt` on digits only);
      the empty string is worth 0. */
  function DigitsValue(s: string): nat
    requires AllDigits(s)
  {
    if |s| == 0 then 0 else 10 * DigitsValue(s[..|s| - 1]) + DigitValue(s[|s| - 1])
  }

  /** `String(n)` for a natural number: its decimal digits, with no leading zero. */
  function NatToString(n: nat): (r: string)
    ensures |r| >= 1 && AllDigits(r)
    ensures r[0] == '0' ==> n == 0 && r == "0"
  {
    if n < 10 then [DigitChar(n)] else NatToString(n / 10) + [DigitChar(n % 10)]
  }

  /** Reading back the digits of `n` gives `n`. */
  lemma {:induction false} NatToStringRoundTrip(n: nat)
    ensures DigitsValue(NatToString(n)) == n
  {
    if n >= 10 {
      var s := NatToString(n);
      assert s[..|s| - 1] == NatToString(n / 10);
      NatToStringRoundTrip(n / 10);
    }
  }

  /** Leading zeros do not change the value of a digit string. */
  lemma {:induction false} LeadingZerosValue(zeros: string, s: string)
    requires forall k :: 0 <= k < |zeros| ==> zeros[k] == '0'
    requires AllDigits(s)
    ensures AllDigits(zeros + s)
    ensures DigitsValue(zeros + s) == DigitsValue(s)
  {
    var z := zeros + s;
    assert AllDigits(z) by {
      forall k | 0 <= k < |z| ensures IsDigit(z[k]) {
        if k < |zeros| { assert z[k] == zeros[k]; } else { assert z[k] == s[k - |zeros|]; }
      }
    }
    if |s| == 0 {
      assert z == zeros;
      if |zeros| > 0 {
        var init := zeros[..|zeros| - 1];
        LeadingZerosValue(init, []);
        assert init + [] == init;
        assert z[..|z| - 1] == init;
        assert DigitValue(z[|z| - 1]) == 0;
      }
    } else {
      assert z[..|z| - 1] == zeros + s[..|s| - 1];
      LeadingZerosValue(zeros, s[..|s| - 1]);
    }
  }

  /** `count` copies of `c`. */
  function Repeat(c: char, count: nat): (r: string)
    ensures |r| == count && forall k :: 0 <= k < count ==> r[k] == c
  {
    if count == 0 then [] else [c] + Repeat(c, count - 1)
  }

  /** JavaScript's `s.padStart(width, fill)` for a one-character fill: never
      truncates, and pads on the left up to `width` characters. */
  function PadStart(s: string, width: nat, fill: char): (r: string)
    ensures |r| == if |s| >= width then |s| else width
    ensures r[|r| - |s|..] == s
    ensures forall k :: 0 <= k < |r| - |s| ==> r[k] == fill
  {
    if |s| >= width then s else Repeat(fill, width - |s|) + s
  }
}
