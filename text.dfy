/**
 * The two Python string operations the parsers rely on: the substring test
 * `sub in s` and Python 2's `int()` applied to a whitespace-free token.
 */
module Text {
  import opened Wrappers

  /** Python's `sub in s` on strings, scanning from the left. */
  predicate Contains(s: string, sub: string)
    decreases |s|
  {
    if |s| < |sub| then false
    else if s[..|sub|] == sub then true
    else |s| > 0 && Contains(s[1..], sub)
  }

  /** The window of `s` starting at `i` spells `sub`. */
  ghost predicate MatchesAt(s: string, sub: string, i: int)
  {
    0 <= i <= |s| - |sub| && s[i..i + |sub|] == sub
  }

  /** Reference definition of the substring test: some window of `s` spells `sub`. */
  ghost predicate HasWindow(s: string, sub: string)
  {
    exists i :: MatchesAt(s, sub, i)
  }

  lemma {:induction false} ContainsIsWindow(s: string, sub: string)
    ensures Contains(s, sub) <==> HasWindow(s, sub)
    decreases |s|
  {
    if |s| < |sub| {
    } else if s[..|sub|] == sub {
      assert MatchesAt(s, sub, 0);
    } else if |s| > 0 {
      ContainsIsWindow(s[1..], sub);
      if Contains(s[1..], sub) {
        var i :| MatchesAt(s[1..], sub, i);
        assert s[i + 1..i + 1 + |sub|] == s[1..][i..i + |sub|];
        assert MatchesAt(s, sub, i + 1);
      }
      if HasWindow(s, sub) {
        var i :| MatchesAt(s, sub, i);
        assert i != 0;
        assert s[1..][i - 1..i - 1 + |sub|] == s[i..i + |sub|];
        assert MatchesAt(s[1..], sub, i - 1);
      }
    }
  }

  /** A word that contains a non-empty `sub` contains its first character. */
  lemma {:induction false} ContainsFirstChar(s: string, sub: string)
    requires |sub| > 0
    ensures Contains(s, sub) ==> sub[0] in s
    decreases |s|
  {
    if Contains(s, sub) && s[..|sub|] != sub {
      ContainsFirstChar(s[1..], sub);
      assert sub[0] in s[1..];
    }
  }

  /** Concatenation is associative; stated once so that proofs can cite it. */
  lemma AppendAssoc<T>(a: seq<T>, b: seq<T>, c: seq<T>)
    ensures a + (b + c) == (a + b) + c
  {
  }

  predicate IsDigit(c: char)
  {
    '0' <= c <= '9'
  }

  predicate AllDigits(s: string)
  {
    forall i :: 0 <= i < |s| ==> IsDigit(s[i])
  }

  /** The number a run of decimal digits spells, most significant digit first. */
  function DigitsValue(s: string): nat
    requires AllDigits(s)
  {
    if s == [] then 0
    else 10 * DigitsValue(s[..|s| - 1]) + (s[|s| - 1] as int - '0' as int)
  }

  /**
   * Python 2's `int(token)` for a token without surrounding blanks: an optional
   * `+` or `-` followed by one or more decimal digits; anything else raises
   * ValueError, which is None here.
   */
  function ParseInt(s: string): Option<int>
  {
    if |s| > 0 && (s[0] == '+' || s[0] == '-') then
      var digits := s[1..];
      if digits != [] && AllDigits(digits) then
        var magnitude: int := DigitsValue(digits);
        Some(if s[0] == '-' then -magnitude else magnitude)
      else None
    else if s != [] && AllDigits(s) then Some(DigitsValue(s))
    else None
  }

  function DigitChar(d: nat): char
    requires d < 10
  {
    ('0' as int + d) as char
  }

  /** Decimal spelling of a natural number, without leading zeros. */
  function NatToString(n: nat): string
  {
    if n < 10 then [DigitChar(n)] else NatToString(n / 10) + [DigitChar(n % 10)]
  }

  /** Python's `str()` of an integer. */
  function IntToString(n: int): string
  {
    if n < 0 then "-" + NatToString(-n) else NatToString(n)
  }

  lemma {:induction false} NatToStringDigits(n: nat)
    ensures NatToString(n) != [] && AllDigits(NatToString(n))
    ensures DigitsValue(NatToString(n)) == n
  {
    var s := NatToString(n);
    if n >= 10 {
      NatToStringDigits(n / 10);
      assert s[..|s| - 1] == NatToString(n / 10);
    }
  }

  lemma {:induction false} NatToStringLeadsWithDigit(n: nat)
    ensures NatToString(n) != [] && IsDigit(NatToString(n)[0])
  {
    if n >= 10 {
      NatToStringLeadsWithDigit(n / 10);
    }
  }

  /** `int(str(n)) == n`. */
  lemma IntRoundTrip(n: int)
    ensures ParseInt(IntToString(n)) == Some(n)
  {
    if n < 0 {
      var digits := NatToString(-n);
      NatToStringDigits(-n);
      var s := "-" + digits;
      assert s[0] == '-' && s[1..] == digits;
      var magnitude: int := DigitsValue(digits);
      assert ParseInt(s) == Some(-magnitude);
    } else {
      var s := NatToString(n);
      NatToStringDigits(n);
      NatToStringLeadsWithDigit(n);
      assert s[0] != '+' && s[0] != '-';
      assert ParseInt(s) == Some(DigitsValue(s));
    }
  }
}
