/**
  The string operations the engine relies on, as Python defines them:
  `str.strip()` with no argument, the substring test `p in s`,
  `str.startswith`, and `str(n)` for integers.
*/
module Text {

  /** Python's `str.isspace()` for one character: the ASCII white space,
      the information separators U+001C..U+001F, NEL, NBSP and the Unicode
      space separators, including the ideographic space U+3000. */
  predicate IsSpace(c: char) {
    || c == ' '
    || '\t' <= c <= '\r'
    || '\U{1C}' <= c <= '\U{1F}'
    || c == '\U{85}'
    || c == '\U{A0}'
    || c == '\U{1680}'
    || '\U{2000}' <= c <= '\U{200A}'
    || c == '\U{2028}'
    || c == '\U{2029}'
    || c == '\U{202F}'
    || c == '\U{205F}'
    || c == '\U{3000}'
  }

  /** Every character of `s` is white space (true of the empty string). */
  predicate AllSpace(s: string) {
    forall k :: 0 <= k < |s| ==> IsSpace(s[k])
  }

  /** `s.lstrip()`: drops the leading white space and nothing else. */
  function TrimStart(s: string): (r: string)
    ensures |r| <= |s| && r == s[|s| - |r|..]
    ensures forall k :: 0 <= k < |s| - |r| ==> IsSpace(s[k])
    ensures |r| > 0 ==> !IsSpace(r[0])
  {
    if |s| > 0 && IsSpace(s[0]) then TrimStart(s[1..]) else s
  }

  /** `s.rstrip()`: drops the trailing white space and nothing else. */
  function TrimEnd(s: string): (r: string)
    ensures |r| <= |s| && r == s[..|r|]
    ensures forall k :: |r| <= k < |s| ==> IsSpace(s[k])
    ensures |r| > 0 ==> !IsSpace(r[|r| - 1])
  {
    if |s| > 0 && IsSpace(s[|s| - 1]) then TrimEnd(s[..|s| - 1]) else s
  }

  /** `s.strip()`: the text between the leading and the trailing white space.
      It is empty exactly when `s` is white space only, and otherwise it
      begins and ends with a character that is not white space; that it is a
      slice of `s` with only white space around it is `StripIsSlice`. */
  function Strip(s: string): (r: string)
    ensures |r| == 0 <==> AllSpace(s)
    ensures |r| > 0 ==> !IsSpace(r[0]) && !IsSpace(r[|r| - 1])
    ensures |r| <= |s|
  {
    var t := TrimStart(s);
    var r := TrimEnd(t);
    assert |r| > 0 ==> r[0] == t[0];
    assert forall k :: |s| - |t| <= k < |s| ==> s[k] == t[k - (|s| - |t|)];
    r
  }

  /** `strip()` removes white space from both ends and nothing else: the
      result is a slice of `s` with only white space before and after it. */
  lemma StripIsSlice(s: string)
    ensures exists a, b :: 0 <= a <= b <= |s| && Strip(s) == s[a..b]
                           && AllSpace(s[..a]) && AllSpace(s[b..])
  {
    var t := TrimStart(s);
    var a, b := SpaceAround(s, t, TrimEnd(t));
  }

  /** A prefix `r` of a suffix `t` of `s`, where what `t` leaves off `s` and
      what `r` leaves off `t` is white space, is a slice of `s` with only
      white space around it. */
  lemma SpaceAround(s: string, t: string, r: string) returns (a: nat, b: nat)
    requires |t| <= |s| && t == s[|s| - |t|..]
    requires |r| <= |t| && r == t[..|r|]
    requires forall k :: 0 <= k < |s| - |t| ==> IsSpace(s[k])
    requires forall k :: |r| <= k < |t| ==> IsSpace(t[k])
    ensures 0 <= a <= b <= |s| && r == s[a..b] && AllSpace(s[..a]) && AllSpace(s[b..])
  {
    a := |s| - |t|;
    b := a + |r|;
    forall k | 0 <= k < |s| - b
      ensures IsSpace(s[b..][k])
    {
      assert s[b..][k] == t[|r| + k];
    }
  }

  /** Stripping twice is stripping once. */
  lemma {:induction false} StripIdempotent(s: string)
    ensures Strip(Strip(s)) == Strip(s)
  {
    var r := Strip(s);
    if |r| > 0 {
      assert TrimStart(r) == r;
      assert TrimEnd(r) == r;
    }
  }

  /** `s.startswith(prefix)`. */
  predicate StartsWith(s: string, prefix: string) {
    |prefix| <= |s| && s[..|prefix|] == prefix
  }

  /** Python's `pattern in s`, by trying each start position in turn. */
  predicate Contains(s: string, pattern: string)
    decreases |s|
  {
    StartsWith(s, pattern) || (|s| > 0 && Contains(s[1..], pattern))
  }

  /** `pattern` occurs in `s` starting at index `i`. */
  predicate OccursAt(s: string, pattern: string, i: nat)
    requires i <= |s|
  {
    StartsWith(s[i..], pattern)
  }

  /** The recursive substring test agrees with "occurs at some index". */
  lemma {:induction false} ContainsIffOccurs(s: string, pattern: string)
    ensures Contains(s, pattern) <==> exists i: nat :: i <= |s| && OccursAt(s, pattern, i)
  {
    assert s[0..] == s;
    if StartsWith(s, pattern) {
      assert OccursAt(s, pattern, 0);
    }
    if |s| > 0 {
      ContainsIffOccurs(s[1..], pattern);
      if Contains(s[1..], pattern) {
        var i: nat :| i <= |s[1..]| && OccursAt(s[1..], pattern, i);
        assert s[1..][i..] == s[i + 1..];
        assert OccursAt(s, pattern, i + 1);
      }
      if exists i: nat :: i <= |s| && OccursAt(s, pattern, i) {
        var i: nat :| i <= |s| && OccursAt(s, pattern, i);
        if i > 0 {
          assert s[1..][i - 1..] == s[i..];
          assert OccursAt(s[1..], pattern, i - 1);
          assert Contains(s[1..], pattern);
        } else {
          assert StartsWith(s, pattern);
        }
      }
    }
  }

  /** A string contains every infix it was built around. */
  lemma {:induction false} ContainsInfix(a: string, p: string, b: string)
    ensures Contains(a + p + b, p)
  {
    var s := a + p + b;
    assert s[|a|..][..|p|] == p;
    assert OccursAt(s, p, |a|);
    ContainsIffOccurs(s, p);
  }

  /** The decimal digit for `d`. */
  function Digit(d: nat): (c: char)
    requires d < 10
    ensures '0' <= c <= '9' && c as int - '0' as int == d
  {
    ('0' as int + d) as char
  }

  predicate IsDigits(s: string) {
    forall k :: 0 <= k < |s| ==> '0' <= s[k] <= '9'
  }

  /** `str(n)` for a non-negative integer: its decimal digits, with no
      leading zero unless the number is zero. */
  function NatToString(n: nat): (r: string)
    ensures |r| > 0 && IsDigits(r)
    ensures r[0] == '0' ==> n == 0 && r == "0"
  {
    if n < 10 then [Digit(n)] else NatToString(n / 10) + [Digit(n % 10)]
  }

  /** `str(i)` for any integer: the digits of its magnitude, after a minus
      sign when it is negative. */
  function IntToString(i: int): (r: string)
    ensures i >= 0 ==> r == NatToString(i)
  {
    if i < 0 then "-" + NatToString(-i) else NatToString(i)
  }

  /** The value of a string of decimal digits. */
  function ParseDigits(s: string): nat
    requires IsDigits(s)
  {
    if s == [] then 0 else ParseDigits(s[..|s| - 1]) * 10 + (s[|s| - 1] as int - '0' as int)
  }

  /** Reading back what `NatToString` wrote gives the number again. */
  lemma {:induction false} ParseNatToString(n: nat)
    ensures ParseDigits(NatToString(n)) == n
  {
    var r := NatToString(n);
    if n >= 10 {
      ParseNatToString(n / 10);
      assert r[..|r| - 1] == NatToString(n / 10);
    } else {
      assert r[..|r| - 1] == [];
    }
  }

  /** Distinct numbers are written differently. */
  lemma {:induction false} NatToStringInjective(m: nat, n: nat)
    ensures NatToString(m) == NatToString(n) ==> m == n
  {
    ParseNatToString(m);
    ParseNatToString(n);
  }

  /** Reading `str(i)` back: a non-negative number is its digits, and a
      negative one is a minus sign followed by the digits of its magnitude. */
  lemma {:induction false} IntToStringReadsBack(i: int)
    ensures var r := IntToString(i);
      i >= 0 ==> |r| > 0 && IsDigits(r) && ParseDigits(r) == i && (r[0] == '0' ==> r == "0")
    ensures var r := IntToString(i);
      i < 0 ==> |r| >= 2 && r[0] == '-' && IsDigits(r[1..]) && ParseDigits(r[1..]) == -i
                && r[1..] == NatToString(-i) && r[1] != '0'
  {
    if i < 0 {
      ParseNatToString(-i);
      assert IntToString(i)[1..] == NatToString(-i);
    } else {
      ParseNatToString(i);
    }
  }
}
