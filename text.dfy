/** Decimal rendering and prefix/suffix tests for the log messages. */
module Text {

  predicate IsDigit(c: char)
  {
    '0' <= c <= '9'
  }

  function DigitChar(d: nat): (c: char)
    requires d < 10
    ensures IsDigit(c)
  {
    ['0', '1', '2', '3', '4', '5', '6', '7', '8', '9'][d]
  }

  /** Python's `str(n)` for a natural number: decimal digits, no leading zero. */
  function NatToString(n: nat): (s: string)
    ensures |s| > 0
    ensures forall i :: 0 <= i < |s| ==> IsDigit(s[i])
    decreases n
  {
    if n < 10 then [DigitChar(n)] else NatToString(n / 10) + [DigitChar(n % 10)]
  }

  /** Python's `str(i)` for an integer. */
  function IntToString(i: int): (s: string)
    ensures |s| > 0
  {
    if i < 0 then "-" + NatToString(-i) else NatToString(i)
  }

  predicate StartsWith(s: string, prefix: string)
  {
    |prefix| <= |s| && s[..|prefix|] == prefix
  }

  predicate EndsWith(s: string, suffix: string)
  {
    |suffix| <= |s| && s[|s| - |suffix|..] == suffix
  }

  lemma EndsWithAppend(a: string, suffix: string)
    ensures EndsWith(a + suffix, suffix)
  {
    assert (a + suffix)[|a + suffix| - |suffix|..] == suffix;
  }

  lemma StartsWithAppend(prefix: string, b: string)
    ensures StartsWith(prefix + b, prefix)
  {
    assert (prefix + b)[..|prefix|] == prefix;
  }

  lemma EndsWithPrepend(a: string, b: string, suffix: string)
    ensures EndsWith(b, suffix) ==> EndsWith(a + b, suffix)
  {
    if EndsWith(b, suffix) {
      assert (a + b)[|a + b| - |suffix|..] == b[|b| - |suffix|..];
    }
  }

  lemma StartsWithPrepend(a: string, b: string, prefix: string)
    ensures StartsWith(b, prefix) ==> StartsWith(a + b, a + prefix)
  {
    if StartsWith(b, prefix) {
      assert (a + b)[..|a + prefix|] == a + b[..|prefix|];
    }
  }

  lemma EndsWithAt(s: string, suffix: string, k: nat)
    requires EndsWith(s, suffix) && 0 < k <= |suffix|
    ensures s[|s| - k] == suffix[|suffix| - k]
  {
    assert s[|s| - |suffix|..][|suffix| - k] == s[|s| - k];
  }
}
