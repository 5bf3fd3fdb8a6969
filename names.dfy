/** Entity and scene names: `f'{n}'`, the zero-padded `f'{n:06d}'` and
    `f'{n:02d}'`, Python's `int(s)` on digit strings, and `str.startswith`. */
module Names {
  import opened Common

  predicate IsDigit(c: char) { '0' <= c <= '9' }

  predicate AllDigits(s: string) { forall i :: 0 <= i < |s| ==> IsDigit(s[i]) }

  function DigitValue(c: char): nat
    requires IsDigit(c)
  {
    (c as int) - ('0' as int)
  }

  function DigitChar(d: nat): (c: char)
    requires d < 10
    ensures IsDigit(c) && DigitValue(c) == d
  {
    (d + '0' as int) as char
  }

  /** `f'{n}'` for a non-negative integer. */
  function Decimal(n: nat): (s: string)
    ensures 1 <= |s| && AllDigits(s)
    decreases n
  {
    if n < 10 then [DigitChar(n)] else Decimal(n / 10) + [DigitChar(n % 10)]
  }

  function Zeros(k: nat): (s: string)
    ensures |s| == k && AllDigits(s)
    ensures forall i :: 0 <= i < k ==> s[i] == '0'
  {
    seq(k, _ => '0')
  }

  /** `f'{n:0{width}d}'`: left-padded with zeros, never truncated. */
  function ZeroPad(n: nat, width: nat): (s: string)
    ensures AllDigits(s) && width <= |s|
  {
    var d := Decimal(n);
    if |d| < width then Zeros(width - |d|) + d else d
  }

  /** `f'{i:06d}'`, the name of scene `i` of a render. */
  function SceneName(i: nat): string { ZeroPad(i, 6) }

  /** Value of a string of decimal digits. */
  function DigitsValue(s: string): nat
    requires AllDigits(s)
    decreases |s|
  {
    if s == [] then 0 else DigitsValue(s[..|s| - 1]) * 10 + DigitValue(s[|s| - 1])
  }

  /** `int(s)` for strings of decimal digits; `None` stands for the
      `ValueError` that Python raises on an empty or non-digit string. */
  function ParseInt(s: string): Option<nat>
  {
    if s != [] && AllDigits(s) then Some(DigitsValue(s)) else None
  }

  /** `f'{int(s) + 1:06d}'`, the name of the scene after `s`. */
  function NextSceneName(s: string): Option<string>
  {
    match ParseInt(s)
    case Some(n) => Some(SceneName(n + 1))
    case None => None
  }

  function Pow10(k: nat): (p: nat)
    ensures p >= 1
  {
    if k == 0 then 1 else 10 * Pow10(k - 1)
  }

  predicate StartsWith(s: string, prefix: string)
  {
    |prefix| <= |s| && s[..|prefix|] == prefix
  }

  /** Parsing what `f'{n}'` printed gives `n` back. */
  lemma {:induction false} DecimalValue(n: nat)
    ensures DigitsValue(Decimal(n)) == n
    decreases n
  {
    if n >= 10 {
      var d := Decimal(n);
      var front := Decimal(n / 10);
      assert d == front + [DigitChar(n % 10)];
      assert d[..|d| - 1] == front;
      DecimalValue(n / 10);
    }
  }

  /** Leading zeros do not change the value of a digit string. */
  lemma {:induction false} ZerosValue(k: nat, s: string)
    requires AllDigits(s)
    ensures AllDigits(Zeros(k) + s)
    ensures DigitsValue(Zeros(k) + s) == DigitsValue(s)
    decreases |s|
  {
    var z := Zeros(k) + s;
    assert AllDigits(z) by {
      forall i | 0 <= i < |z| ensures IsDigit(z[i]) {
        if i < k { assert z[i] == '0'; } else { assert z[i] == s[i - k]; }
      }
    }
    if s == [] {
      assert z == Zeros(k);
      OnlyZerosValue(k);
    } else {
      var front := s[..|s| - 1];
      assert z[..|z| - 1] == Zeros(k) + front;
      assert z[|z| - 1] == s[|s| - 1];
      ZerosValue(k, front);
    }
  }

  lemma {:induction false} OnlyZerosValue(k: nat)
    ensures DigitsValue(Zeros(k)) == 0
  {
    if k > 0 {
      assert Zeros(k)[..k - 1] == Zeros(k - 1);
      OnlyZerosValue(k - 1);
    }
  }

  /** `int(f'{n:0{width}d}') == n`. */
  lemma ParseZeroPad(n: nat, width: nat)
    ensures ParseInt(ZeroPad(n, width)) == Some(n)
  {
    var d := Decimal(n);
    DecimalValue(n);
    if |d| < width {
      ZerosValue(width - |d|, d);
    }
  }

  /** `int(f'{i:06d}') == i`. */
  lemma ParseSceneName(i: nat)
    ensures ParseInt(SceneName(i)) == Some(i)
  {
    ParseZeroPad(i, 6);
  }

  /** Distinct indices never share a padded name. */
  lemma ZeroPadInjective(i: nat, j: nat, width: nat)
    ensures ZeroPad(i, width) == ZeroPad(j, width) ==> i == j
  {
    ParseZeroPad(i, width);
    ParseZeroPad(j, width);
  }

  lemma SceneNameInjective(i: nat, j: nat)
    ensures SceneName(i) == SceneName(j) ==> i == j
  {
    ZeroPadInjective(i, j, 6);
  }

  /** The scene after `f'{i:06d}'` is `f'{i + 1:06d}'`. */
  lemma NextOfSceneName(i: nat)
    ensures NextSceneName(SceneName(i)) == Some(SceneName(i + 1))
  {
    ParseSceneName(i);
  }

  /** A number below `10^k` prints in at most `k` digits. */
  lemma {:induction false} DecimalLength(n: nat, k: nat)
    requires 1 <= k && n < Pow10(k)
    ensures |Decimal(n)| <= k
    decreases k
  {
    if n >= 10 {
      assert k != 1;
      assert n / 10 < Pow10(k - 1);
      DecimalLength(n / 10, k - 1);
    }
  }

  /** Below `10^width`, a padded name is exactly `width` characters long. */
  lemma ZeroPadLength(n: nat, width: nat)
    requires 1 <= width && n < Pow10(width)
    ensures |ZeroPad(n, width)| == width
  {
    DecimalLength(n, width);
  }

  /** Appending the same suffix to a common prefix keeps two names apart. */
  lemma PrefixedInjective(p: string, a: string, b: string)
    ensures p + a == p + b ==> a == b
  {
    if p + a == p + b {
      assert a == (p + a)[|p|..];
      assert b == (p + b)[|p|..];
    }
  }
}
