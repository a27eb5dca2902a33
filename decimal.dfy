/** Decimal text for whole numbers: Python's `str(n)` for integers, `int(s)`
    for strings of digits, and `str.zfill`.  Used by the daily order number
    and by the SQL export. */
module Decimal {
  import opened Wrappers

  predicate IsDigit(ch: char) {
    '0' <= ch <= '9'
  }

  predicate AllDigits(s: string) {
    forall i :: 0 <= i < |s| ==> IsDigit(s[i])
  }

  function DigitValue(ch: char): (d: nat)
    requires IsDigit(ch)
    ensures d < 10
  {
    ch as int - '0' as int
  }

  function DigitChar(d: nat): (ch: char)
    requires d < 10
    ensures IsDigit(ch) && DigitValue(ch) == d
  {
    ('0' as int + d) as char
  }

  /** `str(n)` for a natural number: its digits, most significant first,
      without leading zeros. */
  function Show(n: nat): string
    decreases n
  {
    if n < 10 then [DigitChar(n)] else Show(n / 10) + [DigitChar(n % 10)]
  }

  /** `str(i)` for any integer: a minus sign in front of a negative one. */
  function ShowInt(i: int): string {
    if i < 0 then "-" + Show(-i) else Show(i)
  }

  /** The value of a string of decimal digits. */
  function Read(s: string): nat
    requires AllDigits(s)
  {
    if s == [] then 0 else Read(s[..|s| - 1]) * 10 + DigitValue(s[|s| - 1])
  }

  /** `int(s)` on strings made only of decimal digits; anything else
      (including the empty string) is refused. */
  function Parse(s: string): Option<nat> {
    if s != [] && AllDigits(s) then Some(Read(s)) else None
  }

  function Zeros(k: nat): (z: string)
    ensures |z| == k && forall i :: 0 <= i < k ==> z[i] == '0'
  {
    if k == 0 then [] else Zeros(k - 1) + ['0']
  }

  /** `s.zfill(width)` for a string of digits: zeros are put in front until the
      string is `width` long; a string already that long is left as it is. */
  function ZFill(s: string, width: nat): string {
    Zeros(if |s| < width then width - |s| else 0) + s
  }

  lemma {:induction false} ShowIsDecimal(n: nat)
    ensures |Show(n)| >= 1 && AllDigits(Show(n))
    ensures Show(n)[0] == '0' <==> n == 0
    decreases n
  {
    if n >= 10 {
      ShowIsDecimal(n / 10);
    }
  }

  /** Reading back what `Show` wrote gives the number. */
  lemma {:induction false} ReadShow(n: nat)
    ensures AllDigits(Show(n)) && Read(Show(n)) == n
    decreases n
  {
    ShowIsDecimal(n);
    if n >= 10 {
      var s := Show(n);
      assert s[..|s| - 1] == Show(n / 10);
      ReadShow(n / 10);
    }
  }

  lemma {:induction false} ReadAppend(s: string, ch: char)
    requires AllDigits(s) && IsDigit(ch)
    ensures AllDigits(s + [ch]) && Read(s + [ch]) == Read(s) * 10 + DigitValue(ch)
  {
    assert (s + [ch])[..|s + [ch]| - 1] == s;
  }

  /** Leading zeros do not change the value of a digit string. */
  lemma {:induction false} ReadLeadingZeros(k: nat, s: string)
    requires AllDigits(s)
    ensures AllDigits(Zeros(k) + s) && Read(Zeros(k) + s) == Read(s)
    decreases |s|, k
  {
    if s == [] {
      assert Zeros(k) + s == Zeros(k);
      if k > 0 {
        assert Zeros(k)[..k - 1] == Zeros(k - 1);
        ReadLeadingZeros(k - 1, []);
        assert Zeros(k - 1) + [] == Zeros(k - 1);
      }
    } else {
      var init := s[..|s| - 1];
      ReadLeadingZeros(k, init);
      assert Zeros(k) + s == (Zeros(k) + init) + [s[|s| - 1]];
      ReadAppend(Zeros(k) + init, s[|s| - 1]);
    }
  }

  /** `zfill` never truncates: the result is `max(|s|, width)` long and ends
      with `s`, preceded only by zeros. */
  lemma ZFillShape(s: string, width: nat)
    ensures |ZFill(s, width)| == (if |s| < width then width else |s|)
    ensures ZFill(s, width)[|ZFill(s, width)| - |s|..] == s
    ensures forall i :: 0 <= i < |ZFill(s, width)| - |s| ==> ZFill(s, width)[i] == '0'
  {
    var z := Zeros(if |s| < width then width - |s| else 0);
    assert ZFill(s, width) == z + s;
    assert (z + s)[|z|..] == s;
  }

  /** Reading a zero-padded `str(n)` back with `int` gives `n`. */
  lemma ParseZFillShow(n: nat, width: nat)
    ensures Parse(ZFill(Show(n), width)) == Some(n)
  {
    ShowIsDecimal(n);
    ReadShow(n);
    ReadLeadingZeros(if |Show(n)| < width then width - |Show(n)| else 0, Show(n));
  }
}
