/**
 * The rendering of an unsigned counter by `format!("{:?}", n)`: its decimal
 * digits, most significant first, without sign or leading zeros.  `Parse` reads
 * such a rendering back, so a client can recover the counter from a `total`.
 */
module Decimal {
  import opened Base

  predicate IsDigit(c: char)
  {
    '0' <= c <= '9'
  }

  predicate AllDigits(s: string)
  {
    forall i :: 0 <= i < |s| ==> IsDigit(s[i])
  }

  function DigitChar(d: nat): (c: char)
    requires d < 10
    ensures IsDigit(c) && c as int - '0' as int == d
  {
    ('0' as int + d) as char
  }

  /** Decimal rendering of `n`. */
  function Render(n: nat): (s: string)
    ensures |s| > 0 && AllDigits(s)
    ensures s[0] == '0' ==> n == 0
    decreases n
  {
    if n < 10 then [DigitChar(n)] else Render(n / 10) + [DigitChar(n % 10)]
  }

  /** The number a non-empty string of digits denotes. */
  function Value(s: string): nat
    requires AllDigits(s)
    decreases |s|
  {
    if s == [] then 0 else Value(s[..|s| - 1]) * 10 + (s[|s| - 1] as int - '0' as int)
  }

  /** Reads a decimal rendering back; `None` for an empty string or a non-digit. */
  function Parse(s: string): Option<nat>
  {
    if |s| > 0 && AllDigits(s) then Some(Value(s)) else None
  }

  /** Rendering loses nothing: the counter is recovered from its rendering. */
  lemma {:induction false} ParseRender(n: nat)
    ensures Parse(Render(n)) == Some(n)
    decreases n
  {
    if n >= 10 {
      var front := Render(n / 10);
      ParseRender(n / 10);
      var s := Render(n);
      assert s[..|s| - 1] == front;
      assert Value(s) == Value(front) * 10 + n % 10;
    }
  }
}
