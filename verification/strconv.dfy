/**
 * Decimal conversion as done by Go's strconv.Atoi and strconv.Itoa, on unbounded integers:
 * the 64-bit range error of Atoi is not modelled.
 */
module Strconv {
  import opened Wrappers

  predicate IsDigit(c: char) {
    '0' <= c <= '9'
  }

  predicate AllDigits(t: string) {
    forall i | 0 <= i < |t| :: IsDigit(t[i])
  }

  function DigitChar(d: nat): (c: char)
    requires d < 10
    ensures IsDigit(c) && c as int - '0' as int == d
  {
    ('0' as int + d) as char
  }

  /** The number a run of decimal digits denotes, most significant digit first. */
  function DigitsValue(t: string): nat
    requires AllDigits(t)
  {
    if |t| == 0 then 0
    else DigitsValue(t[..|t| - 1]) * 10 + (t[|t| - 1] as int - '0' as int)
  }

  /**
   * strconv.Atoi: an optional '+' or '-' sign followed by at least one decimal digit and
   * nothing else; anything else is an error (None).
   */
  function Atoi(t: string): (r: Option<int>)
    ensures r.Some? <==>
      && |t| > 0
      && (IsDigit(t[0]) || (|t| > 1 && (t[0] == '+' || t[0] == '-')))
      && forall i | 1 <= i < |t| :: IsDigit(t[i])
    ensures r.Some? && IsDigit(t[0]) ==> r.value == DigitsValue(t)
    ensures r.Some? && t[0] == '+' ==> r.value == DigitsValue(t[1..])
    ensures r.Some? && t[0] == '-' ==> r.value == -(DigitsValue(t[1..]) as int)
  {
    if |t| == 0 then None
    else
      var body := if t[0] == '+' || t[0] == '-' then t[1..] else t;
      if |body| == 0 || !AllDigits(body) then None
      else if t[0] == '-' then Some(-(DigitsValue(body) as int))
      else Some(DigitsValue(body) as int)
  }

  /** The shortest decimal spelling of n, without sign. */
  function Digits(n: nat): (r: string)
    ensures |r| > 0 && AllDigits(r) && r[0] != '+' && r[0] != '-'
    ensures DigitsValue(r) == n
  {
    if n < 10 then [DigitChar(n)]
    else
      var prefix := Digits(n / 10);
      var r := prefix + [DigitChar(n % 10)];
      assert r[..|r| - 1] == prefix;
      r
  }

  /** strconv.Itoa; its contract is the round trip through Atoi that stored counts rely on. */
  function Itoa(n: int): (r: string)
    ensures Atoi(r) == Some(n)
  {
    if n < 0 then
      var r := "-" + Digits(-n);
      assert r[1..] == Digits(-n);
      r
    else Digits(n)
  }
}
