/** Decimal text: how outbox ids become AMQP message ids and how JSON carries integers. */
module Decimal {
  import opened Common

  const MAX_INT64: int := 0x7FFF_FFFF_FFFF_FFFF

  function Digit(d: nat): char
    requires d < 10
  {
    ('0' as int + d) as char
  }

  predicate IsDigit(c: char) {
    '0' <= c <= '9'
  }

  function DigitValue(c: char): nat
    requires IsDigit(c)
  {
    c as int - '0' as int
  }

  /** What fmt.Sprintf("%d", n) and the JSON encoder write for a non-negative integer. */
  function Print(n: nat): string {
    if n < 10 then [Digit(n)] else Print(n / 10) + [Digit(n % 10)]
  }

  predicate AllDigits(s: string) {
    forall i :: 0 <= i < |s| ==> IsDigit(s[i])
  }

  function Value(s: string): nat
    requires AllDigits(s)
  {
    if s == [] then 0 else 10 * Value(s[..|s| - 1]) + DigitValue(s[|s| - 1])
  }

  predicate IsNatural(s: string) {
    s != "" && AllDigits(s)
  }

  /** Decoding a JSON number into a Go int64: anything else or out of range is an error. */
  function ParseInt64(s: string): Option<int> {
    if IsNatural(s) then
      if Value(s) <= MAX_INT64 then Some(Value(s)) else None
    else if s != "" && s[0] == '-' && IsNatural(s[1..]) then
      var magnitude: int := Value(s[1..]);
      if magnitude <= MAX_INT64 + 1 then Some(-magnitude) else None
    else None
  }

  lemma DigitThenValue(d: nat)
    requires d < 10
    ensures IsDigit(Digit(d)) && DigitValue(Digit(d)) == d
  {}

  lemma ValueStep(s: string, c: char)
    requires AllDigits(s) && IsDigit(c)
    ensures AllDigits(s + [c]) && Value(s + [c]) == 10 * Value(s) + DigitValue(c)
  {
    assert (s + [c])[..|s|] == s;
  }

  lemma {:induction false} PrintThenValue(n: nat)
    ensures Print(n) != [] && AllDigits(Print(n)) && Value(Print(n)) == n
  {
    DigitThenValue(n % 10);
    if n < 10 {
      ValueStep([], Digit(n));
      assert [] + [Digit(n)] == Print(n);
    } else {
      PrintThenValue(n / 10);
      ValueStep(Print(n / 10), Digit(n % 10));
    }
  }

  /** As %d writes it: one digit, or more without a leading zero. */
  lemma {:induction false} PrintHasNoLeadingZero(n: nat)
    ensures n < 10 ==> |Print(n)| == 1
    ensures n >= 10 ==> |Print(n)| > 1
    ensures n >= 1 ==> Print(n)[0] != '0'
  {
    if n >= 10 {
      PrintHasNoLeadingZero(n / 10);
      assert Print(n)[0] == Print(n / 10)[0];
    }
  }

  /** Message ids are never empty and two outbox ids never share one. */
  lemma PrintInjective(m: nat, n: nat)
    ensures Print(m) != ""
    ensures Print(m) == Print(n) ==> m == n
  {
    PrintThenValue(m);
    PrintThenValue(n);
  }

  /** An integer survives the text form exactly when it fits an int64. */
  lemma ParsePrinted(n: nat)
    ensures ParseInt64(Print(n)) == if n <= MAX_INT64 then Some(n) else None
    ensures ParseInt64("-" + Print(n)) == if n <= MAX_INT64 + 1 then Some(-(n as int)) else None
  {
    PrintThenValue(n);
    var s := "-" + Print(n);
    assert s[1..] == Print(n);
    assert !IsDigit(s[0]);
    assert IsDigit(Print(n)[0]);
  }
}
