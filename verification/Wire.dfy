/**
 What happens to an int64 amount between the outbox row and the e-mail.

 The payload is JSON in the outbox, is read back into a map[string]any (so the number becomes a
 binary64), is marshalled again (shortest decimal that reads back as the same binary64, written
 without an exponent below 1e21) and is finally decoded into an int64.
 */
module Wire {
  import opened Common
  import opened Decimal

  const EXACT: int := 0x20_0000_0000_0000          // 2^53
  const TOO_BIG: int := 0x7FFF_FFFF_FFFF_FE00      // 2^63 - 512

  /** Distance from the binary64 value at or below an integer to the next one, never below one. */
  function Ulp(a: nat): (u: nat)
    ensures u >= 1
  {
    if a < EXACT then 1 else 2 * Ulp(a / 2)
  }

  /** The largest binary64 value at or below an integer: the low bits are cut. */
  function Down(a: nat): (d: nat)
    ensures d <= a < d + Ulp(a)
  {
    if a < EXACT then a else 2 * Down(a / 2)
  }

  /** Whether the 53-bit significand of `Down(a)` is even. */
  predicate EvenSignificand(a: nat) {
    if a < EXACT then a % 2 == 0 else EvenSignificand(a / 2)
  }

  /** Reading a decimal integer into binary64: round to nearest, ties to even. */
  function Round(a: nat): nat {
    var rest := 2 * (a - Down(a));
    if rest < Ulp(a) || (rest == Ulp(a) && EvenSignificand(a)) then Down(a) else Down(a) + Ulp(a)
  }

  function Pow10(j: nat): (p: nat)
    ensures p >= 1
  {
    if j == 0 then 1 else 10 * Pow10(j - 1)
  }

  /** The decimal text of `n` ends in at least `j` zeros. */
  predicate Zeros(n: nat, j: nat) {
    j == 0 || (n % 10 == 0 && Zeros(n / 10, j - 1))
  }

  lemma TenTimes(k: int, p: int)
    ensures k * (10 * p) == 10 * (k * p)
  {}

  /** Trailing zeros are what makes a multiple of a power of ten. */
  lemma {:induction false} MultipleHasZeros(k: nat, j: nat)
    ensures Zeros(k * Pow10(j), j)
  {
    if j > 0 {
      TenTimes(k, Pow10(j - 1));
      MultipleHasZeros(k, j - 1);
    }
  }

  lemma {:induction false} ZerosMakeMultiple(n: nat, j: nat) returns (k: nat)
    requires Zeros(n, j)
    ensures n == k * Pow10(j)
  {
    k := n;
    if j > 0 {
      k := ZerosMakeMultiple(n / 10, j - 1);
      TenTimes(k, Pow10(j - 1));
    }
  }

  /** `n` with its last `j` digits replaced by zeros. */
  function Cut(n: nat, j: nat): (c: nat)
    ensures c <= n < c + Pow10(j)
  {
    if j == 0 then n else 10 * Cut(n / 10, j - 1)
  }

  /** The decimal with `j` trailing zeros closest to `d` among those that read back as `d`. */
  function Candidate(d: nat, j: nat): Option<nat> {
    var lo := Cut(d, j);
    var hi := lo + Pow10(j);
    if Round(lo) == d && (Round(hi) != d || d - lo <= hi - d) then Some(lo)
    else if Round(hi) == d then Some(hi)
    else None
  }

  function Shortest(d: nat, j: nat): nat {
    if j == 0 then d else match Candidate(d, j) { case Some(p) => p case None => Shortest(d, j - 1) }
  }

  /** The integer the JSON encoder writes for the binary64 value `d`. */
  function Printed(d: nat): nat {
    Shortest(d, 18)
  }

  /** The whole trip of an amount; None is a decoding error in the consumer. */
  function WireAmount(a: nat): Option<int> {
    ParseInt64(Print(Printed(Round(a))))
  }

  // ----- the binary64 grid

  ghost predicate IsDouble(d: nat) {
    Down(d) == d
  }

  lemma {:induction false} DownUpAreDoubles(a: nat)
    ensures IsDouble(Down(a)) && IsDouble(Down(a) + Ulp(a))
    ensures a >= EXACT ==> Down(a) >= EXACT
  {
    if a >= EXACT {
      DownUpAreDoubles(a / 2);
      var d, u := Down(a / 2), Ulp(a / 2);
      assert Down(a) == 2 * d && Down(a) + Ulp(a) == 2 * (d + u);
      assert d >= EXACT / 2 by { if a / 2 < EXACT { assert d == a / 2; } }
      assert 2 * d / 2 == d && 2 * (d + u) / 2 == d + u;
    } else if a + 1 == EXACT {
      assert Down(EXACT) == 2 * Down(EXACT / 2);
    }
  }

  lemma RoundFixesDoubles(d: nat)
    ensures Round(d) == d <==> IsDouble(d)
  {}

  lemma RoundIdempotent(a: nat)
    ensures Round(Round(a)) == Round(a)
  {
    DownUpAreDoubles(a);
    RoundFixesDoubles(Round(a));
  }

  lemma {:induction false} DownMonotone(a: nat, b: nat)
    requires a <= b
    ensures Down(a) <= Down(b)
    ensures Down(a) < Down(b) ==> Down(a) + Ulp(a) <= Down(b)
    ensures Down(a) == Down(b) ==> Ulp(a) == Ulp(b) && EvenSignificand(a) == EvenSignificand(b)
  {
    if b >= EXACT { DownUpAreDoubles(b); }
    if a >= EXACT { DownMonotone(a / 2, b / 2); }
  }

  lemma RoundMonotone(a: nat, b: nat)
    requires a <= b
    ensures Round(a) <= Round(b)
  {
    DownMonotone(a, b);
  }

  /** `Round` is rounding to nearest: no binary64 value is closer to `a`. */
  lemma RoundIsNearest(a: nat, d: nat)
    requires IsDouble(d)
    ensures IsDouble(Round(a)) && !Closer(a, d, Round(a))
  {
    DownUpAreDoubles(a);
    if d <= a { DownMonotone(d, a); } else { DownMonotone(a, d); }
  }

  ghost predicate Closer(d: nat, p: nat, q: nat) {
    Gap(d, p) < Gap(d, q)
  }

  ghost function Gap(d: nat, p: nat): nat {
    if p >= d then p - d else d - p
  }

  lemma Scale(k: int, u: int)
    ensures 2 * (k * u) == k * (2 * u)
  {}

  lemma NextMultiple(d: int, k: int, u: int)
    requires d == k * u
    ensures d + u == (k + 1) * u
  {}

  /** The significand of the binary64 value at or below `a`. */
  lemma {:induction false} SignificandOf(a: nat) returns (k: nat)
    ensures Down(a) == k * Ulp(a) && (EvenSignificand(a) <==> k % 2 == 0)
  {
    if a < EXACT {
      k := a;
    } else {
      k := SignificandOf(a / 2);
      Scale(k, Ulp(a / 2));
    }
  }

  lemma TieIsDecided(a: nat)
    requires 2 * (a - Down(a)) == Ulp(a)
    ensures Round(a) == if EvenSignificand(a) then Down(a) else Down(a) + Ulp(a)
  {}

  /** Of the two neighbours of a tie, which are consecutive multiples of Ulp, the even multiple is read. */
  lemma TiesGoToEven(a: nat) returns (k: nat)
    requires 2 * (a - Down(a)) == Ulp(a)
    ensures Round(a) == k * Ulp(a) && k % 2 == 0
  {
    k := SignificandOf(a);
    TieIsDecided(a);
    if k % 2 == 1 {
      NextMultiple(Down(a), k, Ulp(a));
      k := k + 1;
    }
  }

  function Pow2(k: nat): (p: nat)
    ensures p >= 1
  {
    if k == 0 then 1 else 2 * Pow2(k - 1)
  }

  /** The integers of binary64: a significand below 2^53 times a power of two. */
  ghost predicate IsScaled(d: nat, m: nat, k: nat) {
    m < EXACT && d == m * Pow2(k)
  }

  lemma {:induction false} ScaledIsDouble(d: nat, m: nat, k: nat)
    requires IsScaled(d, m, k)
    ensures IsDouble(d)
  {
    if k > 0 {
      Scale(m, Pow2(k - 1));
      ScaledIsDouble(m * Pow2(k - 1), m, k - 1);
    }
  }

  lemma {:induction false} DoubleIsScaled(d: nat) returns (m: nat, k: nat)
    requires IsDouble(d)
    ensures IsScaled(d, m, k)
  {
    if d < EXACT {
      m, k := d, 0;
    } else {
      m, k := DoubleIsScaled(d / 2);
      Scale(m, Pow2(k));
      k := k + 1;
    }
  }

  /** The values `Round` chooses from are the integers binary64 can represent. */
  lemma DoublesAreScaled(d: nat)
    ensures IsDouble(d) <==> exists m: nat, k: nat :: IsScaled(d, m, k)
  {
    if IsDouble(d) {
      var m, k := DoubleIsScaled(d);
    } else if m: nat, k: nat :| IsScaled(d, m, k) {
      ScaledIsDouble(d, m, k);
      assert false;
    }
  }

  // ----- the printer

  lemma {:induction false} CutIsClosest(d: nat, j: nat, q: nat)
    requires Zeros(q, j)
    ensures q <= d ==> q <= Cut(d, j)
    ensures q > d ==> q >= Cut(d, j) + Pow10(j)
  {
    if j > 0 { CutIsClosest(d / 10, j - 1, q / 10); }
  }

  lemma {:induction false} CutZeros(d: nat, j: nat)
    ensures Zeros(Cut(d, j), j) && Zeros(Cut(d, j) + Pow10(j), j)
  {
    if j > 0 {
      CutZeros(d / 10, j - 1);
      assert 10 * Cut(d / 10, j - 1) / 10 == Cut(d / 10, j - 1);
      assert 10 * (Cut(d / 10, j - 1) + Pow10(j - 1)) / 10 == Cut(d / 10, j - 1) + Pow10(j - 1);
    }
  }

  lemma {:induction false} FewerZeros(q: nat, i: nat, j: nat)
    requires i <= j && Zeros(q, j)
    ensures Zeros(q, i)
  {
    if i > 0 { FewerZeros(q / 10, i - 1, j - 1); }
  }

  /** Of two decimals, the one closer to `d`, or the smaller one when they are equally close. */
  ghost predicate Preferred(d: nat, p: nat, q: nat) {
    Closer(d, p, q) || (Gap(d, p) == Gap(d, q) && p <= q)
  }

  lemma RoundBetween(a: nat, b: nat, c: nat)
    requires a <= b <= c && Round(a) == Round(c)
    ensures Round(b) == Round(c)
  {
    RoundMonotone(a, b);
    RoundMonotone(b, c);
  }

  lemma CandidateIsPreferred(d: nat, j: nat, q: nat)
    requires Round(d) == d && Round(q) == d && Zeros(q, j)
    ensures Candidate(d, j).Some? && Preferred(d, Candidate(d, j).value, q)
  {
    CutIsClosest(d, j, q);
    if q <= d { RoundBetween(q, Cut(d, j), d); } else { RoundBetween(d, Cut(d, j) + Pow10(j), q); }
  }

  /** With `j` zeros, `a` is the roundest decimal among the integers binary64 cannot tell from it. */
  ghost predicate Roundest(a: nat, j: nat) {
    && Zeros(a, j)
    && (forall q: nat :: Round(q) == Round(a) ==> !Zeros(q, j + 1))
    && (forall q: nat :: Round(q) == Round(a) && Zeros(q, j) ==> Preferred(Round(a), a, q))
  }

  lemma {:induction false} ShortestIsRoundest(d: nat, j: nat) returns (i: nat)
    requires Round(d) == d
    requires forall q: nat :: Round(q) == d ==> !Zeros(q, j + 1)
    ensures i <= j && Round(Shortest(d, j)) == d && Roundest(Shortest(d, j), i)
  {
    forall q: nat | Round(q) == d && Zeros(q, j)
      ensures Candidate(d, j).Some? && Preferred(d, Candidate(d, j).value, q)
    {
      CandidateIsPreferred(d, j, q);
    }
    i := j;
    if j > 0 {
      CutZeros(d, j);
      if Candidate(d, j).None? { i := ShortestIsRoundest(d, j - 1); }
    }
  }

  lemma RoundestUnique(a: nat, i: nat, b: nat, j: nat)
    requires Round(a) == Round(b) && Roundest(a, i) && Roundest(b, j)
    ensures a == b
  {
    if i < j { FewerZeros(b, i + 1, j); }
    if j < i { FewerZeros(a, j + 1, i); }
  }

  // ----- the top of the int64 range

  lemma Halve(a: nat)
    requires a >= EXACT
    ensures Ulp(a) == 2 * Ulp(a / 2) && Down(a) == 2 * Down(a / 2)
    ensures EvenSignificand(a) == EvenSignificand(a / 2)
  {}

  lemma HalveFiveTimes(a: nat)
    requires a >= 16 * EXACT
    ensures Ulp(a) == 32 * Ulp(a / 32) && Down(a) == 32 * Down(a / 32)
    ensures EvenSignificand(a) == EvenSignificand(a / 32)
  {
    Halve(a);
    var b := a / 2;
    Halve(b);
    var c := b / 2;
    Halve(c);
    var d := c / 2;
    Halve(d);
    var e := d / 2;
    Halve(e);
    assert e / 2 == a / 32;
  }

  /** In [2^62, 2^63) the spacing is 1024. */
  lemma TopBinade(a: nat)
    requires 0x4000_0000_0000_0000 <= a <= MAX_INT64
    ensures Ulp(a) == 1024 && Down(a) == 1024 * (a / 1024) && EvenSignificand(a) == (a / 1024 % 2 == 0)
  {
    HalveFiveTimes(a);
    var b := a / 32;
    HalveFiveTimes(b);
    assert b / 32 == a / 1024;
  }

  /** 2^63 - 512 is the tie that goes up to 2^63. */
  lemma RoundBelowTheTop(a: nat)
    requires TOO_BIG - 1 <= a <= MAX_INT64
    ensures Round(a) == if a < TOO_BIG then 0x7FFF_FFFF_FFFF_FC00 else 0x8000_0000_0000_0000
  {
    TopBinade(a);
    var m := a / 1024;
    assert m == 0x1F_FFFF_FFFF_FFFF;
  }

  lemma HalfThen1024th(a: nat)
    ensures a / 2 / 1024 == a / 2048
  {}

  /** In [2^63, 2^64) the spacing is 2048. */
  lemma BinadeAboveTheTop(a: nat)
    requires 0x8000_0000_0000_0000 <= a < 0x1_0000_0000_0000_0000
    ensures Ulp(a) == 2048 && Down(a) == 2048 * (a / 2048)
  {
    Halve(a);
    HalfThen1024th(a);
    TopBinade(a / 2);
  }

  lemma NearerBelow(a: nat)
    requires 2 * (a - Down(a)) < Ulp(a)
    ensures Round(a) == Down(a)
  {}

  lemma RoundAboveTheTop(a: nat, d: nat)
    requires 0x8000_0000_0000_0000 <= d <= a < d + 1024 < 0x1_0000_0000_0000_0000 && d % 2048 == 0
    ensures Round(a) == d
  {
    BinadeAboveTheTop(a);
    assert 2048 * (a / 2048) == d;
    NearerBelow(a);
  }

  lemma RoundBound(a: nat)
    requires a <= MAX_INT64
    ensures a < TOO_BIG ==> Round(a) < TOO_BIG
    ensures a >= TOO_BIG ==> Round(a) == 0x8000_0000_0000_0000
  {
    var t: nat :| t == (if a < TOO_BIG then TOO_BIG - 1 else TOO_BIG);
    var m: nat :| m == MAX_INT64;
    RoundBelowTheTop(t);
    RoundBelowTheTop(m);
    if a < TOO_BIG {
      RoundMonotone(a, t);
    } else {
      RoundMonotone(t, a);
      RoundMonotone(a, m);
    }
  }

  lemma {:induction false} Multiple(q: nat, j: nat)
    requires Zeros(q, j)
    ensures q == 0 || q >= Pow10(j)
  {
    if j > 0 { Multiple(q / 10, j - 1); }
  }

  lemma Pow10Of19()
    ensures Pow10(19) > 0x8000_0000_0000_0000 + 2048
  {
    assert Pow10(4) == 10_000;
    assert Pow10(7) == 1000 * Pow10(4);
    assert Pow10(10) == 1000 * Pow10(7);
    assert Pow10(13) == 1000 * Pow10(10);
    assert Pow10(16) == 1000 * Pow10(13);
    assert Pow10(19) == 1000 * Pow10(16);
  }

  lemma NothingHas19Zeros(a: nat, q: nat)
    requires 1 <= a <= MAX_INT64 && Round(q) == Round(a)
    ensures !Zeros(q, 19)
  {
    if Zeros(q, 19) {
      var one: nat :| one == 1;
      var t: nat :| t == 0x8000_0000_0000_0000 + 2048;
      Multiple(q, 19);
      Pow10Of19();
      RoundBound(a);
      RoundAboveTheTop(t, t);
      if q == 0 { RoundMonotone(one, a); } else { RoundMonotone(t, q); }
    }
  }

  /** The printed integer reads back as the value printed, and nothing rounder does. */
  lemma PrintedIsRoundest(a: nat) returns (i: nat)
    requires 1 <= a <= MAX_INT64
    ensures i <= 18
    ensures Round(Printed(Round(a))) == Round(a) && Roundest(Printed(Round(a)), i)
  {
    RoundIdempotent(a);
    forall q: nat | Round(q) == Round(a)
      ensures !Zeros(q, 18 + 1)
    {
      NothingHas19Zeros(a, q);
    }
    i := ShortestIsRoundest(Round(a), 18);
  }

  // ----- main results

  lemma AboveExact(p: nat)
    requires p > EXACT + 1
    ensures Round(p) > EXACT
  {
    if p / 2 >= EXACT { DownUpAreDoubles(p / 2); }
  }

  /** Below 2^53 every integer is its own cell; 2^53 + 1 is the one other member of the cell of 2^53. */
  lemma SmallCell(a: nat, p: nat)
    requires 1 <= a <= EXACT && Round(p) == a
    ensures p == a || (a == EXACT && p == EXACT + 1)
  {
    if p > EXACT + 1 {
      AboveExact(p);
    } else if p < EXACT {
      assert Down(p) == p;
    } else {
      Halve(p);
    }
  }

  lemma CandidateInCell(d: nat, j: nat)
    requires Candidate(d, j).Some?
    ensures Round(Candidate(d, j).value) == d && Zeros(Candidate(d, j).value, j)
  {
    CutZeros(d, j);
  }

  lemma {:induction false} SmallShortest(a: nat, j: nat)
    requires 1 <= a <= EXACT && Round(a) == a
    ensures Shortest(a, j) == a
  {
    if j > 0 {
      SmallShortest(a, j - 1);
      if Candidate(a, j).Some? {
        CandidateInCell(a, j);
        SmallCell(a, Candidate(a, j).value);
        assert Candidate(a, j).value % 10 == 0;
      }
    }
  }

  lemma RoundSmall(a: nat)
    requires a <= EXACT
    ensures Round(a) == a
  {
    if a == EXACT { Halve(a); }
  }

  /** Up to 2^53 the trip is the identity. */
  lemma AmountsUpTo2To53AreExact(a: nat)
    requires 1 <= a <= EXACT
    ensures WireAmount(a) == Some(a)
  {
    RoundSmall(a);
    ParsePrinted(a);
    SmallShortest(a, 18);
  }

  lemma OneZeroDivides(p: nat)
    ensures Zeros(p, 1) <==> p % 10 == 0
  {
    assert Zeros(p / 10, 0);
  }

  lemma TwoZerosDivide(p: nat)
    ensures Zeros(p, 2) <==> p % 100 == 0
  {
    OneZeroDivides(p / 10);
    assert Zeros(p, 2) <==> p % 10 == 0 && Zeros(p / 10, 1);
    assert p == 100 * (p / 10 / 10) + 10 * (p / 10 % 10) + p % 10;
  }

  lemma ThreeZerosDivide(p: nat)
    ensures Zeros(p, 3) <==> p % 1000 == 0
  {
    TwoZerosDivide(p / 10);
    assert Zeros(p, 3) <==> p % 10 == 0 && Zeros(p / 10, 2);
    assert p == 1000 * (p / 10 / 100) + 10 * (p / 10 % 100) + p % 10;
  }

  /** 2^63 is printed with at least three zeros: 9223372036854776000 reads back as 2^63. */
  lemma ThreeZeros(p: nat, i: nat)
    requires Round(p) == 0x8000_0000_0000_0000 && Roundest(p, i)
    ensures p % 1000 == 0
  {
    var round: nat :| round == 9223372036854776000;
    RoundAboveTheTop(round, Round(p));
    ThreeZerosDivide(round);
    if i < 3 {
      FewerZeros(round, i + 1, 3);
    } else {
      FewerZeros(p, 3, i);
      ThreeZerosDivide(p);
    }
  }

  lemma CellsBelowTheTopFit(a: nat, p: nat)
    requires a < TOO_BIG && Round(p) == Round(a)
    ensures p <= MAX_INT64
  {
    RoundBound(a);
    var t: nat :| t == TOO_BIG;
    RoundBelowTheTop(t);
    if p >= t { RoundMonotone(t, p); }
  }

  lemma CellOfTheTopDoesNotFit(p: nat, i: nat)
    requires Round(p) == 0x8000_0000_0000_0000 && Roundest(p, i)
    ensures p > MAX_INT64
  {
    var t: nat :| t == TOO_BIG - 1;
    RoundBelowTheTop(t);
    if p <= t { RoundMonotone(p, t); }
    ThreeZeros(p, i);
  }

  lemma PrintedFitsBelowTheTop(a: nat)
    requires 1 <= a <= MAX_INT64
    ensures Printed(Round(a)) <= MAX_INT64 <==> a < TOO_BIG
  {
    var i := PrintedIsRoundest(a);
    RoundBound(a);
    if a < TOO_BIG {
      CellsBelowTheTopFit(a, Printed(Round(a)));
    } else {
      CellOfTheTopDoesNotFit(Printed(Round(a)), i);
    }
  }

  /** The consumer fails to decode an amount exactly from 2^63 - 512 up. */
  lemma DecodingFailsExactlyAtTheTop(a: nat)
    requires 1 <= a <= MAX_INT64
    ensures WireAmount(a).None? <==> a >= TOO_BIG
  {
    PrintedFitsBelowTheTop(a);
    ParsePrinted(Printed(Round(a)));
  }

  /** An amount arrives unchanged exactly when it is the roundest decimal of its binary64 cell. */
  lemma FaithfulExactlyWhenRoundest(a: nat)
    requires 1 <= a <= MAX_INT64
    ensures WireAmount(a) == Some(a) <==> a < TOO_BIG && exists j :: Roundest(a, j)
  {
    var p := Printed(Round(a));
    var i := PrintedIsRoundest(a);
    ParsePrinted(p);
    DecodingFailsExactlyAtTheTop(a);
    if a < TOO_BIG && exists j :: Roundest(a, j) {
      var j :| Roundest(a, j);
      RoundestUnique(a, j, p, i);
    }
  }

  /** The first amount that arrives changed: 2^53 + 1 is announced as 2^53. */
  lemma FirstUnfaithfulAmount()
    ensures WireAmount(EXACT + 1) == Some(EXACT)
  {
    var a: nat :| a == EXACT + 1;
    var d: nat :| d == EXACT;
    Halve(a);
    Halve(d);
    assert Round(a) == d == Round(d);
    SmallShortest(d, 18);
    ParsePrinted(d);
  }
}
