/** `votes_needed`: two-stage rounded fixed-point arithmetic, against exact rational arithmetic. */
module Rounding {
  import opened Common

  const PRECISION_FACTOR: nat := 1_000_000_000

  /** Decimal::one(): a Decimal is a count of units of 10^-18 held in 128 bits. */
  const ONE: nat := 1_000_000_000_000_000_000

  type Decimal = U128

  /** Multiplication as repeated addition. It is the ordinary product (`TimesIsProduct`); written this way, statements
      that only compare vote counts stay linear for the solver. */
  function Times(count: nat, unit: nat): nat {
    if count == 0 then 0 else Times(count - 1, unit) + unit
  }

  lemma {:induction false} TimesIsProduct(count: nat, unit: nat)
    ensures Times(count, unit) == count * unit
    decreases count
  {
    if count == 0 {
    } else {
      TimesIsProduct(count - 1, unit);
      assert (count - 1) * unit + unit == count * unit;
    }
  }

  /** The source's computation, with its widths: scale, multiply by the percentage rounding down,
      divide by the scale rounding up, truncate to 64 bits. `None` is a 128-bit overflow. */
  function VotesNeeded(weight: U64, percentage: Decimal): Option<U64> {
    var applied := Times(PRECISION_FACTOR * weight, percentage) / ONE;
    if applied + PRECISION_FACTOR - 1 > U128_MAX then None
    else Some(((applied + PRECISION_FACTOR - 1) / PRECISION_FACTOR) % (U64_MAX + 1))
  }

  /** The same number without widths, for a product `a` of weight and percentage. */
  function Round(a: nat): nat {
    (a / PRECISION_FACTOR + PRECISION_FACTOR - 1) / PRECISION_FACTOR
  }

  function Needed(weight: nat, percentage: nat): nat {
    Round(Times(weight, percentage))
  }

  /** The least integer not below weight * percentage. */
  function CeilOf(weight: nat, percentage: nat): nat {
    (weight * percentage + ONE - 1) / ONE
  }

  lemma ProductBound(w: nat, p: nat)
    requires p <= ONE
    ensures w * p <= w * ONE
  {
  }

  /** The source multiplies before it divides; the scale cancels. */
  lemma ScaleCancels(weight: nat, percentage: nat)
    ensures Times(PRECISION_FACTOR * weight, percentage) / ONE == weight * percentage / PRECISION_FACTOR
  {
    TimesIsProduct(PRECISION_FACTOR * weight, percentage);
    var a := weight * percentage;
    assert PRECISION_FACTOR * weight * percentage == PRECISION_FACTOR * a;
    assert PRECISION_FACTOR * a / ONE == a / PRECISION_FACTOR;
  }

  lemma RoundFits(weight: U64, a: nat)
    requires a <= weight * ONE
    ensures a / PRECISION_FACTOR + PRECISION_FACTOR - 1 <= U128_MAX && Round(a) <= weight
  {
    assert a / PRECISION_FACTOR <= weight * PRECISION_FACTOR;
  }

  /** For a percentage of at most one nothing overflows - not the scaled weight either, which the source multiplies
      unchecked - and nothing is truncated. */
  lemma VotesNeededFits(weight: U64, percentage: Decimal)
    requires percentage <= ONE
    ensures PRECISION_FACTOR * weight <= U128_MAX
    ensures Needed(weight, percentage) <= weight
    ensures VotesNeeded(weight, percentage) == Some(Needed(weight, percentage))
  {
    ScaleCancels(weight, percentage);
    TimesIsProduct(weight, percentage);
    ProductBound(weight, percentage);
    RoundFits(weight, weight * percentage);
  }

  lemma RoundMonotone(a: nat, b: nat)
    requires a <= b
    ensures Round(a) <= Round(b)
  {
    assert a / PRECISION_FACTOR <= b / PRECISION_FACTOR;
  }

  lemma NeededMonotone(w: nat, w': nat, p: nat, p': nat)
    requires w <= w' && p <= p'
    ensures Needed(w, p) <= Needed(w', p')
  {
    TimesIsProduct(w, p);
    TimesIsProduct(w', p');
    assert w * p <= w' * p <= w' * p';
    RoundMonotone(w * p, w' * p');
  }

  /** Extra weight raises the requirement by at most that weight. */
  lemma NeededGrowth(w: nat, extra: nat, p: nat)
    requires p <= ONE
    ensures Needed(w + extra, p) <= Needed(w, p) + extra
  {
    var a := w * p;
    TimesIsProduct(w, p);
    TimesIsProduct(w + extra, p);
    ProductBound(extra, p);
    assert (w + extra) * p == a + extra * p;
    RoundMonotone(a + extra * p, a + extra * ONE);
    assert (a + extra * ONE) / PRECISION_FACTOR == a / PRECISION_FACTOR + extra * PRECISION_FACTOR;
  }

  lemma RoundComplement(w: nat, a: nat, b: nat)
    requires a + b == w * ONE
    ensures w <= Round(a) + Round(b) <= w + 1
  {
    var x, y := a / PRECISION_FACTOR, b / PRECISION_FACTOR;
    assert w * PRECISION_FACTOR - 1 <= x + y <= w * PRECISION_FACTOR;
  }

  /** The Yes and No requirements of complementary percentages leave a gap of at most one vote. */
  lemma NeededComplement(w: nat, p: nat)
    requires p <= ONE
    ensures w <= Needed(w, p) + Needed(w, ONE - p) <= w + 1
  {
    hide Round;
    TimesIsProduct(w, p);
    TimesIsProduct(w, ONE - p);
    ProductBound(w, p);
    assert w * p + w * (ONE - p) == w * ONE;
    RoundComplement(w, w * p, w * (ONE - p));
  }

  lemma RoundAgainstCeil(a: nat)
    ensures Round(a) == (a + ONE - 1) / ONE - (if 0 < a % ONE < PRECISION_FACTOR then 1 else 0)
  {
    var q, r := a / ONE, a % ONE;
    assert a == q * ONE + r;
    assert a / PRECISION_FACTOR == q * PRECISION_FACTOR + r / PRECISION_FACTOR;
  }

  /** "Round up" exactly: the result is the ceiling, except one below it when the fractional part
      of weight * percentage is positive but under 10^-9. */
  lemma NeededIsCeilIff(w: nat, p: nat)
    ensures CeilOf(w, p) - 1 <= Needed(w, p) <= CeilOf(w, p)
    ensures Needed(w, p) == CeilOf(w, p) <==> !(0 < (w * p) % ONE < PRECISION_FACTOR)
  {
    TimesIsProduct(w, p);
    RoundAgainstCeil(w * p);
  }

  /** Exact arithmetic for the comparison the rules make: `votes` are enough when they reach weight * percentage, or
      fall short of it by less than 10^-9 of a vote. */
  lemma EnoughIff(w: nat, p: nat, votes: nat)
    ensures votes >= Needed(w, p) <==> w * p < votes * ONE + PRECISION_FACTOR
  {
    var a := w * p;
    TimesIsProduct(w, p);
    assert votes >= Round(a) <==> votes * PRECISION_FACTOR >= a / PRECISION_FACTOR;
  }

  /** Percentages written with at most nine decimals always round up exactly. */
  lemma NeededIsCeilForNineDecimals(w: nat, p: nat)
    requires p % PRECISION_FACTOR == 0
    ensures Needed(w, p) == CeilOf(w, p)
  {
    var k := p / PRECISION_FACTOR;
    assert w * p == (w * k) * PRECISION_FACTOR;
    var m := w * k;
    assert (m * PRECISION_FACTOR) % ONE == (m % PRECISION_FACTOR) * PRECISION_FACTOR;
    NeededIsCeilIff(w, p);
  }

  /** One vote and a percentage of 10^-18: exact arithmetic asks for one vote, the code for none. */
  lemma RoundingUpCanFail()
    ensures VotesNeeded(1, 1) == Some(0)
    ensures CeilOf(1, 1) == 1
  {
    TimesIsProduct(PRECISION_FACTOR, 1);
  }
}
