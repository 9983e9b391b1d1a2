/** The pricing pipeline copied into every app: margin removal from 1X2 odds,
    the Elo win split, and the blended probabilities and expected values. */
module Pricing {

  /** The laws of x |-> 10**x that the model relies on. The exponential is
      a parameter of the model: any function with these laws will do. */
  ghost predicate IsPow10(pow10: real -> real)
  {
    && pow10(0.0) == 1.0
    && (forall x :: pow10(x) > 0.0)
    && (forall x, y :: x < y ==> pow10(x) < pow10(y))
  }

  /** Probabilities for home win, draw and away win. */
  datatype Triple = Triple(p1: real, px: real, p2: real)

  /** no_margin: the reciprocals of the odds scaled to sum to 1, or the
      all-zero triple when some odd is not positive. */
  function NoMargin(o1: real, ox: real, o2: real): (t: Triple)
    ensures o1 <= 0.0 || ox <= 0.0 || o2 <= 0.0 ==> t == Triple(0.0, 0.0, 0.0)
    ensures o1 > 0.0 && ox > 0.0 && o2 > 0.0 ==>
              && t.p1 > 0.0 && t.px > 0.0 && t.p2 > 0.0
              && t.p1 + t.px + t.p2 == 1.0
  {
    if o1 <= 0.0 || ox <= 0.0 || o2 <= 0.0 then Triple(0.0, 0.0, 0.0)
    else
      var i1, ix, i2 := 1.0 / o1, 1.0 / ox, 1.0 / o2;
      var s := i1 + ix + i2;
      assert i1 / s + ix / s + i2 / s == (i1 + ix + i2) / s;
      Triple(i1 / s, ix / s, i2 / s)
  }

  /** The margin is removed proportionally: each probability times its odd
      is the same constant, so the triple keeps the ratios of 1/o. */
  lemma NoMarginIsProportional(o1: real, ox: real, o2: real)
    requires o1 > 0.0 && ox > 0.0 && o2 > 0.0
    ensures var t := NoMargin(o1, ox, o2);
            t.p1 * o1 == t.px * ox && t.px * ox == t.p2 * o2
  {
    var i1, ix, i2 := 1.0 / o1, 1.0 / ox, 1.0 / o2;
    var s := i1 + ix + i2;
    assert (i1 / s) * o1 == 1.0 / s && (ix / s) * ox == 1.0 / s && (i2 / s) * o2 == 1.0 / s;
  }

  /** Home and away win probabilities from the rating model. */
  datatype Split = Split(ph: real, pa: real)

  /** The rating gap that get_probs feeds to the logistic. */
  function Gap(eloH: real, eloA: real, hfa: real): real
  {
    eloA - (eloH + hfa)
  }

  /** get_probs: p_h = 1 / (1 + 10**(gap / 400)), p_a = 1 - p_h; a division
      fault falls back to (0, 0). */
  function GetProbs(pow10: real -> real, eloH: real, eloA: real, hfa: real): (r: Split)
    ensures r.ph + r.pa == 1.0 || r == Split(0.0, 0.0)
  {
    var d := 1.0 + pow10(Gap(eloH, eloA, hfa) / 400.0);
    if d == 0.0 then Split(0.0, 0.0)
    else Split(1.0 / d, 1.0 - 1.0 / d)
  }

  lemma ProbsAreASplit(pow10: real -> real, eloH: real, eloA: real, hfa: real)
    requires IsPow10(pow10)
    ensures var r := GetProbs(pow10, eloH, eloA, hfa);
            0.0 < r.ph < 1.0 && 0.0 < r.pa < 1.0 && r.ph + r.pa == 1.0
  {
    assert pow10(Gap(eloH, eloA, hfa) / 400.0) > 0.0;
  }

  lemma ProbsEvenAtZeroGap(pow10: real -> real, eloH: real, eloA: real, hfa: real)
    requires IsPow10(pow10)
    requires Gap(eloH, eloA, hfa) == 0.0
    ensures GetProbs(pow10, eloH, eloA, hfa) == Split(0.5, 0.5)
  {
  }

  /** p_h is strictly decreasing in the rating gap. */
  lemma ProbsDecreaseWithGap(pow10: real -> real, eloH: real, eloA: real, hfa: real,
                             eloH': real, eloA': real, hfa': real)
    requires IsPow10(pow10)
    requires Gap(eloH, eloA, hfa) < Gap(eloH', eloA', hfa')
    ensures GetProbs(pow10, eloH, eloA, hfa).ph > GetProbs(pow10, eloH', eloA', hfa').ph
  {
    var x, x' := Gap(eloH, eloA, hfa) / 400.0, Gap(eloH', eloA', hfa') / 400.0;
    assert x < x';
    assert 0.0 < pow10(x) < pow10(x');
    var d, d' := 1.0 + pow10(x), 1.0 + pow10(x');
    assert 1.0 < d < d';
    ReciprocalDecreases(d, d');
  }

  lemma ReciprocalDecreases(a: real, b: real)
    requires 0.0 < a < b
    ensures 1.0 / a > 1.0 / b
  {
    var u, v := 1.0 / a, 1.0 / b;
    assert u * a == 1.0 && v * b == 1.0;
    assert v > 0.0;
    assert v * a < v * b;
    assert (u - v) * a > 0.0;
  }

  /** Everything calc_row and its copies derive from one priced fixture:
      the margin-free draw share, the rating split, the blended side
      probabilities and the expected values as fractions. */
  datatype Priced = Priced(fx: real, ph: real, pa: real,
                           fin1: real, fin2: real, ev1: real, ev2: real)

  /** rem = 1 - fx, fin = rem * p, EV = odds * fin - 1. */
  function Price(pow10: real -> real, o1: real, ox: real, o2: real,
                 eloH: real, eloA: real, hfa: real): Priced
  {
    var t := NoMargin(o1, ox, o2);
    var s := GetProbs(pow10, eloH, eloA, hfa);
    var rem := 1.0 - t.px;
    var fin1, fin2 := rem * s.ph, rem * s.pa;
    Priced(t.px, s.ph, s.pa, fin1, fin2, o1 * fin1 - 1.0, o2 * fin2 - 1.0)
  }

  /** The pricing steps every app runs in order: no_margin, get_probs, rem,
      fin and EV. */
  method PriceSides(pow10: real -> real, o1: real, ox: real, o2: real,
                    eloH: real, eloA: real, hfa: real) returns (ev1: real, ev2: real)
    ensures ev1 == Price(pow10, o1, ox, o2, eloH, eloA, hfa).ev1
    ensures ev2 == Price(pow10, o1, ox, o2, eloH, eloA, hfa).ev2
  {
    var t := NoMargin(o1, ox, o2);
    var s := GetProbs(pow10, eloH, eloA, hfa);
    var rem := 1.0 - t.px;
    var fin1 := rem * s.ph;
    var fin2 := rem * s.pa;
    ev1 := o1 * fin1 - 1.0;
    ev2 := o2 * fin2 - 1.0;
  }

  /** The blended probabilities share out exactly the non-draw mass. */
  lemma BlendSharesNonDrawMass(pow10: real -> real, o1: real, ox: real, o2: real,
                               eloH: real, eloA: real, hfa: real)
    requires IsPow10(pow10)
    ensures var p := Price(pow10, o1, ox, o2, eloH, eloA, hfa);
            && p.fin1 + p.fin2 == 1.0 - p.fx
            && 0.0 <= p.fx < 1.0
            && 0.0 < p.fin1 && 0.0 < p.fin2
            && p.ev1 == o1 * p.fin1 - 1.0 && p.ev2 == o2 * p.fin2 - 1.0
  {
    var t := NoMargin(o1, ox, o2);
    var s := GetProbs(pow10, eloH, eloA, hfa);
    ProbsAreASplit(pow10, eloH, eloA, hfa);
    DrawShareBelowOne(o1, ox, o2);
    PriceFields(pow10, o1, ox, o2, eloH, eloA, hfa);
    WeightedSplit(1.0 - t.px, s.ph, s.pa);
  }

  /** Price in terms of no_margin and get_probs. */
  lemma PriceFields(pow10: real -> real, o1: real, ox: real, o2: real,
                    eloH: real, eloA: real, hfa: real)
    ensures var t, s := NoMargin(o1, ox, o2), GetProbs(pow10, eloH, eloA, hfa);
            var rem := 1.0 - t.px;
            Price(pow10, o1, ox, o2, eloH, eloA, hfa)
              == Priced(t.px, s.ph, s.pa, rem * s.ph, rem * s.pa, o1 * (rem * s.ph) - 1.0, o2 * (rem * s.pa) - 1.0)
  {
  }

  lemma DrawShareBelowOne(o1: real, ox: real, o2: real)
    ensures 0.0 <= NoMargin(o1, ox, o2).px < 1.0
  {
  }

  lemma WeightedSplit(rem: real, ph: real, pa: real)
    requires 0.0 < rem && 0.0 < ph && 0.0 < pa && ph + pa == 1.0
    ensures rem * ph + rem * pa == rem
    ensures 0.0 < rem * ph && 0.0 < rem * pa
  {
    assert rem * ph + rem * pa == rem * (ph + pa);
    PositiveProduct(rem, ph);
    PositiveProduct(rem, pa);
  }

  lemma PositiveProduct(a: real, b: real)
    requires 0.0 < a && 0.0 < b
    ensures 0.0 < a * b
  {
  }

  /** A missing or zero draw odd does not drive the EVs to -1: the draw share
      becomes 0 and both sides are priced on the whole rating split. */
  lemma ZeroDrawOddKeepsFullEv(pow10: real -> real, o1: real, o2: real,
                               eloH: real, eloA: real, hfa: real)
    ensures var p := Price(pow10, o1, 0.0, o2, eloH, eloA, hfa);
            var s := GetProbs(pow10, eloH, eloA, hfa);
            p.fx == 0.0 && p.ev1 == o1 * s.ph - 1.0 && p.ev2 == o2 * s.pa - 1.0
  {
  }

  /** The away EV depends on the home odd only through the draw share. */
  lemma AwayEvSeesHomeOddOnlyViaDraw(pow10: real -> real, o1: real, o1': real, ox: real, o2: real,
                                     eloH: real, eloA: real, hfa: real)
    requires NoMargin(o1, ox, o2).px == NoMargin(o1', ox, o2).px
    ensures Price(pow10, o1, ox, o2, eloH, eloA, hfa).ev2 == Price(pow10, o1', ox, o2, eloH, eloA, hfa).ev2
  {
  }
}
