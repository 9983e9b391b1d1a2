/** app_v64: calc_row prices one fixture, adjusts the home advantage from the
    standings and applies the four-tier first-match rules. */
module SniperV64 {
  import opened Common
  import opened Pricing
  import opened HomeAdvantage
  import opened Tiers

  /** The series calc_row returns: EV_1, EV_X, EV_2 (in percent), HFA, Signal. */
  datatype Res64 = Res64(ev1: real, evX: real, ev2: real, hfa: int, signal: Tier)

  /** The home advantage calc_row prices with (before int() for display). */
  function RowHfa(row: Row, base: int, dyn: bool): real
  {
    EffectiveHfa(base, dyn, FirstPresent(row.homePlace), FirstPresent(row.awayPlace))
  }

  /** The curr_hfa steps of calc_row: the isna alias chain, then the clamped
      adjustment when both standings parse. */
  method DynamicHfa(row: Row, base: int, dyn: bool) returns (currHfa: real)
    ensures currHfa == RowHfa(row, base, dyn)
  {
    currHfa := base as real;
    if dyn {
      var r1 := row.homePlace.plain;
      if IsNa(r1) { r1 := row.homePlace.titled; }
      if IsNa(r1) { r1 := row.homePlace.spaced; }
      var r2 := row.awayPlace.plain;
      if IsNa(r2) { r2 := row.awayPlace.titled; }
      if IsNa(r2) { r2 := row.awayPlace.spaced; }
      if !IsNa(r1) && !IsNa(r2) {
        var f2, f1 := FloatOf(r2), FloatOf(r1);
        if f2.Some? && f1.Some? {
          var adj := (f2.value - f1.value) * 3.0;
          currHfa := currHfa + adj;
          currHfa := Clamp(currHfa);
        }
      }
    }
  }

  /** The signal part of calc_row: the if/elif chain on ev * 100. */
  method ApplyTiers(ev1: real, ev2: real, o1: real, o2: real) returns (signal: Tier)
    ensures signal == Classify(Offer(ev1 * 100.0, ev2 * 100.0, o1, o2))
  {
    signal := Skip;

    if ev2 * 100.0 > 4.0 && 1.70 <= o2 <= 3.50 {
      signal := DiamondAway;
    } else if ev2 * 100.0 > 1.5 && 1.50 <= o2 <= 4.00 {
      signal := ValueAway;
    } else if ev1 * 100.0 > 4.0 && 1.50 <= o1 <= 2.50 {
      signal := DiamondHome;
    } else if ev1 * 100.0 > 1.5 && 1.40 <= o1 <= 3.00 {
      signal := ValueHome;
    }
  }

  /** calc_row(row, base_hfa, dyn). */
  method CalcRow(pow10: real -> real, row: Row, base: int, dyn: bool) returns (res: Res64)
    ensures var o1, o2 := ToF(row.oddsHome, 0.0), ToF(row.oddsAway, 0.0);
            var p := Price(pow10, o1, ToF(row.oddsDraw, 0.0), o2,
                           ToF(row.eloHome, 1500.0), ToF(row.eloAway, 1500.0), RowHfa(row, base, dyn));
            && res.ev1 == 100.0 * p.ev1
            && res.ev2 == 100.0 * p.ev2
            && res.signal == Classify(Offer(res.ev1, res.ev2, o1, o2))
    ensures res.evX == -1.0
    ensures res.hfa == Trunc(RowHfa(row, base, dyn))
  {
    res := Res64(-1.0, -1.0, -1.0, base, Skip);
    var eloH := ToF(row.eloHome, 1500.0);
    var eloA := ToF(row.eloAway, 1500.0);
    var o1 := ToF(row.oddsHome, 0.0);
    var ox := ToF(row.oddsDraw, 0.0);
    var o2 := ToF(row.oddsAway, 0.0);

    var currHfa := DynamicHfa(row, base, dyn);
    res := res.(hfa := Trunc(currHfa));

    var ev1, ev2 := PriceSides(pow10, o1, ox, o2, eloH, eloA, currHfa);
    res := res.(ev1 := ev1 * 100.0, ev2 := ev2 * 100.0);
    var signal := ApplyTiers(ev1, ev2, o1, o2);
    res := res.(signal := signal);
  }

  /** With equal ratings and no home advantage the split is even; a fixture
      quoted 2.20 at home with no draw or away odds then reads as a 10% home
      edge and is signalled '💎 HOME'. */
  lemma HomeOnlyOddsCanSignal(pow10: real -> real)
    requires IsPow10(pow10)
    ensures var p := Price(pow10, 2.2, 0.0, 0.0, 1500.0, 1500.0, 0.0);
            && 100.0 * p.ev1 == 10.0
            && Classify(Offer(100.0 * p.ev1, 100.0 * p.ev2, 2.2, 0.0)) == DiamondHome
  {
    ProbsEvenAtZeroGap(pow10, 1500.0, 1500.0, 0.0);
  }
}
