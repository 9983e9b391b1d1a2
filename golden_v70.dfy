/** app_v70: calc_sniper looks the standings up with an `or` chain, prices
    only the away side and applies the single "golden" away rule. */
module GoldenV70 {
  import opened Common
  import opened Pricing
  import opened HomeAdvantage
  import Tiers

  /** 'SKIP' or '💎 GOLDEN PICK'. */
  datatype Signal70 = Skip | GoldenPick

  /** '-' or '2 (Ospite)'. */
  datatype Pick70 = NoBet | AwayBet

  /** The series calc_sniper returns: Signal, EV (away, in percent), Pick, HFA. */
  datatype Res70 = Res70(signal: Signal70, ev: real, pick: Pick70, hfa: int)

  /** The golden rule: an away EV in [11.0, 19.5] percent at away odds in
      [2.06, 2.80], all bounds inclusive. */
  predicate IsGolden(ev: real, o2: real)
  {
    11.0 <= ev <= 19.5 && 2.06 <= o2 <= 2.80
  }

  /** The home advantage calc_sniper prices with: the first truthy alias of
      each standing. */
  function SniperHfa(row: Row, base: int, dyn: bool): real
  {
    EffectiveHfa(base, dyn, FirstTruthy(row.homePlace), FirstTruthy(row.awayPlace))
  }

  /** What calc_sniper yields for one row. */
  function Sniper70(pow10: real -> real, row: Row, base: int, dyn: bool): (r: Res70)
    ensures r.signal == GoldenPick <==> IsGolden(r.ev, ToF(row.oddsAway, 0.0))
    ensures r.pick == AwayBet <==> r.signal == GoldenPick
    ensures r.hfa == Trunc(SniperHfa(row, base, dyn))
    ensures r.ev == 100.0 * Price(pow10, ToF(row.oddsHome, 0.0), ToF(row.oddsDraw, 0.0), ToF(row.oddsAway, 0.0),
                                  ToF(row.eloHome, 1500.0), ToF(row.eloAway, 1500.0), SniperHfa(row, base, dyn)).ev2
  {
    var o2 := ToF(row.oddsAway, 0.0);
    var p := Price(pow10, ToF(row.oddsHome, 0.0), ToF(row.oddsDraw, 0.0), o2,
                   ToF(row.eloHome, 1500.0), ToF(row.eloAway, 1500.0), SniperHfa(row, base, dyn));
    var ev := 100.0 * p.ev2;
    if IsGolden(ev, o2) then Res70(GoldenPick, ev, AwayBet, Trunc(SniperHfa(row, base, dyn)))
    else Res70(Skip, ev, NoBet, Trunc(SniperHfa(row, base, dyn)))
  }

  /** The curr_hfa steps of calc_sniper. */
  method DynamicHfa70(row: Row, base: int, dyn: bool) returns (currHfa: real)
    ensures currHfa == SniperHfa(row, base, dyn)
  {
    currHfa := base as real;
    if dyn {
      var r1 := FirstTruthy(row.homePlace);
      var r2 := FirstTruthy(row.awayPlace);
      if !IsNa(r1) && !IsNa(r2) {
        var f2, f1 := FloatOf(r2), FloatOf(r1);
        if f2.Some? && f1.Some? {
          currHfa := currHfa + (f2.value - f1.value) * 3.0;
          currHfa := Clamp(currHfa);
        }
      }
    }
  }

  /** The away-only pricing of calc_sniper: rem, fin2 and EV_2. */
  method AwayEv(pow10: real -> real, o1: real, ox: real, o2: real,
                eloH: real, eloA: real, hfa: real) returns (ev2: real)
    ensures ev2 == Price(pow10, o1, ox, o2, eloH, eloA, hfa).ev2
  {
    var t := NoMargin(o1, ox, o2);
    var s := GetProbs(pow10, eloH, eloA, hfa);
    var rem := 1.0 - t.px;
    var fin2 := rem * s.pa;
    ev2 := o2 * fin2 - 1.0;
  }

  /** calc_sniper(row, base_hfa, dyn). */
  method CalcSniper(pow10: real -> real, row: Row, base: int, dyn: bool) returns (res: Res70)
    ensures res == Sniper70(pow10, row, base, dyn)
  {
    res := Res70(Skip, 0.0, NoBet, base);
    var eloH := ToF(row.eloHome, 1500.0);
    var eloA := ToF(row.eloAway, 1500.0);
    var o1 := ToF(row.oddsHome, 0.0);
    var ox := ToF(row.oddsDraw, 0.0);
    var o2 := ToF(row.oddsAway, 0.0);

    var currHfa := DynamicHfa70(row, base, dyn);
    res := res.(hfa := Trunc(currHfa));

    var ev2 := AwayEv(pow10, o1, ox, o2, eloH, eloA, currHfa);
    var ev2Perc := ev2 * 100.0;
    res := res.(ev := ev2Perc);

    if 11.0 <= ev2Perc <= 19.5 && 2.06 <= o2 <= 2.80 {
      res := res.(signal := GoldenPick, pick := AwayBet);
    }
  }

  /** Every golden pick is also a '💎 AWAY' signal of the four-tier rules. */
  lemma GoldenIsDiamondAway(evHome: real, ev: real, o1: real, o2: real)
    requires IsGolden(ev, o2)
    ensures Tiers.Classify(Tiers.Offer(evHome, ev, o1, o2)) == Tiers.DiamondAway
  {
  }

  /** The home odd changes the result only through the draw share of
      no_margin: a row quoted differently at home for the same draw share
      gets the same signal and EV. */
  lemma HomeOddOnlyViaDraw(pow10: real -> real, row: Row, home: Field, base: int, dyn: bool)
    requires NoMargin(ToF(row.oddsHome, 0.0), ToF(row.oddsDraw, 0.0), ToF(row.oddsAway, 0.0)).px
             == NoMargin(ToF(home, 0.0), ToF(row.oddsDraw, 0.0), ToF(row.oddsAway, 0.0)).px
    ensures Sniper70(pow10, row.(oddsHome := home), base, dyn) == Sniper70(pow10, row, base, dyn)
  {
    var row' := row.(oddsHome := home);
    assert SniperHfa(row', base, dyn) == SniperHfa(row, base, dyn);
    AwayEvSeesHomeOddOnlyViaDraw(pow10, ToF(row.oddsHome, 0.0), ToF(home, 0.0), ToF(row.oddsDraw, 0.0),
                                 ToF(row.oddsAway, 0.0), ToF(row.eloHome, 1500.0), ToF(row.eloAway, 1500.0),
                                 SniperHfa(row, base, dyn));
  }

  /** With a 0 first alias the `or` chain reads the next alias, so the
      standing of 0 is treated like a missing one. */
  lemma ZeroHomeStandingIsSkipped(pow10: real -> real, row: Row, base: int, dyn: bool)
    requires row.homePlace.plain == Num(0.0)
    ensures Sniper70(pow10, row, base, dyn)
            == Sniper70(pow10, row.(homePlace := row.homePlace.(plain := Missing)), base, dyn)
  {
    ZeroStandingFallsThrough(row.homePlace);
  }
}
