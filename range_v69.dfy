/** app_v69: calculate_all_metrics prices every settled row at unit stake;
    user-chosen EV and odds ranges then select the away and home bets, whose
    P&L, count, ROI and best side are reported. */
module RangeV69 {
  import opened Common
  import opened Pricing
  import opened Backtest

  /** One entry of data: Odds_1, Odds_2, EV_1, EV_2 (percent), PNL_1, PNL_2
      and League (None for an empty league cell). */
  datatype Sim69 = Sim69(odds1: real, odds2: real, ev1: real, ev2: real,
                         pnl1: real, pnl2: real, league: Option<string>)

  function SimOf(pow10: real -> real, r: Record, base: int, dyn: bool): Sim69
  {
    var p := RecordPrice(pow10, r, base, dyn);
    Sim69(r.o1, r.o2, p.ev1 * 100.0, p.ev2 * 100.0, PnlOf(Home, r), PnlOf(Away, r), LeagueOf(r.league))
  }

  /** The data of calculate_all_metrics: one entry per settled row, in order. */
  function AllMetrics(pow10: real -> real, rs: seq<Record>, base: int, dyn: bool): (sims: seq<Sim69>)
    ensures |sims| <= |rs|
  {
    if rs == [] then []
    else
      var rest := AllMetrics(pow10, rs[..|rs| - 1], base, dyn);
      var r := rs[|rs| - 1];
      if r.mark == Unknown then rest else rest + [SimOf(pow10, r, base, dyn)]
  }

  /** calculate_all_metrics(df, base_hfa, use_dyn). */
  method CalculateAllMetrics(pow10: real -> real, df: seq<Record>, base: int, dyn: bool) returns (data: seq<Sim69>)
    ensures data == AllMetrics(pow10, df, base, dyn)
  {
    data := [];
    var i := 0;
    while i < |df|
      invariant 0 <= i <= |df|
      invariant data == AllMetrics(pow10, df[..i], base, dyn)
    {
      var row := df[i];
      assert df[..i + 1] == df[..i] + [row];
      if row.mark == Unknown {
        UnsettledRowIsExcluded(pow10, df[..i], row, base, dyn);
        i := i + 1;
        continue;
      }
      SettledRowAppendsEntry(pow10, df[..i], row, base, dyn);
      var currHfa, ev1, ev2 := PriceRecord(pow10, row, base, dyn);
      var pnl1 := if row.mark == Known(One) then row.o1 - 1.0 else -1.0;
      var pnl2 := if row.mark == Known(Two) then row.o2 - 1.0 else -1.0;
      data := data + [Sim69(row.o1, row.o2, ev1 * 100.0, ev2 * 100.0, pnl1, pnl2, LeagueOf(row.league))];
      i := i + 1;
    }
    assert df[..i] == df;
  }

  /** A settled row appends one entry: its odds, its EVs in percent, the P&L
      of a unit stake on each side as Real_Res decides it, and its league. */
  lemma SettledRowAppendsEntry(pow10: real -> real, rs: seq<Record>, r: Record, base: int, dyn: bool)
    requires r.mark != Unknown
    ensures var p := Price(pow10, r.o1, r.ox, r.o2, r.eloH, r.eloA, RecordHfa(r, base, dyn));
            AllMetrics(pow10, rs + [r], base, dyn) == AllMetrics(pow10, rs, base, dyn) +
              [Sim69(r.o1, r.o2, 100.0 * p.ev1, 100.0 * p.ev2,
                     if r.mark == Known(One) then r.o1 - 1.0 else -1.0,
                     if r.mark == Known(Two) then r.o2 - 1.0 else -1.0,
                     LeagueOf(r.league))]
  {
    assert (rs + [r])[..|rs|] == rs;
  }

  /** Each entry stakes one unit per side: a side pays odds - 1 or costs 1. */
  predicate UnitStake(s: Sim69)
  {
    && (s.pnl1 == s.odds1 - 1.0 || s.pnl1 == -1.0)
    && (s.pnl2 == s.odds2 - 1.0 || s.pnl2 == -1.0)
  }

  lemma {:induction false} EntriesAreUnitStake(pow10: real -> real, rs: seq<Record>, base: int, dyn: bool)
    ensures forall k :: 0 <= k < |AllMetrics(pow10, rs, base, dyn)| ==> UnitStake(AllMetrics(pow10, rs, base, dyn)[k])
  {
    if rs != [] {
      EntriesAreUnitStake(pow10, rs[..|rs| - 1], base, dyn);
    }
  }

  /** Only settled rows enter data: a row with Real_Res '-' changes nothing. */
  lemma UnsettledRowIsExcluded(pow10: real -> real, rs: seq<Record>, r: Record, base: int, dyn: bool)
    requires r.mark == Unknown
    ensures AllMetrics(pow10, rs + [r], base, dyn) == AllMetrics(pow10, rs, base, dyn)
  {
    assert (rs + [r])[..|rs|] == rs;
  }

  /** data is empty exactly when no row is settled. */
  lemma {:induction false} NoDataIffNothingSettled(pow10: real -> real, rs: seq<Record>, base: int, dyn: bool)
    ensures AllMetrics(pow10, rs, base, dyn) == [] <==> forall k :: 0 <= k < |rs| ==> rs[k].mark == Unknown
  {
    if rs != [] {
      var init := rs[..|rs| - 1];
      NoDataIffNothingSettled(pow10, init, base, dyn);
      assert forall k :: 0 <= k < |init| ==> init[k] == rs[k];
    }
  }

  /** The slider ranges. */
  datatype Bounds = Bounds(minEv: real, maxEv: real, minOdds: real, maxOdds: real)

  /** mask_away: EV_2 and Odds_2 both inside their ranges, bounds included. */
  predicate InAway(s: Sim69, b: Bounds)
  {
    b.minEv <= s.ev2 <= b.maxEv && b.minOdds <= s.odds2 <= b.maxOdds
  }

  /** mask_home: EV_1 and Odds_1 inside the same ranges. */
  predicate InHome(s: Sim69, b: Bounds)
  {
    b.minEv <= s.ev1 <= b.maxEv && b.minOdds <= s.odds1 <= b.maxOdds
  }

  /** df_away. */
  function AwaySet(sims: seq<Sim69>, b: Bounds): (r: seq<Sim69>)
    ensures forall s :: s in r <==> s in sims && InAway(s, b)
    ensures |r| <= |sims|
  {
    if sims == [] then []
    else
      var rest := AwaySet(sims[..|sims| - 1], b);
      var s := sims[|sims| - 1];
      assert sims == sims[..|sims| - 1] + [s];
      if InAway(s, b) then rest + [s] else rest
  }

  /** df_home. */
  function HomeSet(sims: seq<Sim69>, b: Bounds): (r: seq<Sim69>)
    ensures forall s :: s in r <==> s in sims && InHome(s, b)
    ensures |r| <= |sims|
  {
    if sims == [] then []
    else
      var rest := HomeSet(sims[..|sims| - 1], b);
      var s := sims[|sims| - 1];
      assert sims == sims[..|sims| - 1] + [s];
      if InHome(s, b) then rest + [s] else rest
  }

  /** df_away keeps the order of data: one more entry appends itself exactly
      when it is inside the away ranges. */
  lemma AwaySetSnoc(sims: seq<Sim69>, s: Sim69, b: Bounds)
    ensures AwaySet(sims + [s], b) == AwaySet(sims, b) + (if InAway(s, b) then [s] else [])
  {
    assert (sims + [s])[..|sims|] == sims;
  }

  /** df_home keeps the order of data in the same way. */
  lemma HomeSetSnoc(sims: seq<Sim69>, s: Sim69, b: Bounds)
    ensures HomeSet(sims + [s], b) == HomeSet(sims, b) + (if InHome(s, b) then [s] else [])
  {
    assert (sims + [s])[..|sims|] == sims;
  }

  function SumPnl2(sims: seq<Sim69>): real
  {
    if sims == [] then 0.0 else SumPnl2(sims[..|sims| - 1]) + sims[|sims| - 1].pnl2
  }

  function SumPnl1(sims: seq<Sim69>): real
  {
    if sims == [] then 0.0 else SumPnl1(sims[..|sims| - 1]) + sims[|sims| - 1].pnl1
  }

  /** The figures of the simulation with the active filters. */
  datatype Metrics = Metrics(pnlAway: real, pnlHome: real, totalPnl: real, betsCount: nat, roi: real)

  /** roi = total_pnl / bets_count * 100, or 0 when there is no bet. */
  function Roi(total: real, n: nat): (roi: real)
    ensures n == 0 ==> roi == 0.0
    ensures n > 0 ==> roi * (n as real) == total * 100.0
  {
    if n > 0 then
      var r := (total / (n as real)) * 100.0;
      assert r * (n as real) == (total / (n as real)) * (n as real) * 100.0;
      r
    else 0.0
  }

  /** pnl_away, pnl_home, total_pnl, bets_count and roi. */
  function Measure(sims: seq<Sim69>, b: Bounds): Metrics
  {
    var away, home := AwaySet(sims, b), HomeSet(sims, b);
    var pa, ph := SumPnl2(away), SumPnl1(home);
    Metrics(pa, ph, pa + ph, |away| + |home|, Roi(pa + ph, |away| + |home|))
  }

  /** Each entry is at most two bets, the total is the two sides' sum, and
      with no bet the ROI stays 0. */
  lemma BetsCountBound(sims: seq<Sim69>, b: Bounds)
    ensures var m := Measure(sims, b);
            && m.betsCount <= 2 * |sims|
            && m.totalPnl == m.pnlAway + m.pnlHome
            && (m.betsCount == 0 ==> m.roi == 0.0)
  {
    MeasureFields(sims, b);
  }

  /** With at least one bet the ROI is total_pnl / bets_count * 100. */
  lemma MeasureRoi(sims: seq<Sim69>, b: Bounds)
    ensures var m := Measure(sims, b);
            m.betsCount > 0 ==> m.roi * (m.betsCount as real) == m.totalPnl * 100.0
  {
    MeasureFields(sims, b);
    RoiTimesBets(Measure(sims, b));
  }

  lemma RoiTimesBets(m: Metrics)
    requires m.roi == Roi(m.totalPnl, m.betsCount)
    ensures m.betsCount > 0 ==> m.roi * (m.betsCount as real) == m.totalPnl * 100.0
  {
  }

  lemma MeasureFields(sims: seq<Sim69>, b: Bounds)
    ensures var away, home := AwaySet(sims, b), HomeSet(sims, b);
            var total, n := SumPnl2(away) + SumPnl1(home), |away| + |home|;
            Measure(sims, b) == Metrics(SumPnl2(away), SumPnl1(home), total, n, Roi(total, n))
  {
  }

  /** The figures build up entry by entry: nothing for no data, and each
      entry adds its PNL_2 and one bet when inside the away ranges, and its
      PNL_1 and one bet when inside the home ranges. */
  lemma MeasureSnoc(sims: seq<Sim69>, s: Sim69, b: Bounds)
    ensures Measure([], b) == Metrics(0.0, 0.0, 0.0, 0, 0.0)
    ensures var m, m' := Measure(sims, b), Measure(sims + [s], b);
            && m'.pnlAway == m.pnlAway + (if InAway(s, b) then s.pnl2 else 0.0)
            && m'.pnlHome == m.pnlHome + (if InHome(s, b) then s.pnl1 else 0.0)
            && m'.betsCount == m.betsCount + (if InAway(s, b) then 1 else 0) + (if InHome(s, b) then 1 else 0)
  {
    AwaySetSnoc(sims, s, b);
    HomeSetSnoc(sims, s, b);
    var away, home := AwaySet(sims, b), HomeSet(sims, b);
    assert (away + [s])[..|away|] == away;
    assert (home + [s])[..|home|] == home;
  }

  /** An entry inside both ranges is two bets, one on each side. */
  lemma BothSidesCountTwice(sims: seq<Sim69>, s: Sim69, b: Bounds)
    requires InAway(s, b) && InHome(s, b)
    ensures Measure(sims + [s], b).betsCount == Measure(sims, b).betsCount + 2
    ensures Measure(sims + [s], b).totalPnl == Measure(sims, b).totalPnl + s.pnl1 + s.pnl2
  {
    MeasureSnoc(sims, s, b);
  }

  /** The ROI has the sign of the total P&L. */
  lemma RoiHasSignOfTotal(total: real, n: nat)
    requires n > 0
    ensures Roi(total, n) > 0.0 <==> total > 0.0
    ensures Roi(total, n) == 0.0 <==> total == 0.0
  {
    var r, x := Roi(total, n), n as real;
    assert r * x == total * 100.0;
    if r > 0.0 { assert r * x > 0.0; }
    if r < 0.0 { assert r * x < 0.0; }
  }

  /** A set of unit-stake bets loses at most one unit per bet when the odds
      floor is not negative. */
  lemma {:induction false} AwayLossFloor(sims: seq<Sim69>, b: Bounds)
    requires forall s :: s in sims && InAway(s, b) ==> UnitStake(s)
    requires b.minOdds >= 0.0
    ensures SumPnl2(AwaySet(sims, b)) >= -(|AwaySet(sims, b)| as real)
  {
    if sims != [] {
      var init := sims[..|sims| - 1];
      assert forall s :: s in init ==> s in sims;
      AwayLossFloor(init, b);
      var s := sims[|sims| - 1];
      if InAway(s, b) {
        assert AwaySet(sims, b)[..|AwaySet(sims, b)| - 1] == AwaySet(init, b);
      }
    }
  }

  lemma {:induction false} HomeLossFloor(sims: seq<Sim69>, b: Bounds)
    requires forall s :: s in sims && InHome(s, b) ==> UnitStake(s)
    requires b.minOdds >= 0.0
    ensures SumPnl1(HomeSet(sims, b)) >= -(|HomeSet(sims, b)| as real)
  {
    if sims != [] {
      var init := sims[..|sims| - 1];
      assert forall s :: s in init ==> s in sims;
      HomeLossFloor(init, b);
      var s := sims[|sims| - 1];
      if InHome(s, b) {
        assert HomeSet(sims, b)[..|HomeSet(sims, b)| - 1] == HomeSet(init, b);
      }
    }
  }

  /** With a non-negative odds floor the ROI never falls below -100%. */
  lemma RoiFloor(sims: seq<Sim69>, b: Bounds)
    requires forall k :: 0 <= k < |sims| ==> UnitStake(sims[k])
    requires b.minOdds >= 0.0
    ensures Measure(sims, b).roi >= -100.0
  {
    assert forall s :: s in sims ==> UnitStake(s);
    AwayLossFloor(sims, b);
    HomeLossFloor(sims, b);
    var m := Measure(sims, b);
    RoiOfBoundedLoss(m.totalPnl, m.betsCount);
  }

  /** A loss of at most one unit per bet is a ROI of at least -100%. */
  lemma RoiOfBoundedLoss(total: real, n: nat)
    requires total >= -(n as real)
    ensures Roi(total, n) >= -100.0
  {
    if n > 0 {
      var r, x := Roi(total, n), n as real;
      assert r * x == total * 100.0;
      assert (r + 100.0) * x >= 0.0;
    }
  }

  /** 'CASA (1)', 'OSPITE (2)' or 'NESSUNA'. */
  datatype Strategy = Casa | Ospite | Nessuna

  /** best_strat. */
  function BestStrat(pnlHome: real, pnlAway: real): (st: Strategy)
    ensures st == Casa <==> pnlHome > pnlAway && pnlHome > 0.0
    ensures st == Ospite <==> pnlAway > pnlHome && pnlAway > 0.0
  {
    if pnlHome > pnlAway && pnlHome > 0.0 then Casa
    else if pnlAway > pnlHome && pnlAway > 0.0 then Ospite
    else Nessuna
  }

  /** A tie, or two sides that both fail to profit, picks no strategy; the
      chosen side is always the one with the larger P&L. */
  lemma BestStratIsTheBetterSide(pnlHome: real, pnlAway: real)
    ensures pnlHome == pnlAway ==> BestStrat(pnlHome, pnlAway) == Nessuna
    ensures pnlHome <= 0.0 && pnlAway <= 0.0 ==> BestStrat(pnlHome, pnlAway) == Nessuna
    ensures BestStrat(pnlHome, pnlAway) != Nessuna ==>
              var best := if BestStrat(pnlHome, pnlAway) == Casa then pnlHome else pnlAway;
              best > 0.0 && best >= pnlHome && best >= pnlAway
  {
  }

  /** What the page shows once the file is read: an error when no record
      was loaded, a crash when data is empty (no row settled, so the frame
      has no 'EV_2' column to mask), else the figures and the best side. */
  datatype Page = ReadError | Crashed | Shown(figures: Metrics, best: Strategy)

  function PageOf(pow10: real -> real, rs: seq<Record>, base: int, dyn: bool, b: Bounds): (p: Page)
    ensures p == ReadError <==> rs == []
    ensures p == Crashed <==> rs != [] && forall k :: 0 <= k < |rs| ==> rs[k].mark == Unknown
    ensures p.Shown? ==> p.figures == Measure(AllMetrics(pow10, rs, base, dyn), b)
    ensures p.Shown? ==> p.best == BestStrat(p.figures.pnlHome, p.figures.pnlAway)
  {
    if rs == [] then ReadError
    else
      NoDataIffNothingSettled(pow10, rs, base, dyn);
      var sims := AllMetrics(pow10, rs, base, dyn);
      if sims == [] then Crashed
      else
        var m := Measure(sims, b);
        Shown(m, BestStrat(m.pnlHome, m.pnlAway))
  }
}
