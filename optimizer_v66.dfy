/** app_v66: run_optimization prices every settled row and books both sides
    at unit stake; the fixed strategy masks, the odds buckets and the league
    table then sum those results. */
module OptimizerV66 {
  import opened Common
  import opened Pricing
  import opened Tiers
  import opened Backtest

  /** One entry of results: Odds_1, Odds_2, EV_1, EV_2 (percent), PNL_1,
      PNL_2, HFA_Used and League (None for an empty league cell). */
  datatype Sim66 = Sim66(odds1: real, odds2: real, ev1: real, ev2: real,
                         pnl1: real, pnl2: real, hfaUsed: real, league: Option<string>)

  function SimOf(pow10: real -> real, r: Record, base: int, dyn: bool): Sim66
  {
    var p := RecordPrice(pow10, r, base, dyn);
    Sim66(r.o1, r.o2, p.ev1 * 100.0, p.ev2 * 100.0, PnlOf(Home, r), PnlOf(Away, r),
          RecordHfa(r, base, dyn), LeagueOf(r.league))
  }

  /** The results of run_optimization: one entry per settled row, in order. */
  function Simulate(pow10: real -> real, rs: seq<Record>, base: int, dyn: bool): (sims: seq<Sim66>)
    ensures |sims| <= |rs|
  {
    if rs == [] then []
    else
      var rest := Simulate(pow10, rs[..|rs| - 1], base, dyn);
      var r := rs[|rs| - 1];
      if r.mark == Unknown then rest else rest + [SimOf(pow10, r, base, dyn)]
  }

  /** results is empty exactly when no row is settled. */
  lemma {:induction false} NoResultsIffNothingSettled(pow10: real -> real, rs: seq<Record>, base: int, dyn: bool)
    ensures Simulate(pow10, rs, base, dyn) == [] <==> forall k :: 0 <= k < |rs| ==> rs[k].mark == Unknown
  {
    if rs != [] {
      var init := rs[..|rs| - 1];
      NoResultsIffNothingSettled(pow10, init, base, dyn);
      assert forall k :: 0 <= k < |init| ==> init[k] == rs[k];
    }
  }

  /** run_optimization(df, base_hfa, use_dyn). */
  method RunOptimization(pow10: real -> real, df: seq<Record>, base: int, dyn: bool) returns (results: seq<Sim66>)
    ensures results == Simulate(pow10, df, base, dyn)
  {
    results := [];
    var i := 0;
    while i < |df|
      invariant 0 <= i <= |df|
      invariant results == Simulate(pow10, df[..i], base, dyn)
    {
      var row := df[i];
      assert df[..i + 1] == df[..i] + [row];
      if row.mark == Unknown {
        UnsettledRowAddsNothing(pow10, df[..i], row, base, dyn);
        i := i + 1;
        continue;
      }
      SettledRowAppendsEntry(pow10, df[..i], row, base, dyn);
      var currHfa, ev1, ev2 := PriceRecord(pow10, row, base, dyn);
      var pnl1 := if row.mark == Known(One) then row.o1 - 1.0 else -1.0;
      var pnl2 := if row.mark == Known(Two) then row.o2 - 1.0 else -1.0;
      results := results + [Sim66(row.o1, row.o2, ev1 * 100.0, ev2 * 100.0, pnl1, pnl2,
                                  currHfa, LeagueOf(row.league))];
      i := i + 1;
    }
    assert df[..i] == df;
  }

  /** A row with Real_Res '-' adds nothing to results. */
  lemma UnsettledRowAddsNothing(pow10: real -> real, rs: seq<Record>, r: Record, base: int, dyn: bool)
    requires r.mark == Unknown
    ensures Simulate(pow10, rs + [r], base, dyn) == Simulate(pow10, rs, base, dyn)
  {
    assert (rs + [r])[..|rs|] == rs;
  }

  /** A settled row appends one entry: its odds, its EVs in percent, the P&L
      of a unit stake on each side as Real_Res decides it, its HFA and its
      league. */
  lemma SettledRowAppendsEntry(pow10: real -> real, rs: seq<Record>, r: Record, base: int, dyn: bool)
    requires r.mark != Unknown
    ensures var hfa := RecordHfa(r, base, dyn);
            var p := Price(pow10, r.o1, r.ox, r.o2, r.eloH, r.eloA, hfa);
            Simulate(pow10, rs + [r], base, dyn) == Simulate(pow10, rs, base, dyn) +
              [Sim66(r.o1, r.o2, 100.0 * p.ev1, 100.0 * p.ev2,
                     if r.mark == Known(One) then r.o1 - 1.0 else -1.0,
                     if r.mark == Known(Two) then r.o2 - 1.0 else -1.0,
                     hfa, LeagueOf(r.league))]
  {
    assert (rs + [r])[..|rs|] == rs;
  }

  /** Unit stake: each side either pays odds - 1 or costs 1, and at most
      one side is paid. */
  predicate UnitStake(s: Sim66)
  {
    && (s.pnl1 == s.odds1 - 1.0 || s.pnl1 == -1.0)
    && (s.pnl2 == s.odds2 - 1.0 || s.pnl2 == -1.0)
    && (s.pnl1 == -1.0 || s.pnl2 == -1.0)
  }

  lemma {:induction false} SimulatedRowsAreUnitStake(pow10: real -> real, rs: seq<Record>, base: int, dyn: bool)
    ensures forall k :: 0 <= k < |Simulate(pow10, rs, base, dyn)| ==> UnitStake(Simulate(pow10, rs, base, dyn)[k])
  {
    if rs != [] {
      SimulatedRowsAreUnitStake(pow10, rs[..|rs| - 1], base, dyn);
      DrawLosesBoth(rs[|rs| - 1]);
    }
  }

  /** The current away strategy: EV_2 > 4.0 at Odds_2 in [1.70, 3.50]. */
  predicate AwayMask(s: Sim66)
  {
    s.ev2 > 4.0 && 1.70 <= s.odds2 <= 3.50
  }

  /** The current home strategy: EV_1 > 4.0 at Odds_1 in [1.50, 2.50]. */
  predicate HomeMask(s: Sim66)
  {
    s.ev1 > 4.0 && 1.50 <= s.odds1 <= 2.50
  }

  /** profit_away: the sum of PNL_2 over the away mask. */
  function ProfitAway(sims: seq<Sim66>): real
  {
    if sims == [] then 0.0
    else ProfitAway(sims[..|sims| - 1]) + (if AwayMask(sims[|sims| - 1]) then sims[|sims| - 1].pnl2 else 0.0)
  }

  /** profit_home: the sum of PNL_1 over the home mask. */
  function ProfitHome(sims: seq<Sim66>): real
  {
    if sims == [] then 0.0
    else ProfitHome(sims[..|sims| - 1]) + (if HomeMask(sims[|sims| - 1]) then sims[|sims| - 1].pnl1 else 0.0)
  }

  /** The two masks are applied independently: a row in both counts in both sums. */
  lemma MasksAreIndependent(sims: seq<Sim66>, s: Sim66)
    requires AwayMask(s) && HomeMask(s)
    ensures ProfitAway(sims + [s]) == ProfitAway(sims) + s.pnl2
    ensures ProfitHome(sims + [s]) == ProfitHome(sims) + s.pnl1
  {
    assert (sims + [s])[..|sims|] == sims;
  }

  /** The sum of PNL_2 over the rows the four-tier signals mark '💎 AWAY'. */
  function DiamondAwayProfit(sims: seq<Sim66>): real
  {
    if sims == [] then 0.0
    else
      var s := sims[|sims| - 1];
      DiamondAwayProfit(sims[..|sims| - 1]) +
        (if Classify(Offer(s.ev1, s.ev2, s.odds1, s.odds2)) == DiamondAway then s.pnl2 else 0.0)
  }

  /** profit_away is the P&L the '💎 AWAY' signals would have made. */
  lemma {:induction false} ProfitAwayIsDiamondAwayProfit(sims: seq<Sim66>)
    ensures ProfitAway(sims) == DiamondAwayProfit(sims)
  {
    if sims != [] {
      ProfitAwayIsDiamondAwayProfit(sims[..|sims| - 1]);
    }
  }

  /** The away mask is the '💎 AWAY' rule of the four-tier signals. */
  lemma AwayMaskIsDiamondAway(s: Sim66)
    requires AwayMask(s)
    ensures Classify(Offer(s.ev1, s.ev2, s.odds1, s.odds2)) == DiamondAway
  {
  }

  /** The home mask is the '💎 HOME' rule, which the four-tier signals reach
      only when no away rule fires. */
  lemma HomeMaskIsDiamondHome(s: Sim66)
    requires HomeMask(s)
    ensures Classify(Offer(s.ev1, s.ev2, s.odds1, s.odds2)) == DiamondHome <==>
              !(s.ev2 > 1.5 && 1.50 <= s.odds2 <= 4.00)
  {
  }

  /** The bucket edges of pd.cut. */
  const Edges: seq<real> := [1.0, 1.5, 2.0, 2.5, 3.0, 4.0, 10.0]

  /** The first bucket at or after k whose right-closed interval holds o. */
  function BucketFrom(o: real, k: nat): (b: Option<nat>)
    requires k <= 6
    ensures b.Some? ==> k <= b.value < 6 && Edges[b.value] < o <= Edges[b.value + 1]
    ensures k < 6 ==> (b.None? <==> o <= Edges[k] || o > 10.0)
    decreases 6 - k
  {
    if k == 6 then None
    else if Edges[k] < o <= Edges[k + 1] then Some(k)
    else BucketFrom(o, k + 1)
  }

  /** pd.cut(o, bins=Edges): the bucket k with Edges[k] < o <= Edges[k+1];
      none for odds at most 1.0 or above 10.0. */
  function Bucket(o: real): (b: Option<nat>)
    ensures b.Some? ==> b.value < 6 && Edges[b.value] < o <= Edges[b.value + 1]
    ensures b.None? <==> o <= 1.0 || o > 10.0
  {
    BucketFrom(o, 0)
  }

  /** The buckets do not overlap: odds in a bucket's interval land in that bucket. */
  lemma BucketIsUnique(o: real, k: nat)
    requires k < 6 && Edges[k] < o <= Edges[k + 1]
    ensures Bucket(o) == Some(k)
  {
  }

  function SideEv(s: Sim66, side: Side): real
  {
    if side == Home then s.ev1 else s.ev2
  }

  function SideOdds(s: Sim66, side: Side): real
  {
    if side == Home then s.odds1 else s.odds2
  }

  function SidePnl(s: Sim66, side: Side): real
  {
    if side == Home then s.pnl1 else s.pnl2
  }

  /** The heat-map filter: the side's EV strictly above 2.0. */
  predicate HeatRow(s: Sim66, side: Side)
  {
    SideEv(s, side) > 2.0
  }

  /** The sum of the side's P&L over the filtered rows in bucket k. */
  function BucketPnl(sims: seq<Sim66>, side: Side, k: nat): real
  {
    if sims == [] then 0.0
    else
      var s := sims[|sims| - 1];
      BucketPnl(sims[..|sims| - 1], side, k) +
        (if HeatRow(s, side) && Bucket(SideOdds(s, side)) == Some(k) then SidePnl(s, side) else 0.0)
  }

  /** A row adds its side's P&L to bucket k exactly when that side's EV is
      above 2.0 and its odds lie in (Edges[k], Edges[k+1]]. */
  lemma BucketPnlSnoc(sims: seq<Sim66>, s: Sim66, side: Side, k: nat)
    requires k < 6
    ensures BucketPnl(sims + [s], side, k) ==
              BucketPnl(sims, side, k) +
                (if SideEv(s, side) > 2.0 && Edges[k] < SideOdds(s, side) <= Edges[k + 1]
                 then SidePnl(s, side) else 0.0)
  {
    assert (sims + [s])[..|sims|] == sims;
    if Edges[k] < SideOdds(s, side) <= Edges[k + 1] {
      BucketIsUnique(SideOdds(s, side), k);
    }
  }

  /** The sum of the side's P&L over the filtered rows that fall in some bucket. */
  function BucketedPnl(sims: seq<Sim66>, side: Side): real
  {
    if sims == [] then 0.0
    else
      var s := sims[|sims| - 1];
      BucketedPnl(sims[..|sims| - 1], side) +
        (if HeatRow(s, side) && Bucket(SideOdds(s, side)).Some? then SidePnl(s, side) else 0.0)
  }

  /** The six bucket sums add up to the total of the bucketed, filtered rows. */
  lemma {:induction false} BucketsPartition(sims: seq<Sim66>, side: Side)
    ensures BucketPnl(sims, side, 0) + BucketPnl(sims, side, 1) + BucketPnl(sims, side, 2)
            + BucketPnl(sims, side, 3) + BucketPnl(sims, side, 4) + BucketPnl(sims, side, 5)
            == BucketedPnl(sims, side)
  {
    if sims != [] {
      BucketsPartition(sims[..|sims| - 1], side);
    }
  }

  /** The sum of one side's P&L over a league's rows. */
  function LeagueSum(sims: seq<Sim66>, side: Side, name: string): real
  {
    if sims == [] then 0.0
    else
      var s := sims[|sims| - 1];
      LeagueSum(sims[..|sims| - 1], side, name) + (if s.league == Some(name) then SidePnl(s, side) else 0.0)
  }

  /** Total = PNL_1 + PNL_2 of the league's grouped sums. */
  function LeagueTotal(sims: seq<Sim66>, name: string): real
  {
    LeagueSum(sims, Home, name) + LeagueSum(sims, Away, name)
  }

  /** Both sides of every row of a league, with no EV filter. */
  function LeagueRows(sims: seq<Sim66>, name: string): real
  {
    if sims == [] then 0.0
    else
      var s := sims[|sims| - 1];
      LeagueRows(sims[..|sims| - 1], name) + (if s.league == Some(name) then s.pnl1 + s.pnl2 else 0.0)
  }

  /** A league's Total is the sum of both sides over all of its rows. */
  lemma {:induction false} LeagueTotalIsRowSum(sims: seq<Sim66>, name: string)
    ensures LeagueTotal(sims, name) == LeagueRows(sims, name)
  {
    if sims != [] {
      LeagueTotalIsRowSum(sims[..|sims| - 1], name);
    }
  }

  /** The league table ignores the EVs: rows whose EVs change keep every Total. */
  lemma {:induction false} LeagueTotalIgnoresEv(sims: seq<Sim66>, sims': seq<Sim66>, name: string)
    requires |sims| == |sims'|
    requires forall k :: 0 <= k < |sims| ==>
               sims'[k] == sims[k].(ev1 := sims'[k].ev1, ev2 := sims'[k].ev2)
    ensures LeagueTotal(sims', name) == LeagueTotal(sims, name)
  {
    LeagueTotalIsRowSum(sims, name);
    LeagueTotalIsRowSum(sims', name);
    LeagueRowsIgnoreEv(sims, sims', name);
  }

  lemma {:induction false} LeagueRowsIgnoreEv(sims: seq<Sim66>, sims': seq<Sim66>, name: string)
    requires |sims| == |sims'|
    requires forall k :: 0 <= k < |sims| ==>
               sims'[k] == sims[k].(ev1 := sims'[k].ev1, ev2 := sims'[k].ev2)
    ensures LeagueRows(sims', name) == LeagueRows(sims, name)
  {
    if sims != [] {
      var n := |sims| - 1;
      LeagueRowsIgnoreEv(sims[..n], sims'[..n], name);
    }
  }

  /** What the page shows once the file is read: an error when no record
      was loaded, a crash when results is empty (no row settled, so the
      frame has no 'EV_2' column to mask), else the strategy profits. */
  datatype Page = ReadError | Crashed | Shown(profitAway: real, profitHome: real)

  function PageOf(pow10: real -> real, rs: seq<Record>, base: int, dyn: bool): (p: Page)
    ensures p == ReadError <==> rs == []
    ensures p == Crashed <==> rs != [] && forall k :: 0 <= k < |rs| ==> rs[k].mark == Unknown
    ensures p.Shown? ==>
              var sims := Simulate(pow10, rs, base, dyn);
              p.profitAway == ProfitAway(sims) && p.profitHome == ProfitHome(sims)
  {
    if rs == [] then ReadError
    else
      NoResultsIffNothingSettled(pow10, rs, base, dyn);
      var sims := Simulate(pow10, rs, base, dyn);
      if sims == [] then Crashed else Shown(ProfitAway(sims), ProfitHome(sims))
  }
}
