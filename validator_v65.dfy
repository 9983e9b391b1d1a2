/** app_v65: calc_signal adds the bet (Pick, Odds_Play) to the four-tier
    signal, and the validator joins the signalled fixtures to their final
    scores by MatchID and books each bet at a fixed stake of 10. */
module ValidatorV65 {
  import opened Common
  import opened Pricing
  import opened HomeAdvantage
  import opened Tiers
  import opened Outcomes
  import opened SniperV64

  /** The fixed simulation stake. */
  const Stake: real := 10.0

  /** The series calc_signal returns: Signal, EV_1, EV_2 (in percent),
      Odds_Play and Pick (None, '1' or '2'). */
  datatype Res65 = Res65(signal: Tier, ev1: real, ev2: real, oddsPlay: real, pick: Option<Tag>)

  /** Pick and Odds_Play follow the signal: the away tiers back '2' at o2,
      the home tiers back '1' at o1, and SKIP backs nothing at odds 0. */
  predicate Follows(r: Res65, o1: real, o2: real)
  {
    && (IsAwayTier(r.signal) ==> r.pick == Some(Two) && r.oddsPlay == o2)
    && (IsHomeTier(r.signal) ==> r.pick == Some(One) && r.oddsPlay == o1)
    && (r.signal == Skip ==> r.pick == None && r.oddsPlay == 0.0)
  }

  /** What calc_signal yields for one row: the EVs of the priced fixture,
      the first-match tier of those EVs and the bet that tier places. */
  function Signal65(pow10: real -> real, row: Row, base: int, dyn: bool): (r: Res65)
    ensures var o1, o2 := ToF(row.oddsHome, 0.0), ToF(row.oddsAway, 0.0);
            && r.signal == Classify(Offer(r.ev1, r.ev2, o1, o2))
            && Follows(r, o1, o2)
    ensures var p := Price(pow10, ToF(row.oddsHome, 0.0), ToF(row.oddsDraw, 0.0), ToF(row.oddsAway, 0.0),
                           ToF(row.eloHome, 1500.0), ToF(row.eloAway, 1500.0), RowHfa(row, base, dyn));
            r.ev1 == 100.0 * p.ev1 && r.ev2 == 100.0 * p.ev2
  {
    var o1, o2 := ToF(row.oddsHome, 0.0), ToF(row.oddsAway, 0.0);
    var p := Price(pow10, o1, ToF(row.oddsDraw, 0.0), o2,
                   ToF(row.eloHome, 1500.0), ToF(row.eloAway, 1500.0), RowHfa(row, base, dyn));
    var ev1, ev2 := 100.0 * p.ev1, 100.0 * p.ev2;
    var t := Classify(Offer(ev1, ev2, o1, o2));
    if IsAwayTier(t) then Res65(t, ev1, ev2, o2, Some(Two))
    else if IsHomeTier(t) then Res65(t, ev1, ev2, o1, Some(One))
    else Res65(t, ev1, ev2, 0.0, None)
  }

  /** The signal chain of calc_signal, which sets Signal, Pick and Odds_Play
      together in each branch. */
  method ApplyTiers65(ev1: real, ev2: real, o1: real, o2: real) returns (signal: Tier, pick: Option<Tag>, oddsPlay: real)
    ensures signal == Classify(Offer(ev1 * 100.0, ev2 * 100.0, o1, o2))
    ensures Follows(Res65(signal, ev1, ev2, oddsPlay, pick), o1, o2)
  {
    signal, pick, oddsPlay := Skip, None, 0.0;
    if ev2 * 100.0 > 4.0 && 1.70 <= o2 <= 3.50 {
      signal, pick, oddsPlay := DiamondAway, Some(Two), o2;
    } else if ev2 * 100.0 > 1.5 && 1.50 <= o2 <= 4.00 {
      signal, pick, oddsPlay := ValueAway, Some(Two), o2;
    } else if ev1 * 100.0 > 4.0 && 1.50 <= o1 <= 2.50 {
      signal, pick, oddsPlay := DiamondHome, Some(One), o1;
    } else if ev1 * 100.0 > 1.5 && 1.40 <= o1 <= 3.00 {
      signal, pick, oddsPlay := ValueHome, Some(One), o1;
    }
  }

  /** calc_signal(row, base_hfa, dyn). */
  method CalcSignal(pow10: real -> real, row: Row, base: int, dyn: bool) returns (res: Res65)
    ensures res == Signal65(pow10, row, base, dyn)
  {
    res := Res65(Skip, 0.0, 0.0, 0.0, None);
    var eloH := ToF(row.eloHome, 1500.0);
    var eloA := ToF(row.eloAway, 1500.0);
    var o1 := ToF(row.oddsHome, 0.0);
    var ox := ToF(row.oddsDraw, 0.0);
    var o2 := ToF(row.oddsAway, 0.0);

    var currHfa := DynamicHfa(row, base, dyn);
    var ev1, ev2 := PriceSides(pow10, o1, ox, o2, eloH, eloA, currHfa);
    res := res.(ev1 := ev1 * 100.0, ev2 := ev2 * 100.0);
    var signal, pick, oddsPlay := ApplyTiers65(ev1, ev2, o1, o2);
    res := res.(signal := signal, pick := pick, oddsPlay := oddsPlay);
  }

  /** Every bet placed is on a side ('1' or '2'), at odds inside the widest
      odds band of the rules, never on the draw. */
  lemma PlacedBetsAreSideBets(pow10: real -> real, row: Row, base: int, dyn: bool)
    ensures var r := Signal65(pow10, row, base, dyn);
            r.signal != Skip ==>
              && (r.pick == Some(One) || r.pick == Some(Two))
              && 1.40 <= r.oddsPlay <= 4.00
  {
  }

  /** One analysed fixture of the first file: the team names, the row's
      pricing fields and its two final scores as parsed by
      float(str(x).replace(',', '.')), None when missing or not a number. */
  datatype Fixture = Fixture(home: string, away: string, row: Row,
                             score1: Option<real>, score2: Option<real>)

  /** A loaded file: its fixtures and whether it has the scor1 and scor2 columns. */
  datatype Sheet = Sheet(fixtures: seq<Fixture>, hasScor1: bool, hasScor2: bool)

  /** The optional second file: not given, given but unreadable, or loaded. */
  datatype Upload = NotUploaded | Unreadable | Loaded(sheet: Sheet)

  /** A row of df_main after the signals are joined to it. */
  datatype Play = Play(home: string, away: string, id: string, res: Res65)

  function PlayOf(pow10: real -> real, f: Fixture, base: int, dyn: bool): Play
  {
    Play(f.home, f.away, MatchId(f.home, f.away), Signal65(pow10, f.row, base, dyn))
  }

  /** df_main with the signals of calc_signal joined row by row. */
  function Analyse(pow10: real -> real, fs: seq<Fixture>, base: int, dyn: bool): (ps: seq<Play>)
    ensures |ps| == |fs|
    ensures forall i :: 0 <= i < |fs| ==> ps[i] == PlayOf(pow10, fs[i], base, dyn)
  {
    if fs == [] then []
    else Analyse(pow10, fs[..|fs| - 1], base, dyn) + [PlayOf(pow10, fs[|fs| - 1], base, dyn)]
  }

  /** played_df: the rows whose signal is not SKIP, in their order. */
  function Played(ps: seq<Play>): (r: seq<Play>)
    ensures forall p :: p in r <==> p in ps && p.res.signal != Skip
    ensures |r| <= |ps|
  {
    if ps == [] then []
    else
      var rest := Played(ps[..|ps| - 1]);
      var last := ps[|ps| - 1];
      assert ps == ps[..|ps| - 1] + [last];
      if last.res.signal != Skip then rest + [last] else rest
  }

  /** played_df keeps the order of the analysis: one more row appends
      itself exactly when it is not SKIP. */
  lemma PlayedSnoc(ps: seq<Play>, p: Play)
    ensures Played(ps + [p]) == Played(ps) + (if p.res.signal != Skip then [p] else [])
  {
    assert (ps + [p])[..|ps|] == ps;
  }

  /** The two score cells of res_map[MatchID]. */
  datatype Scores = Scores(s1: Option<real>, s2: Option<real>)

  /** One row of the results file as res_map sees it: its MatchID and scores. */
  datatype Entry = Entry(id: string, scores: Scores)

  /** The MatchID and score columns of a results file. */
  function Keyed(fs: seq<Fixture>): (es: seq<Entry>)
    ensures |es| == |fs|
    ensures forall i :: 0 <= i < |fs| ==>
              es[i] == Entry(MatchId(fs[i].home, fs[i].away), Scores(fs[i].score1, fs[i].score2))
  {
    if fs == [] then []
    else Keyed(fs[..|fs| - 1]) + [Entry(MatchId(fs[|fs| - 1].home, fs[|fs| - 1].away),
                                        Scores(fs[|fs| - 1].score1, fs[|fs| - 1].score2))]
  }

  /** No two entries share a MatchID. */
  predicate DistinctIds(es: seq<Entry>)
  {
    forall i, j :: 0 <= i < j < |es| ==> es[i].id != es[j].id
  }

  /** res_map: MatchID -> (scor1, scor2). to_dict('index') refuses an index
      with repeated keys, so a repeated MatchID yields None. */
  function BuildResMap(es: seq<Entry>): (r: Option<map<string, Scores>>)
    ensures r.Some? ==> forall i :: 0 <= i < |es| ==> es[i].id in r.value && r.value[es[i].id] == es[i].scores
    ensures r.Some? ==> forall k :: k in r.value ==> exists i :: 0 <= i < |es| && es[i].id == k
  {
    if es == [] then Some(map[])
    else
      var init, e := es[..|es| - 1], es[|es| - 1];
      match BuildResMap(init)
      case None => None
      case Some(m) =>
        if e.id in m then None
        else
          assert forall i :: 0 <= i < |init| ==> es[i] == init[i];
          Some(m[e.id := e.scores])
  }

  /** res_map exists exactly when the MatchIDs of the results are distinct. */
  lemma {:induction false} ResMapIffDistinct(es: seq<Entry>)
    ensures BuildResMap(es).Some? <==> DistinctIds(es)
  {
    if es != [] {
      var init, e := es[..|es| - 1], es[|es| - 1];
      ResMapIffDistinct(init);
      DistinctIdsSnoc(init, e);
      assert es == init + [e];
    }
  }

  /** One more entry keeps the ids distinct exactly when its id is new. */
  lemma DistinctIdsSnoc(init: seq<Entry>, e: Entry)
    ensures DistinctIds(init + [e]) <==>
              DistinctIds(init) && forall i :: 0 <= i < |init| ==> init[i].id != e.id
  {
    var es := init + [e];
    assert forall i :: 0 <= i < |init| ==> es[i] == init[i];
    assert es[|init|] == e;
  }

  /** One line of history: the bet, the final score, its 1X2 result,
      whether the pick won and its profit. */
  datatype Bet = Bet(home: string, away: string, signal: Tier, pick: Option<Tag>, odds: real,
                     s1: real, s2: real, outcome: Tag, won: bool, pnl: real)

  /** The bet a played row books, or None when its MatchID has no result or
      either score is missing; a win pays odds * stake - stake, a loss costs the stake. */
  function BetOf(p: Play, m: map<string, Scores>): (b: Option<Bet>)
    ensures b.None? <==> p.id !in m || m[p.id].s1.None? || m[p.id].s2.None?
    ensures b.Some? ==>
              && b.value.outcome == Resolve(b.value.s1, b.value.s2)
              && Some(b.value.s1) == m[p.id].s1 && Some(b.value.s2) == m[p.id].s2
              && b.value.odds == p.res.oddsPlay
              && (b.value.won <==> p.res.pick == Some(b.value.outcome))
              && b.value.pnl == (if b.value.won then p.res.oddsPlay * Stake - Stake else -Stake)
  {
    if p.id !in m then None
    else match m[p.id]
      case Scores(Some(s1), Some(s2)) =>
        var outcome := Resolve(s1, s2);
        var won := p.res.pick == Some(outcome);
        var pnl := if won then p.res.oddsPlay * Stake - Stake else -Stake;
        Some(Bet(p.home, p.away, p.res.signal, p.res.pick, p.res.oddsPlay, s1, s2, outcome, won, pnl))
      case _ => None
  }

  /** The history the verification loop builds over the played rows. */
  function Bets(ps: seq<Play>, m: map<string, Scores>): (h: seq<Bet>)
    ensures |h| <= |ps|
  {
    if ps == [] then []
    else
      var rest := Bets(ps[..|ps| - 1], m);
      match BetOf(ps[|ps| - 1], m)
      case None => rest
      case Some(b) => rest + [b]
  }

  /** The number of winning bets. */
  function Wins(h: seq<Bet>): (n: nat)
    ensures n <= |h|
  {
    if h == [] then 0
    else Wins(h[..|h| - 1]) + (if h[|h| - 1].won then 1 else 0)
  }

  /** The sum of the Profitto column. */
  function Profit(h: seq<Bet>): real
  {
    if h == [] then 0.0 else Profit(h[..|h| - 1]) + h[|h| - 1].pnl
  }

  /** The verification loop over played_df. */
  method Verify(played: seq<Play>, m: map<string, Scores>)
      returns (validOutcomes: nat, wins: nat, profit: real, history: seq<Bet>)
    ensures history == Bets(played, m)
    ensures validOutcomes == |history| <= |played|
    ensures wins == Wins(history) <= validOutcomes
    ensures profit == Profit(history)
  {
    validOutcomes, profit, wins, history := 0, 0.0, 0, [];
    var i := 0;
    while i < |played|
      invariant 0 <= i <= |played|
      invariant history == Bets(played[..i], m)
      invariant validOutcomes == |history|
      invariant wins == Wins(history)
      invariant profit == Profit(history)
    {
      var row := played[i];
      assert played[..i + 1][..i] == played[..i];
      var s1: Option<real>, s2: Option<real> := None, None;
      if row.id in m {
        s1, s2 := m[row.id].s1, m[row.id].s2;
      }
      if s1.Some? && s2.Some? {
        var realRes := Draw;
        if s1.value > s2.value { realRes := One; }
        else if s2.value > s1.value { realRes := Two; }
        var pnl := -Stake;
        var won := false;
        if row.res.pick == Some(realRes) {
          pnl := row.res.oddsPlay * Stake - Stake;
          won := true;
          wins := wins + 1;
        }
        profit := profit + pnl;
        validOutcomes := validOutcomes + 1;
        history := history + [Bet(row.home, row.away, row.res.signal, row.res.pick, row.res.oddsPlay,
                                  s1.value, s2.value, realRes, won, pnl)];
      }
      i := i + 1;
    }
    assert played[..i] == played;
  }

  /** A played row without a usable result changes no accumulator. */
  lemma SkippedRowChangesNothing(ps: seq<Play>, p: Play, m: map<string, Scores>)
    requires p.id !in m || m[p.id].s1.None? || m[p.id].s2.None?
    ensures Bets(ps + [p], m) == Bets(ps, m)
  {
    assert (ps + [p])[..|ps|] == ps;
  }

  /** A bet on a side never wins a draw, and then it loses the whole stake. */
  lemma DrawNeverWins(p: Play, m: map<string, Scores>)
    requires p.res.pick == Some(One) || p.res.pick == Some(Two)
    ensures var b := BetOf(p, m);
            b.Some? && b.value.outcome == Draw ==> !b.value.won && b.value.pnl == -Stake
  {
  }

  /** The sum of the odds of the winning bets. */
  function WinningOdds(h: seq<Bet>): real
  {
    if h == [] then 0.0
    else WinningOdds(h[..|h| - 1]) + (if h[|h| - 1].won then h[|h| - 1].odds else 0.0)
  }

  /** A line of history booked at the stake: a win pays odds * stake - stake,
      a loss costs the stake. */
  predicate Booked(b: Bet)
  {
    b.pnl == (if b.won then b.odds * Stake - Stake else -Stake)
  }

  lemma {:induction false} BetsAreBooked(ps: seq<Play>, m: map<string, Scores>)
    ensures forall k :: 0 <= k < |Bets(ps, m)| ==> Booked(Bets(ps, m)[k])
  {
    if ps != [] {
      BetsAreBooked(ps[..|ps| - 1], m);
    }
  }

  /** The profit is the stake times the winning odds, less one stake per
      verified bet. */
  lemma {:induction false} ProfitFromWins(h: seq<Bet>)
    requires forall k :: 0 <= k < |h| ==> Booked(h[k])
    ensures Profit(h) == Stake * WinningOdds(h) - Stake * (|h| as real)
  {
    if h != [] {
      var init := h[..|h| - 1];
      assert forall k :: 0 <= k < |init| ==> init[k] == h[k];
      ProfitFromWins(init);
    }
  }

  /** With non-negative odds no history loses more than its stakes. */
  lemma {:induction false} ProfitFloor(h: seq<Bet>)
    requires forall k :: 0 <= k < |h| ==> Booked(h[k]) && h[k].odds >= 0.0
    ensures Profit(h) >= -Stake * (|h| as real)
  {
    if h != [] {
      var init := h[..|h| - 1];
      assert forall k :: 0 <= k < |init| ==> init[k] == h[k];
      ProfitFloor(init);
    }
  }

  /** Win rate and ROI, both in percent. */
  datatype Summary = Summary(winRate: real, roi: real)

  /** win_rate = wins / valid * 100 and roi = profit / (valid * stake) * 100,
      computed only when something was verified. */
  function Summarise(valid: nat, wins: nat, profit: real): (s: Option<Summary>)
    ensures s.None? <==> valid == 0
    ensures s.Some? ==> s.value.winRate * (valid as real) == (wins as real) * 100.0
    ensures s.Some? ==> s.value.roi * (valid as real) * Stake == profit * 100.0
  {
    if valid == 0 then None
    else Some(Summary((wins as real) / (valid as real) * 100.0,
                      (profit / ((valid as real) * Stake)) * 100.0))
  }

  /** The ROI of a verified history never falls below -100%, and the win
      rate stays within [0, 100]. */
  lemma SummaryBounds(valid: nat, wins: nat, profit: real)
    requires 0 < valid && wins <= valid
    requires profit >= -Stake * (valid as real)
    ensures var s := Summarise(valid, wins, profit).value;
            0.0 <= s.winRate <= 100.0 && s.roi >= -100.0
  {
    var v := valid as real;
    var s := Summarise(valid, wins, profit).value;
    assert s.winRate * v == (wins as real) * 100.0;
    assert s.roi * v * Stake == profit * 100.0;
    assert s.roi * (v * Stake) >= -100.0 * (v * Stake);
  }

  /** When every winning bet was at the same odds o, the winning odds add
      up to o once per win. */
  lemma {:induction false} SameOddsWins(h: seq<Bet>, o: real)
    requires forall k :: 0 <= k < |h| ==> h[k].won ==> h[k].odds == o
    ensures WinningOdds(h) == o * (Wins(h) as real)
  {
    if h != [] {
      var init := h[..|h| - 1];
      assert forall k :: 0 <= k < |init| ==> init[k] == h[k];
      SameOddsWins(init, o);
    }
  }

  /** Six wins at 2.0 and four losses: a 60% win rate and a 20% ROI. */
  lemma SixWinsFourLosses(h: seq<Bet>)
    requires |h| == 10 && Wins(h) == 6
    requires forall k :: 0 <= k < |h| ==> Booked(h[k]) && (h[k].won ==> h[k].odds == 2.0)
    ensures Summarise(|h|, Wins(h), Profit(h)) == Some(Summary(60.0, 20.0))
  {
    ProfitFromWins(h);
    SameOddsWins(h, 2.0);
    assert Profit(h) == 20.0;
  }

  /** What the validator reports:
      - NoBets: every fixture was SKIP;
      - CannotVerify: no readable results with a scor1 column;
      - Crashed: the analysis file has no rows, or the results cannot be
        indexed (no scor2 column, or a repeated MatchID);
      - NothingFound: no played fixture had a usable result;
      - Verified: the counts, profit, win rate, ROI and history. */
  datatype Verdict =
    | NoBets
    | CannotVerify(played: nat)
    | Crashed
    | NothingFound(played: nat)
    | Verified(played: nat, valid: nat, wins: nat, profit: real, winRate: real, roi: real, history: seq<Bet>)

  /** The sheet results are looked up in: the second file when given,
      otherwise the analysis file itself. */
  function ResultSheet(analysis: Sheet, results: Upload): (r: Option<Sheet>)
    ensures results.NotUploaded? ==> r == Some(analysis)
    ensures results.Loaded? ==> r == Some(results.sheet)
    ensures results.Unreadable? ==> r.None?
  {
    match results
    case NotUploaded => Some(analysis)
    case Unreadable => None
    case Loaded(s) => Some(s)
  }

  /** The verdict on the played rows, given the results sheet (if any). */
  function Judge(played: seq<Play>, rs: Option<Sheet>): (v: Verdict)
    ensures v == NoBets <==> |played| == 0
    ensures v.CannotVerify? <==> |played| > 0 && (rs.None? || !rs.value.hasScor1)
    ensures v == Crashed <==>
              && |played| > 0 && rs.Some? && rs.value.hasScor1
              && (!rs.value.hasScor2 || !DistinctIds(Keyed(rs.value.fixtures)))
    ensures v.Verified? ==>
              && v.played == |played| && 0 < v.valid <= |played|
              && v.wins <= v.valid && |v.history| == v.valid
  {
    if |played| == 0 then NoBets
    else if rs.None? || !rs.value.hasScor1 then CannotVerify(|played|)
    else if !rs.value.hasScor2 then Crashed
    else
      ResMapIffDistinct(Keyed(rs.value.fixtures));
      match BuildResMap(Keyed(rs.value.fixtures))
      case None => Crashed
      case Some(m) =>
        var h := Bets(played, m);
        match Summarise(|h|, Wins(h), Profit(h))
        case None => NothingFound(|played|)
        case Some(s) => Verified(|played|, |h|, Wins(h), Profit(h), s.winRate, s.roi, h)
  }

  /** The report for one analysis file and an optional results file. */
  /** The report for one analysis file and an optional results file. An
      analysis file without rows stops the page: the apply over no rows
      yields no Signal column to filter on. */
  function Report(pow10: real -> real, analysis: Sheet, results: Upload, base: int, dyn: bool): (v: Verdict)
    ensures analysis.fixtures == [] ==> v == Crashed
    ensures v == NoBets <==>
              && analysis.fixtures != []
              && forall i :: 0 <= i < |analysis.fixtures| ==>
                   Signal65(pow10, analysis.fixtures[i].row, base, dyn).signal == Skip
  {
    if analysis.fixtures == [] then Crashed
    else
      var ps := Analyse(pow10, analysis.fixtures, base, dyn);
      NoBetsIffAllSkip(ps, ResultSheet(analysis, results));
      Judge(Played(ps), ResultSheet(analysis, results))
  }

  /** df_main.apply(calc_signal) and the MatchID column. */
  method AnalyseAll(pow10: real -> real, fs: seq<Fixture>, base: int, dyn: bool) returns (analysed: seq<Play>)
    ensures analysed == Analyse(pow10, fs, base, dyn)
  {
    analysed := [];
    var i := 0;
    while i < |fs|
      invariant 0 <= i <= |fs|
      invariant analysed == Analyse(pow10, fs[..i], base, dyn)
    {
      var res := CalcSignal(pow10, fs[i].row, base, dyn);
      analysed := analysed + [Play(fs[i].home, fs[i].away, MatchId(fs[i].home, fs[i].away), res)];
      assert fs[..i + 1][..i] == fs[..i];
      i := i + 1;
    }
    assert fs[..i] == fs;
  }

  /** The checks on the results source, res_map, the verification loop and
      the summary. */
  method Check(played: seq<Play>, rs: Option<Sheet>) returns (verdict: Verdict)
    ensures verdict == Judge(played, rs)
  {
    if |played| == 0 {
      return NoBets;
    }
    if rs.None? || !rs.value.hasScor1 {
      return CannotVerify(|played|);
    }
    if !rs.value.hasScor2 {
      return Crashed;
    }
    var resMap := BuildResMap(Keyed(rs.value.fixtures));
    if resMap.None? {
      return Crashed;
    }
    var valid, wins, profit, history := Verify(played, resMap.value);
    if valid > 0 {
      var roi := (profit / ((valid as real) * Stake)) * 100.0;
      var winRate := (wins as real) / (valid as real) * 100.0;
      verdict := Verified(|played|, valid, wins, profit, winRate, roi, history);
    } else {
      verdict := NothingFound(|played|);
    }
  }

  /** The validator: signals on the first file, the played rows, the
      results source and the checks. */
  method Validate(pow10: real -> real, analysis: Sheet, results: Upload, base: int, dyn: bool)
      returns (verdict: Verdict)
    ensures verdict == Report(pow10, analysis, results, base, dyn)
  {
    if analysis.fixtures == [] {
      return Crashed;
    }
    var analysed := AnalyseAll(pow10, analysis.fixtures, base, dyn);
    var played := Played(analysed);
    var dfRes := ResultSheet(analysis, results);
    verdict := Check(played, dfRes);
  }

  /** Without a results file the analysis file is its own results file. */
  lemma ResultsFallBackToAnalysis(pow10: real -> real, analysis: Sheet, base: int, dyn: bool)
    ensures Report(pow10, analysis, NotUploaded, base, dyn) == Report(pow10, analysis, Loaded(analysis), base, dyn)
  {
  }

  /** There is nothing to verify exactly when every analysed row is SKIP. */
  lemma NoBetsIffAllSkip(ps: seq<Play>, rs: Option<Sheet>)
    ensures Judge(Played(ps), rs) == NoBets <==> forall i :: 0 <= i < |ps| ==> ps[i].res.signal == Skip
  {
    var played := Played(ps);
    if |played| == 0 {
      forall i | 0 <= i < |ps|
        ensures ps[i].res.signal == Skip
      {
        assert ps[i] in ps;
      }
    } else {
      assert played[0] in played;
    }
  }

  /** Bets placed on rows with non-negative odds carry non-negative odds. */
  lemma {:induction false} BetsKeepOdds(ps: seq<Play>, m: map<string, Scores>)
    requires forall p :: p in ps ==> p.res.oddsPlay >= 0.0
    ensures forall k :: 0 <= k < |Bets(ps, m)| ==> Bets(ps, m)[k].odds >= 0.0
  {
    if ps != [] {
      var init := ps[..|ps| - 1];
      assert forall p :: p in init ==> p in ps;
      BetsKeepOdds(init, m);
    }
  }

  /** The verified figures hold together: history has one line per verified
      bet, 0 <= wins <= valid <= played, the profit is the history's sum and
      is at least minus the stakes, and the ROI is at least -100%. */
  lemma VerifiedFigures(played: seq<Play>, rs: Option<Sheet>)
    requires forall p :: p in played ==> p.res.oddsPlay >= 0.0
    ensures var v := Judge(played, rs);
            v.Verified? ==>
              && |v.history| == v.valid
              && v.wins == Wins(v.history) <= v.valid <= v.played
              && v.profit == Profit(v.history)
              && v.profit >= -Stake * (v.valid as real)
              && 0.0 <= v.winRate <= 100.0
              && v.roi >= -100.0
  {
    var v := Judge(played, rs);
    if v.Verified? {
      var m := BuildResMap(Keyed(rs.value.fixtures)).value;
      var h := Bets(played, m);
      assert v.history == h;
      BetsAreBooked(played, m);
      BetsKeepOdds(played, m);
      ProfitFloor(h);
      SummaryBounds(|h|, Wins(h), Profit(h));
    }
  }

  /** The rows the validator plays carry positive odds, so the figures of
      every verified report hold together. */
  lemma ReportFigures(pow10: real -> real, analysis: Sheet, results: Upload, base: int, dyn: bool)
    ensures var v := Report(pow10, analysis, results, base, dyn);
            v.Verified? ==> v.roi >= -100.0 && 0.0 <= v.winRate <= 100.0 && v.wins <= v.valid <= v.played
  {
    PlayedOddsAreNonNegative(pow10, analysis.fixtures, base, dyn);
    VerifiedFigures(Played(Analyse(pow10, analysis.fixtures, base, dyn)), ResultSheet(analysis, results));
  }

  lemma PlayedOddsAreNonNegative(pow10: real -> real, fs: seq<Fixture>, base: int, dyn: bool)
    ensures forall p :: p in Played(Analyse(pow10, fs, base, dyn)) ==> p.res.oddsPlay >= 0.0
  {
    var ps := Analyse(pow10, fs, base, dyn);
    forall p | p in Played(ps)
      ensures p.res.oddsPlay >= 0.0
    {
      var i :| 0 <= i < |ps| && ps[i] == p;
      PlacedBetsAreSideBets(pow10, fs[i].row, base, dyn);
    }
  }
}
