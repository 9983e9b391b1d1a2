/** What app_v66 and app_v69 share: load_data derives the realised result
    Real_Res by masked column assignment and drops the rows without home or
    away odds; each backtest row is then priced with the two-alias standings
    lookup and settled at unit stake. */
module Backtest {
  import opened Common
  import opened Pricing
  import opened HomeAdvantage
  import opened Outcomes

  /** Real_Res: '-' until both scores are known, then '1', 'X' or '2'. */
  datatype Mark = Unknown | Known(tag: Tag)

  /** The league column: absent (row.get gives 'Unknown'), empty (NaN, which
      groupby leaves out) or a name. */
  datatype Label = NoColumn | BlankLabel | Name(name: string)

  /** A row of the file after to_numeric: cotaa and cotad may be NaN (None);
      scor1 and scor2 are None when missing or not numeric. */
  datatype RawRow = RawRow(oddsHome: Option<real>, oddsDraw: real, oddsAway: Option<real>,
                           eloHome: real, eloAway: real,
                           place1: Cell, place1Titled: Cell, place2: Cell, place2Titled: Cell,
                           score1: Option<real>, score2: Option<real>, league: Label)

  /** A row that load_data keeps, with its Real_Res. */
  datatype Record = Record(o1: real, ox: real, o2: real, eloH: real, eloA: real,
                           place1: Cell, place1Titled: Cell, place2: Cell, place2Titled: Cell,
                           mark: Mark, league: Label)

  /** The comparison behind each of the three masks. */
  predicate Beats(tag: Tag, s1: real, s2: real)
  {
    match tag
    case One => s1 > s2
    case Draw => s1 == s2
    case Two => s1 < s2
  }

  /** The masks are the three cases of the 1X2 result. */
  lemma BeatsIsResolve(tag: Tag, s1: real, s2: real)
    ensures Beats(tag, s1, s2) <==> Resolve(s1, s2) == tag
  {
  }

  /** The Real_Res of one row, hasBoth saying whether the file has both
      score columns. */
  function ResultOf(s1: Option<real>, s2: Option<real>, hasBoth: bool): (m: Mark)
    ensures m.Known? <==> hasBoth && s1.Some? && s2.Some?
    ensures m.Known? ==> m.tag == Resolve(s1.value, s2.value)
  {
    if hasBoth && s1.Some? && s2.Some? then Known(Resolve(s1.value, s2.value)) else Unknown
  }

  /** df.loc[mask & cmp, 'Real_Res'] = tag. */
  method MaskedAssign(col: array<Mark>, s1: seq<Option<real>>, s2: seq<Option<real>>, tag: Tag)
    requires col.Length == |s1| == |s2|
    modifies col
    ensures forall i :: 0 <= i < col.Length ==>
              col[i] == if s1[i].Some? && s2[i].Some? && Beats(tag, s1[i].value, s2[i].value)
                        then Known(tag) else old(col[i])
  {
    var i := 0;
    while i < col.Length
      invariant 0 <= i <= col.Length
      invariant forall k :: 0 <= k < i ==>
                  col[k] == if s1[k].Some? && s2[k].Some? && Beats(tag, s1[k].value, s2[k].value)
                            then Known(tag) else old(col[k])
      invariant forall k :: i <= k < col.Length ==> col[k] == old(col[k])
    {
      if s1[i].Some? && s2[i].Some? && Beats(tag, s1[i].value, s2[i].value) {
        col[i] := Known(tag);
      }
      i := i + 1;
    }
  }

  /** The Real_Res column: '-' everywhere, then the three masked assignments
      when both score columns exist. */
  method DeriveRealRes(s1: seq<Option<real>>, s2: seq<Option<real>>, hasBoth: bool) returns (marks: seq<Mark>)
    requires |s1| == |s2|
    ensures |marks| == |s1|
    ensures forall i :: 0 <= i < |s1| ==> marks[i] == ResultOf(s1[i], s2[i], hasBoth)
  {
    var col := new Mark[|s1|](_ => Unknown);
    if hasBoth {
      MaskedAssign(col, s1, s2, One);
      MaskedAssign(col, s1, s2, Draw);
      MaskedAssign(col, s1, s2, Two);
    }
    marks := col[..];
  }

  /** The Real_Res column of a whole file. */
  function Marks(raw: seq<RawRow>, hasBoth: bool): (ms: seq<Mark>)
    ensures |ms| == |raw|
    ensures forall i :: 0 <= i < |raw| ==> ms[i] == ResultOf(raw[i].score1, raw[i].score2, hasBoth)
    ensures !hasBoth ==> forall i :: 0 <= i < |raw| ==> ms[i] == Unknown
  {
    seq(|raw|, i requires 0 <= i < |raw| => ResultOf(raw[i].score1, raw[i].score2, hasBoth))
  }

  predicate Complete(r: RawRow)
  {
    r.oddsHome.Some? && r.oddsAway.Some?
  }

  function RecordOf(r: RawRow, m: Mark): Record
    requires Complete(r)
  {
    Record(r.oddsHome.value, r.oddsDraw, r.oddsAway.value, r.eloHome, r.eloAway,
           r.place1, r.place1Titled, r.place2, r.place2Titled, m, r.league)
  }

  /** dropna(subset=['cotaa', 'cotad', 'Real_Res']): Real_Res is never NA,
      so exactly the rows with both odds stay, in order. */
  function Keep(raw: seq<RawRow>, marks: seq<Mark>): (rs: seq<Record>)
    requires |marks| == |raw|
    ensures |rs| <= |raw|
    ensures forall i :: 0 <= i < |raw| && Complete(raw[i]) ==> RecordOf(raw[i], marks[i]) in rs
    ensures forall x :: x in rs ==>
              exists i :: 0 <= i < |raw| && Complete(raw[i]) && x == RecordOf(raw[i], marks[i])
  {
    if raw == [] then []
    else
      var n := |raw| - 1;
      var rest := Keep(raw[..n], marks[..n]);
      assert forall i :: 0 <= i < n ==> raw[..n][i] == raw[i] && marks[..n][i] == marks[i];
      if Complete(raw[n]) then rest + [RecordOf(raw[n], marks[n])] else rest
  }

  /** The drop keeps the order of the file: one more row appends its record
      exactly when both of its odds are present. */
  lemma KeepSnoc(raw: seq<RawRow>, marks: seq<Mark>, r: RawRow, m: Mark)
    requires |marks| == |raw|
    ensures Keep(raw + [r], marks + [m]) ==
              Keep(raw, marks) + (if Complete(r) then [RecordOf(r, m)] else [])
  {
    assert (raw + [r])[..|raw|] == raw;
    assert (marks + [m])[..|marks|] == marks;
  }

  /** The records load_data returns. */
  function Load(raw: seq<RawRow>, hasBoth: bool): seq<Record>
  {
    Keep(raw, Marks(raw, hasBoth))
  }

  /** load_data after parsing: Real_Res, then the drop of incomplete rows. */
  method LoadData(raw: seq<RawRow>, hasBoth: bool) returns (records: seq<Record>)
    ensures records == Load(raw, hasBoth)
  {
    var s1 := seq(|raw|, i requires 0 <= i < |raw| => raw[i].score1);
    var s2 := seq(|raw|, i requires 0 <= i < |raw| => raw[i].score2);
    var marks := DeriveRealRes(s1, s2, hasBoth);
    assert marks == Marks(raw, hasBoth);
    records := Keep(raw, marks);
  }

  /** Every record keeps its row's Real_Res, and only a file with both score
      columns can settle a row. */
  lemma LoadedMarks(raw: seq<RawRow>, hasBoth: bool)
    ensures forall x :: x in Load(raw, hasBoth) ==>
              exists i :: 0 <= i < |raw| && Complete(raw[i]) &&
                          x.mark == ResultOf(raw[i].score1, raw[i].score2, hasBoth)
    ensures !hasBoth ==> forall x :: x in Load(raw, hasBoth) ==> x.mark == Unknown
  {
  }

  /** The home advantage of a backtest row: plain alias if present, else the
      titled one. */
  function RecordHfa(r: Record, base: int, dyn: bool): real
  {
    EffectiveHfa(base, dyn, FirstOfTwo(r.place1, r.place1Titled), FirstOfTwo(r.place2, r.place2Titled))
  }

  /** The pricing of a backtest row. */
  function RecordPrice(pow10: real -> real, r: Record, base: int, dyn: bool): Priced
  {
    Price(pow10, r.o1, r.ox, r.o2, r.eloH, r.eloA, RecordHfa(r, base, dyn))
  }

  /** PNL_1 and PNL_2 at unit stake: odds - 1 when that side won, else -1. */
  function PnlOf(side: Side, r: Record): (pnl: real)
    ensures r.mark == Known(if side == Home then One else Two) ==>
              pnl == (if side == Home then r.o1 else r.o2) - 1.0
    ensures r.mark != Known(if side == Home then One else Two) ==> pnl == -1.0
  {
    match side
    case Home => if r.mark == Known(One) then r.o1 - 1.0 else -1.0
    case Away => if r.mark == Known(Two) then r.o2 - 1.0 else -1.0
  }

  /** A draw loses both sides, and no result pays both. */
  lemma DrawLosesBoth(r: Record)
    ensures r.mark == Known(Draw) ==> PnlOf(Home, r) == -1.0 && PnlOf(Away, r) == -1.0
    ensures PnlOf(Home, r) == -1.0 || PnlOf(Away, r) == -1.0
  {
  }

  /** row.get('league', 'Unknown'); None for an empty cell. */
  function LeagueOf(l: Label): Option<string>
  {
    match l
    case NoColumn => Some("Unknown")
    case BlankLabel => None
    case Name(s) => Some(s)
  }

  /** The steps of the loop body both backtests share: curr_hfa, then the
      pricing of both sides. */
  method PriceRecord(pow10: real -> real, r: Record, base: int, dyn: bool)
      returns (currHfa: real, ev1: real, ev2: real)
    ensures currHfa == RecordHfa(r, base, dyn)
    ensures ev1 == RecordPrice(pow10, r, base, dyn).ev1
    ensures ev2 == RecordPrice(pow10, r, base, dyn).ev2
  {
    currHfa := base as real;
    if dyn {
      var r1 := if !IsNa(r.place1) then r.place1 else r.place1Titled;
      var r2 := if !IsNa(r.place2) then r.place2 else r.place2Titled;
      if !IsNa(r1) && !IsNa(r2) {
        var f2, f1 := FloatOf(r2), FloatOf(r1);
        if f2.Some? && f1.Some? {
          currHfa := currHfa + (f2.value - f1.value) * 3.0;
          currHfa := Clamp(currHfa);
        }
      }
    }
    ev1, ev2 := PriceSides(pow10, r.o1, r.ox, r.o2, r.eloH, r.eloA, currHfa);
  }
}
