/** The dynamic home advantage: base + 3 * (away place - home place), clamped
    to [0, 200], applied only when both standings are present and numeric,
    with the three ways the apps look the standings up. */
module HomeAdvantage {
  import opened Common

  /** max(0, min(x, 200)). */
  function Clamp(x: real): (c: real)
    ensures 0.0 <= c <= 200.0
    ensures 0.0 <= x <= 200.0 ==> c == x
    ensures x < 0.0 ==> c == 0.0
    ensures x > 200.0 ==> c == 200.0
  {
    var m := if x < 200.0 then x else 200.0;
    if 0.0 < m then m else 0.0
  }

  /** Both standings as numbers, or None when either is NA or either
      float() raises (the adjustment is then skipped). */
  function Standings(r1: Cell, r2: Cell): Option<(real, real)>
  {
    if IsNa(r1) || IsNa(r2) then None
    else match (FloatOf(r1), FloatOf(r2))
      case (Some(h), Some(a)) => Some((h, a))
      case _ => None
  }

  /** The home advantage before any clamping: base + 3 * (r2 - r1). */
  function Unclamped(base: int, h: real, a: real): real
  {
    base as real + (a - h) * 3.0
  }

  /** The effective home advantage for home standing cell r1 and away standing cell r2. */
  function EffectiveHfa(base: int, dyn: bool, r1: Cell, r2: Cell): (hfa: real)
    ensures !dyn || Standings(r1, r2).None? ==> hfa == base as real
    ensures dyn && Standings(r1, r2).Some? ==> 0.0 <= hfa <= 200.0
    ensures dyn && Standings(r1, r2).Some? ==>
              var u := Unclamped(base, Standings(r1, r2).value.0, Standings(r1, r2).value.1);
              && (0.0 <= u <= 200.0 ==> hfa == u)
              && (u < 0.0 ==> hfa == 0.0)
              && (u > 200.0 ==> hfa == 200.0)
  {
    if !dyn then base as real
    else match Standings(r1, r2)
      case None => base as real
      case Some((h, a)) => Clamp(Unclamped(base, h, a))
  }

  /** A better (numerically lower) away standing never raises the home advantage. */
  lemma HfaFallsAsAwayImproves(base: int, r1: Cell, r2: Cell, r2': Cell)
    requires Standings(r1, r2).Some? && Standings(r1, r2').Some?
    requires Standings(r1, r2').value.1 <= Standings(r1, r2).value.1
    ensures EffectiveHfa(base, true, r1, r2') <= EffectiveHfa(base, true, r1, r2)
  {
  }

  /** int(): truncation toward zero. */
  function Trunc(x: real): (n: int)
    ensures x >= 0.0 ==> n as real <= x < n as real + 1.0
    ensures x < 0.0 ==> n as real - 1.0 < x <= n as real
  {
    if x >= 0.0 then x.Floor else -((-x).Floor)
  }

  /** The reported advantage, int(curr_hfa), stays in [0, 200] whenever the
      adjustment was applied: the truncated raw value inside the range, 0
      below it and 200 above it. It is the base itself otherwise. */
  lemma ReportedHfa(base: int, dyn: bool, r1: Cell, r2: Cell)
    ensures var n := Trunc(EffectiveHfa(base, dyn, r1, r2));
            && (dyn && Standings(r1, r2).Some? ==> 0 <= n <= 200)
            && (!dyn || Standings(r1, r2).None? ==> n == base)
    ensures dyn && Standings(r1, r2).Some? ==>
              var n := Trunc(EffectiveHfa(base, dyn, r1, r2));
              var u := Unclamped(base, Standings(r1, r2).value.0, Standings(r1, r2).value.1);
              && (0.0 <= u <= 200.0 ==> n == Trunc(u))
              && (u < 0.0 ==> n == 0)
              && (u > 200.0 ==> n == 200)
  {
  }

  /** app_v64 and app_v65: r = plain; if isna(r): r = titled; if isna(r): r = spaced. */
  function FirstPresent(a: Aliases): (c: Cell)
    ensures !IsNa(a.plain) ==> c == a.plain
    ensures IsNa(a.plain) && !IsNa(a.titled) ==> c == a.titled
    ensures IsNa(a.plain) && IsNa(a.titled) ==> c == a.spaced
  {
    if !IsNa(a.plain) then a.plain
    else if !IsNa(a.titled) then a.titled
    else a.spaced
  }

  /** app_v70: plain or titled or spaced. */
  function FirstTruthy(a: Aliases): (c: Cell)
    ensures Truthy(a.plain) ==> c == a.plain
    ensures !Truthy(a.plain) && Truthy(a.titled) ==> c == a.titled
    ensures !Truthy(a.plain) && !Truthy(a.titled) ==> c == a.spaced
  {
    if Truthy(a.plain) then a.plain
    else if Truthy(a.titled) then a.titled
    else a.spaced
  }

  /** app_v66 and app_v69: plain if notna(plain) else titled. */
  function FirstOfTwo(plain: Cell, titled: Cell): (c: Cell)
    ensures !IsNa(plain) ==> c == plain
    ensures IsNa(plain) ==> c == titled
  {
    if !IsNa(plain) then plain else titled
  }

  /** In the `or` chain a standing of 0 in the first alias is skipped over,
      exactly as if that alias were missing. */
  lemma ZeroStandingFallsThrough(a: Aliases)
    requires a.plain == Num(0.0)
    ensures FirstTruthy(a) == FirstTruthy(Aliases(Missing, a.titled, a.spaced))
  {
  }

  /** The two lookups differ: an empty first cell ends the `or` chain (NaN is
      truthy, so no adjustment), while the isna chain moves on to the next alias. */
  lemma BlankCellSeparatesLookups(v: real, away: Cell)
    requires !IsNa(away) && FloatOf(away).Some?
    ensures var a := Aliases(Blank, Num(v), Missing);
            && FirstPresent(a) == Num(v)
            && Standings(FirstPresent(a), away).Some?
            && FirstTruthy(a) == Blank
            && Standings(FirstTruthy(a), away).None?
  {
  }

  /** The last alias is taken whatever its truthiness: a 0 there (after two
      falsy aliases) is still a present standing and adjusts the advantage. */
  lemma LastAliasZeroStillCounts(base: int, away: Cell)
    requires !IsNa(away) && FloatOf(away).Some?
    ensures var a := Aliases(Missing, Num(0.0), Num(0.0));
            && FirstTruthy(a) == Num(0.0)
            && EffectiveHfa(base, true, FirstTruthy(a), away)
               == Clamp(Unclamped(base, 0.0, FloatOf(away).value))
  {
  }
}
