/** The four-tier, away-first, first-match signal rules of app_v64 and app_v65,
    with a table of the same rules as an independent reading of them. */
module Tiers {
  import opened Common

  /** 'SKIP', '💎 AWAY', '✅ VALUE 2', '💎 HOME', '✅ VALUE 1'. */
  datatype Tier = Skip | DiamondAway | ValueAway | DiamondHome | ValueHome

  predicate IsAwayTier(t: Tier) { t == DiamondAway || t == ValueAway }

  predicate IsHomeTier(t: Tier) { t == DiamondHome || t == ValueHome }

  /** The EVs (in percent) and the odds of the two sides of one fixture. */
  datatype Offer = Offer(evHome: real, evAway: real, oddsHome: real, oddsAway: real)

  /** One rule: the side's EV strictly above minEv and its odds in [lo, hi]. */
  datatype Rule = Rule(side: Side, minEv: real, lo: real, hi: real, tier: Tier)

  /** The rules in the order the if/elif chain tries them. */
  const Rules: seq<Rule> := [
    Rule(Away, 4.0, 1.70, 3.50, DiamondAway),
    Rule(Away, 1.5, 1.50, 4.00, ValueAway),
    Rule(Home, 4.0, 1.50, 2.50, DiamondHome),
    Rule(Home, 1.5, 1.40, 3.00, ValueHome)
  ]

  predicate Fires(r: Rule, x: Offer)
  {
    var ev := if r.side == Away then x.evAway else x.evHome;
    var odds := if r.side == Away then x.oddsAway else x.oddsHome;
    ev > r.minEv && r.lo <= odds <= r.hi
  }

  /** t is what a first-match scan of the rules yields: the tier of the first
      rule that fires, or Skip when none does. */
  ghost predicate IsFirstMatch(rules: seq<Rule>, x: Offer, t: Tier)
  {
    || (t == Skip && forall k :: 0 <= k < |rules| ==> !Fires(rules[k], x))
    || (exists k :: 0 <= k < |rules| && rules[k].tier == t && Fires(rules[k], x) &&
                    forall j :: 0 <= j < k ==> !Fires(rules[j], x))
  }

  /** The if/elif chain of calc_row (app_v64) and calc_signal (app_v65). */
  function Classify(x: Offer): (t: Tier)
    ensures t == DiamondAway <==> x.evAway > 4.0 && 1.70 <= x.oddsAway <= 3.50
    ensures t == DiamondHome ==> x.evHome > 4.0 && 1.50 <= x.oddsHome <= 2.50
    ensures IsHomeTier(t) ==>
              !(x.evAway > 4.0 && 1.70 <= x.oddsAway <= 3.50) &&
              !(x.evAway > 1.5 && 1.50 <= x.oddsAway <= 4.00)
    ensures IsAwayTier(t) ==> x.evAway > 1.5 && 1.50 <= x.oddsAway <= 4.00
    ensures IsHomeTier(t) ==> x.evHome > 1.5 && 1.40 <= x.oddsHome <= 3.00
  {
    if x.evAway > 4.0 && 1.70 <= x.oddsAway <= 3.50 then DiamondAway
    else if x.evAway > 1.5 && 1.50 <= x.oddsAway <= 4.00 then ValueAway
    else if x.evHome > 4.0 && 1.50 <= x.oddsHome <= 2.50 then DiamondHome
    else if x.evHome > 1.5 && 1.40 <= x.oddsHome <= 3.00 then ValueHome
    else Skip
  }

  /** The chain is exactly a first-match scan of the rule table. */
  lemma ClassifyIsFirstMatch(x: Offer)
    ensures IsFirstMatch(Rules, x, Classify(x))
  {
    var t := Classify(x);
    var f0, f1, f2, f3 := Fires(Rules[0], x), Fires(Rules[1], x), Fires(Rules[2], x), Fires(Rules[3], x);
    if f0 {
      assert Rules[0].tier == t;
    } else if f1 {
      assert Rules[1].tier == t;
    } else if f2 {
      assert Rules[2].tier == t;
      assert forall j :: 0 <= j < 2 ==> !Fires(Rules[j], x);
    } else if f3 {
      assert Rules[3].tier == t;
      assert forall j :: 0 <= j < 3 ==> !Fires(Rules[j], x);
    } else {
      assert forall k :: 0 <= k < |Rules| ==> !Fires(Rules[k], x);
    }
  }

  /** A first-match scan over rules with distinct non-Skip tiers has one
      answer only: at most one signal per fixture. */
  lemma FirstMatchIsUnique(x: Offer, t: Tier, t': Tier)
    requires IsFirstMatch(Rules, x, t) && IsFirstMatch(Rules, x, t')
    ensures t == t'
  {
    assert forall k :: 0 <= k < |Rules| ==> Rules[k].tier != Skip;
    assert forall k, k' :: 0 <= k < k' < |Rules| ==> Rules[k].tier != Rules[k'].tier;
  }
}
