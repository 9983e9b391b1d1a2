/** Match resolution: the 1X2 result from two final scores, and the
    normalised `MatchID` key that joins a prediction to its result. */
module Outcomes {
  import opened Common

  /** '1' if s1 > s2, '2' if s2 > s1, else 'X'. */
  function Resolve(s1: real, s2: real): (t: Tag)
    ensures t == One <==> s1 > s2
    ensures t == Two <==> s2 > s1
    ensures t == Draw <==> s1 == s2
  {
    if s1 > s2 then One
    else if s2 > s1 then Two
    else Draw
  }

  /** ASCII lower-casing of one character. */
  function LowerChar(c: char): char
  {
    if 'A' <= c <= 'Z' then (c as int + 32) as char else c
  }

  /** str.lower(), on ASCII letters. */
  function Lower(s: string): (r: string)
    ensures |r| == |s|
    ensures forall i :: 0 <= i < |s| ==> r[i] == LowerChar(s[i])
  {
    if s == [] then [] else [LowerChar(s[0])] + Lower(s[1..])
  }

  /** str.replace(' ', ''): a name without spaces is left as it is. */
  function DropSpaces(s: string): (r: string)
    ensures ' ' !in r
    ensures |r| <= |s|
    ensures ' ' !in s ==> r == s
  {
    if s == [] then []
    else
      var rest := DropSpaces(s[1..]);
      if s[0] == ' ' then rest else [s[0]] + rest
  }

  /** Every character other than a space is kept as often as it occurs,
      and the name gets one character shorter per space. */
  lemma {:induction false} DropSpacesKeepsOthers(s: string)
    ensures forall c :: c != ' ' ==> multiset(DropSpaces(s))[c] == multiset(s)[c]
    ensures |DropSpaces(s)| == |s| - multiset(s)[' ']
  {
    if s != [] {
      DropSpacesKeepsOthers(s[1..]);
      assert s == [s[0]] + s[1..];
      assert multiset(s) == multiset([s[0]]) + multiset(s[1..]);
    }
  }

  /** The characters are kept in order: dropping spaces works piece by piece. */
  lemma {:induction false} DropSpacesAppend(a: string, b: string)
    ensures DropSpaces(a + b) == DropSpaces(a) + DropSpaces(b)
  {
    if a == [] {
      assert a + b == b;
    } else {
      assert (a + b)[0] == a[0] && (a + b)[1..] == a[1..] + b;
      DropSpacesAppend(a[1..], b);
    }
  }

  /** One team name as it enters the key. */
  function Squash(name: string): string
  {
    DropSpaces(Lower(name))
  }

  /** A name without '-' keeps none after lower-casing and dropping spaces. */
  lemma SquashKeepsDashFree(name: string)
    requires '-' !in name
    ensures '-' !in Squash(name)
  {
    var l := Lower(name);
    assert forall i :: 0 <= i < |l| ==> l[i] != '-';
    assert multiset(l)['-'] == 0;
    DropSpacesKeepsOthers(l);
  }

  /** The text before the first '-' (all of it when there is none). */
  function BeforeDash(k: string): string
  {
    if k == [] then [] else if k[0] == '-' then [] else [k[0]] + BeforeDash(k[1..])
  }

  /** The text after the first '-' (empty when there is none). */
  function AfterDash(k: string): string
  {
    if k == [] then [] else if k[0] == '-' then k[1..] else AfterDash(k[1..])
  }

  /** x + "-" + y splits back at its first '-' when x has none. */
  lemma {:induction false} DashSplits(x: string, y: string)
    requires '-' !in x
    ensures BeforeDash(x + "-" + y) == x && AfterDash(x + "-" + y) == y
  {
    var k := x + "-" + y;
    if x == [] {
      assert k == ['-'] + y;
    } else {
      assert k[0] == x[0] && k[1..] == x[1..] + "-" + y;
      DashSplits(x[1..], y);
    }
  }

  /** MatchID: lower(home) without spaces, "-", lower(away) without spaces. */
  function MatchId(home: string, away: string): string
  {
    Squash(home) + "-" + Squash(away)
  }

  /** When the home name has no '-', the key splits back at its first '-'
      into the two squashed names. */
  lemma MatchIdSplits(home: string, away: string)
    requires '-' !in home
    ensures BeforeDash(MatchId(home, away)) == Squash(home)
    ensures AfterDash(MatchId(home, away)) == Squash(away)
  {
    SquashKeepsDashFree(home);
    DashSplits(Squash(home), Squash(away));
  }

  /** Two fixtures whose home names have no '-' share a key exactly when
      both squashed names agree. */
  lemma MatchIdSeparates(h1: string, a1: string, h2: string, a2: string)
    requires '-' !in h1 && '-' !in h2
    ensures MatchId(h1, a1) == MatchId(h2, a2) <==> Squash(h1) == Squash(h2) && Squash(a1) == Squash(a2)
  {
    MatchIdSplits(h1, a1);
    MatchIdSplits(h2, a2);
  }

  /** Names already in key form (lower case, no spaces, no '-' in the home
      name) are told apart by the key: it is injective on them. */
  lemma CanonicalKeysAreInjective(h1: string, a1: string, h2: string, a2: string)
    requires Lower(h1) == h1 && Lower(a1) == a1 && Lower(h2) == h2 && Lower(a2) == a2
    requires ' ' !in h1 + a1 + h2 + a2
    requires '-' !in h1 && '-' !in h2
    ensures MatchId(h1, a1) == MatchId(h2, a2) <==> h1 == h2 && a1 == a2
  {
    assert forall c :: c in h1 || c in a1 || c in h2 || c in a2 ==> c in h1 + a1 + h2 + a2;
    MatchIdSeparates(h1, a1, h2, a2);
  }

  lemma MatchIdHasNoSpace(home: string, away: string)
    ensures ' ' !in MatchId(home, away)
  {
    var k := MatchId(home, away);
    assert k == Squash(home) + ("-" + Squash(away));
    assert ' ' !in Squash(home) && ' ' !in Squash(away);
  }

  lemma {:induction false} LowerIdempotent(s: string)
    ensures Lower(Lower(s)) == Lower(s)
  {
    if s != [] {
      LowerIdempotent(s[1..]);
      assert Lower(s)[1..] == Lower(s[1..]);
    }
  }

  lemma {:induction false} LowerKeepsSpaces(s: string)
    ensures DropSpaces(Lower(DropSpaces(s))) == DropSpaces(Lower(s))
  {
    if s != [] {
      LowerKeepsSpaces(s[1..]);
      assert Lower(s) == [LowerChar(s[0])] + Lower(s[1..]);
      if s[0] == ' ' {
        assert DropSpaces(s) == DropSpaces(s[1..]);
      } else {
        var d := DropSpaces(s);
        assert d == [s[0]] + DropSpaces(s[1..]);
        assert Lower(d) == [LowerChar(s[0])] + Lower(DropSpaces(s[1..]));
      }
    }
  }

  /** Names that differ only in letter case give the same key. */
  lemma MatchIdIgnoresCase(home: string, away: string)
    ensures MatchId(Lower(home), Lower(away)) == MatchId(home, away)
  {
    LowerIdempotent(home);
    LowerIdempotent(away);
  }

  /** Names that differ only in spaces give the same key. */
  lemma MatchIdIgnoresSpaces(home: string, away: string)
    ensures MatchId(DropSpaces(home), DropSpaces(away)) == MatchId(home, away)
  {
    LowerKeepsSpaces(home);
    LowerKeepsSpaces(away);
  }

  /** The key is not injective: a '-' inside a name can move across the
      separator, so two different fixtures can share one key. */
  lemma MatchIdCanCollide()
    ensures MatchId("a-", "b") == MatchId("a", "-b")
  {
    assert Lower("a-") == "a-" by {
      assert Lower("a-") == [LowerChar('a')] + Lower("-");
    }
    assert Lower("-b") == "-b" by {
      assert Lower("-b") == [LowerChar('-')] + Lower("b");
    }
    assert DropSpaces("a-") == "a-" by {
      assert DropSpaces("a-") == ['a'] + DropSpaces("-");
    }
    assert DropSpaces("-b") == "-b" by {
      assert DropSpaces("-b") == ['-'] + DropSpaces("b");
    }
  }
}
