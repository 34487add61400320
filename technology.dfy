/** engine/Technology.kt: purchasable technologies and the level that reveals them. */
module Technologies {
  import Wrappers
  import opened Currencies

  datatype TechnologyLevel = None | Amateur | Basic | Intermediate | Advanced | Quantum

  function LevelOrdinal(l: TechnologyLevel): int
  {
    match l
    case None => 0
    case Amateur => 1
    case Basic => 2
    case Intermediate => 3
    case Advanced => 4
    case Quantum => 5
  }

  datatype Technology =
    Chillidex | AutoPlanter | AutoHarvester | ScovilleDistillery | ChimoleonGenetics | TemporalDistortionField

  /** `Technology.values()`, in declaration order. */
  function Values(): seq<Technology>
  {
    [Chillidex, AutoPlanter, AutoHarvester, ScovilleDistillery, ChimoleonGenetics, TemporalDistortionField]
  }

  function VisibilityLevel(t: Technology): TechnologyLevel
  {
    match t
    case Chillidex => Amateur
    case AutoPlanter => Basic
    case AutoHarvester => Basic
    case ScovilleDistillery => Intermediate
    case ChimoleonGenetics => Advanced
    case TemporalDistortionField => Quantum
  }

  function RepeatablyPurchasable(t: Technology): bool
  {
    t == AutoPlanter
  }

  function Cost(t: Technology): Wrappers.Option<Currency>
  {
    match t
    case Chillidex => Wrappers.Some(Currency(250_000))
    case AutoPlanter => Wrappers.Some(Currency(5_000_000))
    case AutoHarvester => Wrappers.Some(Currency(10_000_000))
    case ScovilleDistillery => Wrappers.Some(Currency(50_000_000))
    case ChimoleonGenetics => Wrappers.Some(Currency(2_000_000_000))
    case TemporalDistortionField => Wrappers.Some(Currency(999_999_999_999))
  }

  /** Enum comparison `visibilityLevel <= level` is by declaration order. */
  predicate VisibleAt(level: TechnologyLevel, t: Technology)
  {
    LevelOrdinal(VisibilityLevel(t)) <= LevelOrdinal(level)
  }

  /** The declaration order of the technologies, `ordinal`. */
  function Ordinal(t: Technology): int
  {
    match t
    case Chillidex => 0
    case AutoPlanter => 1
    case AutoHarvester => 2
    case ScovilleDistillery => 3
    case ChimoleonGenetics => 4
    case TemporalDistortionField => 5
  }

  predicate InDeclarationOrder(s: seq<Technology>)
  {
    forall i, j :: 0 <= i < j < |s| ==> Ordinal(s[i]) < Ordinal(s[j])
  }

  /** `r` is `s` with some elements left out and the rest in their original order. */
  predicate IsSubsequence(r: seq<Technology>, s: seq<Technology>)
    decreases |s|
  {
    if r == [] then true
    else if s == [] then false
    else (r[0] == s[0] && IsSubsequence(r[1..], s[1..])) || IsSubsequence(r, s[1..])
  }

  /** `filter { it.visibilityLevel <= level }` over a list of technologies, keeping its order. */
  function VisibleAmong(s: seq<Technology>, level: TechnologyLevel): (r: seq<Technology>)
    ensures |r| <= |s|
    ensures IsSubsequence(r, s)
    ensures forall i :: 0 <= i < |r| ==> r[i] in s && VisibleAt(level, r[i])
    ensures forall i :: 0 <= i < |s| && VisibleAt(level, s[i]) ==> s[i] in r
  {
    if s == [] then []
    else
      var rest := VisibleAmong(s[1..], level);
      if VisibleAt(level, s[0]) then
        assert ([s[0]] + rest)[1..] == rest;
        [s[0]] + rest
      else rest
  }

  /** `visibleTechnologies()`: the technologies whose visibility level is at most this one. */
  function VisibleTechnologies(level: TechnologyLevel): seq<Technology>
  {
    VisibleAmong(Values(), level)
  }

  /** In a list in declaration order, the head comes before everything in the tail. */
  lemma HeadBeforeTail(s: seq<Technology>, y: Technology)
    requires InDeclarationOrder(s) && s != [] && y in s[1..]
    ensures Ordinal(s[0]) < Ordinal(y)
  {
    var k :| 0 <= k < |s[1..]| && s[1..][k] == y;
    assert s[k + 1] == y;
  }

  /** Putting a technology that comes first in front of a list in declaration order keeps it in order. */
  lemma PrependInOrder(x: Technology, rest: seq<Technology>)
    requires InDeclarationOrder(rest)
    requires forall k :: 0 <= k < |rest| ==> Ordinal(x) < Ordinal(rest[k])
    ensures InDeclarationOrder([x] + rest)
  {
    var r := [x] + rest;
    forall i, j | 0 <= i < j < |r|
      ensures Ordinal(r[i]) < Ordinal(r[j])
    {
      assert r[j] == rest[j - 1];
      if i > 0 {
        assert r[i] == rest[i - 1];
      }
    }
  }

  /** Filtering a list in declaration order leaves it in declaration order. */
  lemma {:induction false} FilterKeepsDeclarationOrder(s: seq<Technology>, level: TechnologyLevel)
    requires InDeclarationOrder(s)
    ensures InDeclarationOrder(VisibleAmong(s, level))
  {
    if s != [] {
      var rest := VisibleAmong(s[1..], level);
      assert InDeclarationOrder(s[1..]) by {
        forall i, j | 0 <= i < j < |s[1..]|
          ensures Ordinal(s[1..][i]) < Ordinal(s[1..][j])
        {
          assert s[1..][i] == s[i + 1] && s[1..][j] == s[j + 1];
        }
      }
      FilterKeepsDeclarationOrder(s[1..], level);
      if VisibleAt(level, s[0]) {
        forall k | 0 <= k < |rest|
          ensures Ordinal(s[0]) < Ordinal(rest[k])
        {
          HeadBeforeTail(s, rest[k]);
        }
        PrependInOrder(s[0], rest);
      }
    }
  }

  /**
   * `visibleTechnologies()` lists the visible technologies in declaration
   * order, each once: with `VisibleIff` this fixes the list for every level.
   */
  lemma VisibleTechnologiesInOrder(level: TechnologyLevel)
    ensures InDeclarationOrder(VisibleTechnologies(level))
    ensures IsSubsequence(VisibleTechnologies(level), Values())
  {
    assert InDeclarationOrder(Values()) by {
      forall k | 0 <= k < |Values()|
        ensures Ordinal(Values()[k]) == k
      {
      }
    }
    FilterKeepsDeclarationOrder(Values(), level);
  }

  /** When every technology in a list is visible the filter keeps the whole list, in order. */
  lemma {:induction false} AllVisibleKeepsList(s: seq<Technology>, level: TechnologyLevel)
    requires forall i :: 0 <= i < |s| ==> VisibleAt(level, s[i])
    ensures VisibleAmong(s, level) == s
  {
    if s != [] {
      AllVisibleKeepsList(s[1..], level);
    }
  }

  /** A technology is visible exactly when its level has been reached. */
  lemma VisibleIff(level: TechnologyLevel, t: Technology)
    ensures t in VisibleTechnologies(level) <==> VisibleAt(level, t)
  {
    assert t in Values();
  }

  /** When no technology in a list is visible the filter keeps nothing. */
  lemma {:induction false} NoneVisibleEmptiesList(s: seq<Technology>, level: TechnologyLevel)
    requires forall i :: 0 <= i < |s| ==> !VisibleAt(level, s[i])
    ensures VisibleAmong(s, level) == []
  {
    if s != [] {
      NoneVisibleEmptiesList(s[1..], level);
    }
  }

  /** Level None sees nothing. */
  lemma NothingVisibleAtNone()
    ensures VisibleTechnologies(TechnologyLevel.None) == []
  {
    NoneVisibleEmptiesList(Values(), TechnologyLevel.None);
  }

  /** Quantum sees all six technologies, in declaration order. */
  lemma AllVisibleAtQuantum()
    ensures VisibleTechnologies(Quantum) == Values() && |Values()| == 6
  {
    AllVisibleKeepsList(Values(), Quantum);
  }

  /** Raising the level never hides a technology. */
  lemma VisibleMonotone(l1: TechnologyLevel, l2: TechnologyLevel, t: Technology)
    requires LevelOrdinal(l1) <= LevelOrdinal(l2)
    requires t in VisibleTechnologies(l1)
    ensures t in VisibleTechnologies(l2)
  {
    VisibleIff(l1, t);
    VisibleIff(l2, t);
  }

  /** AutoPlanter is the only technology that can be bought more than once. */
  lemma OnlyAutoPlanterRepeats(t: Technology)
    ensures RepeatablyPurchasable(t) <==> t == AutoPlanter
  {
  }
}
