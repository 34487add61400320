/**
 * engine/Phases.kt: a plant's growth phases and the mapping from elapsed
 * time to the current phase. Durations and elapsed times are milliseconds.
 */
module Growth {
  import opened Wrappers

  datatype PhaseName = Sprout | Seedling | Vegetative | Budding | Flowering | Ripening

  /** `isRipe`: only the last phase can be harvested. */
  predicate IsRipe(p: PhaseName)
  {
    p == Ripening
  }

  /** Position of a phase in growth order. */
  function Index(p: PhaseName): nat
  {
    match p
    case Sprout => 0
    case Seedling => 1
    case Vegetative => 2
    case Budding => 3
    case Flowering => 4
    case Ripening => 5
  }

  function NameAt(i: nat): (p: PhaseName)
    requires i < 6
    ensures Index(p) == i
  {
    [Sprout, Seedling, Vegetative, Budding, Flowering, Ripening][i]
  }

  datatype Phases = Phases(
    sprout: int,
    seedling: int,
    vegetative: int,
    budding: int,
    flowering: int,
    ripening: int)

  /** `orderedPhases`: the durations in growth order. */
  function Durations(p: Phases): (ds: seq<int>)
    ensures |ds| == 6
  {
    [p.sprout, p.seedling, p.vegetative, p.budding, p.flowering, p.ripening]
  }

  const MillisPerDay: int := 86_400_000

  /** `DEFAULT`: 7, 20, 40, 7, 7 and 7 days. */
  function Default(): Phases
  {
    Phases(7 * MillisPerDay, 20 * MillisPerDay, 40 * MillisPerDay,
           7 * MillisPerDay, 7 * MillisPerDay, 7 * MillisPerDay)
  }

  /** Total duration of the first `k` phases. */
  function PrefixSum(ds: seq<int>, k: nat): int
    requires k <= |ds|
  {
    if k == 0 then 0 else PrefixSum(ds, k - 1) + ds[k - 1]
  }

  /** When phase `j` ends, measured from planting. */
  function End(p: Phases, j: nat): int
    requires j < 6
  {
    PrefixSum(Durations(p), j + 1)
  }

  /** The first phase at or after `i` whose cumulative end time is not before `elapsed`. */
  function FirstPhaseFrom(p: Phases, elapsed: int, i: nat): (r: Option<PhaseName>)
    requires i <= 6
    decreases 6 - i
    ensures r.Some? ==> i <= Index(r.value) && elapsed <= End(p, Index(r.value))
  {
    if i == 6 then None
    else if elapsed <= End(p, i) then Some(NameAt(i))
    else FirstPhaseFrom(p, elapsed, i + 1)
  }

  /** The phase a plant is in after `elapsed`; None means it has died. */
  function PhaseAt(p: Phases, elapsed: int): Option<PhaseName>
  {
    FirstPhaseFrom(p, elapsed, 0)
  }

  /**
   * `currentPhase`: subtract each phase's duration in turn and stop at the first
   * phase that leaves nothing (zero or negative) remaining.
   */
  method CurrentPhase(p: Phases, elapsed: int) returns (r: Option<PhaseName>)
    ensures r == PhaseAt(p, elapsed)
  {
    var ds := Durations(p);
    var remaining := elapsed;
    for i := 0 to 6
      invariant remaining == elapsed - PrefixSum(ds, i)
      invariant FirstPhaseFrom(p, elapsed, 0) == FirstPhaseFrom(p, elapsed, i)
    {
      remaining := remaining - ds[i];
      if remaining <= 0 {
        return Some(NameAt(i));
      }
    }
    return None;
  }

  /** Phase `i` is current exactly when `elapsed` is within its cumulative end and past every earlier end. */
  lemma {:induction false} FirstPhaseFromIff(p: Phases, elapsed: int, i: nat, k: nat)
    requires i <= k < 6
    decreases 6 - i
    ensures FirstPhaseFrom(p, elapsed, i) == Some(NameAt(k)) <==>
      elapsed <= End(p, k) &&
      forall j :: i <= j < k ==> elapsed > End(p, j)
  {
    if i < k {
      FirstPhaseFromIff(p, elapsed, i + 1, k);
      if elapsed <= End(p, i) {
        assert NameAt(i) != NameAt(k) by { assert Index(NameAt(i)) != Index(NameAt(k)); }
      }
    }
  }

  lemma PhaseAtIff(p: Phases, elapsed: int, k: nat)
    requires k < 6
    ensures PhaseAt(p, elapsed) == Some(NameAt(k)) <==>
      elapsed <= End(p, k) &&
      forall j :: 0 <= j < k ==> elapsed > End(p, j)
  {
    FirstPhaseFromIff(p, elapsed, 0, k);
  }

  /** The plant has died exactly when `elapsed` is past every cumulative end. */
  lemma {:induction false} FirstPhaseFromNone(p: Phases, elapsed: int, i: nat)
    requires i <= 6
    decreases 6 - i
    ensures FirstPhaseFrom(p, elapsed, i).None? <==>
      forall j :: i <= j < 6 ==> elapsed > End(p, j)
  {
    if i < 6 {
      FirstPhaseFromNone(p, elapsed, i + 1);
    }
  }

  /** With no negative duration the cumulative ends never decrease. */
  lemma {:induction false} PrefixSumMonotone(ds: seq<int>, j: nat, k: nat)
    requires j <= k <= |ds|
    requires forall i :: 0 <= i < |ds| ==> ds[i] >= 0
    ensures PrefixSum(ds, j) <= PrefixSum(ds, k)
  {
    if j < k {
      PrefixSumMonotone(ds, j, k - 1);
    }
  }

  predicate NonNegative(p: Phases)
  {
    p.sprout >= 0 && p.seedling >= 0 && p.vegetative >= 0 &&
    p.budding >= 0 && p.flowering >= 0 && p.ripening >= 0
  }

  function TotalDuration(p: Phases): int
  {
    PrefixSum(Durations(p), 6)
  }

  /** With non-negative durations the plant is dead exactly when elapsed exceeds the sum of all six. */
  lemma DeadIffPastTotal(p: Phases, elapsed: int)
    requires NonNegative(p)
    ensures PhaseAt(p, elapsed).None? <==> elapsed > TotalDuration(p)
  {
    FirstPhaseFromNone(p, elapsed, 0);
    if elapsed > TotalDuration(p) {
      forall j | 0 <= j < 6
        ensures elapsed > End(p, j)
      {
        PrefixSumMonotone(Durations(p), j + 1, 6);
      }
    }
  }

  /** Up to the end of the sprout phase, including negative elapsed times, the plant is a sprout. */
  lemma SproutUntilItsDuration(p: Phases, elapsed: int)
    requires elapsed <= p.sprout
    ensures PhaseAt(p, elapsed) == Some(Sprout)
  {
    assert PrefixSum(Durations(p), 1) == PrefixSum(Durations(p), 0) + Durations(p)[0];
  }

  /** A later time never gives an earlier phase, and a dead plant stays dead. */
  lemma PhaseMonotone(p: Phases, e1: int, e2: int)
    requires NonNegative(p)
    requires e1 <= e2
    ensures PhaseAt(p, e1).None? ==> PhaseAt(p, e2).None?
    ensures PhaseAt(p, e1).Some? && PhaseAt(p, e2).Some? ==>
      Index(PhaseAt(p, e1).value) <= Index(PhaseAt(p, e2).value)
  {
    DeadIffPastTotal(p, e1);
    DeadIffPastTotal(p, e2);
    if PhaseAt(p, e1).Some? && PhaseAt(p, e2).Some? {
      var k1, k2 := Index(PhaseAt(p, e1).value), Index(PhaseAt(p, e2).value);
      assert PhaseAt(p, e1).value == NameAt(k1);
      assert PhaseAt(p, e2).value == NameAt(k2);
      PhaseAtIff(p, e1, k1);
      PhaseAtIff(p, e2, k2);
      assert k1 <= k2;
    }
  }

  /** Under the default durations a plant ripens after 81 days and dies after 88. */
  lemma DefaultRipeningWindow(elapsed: int)
    ensures PhaseAt(Default(), elapsed) == Some(Ripening) <==>
      81 * MillisPerDay < elapsed <= 88 * MillisPerDay
    ensures PhaseAt(Default(), elapsed).None? <==> elapsed > 88 * MillisPerDay
  {
    var ds := Durations(Default());
    assert PrefixSum(ds, 5) == 81 * MillisPerDay;
    assert PrefixSum(ds, 6) == 88 * MillisPerDay;
    PhaseAtIff(Default(), elapsed, 5);
    forall j | 0 <= j < 5
      ensures End(Default(), j) <= PrefixSum(ds, 5)
    {
      PrefixSumMonotone(ds, j + 1, 5);
    }
    DeadIffPastTotal(Default(), elapsed);
  }
}
