/**
 * engine/SerializableRandom.kt: Marsaglia's xorwow generator with its whole
 * state in six 32-bit fields, so that a saved game resumes the same stream.
 *
 * Kotlin `Int`s are integers in the 32-bit range (`Int32`); `+` and `-`
 * wrap around (`Wrap`). Kotlin's `xor`, `and`, `inv`, `shl`, `ushr` and `shr` act on
 * the 32 bits of an `Int` (`Bits32`, least significant first), read back
 * in two's complement.
 */
module RandomSource {
  import opened Wrappers
  import opened KotlinInt

  const TwoTo31: int := 0x8000_0000
  const TwoTo32: int := 0x1_0000_0000
  /** `Int.MIN_VALUE`. */
  const MinInt: int := -0x8000_0000

  predicate IsInt(i: int)
  {
    MinInt <= i < TwoTo31
  }

  /** A Kotlin `Int`. */
  type Int32 = i: int | -0x8000_0000 <= i < 0x8000_0000

  /** The exact sum or difference of two `Int`s. */
  predicate InSumRange(i: int)
  {
    MinInt + MinInt <= i < TwoTo31 + TwoTo31
  }

  /** Such a sum as 32-bit arithmetic wraps it: moved by 2^32 into the `Int` range. */
  function Wrap(i: int): Int32
    requires InSumRange(i)
  {
    if i < MinInt then i + TwoTo32
    else if i >= TwoTo31 then i - TwoTo32
    else i
  }

  function Pow2(k: nat): (p: nat)
    ensures p >= 1
  {
    if k == 0 then 1 else 2 * Pow2(k - 1)
  }

  // ---------------------------------------------------------------------------
  // 32-bit words
  // ---------------------------------------------------------------------------

  /** The 32 bits of a Kotlin `Int`, least significant first. */
  type Bits32 = w: seq<bool> | |w| == 32 witness seq(32, j => false)

  function BitValue(b: bool): nat
  {
    if b then 1 else 0
  }

  /** The unsigned value of a bit sequence, least significant bit first. */
  function Value(w: seq<bool>): nat
  {
    if |w| == 0 then 0 else BitValue(w[0]) + 2 * Value(w[1..])
  }

  /** Bit `j` of `i` in two's complement: the last bit of `i` halved `j` times. */
  predicate Bit(i: int, j: nat)
    decreases j
  {
    if j == 0 then i % 2 == 1 else Bit(i / 2, j - 1)
  }

  /** The lowest `n` bits of `i`, read off position by position. */
  function Bits(i: int, n: nat): seq<bool>
  {
    seq(n, j requires 0 <= j < n => Bit(i, j))
  }

  // `FromInt` and `ToInt` are where the value of an `Int` meets its bits.
  // Each is defined through a helper that counts `k` down to its definition,
  // so that a proof sees the bits or the value of a word only where it asks
  // for them with `FromIntBits` or `ToIntValue`.

  /** The bits of an integer, reduced to 32 as a Kotlin `Int` holds it. */
  function FromInt(i: int): Bits32
  {
    FromIntAfter(i, 1)
  }

  function FromIntAfter(i: int, k: nat): Bits32
  {
    if k == 0 then Bits(i, 32) else FromIntAfter(i, k - 1)
  }

  /** The `Int` whose bits are `w`: bit 31 carries the weight -2^31. */
  function ToInt(w: Bits32): (i: Int32)
    ensures i < 0 <==> w[31]
  {
    ToIntAfter(w, 1)
  }

  function ToIntAfter(w: Bits32, k: nat): (i: Int32)
    ensures i < 0 <==> w[31]
  {
    if k == 0 then
      SignBit(w);
      Value(w) - (if w[31] then TwoTo32 else 0)
    else ToIntAfter(w, k - 1)
  }

  function Xor(a: Bits32, b: Bits32): Bits32
  {
    seq(32, j requires 0 <= j < 32 => a[j] != b[j])
  }

  function And(a: Bits32, b: Bits32): Bits32
  {
    seq(32, j requires 0 <= j < 32 => a[j] && b[j])
  }

  /** `inv()`. */
  function Inv(a: Bits32): Bits32
  {
    seq(32, j requires 0 <= j < 32 => !a[j])
  }

  /** The low five bits of a shift count, which is all Kotlin uses of it. */
  function ShiftAmount(count: int): (k: nat)
    ensures k < 32
  {
    if 0 <= count < 32 then count else count % 32
  }

  /** `n` clear bits. */
  function Zeros(n: nat): seq<bool>
  {
    seq(n, j => false)
  }

  /** `shl(count)`: Kotlin uses the low five bits of the count; bits shifted past the top are lost. */
  function Shl(a: Bits32, count: int): Bits32
  {
    var k := ShiftAmount(count);
    Zeros(k) + a[..32 - k]
  }

  /** `ushr(count)`: Kotlin uses the low five bits of the count and shifts in zeros. */
  function Ushr(a: Bits32, count: int): Bits32
  {
    var k := ShiftAmount(count);
    a[k..] + Zeros(k)
  }

  /** `shr(31)`: the sign bit copied into every position. */
  function Shr31(a: Bits32): Bits32
  {
    seq(32, j => a[31])
  }

  /** The number of zero bits above the highest set bit of `w`. */
  function LeadingZeros(w: seq<bool>): (c: nat)
    ensures c <= |w|
  {
    if |w| == 0 then 0
    else if w[|w| - 1] then 0
    else 1 + LeadingZeros(w[..|w| - 1])
  }

  /** `fastLog2(value)`: 31 minus `countLeadingZeroBits()`. */
  function FastLog2(value: int): int
  {
    31 - LeadingZeros(FromInt(value))
  }

  /** `ushr` on an `Int` value. */
  function UshrInt(i: int, count: int): Int32
  {
    ToInt(Ushr(FromInt(i), count))
  }

  /** `takeUpperBits(bitCount)`: `ushr(32 - bitCount) and (-bitCount).shr(31)`. */
  function TakeUpperBits(i: int, bitCount: int): Int32
  {
    ToInt(And(Ushr(FromInt(i), 32 - bitCount), Shr31(FromInt(-bitCount))))
  }

  /** `n and -n == n`: true for the powers of two and for `Int.MIN_VALUE`. */
  predicate LowestBitIsOnlyBit(n: int)
  {
    And(FromInt(n), FromInt(-n)) == FromInt(n)
  }

  // ---------------------------------------------------------------------------
  // The generator as a function of its state
  // ---------------------------------------------------------------------------

  /** The six words of the generator. */
  datatype RandomState = RandomState(x: Int32, y: Int32, z: Int32, w: Int32, v: Int32, addend: Int32)

  /** Bit `j` of `t = x xor (x ushr 2)`. */
  predicate ShiftedX(x: int, j: nat)
    requires j < 32
  {
    Bit(x, j) != (j + 2 < 32 && Bit(x, j + 2))
  }

  /** Bit `j` of `t xor (t shl 1) xor v xor (v shl 4)`. */
  predicate MixBit(x: int, v: int, j: nat)
    requires j < 32
  {
    (ShiftedX(x, j) != (j >= 1 && ShiftedX(x, j - 1))) != (Bit(v, j) != (j >= 4 && Bit(v, j - 4)))
  }

  /** The xorshift part of a step: the new `v` from the old `x` and `v`, bit by bit. */
  function Mix(x: Int32, v: Int32): Int32
  {
    ToInt(seq(32, j requires 0 <= j < 32 => MixBit(x, v, j)))
  }

  /**
   * One xorwow step, as `nextInt()` updates the fields. Like `FromInt`, it
   * is reached through one countdown step, so that code drawing values
   * sees a state change without expanding the bit mixing behind it.
   */
  function Step(s: RandomState): RandomState
  {
    StepAfter(s, 1)
  }

  function StepAfter(s: RandomState, k: nat): RandomState
  {
    if k == 0 then RandomState(s.y, s.z, s.w, s.v, Mix(s.x, s.v), Wrap(s.addend + 362437))
    else StepAfter(s, k - 1)
  }

  /** The value `nextInt()` returns from state `s`: the new `v` plus the new `addend`. */
  function Output(s: RandomState): int
  {
    var next := Step(s);
    Wrap(next.v + next.addend)
  }

  /** `f` applied `n` times to `s`. */
  function Iterate<S>(f: S -> S, s: S, n: nat): S
  {
    if n == 0 then s else f(Iterate(f, s, n - 1))
  }

  /** The values `out` reads from the first `n` states `f` leads through from `s`. */
  function Trace<S, T>(f: S -> S, out: S -> T, s: S, n: nat): (r: seq<T>)
    ensures |r| == n
  {
    if n == 0 then [] else Trace(f, out, s, n - 1) + [out(Iterate(f, s, n - 1))]
  }

  /** The state after `n` draws. */
  function Advance(s: RandomState, n: nat): RandomState
  {
    Iterate(Step, s, n)
  }

  /** The next `n` values of `nextInt()` from state `s`. */
  function Outputs(s: RandomState, n: nat): seq<int>
  {
    Trace(Step, Output, s, n)
  }

  /** `fromSeed(seed)`: the fields before the constructor discards its first 64 values. */
  function SeedState(seed: Int32): RandomState
  {
    var s := FromInt(seed);
    RandomState(seed, ToInt(Shr31(s)), 0, 0, ToInt(Inv(s)), ToInt(Xor(Shl(s, 10), Ushr(Shr31(s), 4))))
  }

  /** The `n <= 0` branch of `nextInt(from, until)`: draw until a value lands in range; None once `fuel` draws are spent. */
  function FilterDraw(s: RandomState, from: Int32, until: Int32, fuel: nat): (Option<Int32>, RandomState)
    decreases fuel
  {
    if fuel == 0 then (None, s)
    else
      var rnd := Output(s);
      if from <= rnd < until then (Some(rnd), Step(s))
      else FilterDraw(Step(s), from, until, fuel - 1)
  }

  /** The rejection loop of `nextInt(from, until)`: None once `fuel` draws are spent. */
  function RejectionDraw(s: RandomState, n: Int32, fuel: nat): (Option<Int32>, RandomState)
    requires n != 0
    decreases fuel
  {
    if fuel == 0 then (None, s)
    else
      var bits := UshrInt(Output(s), 1);
      var v := TruncRem(bits, n);
      if Wrap(Wrap(bits - v) + Wrap(n - 1)) < 0 then RejectionDraw(Step(s), n, fuel - 1)
      else (Some(v), Step(s))
  }

  /** `nextInt(from, until)`: the value drawn and the state after it. */
  function RangeDraw(s: RandomState, from: Int32, until: Int32, fuel: nat): (Option<Int32>, RandomState)
  {
    RangeDrawAfter(s, from, until, fuel, 1)
  }

  /**
   * The body of `RangeDraw`, reached after counting `steps` down to zero, so
   * that proofs about a draw see its branches only where they ask for them.
   */
  function RangeDrawAfter(s: RandomState, from: Int32, until: Int32, fuel: nat, steps: nat): (Option<Int32>, RandomState)
  {
    if steps > 0 then RangeDrawAfter(s, from, until, fuel, steps - 1)
    else
      var n := Wrap(until - from);
      if n > 0 || n == MinInt then
        if LowestBitIsOnlyBit(n) then
          (Some(Wrap(from + TakeUpperBits(Output(s), FastLog2(n)))), Step(s))
        else
          var (rnd, s') := RejectionDraw(s, n, fuel);
          (if rnd.Some? then Some(Wrap(from + rnd.value)) else None, s')
      else
        FilterDraw(s, from, until, fuel)
  }

  /** The gene index drawn from state `s`: the top six bits of the next value. */
  function GeneIndex(s: RandomState): (g: int)
    ensures 0 <= g < 64
  {
    assert Pow2(6) == 64;
    ValueBound(FromInt(Output(s))[26..]);
    Value(FromInt(Output(s))[26..])
  }

  // ---------------------------------------------------------------------------
  // The generator object
  // ---------------------------------------------------------------------------

  class SerializableRandom {
    var x: Int32
    var y: Int32
    var z: Int32
    var w: Int32
    var v: Int32
    var addend: Int32

    function State(): RandomState
      reads this
    {
      RandomState(x, y, z, w, v, addend)
    }

    /** The primary constructor: take the fields, then discard the first 64 values. */
    constructor (init: RandomState)
      ensures State() == Advance(init, 64)
    {
      x, y, z, w, v, addend := init.x, init.y, init.z, init.w, init.v, init.addend;
      new;
      for i := 0 to 64
        invariant State() == Advance(init, i)
      {
        var discarded := NextInt();
      }
    }

    /** `fromSeed(seed)`; the default seed comes from the platform generator and is a parameter here. */
    static method FromSeed(seed: Int32) returns (r: SerializableRandom)
      ensures fresh(r)
      ensures r.State() == Advance(SeedState(seed), 64)
    {
      r := new SerializableRandom(SeedState(seed));
    }

    /** `nextInt()`: one xorwow step, returning the new `v` plus the new `addend`. */
    method NextInt() returns (r: Int32)
      modifies this
      ensures State() == Step(old(State()))
      ensures r == Output(old(State()))
      ensures x == old(y) && y == old(z) && z == old(w) && w == old(v)
      ensures addend == Wrap(old(addend) + 362437) && r == Wrap(v + addend)
    {
      var t := FromInt(x);
      t := Xor(t, Ushr(t, 2));
      x := y;
      y := z;
      z := w;
      var v0 := v;
      w := v0;
      t := Xor(Xor(Xor(t, Shl(t, 1)), FromInt(v0)), Shl(FromInt(v0), 4));
      MixWordOps(old(x), v0);
      assert StepAfter(old(State()), 1) == StepAfter(old(State()), 0);
      v := ToInt(t);
      addend := Wrap(addend + 362437);
      r := Wrap(v + addend);
    }

    /** `nextBits(bitCount)`. */
    method NextBits(bitCount: int) returns (r: int)
      modifies this
      ensures State() == Step(old(State()))
      ensures r == TakeUpperBits(Output(old(State())), bitCount)
    {
      var i := NextInt();
      r := TakeUpperBits(i, bitCount);
    }

    /**
     * `nextInt(from, until)`. The two retry loops of the source run until
     * they succeed; here they give up with None after `fuel` draws.
     */
    method NextIntRange(from: Int32, until: Int32, fuel: nat) returns (r: Option<Int32>)
      modifies this
      ensures (r, State()) == RangeDraw(old(State()), from, until, fuel)
    {
      assert RangeDrawAfter(State(), from, until, fuel, 1) == RangeDrawAfter(State(), from, until, fuel, 0);
      var n := Wrap(until - from);
      if n > 0 || n == MinInt {
        if LowestBitIsOnlyBit(n) {
          var bitCount := FastLog2(n);
          var rnd := NextBits(bitCount);
          r := Some(Wrap(from + rnd));
        } else {
          var rnd := RejectionSample(n, fuel);
          r := if rnd.Some? then Some(Wrap(from + rnd.value)) else None;
        }
      } else {
        r := DrawUntilInRange(from, until, fuel);
      }
    }

    /** The `do … while` loop of `nextInt(from, until)` for a range `n` that is not a power of two. */
    method RejectionSample(n: Int32, fuel: nat) returns (rnd: Option<Int32>)
      requires n != 0
      modifies this
      ensures (rnd, State()) == RejectionDraw(old(State()), n, fuel)
    {
      var remaining := fuel;
      while remaining > 0
        invariant RejectionDraw(old(State()), n, fuel) == RejectionDraw(State(), n, remaining)
        decreases remaining
      {
        ghost var before := State();
        var bits := NextInt();
        bits := UshrInt(bits, 1);
        var v := TruncRem(bits, n);
        assert RejectionDraw(before, n, remaining) ==
          if Wrap(Wrap(bits - v) + Wrap(n - 1)) < 0 then RejectionDraw(State(), n, remaining - 1)
          else (Some(v), State());
        if Wrap(Wrap(bits - v) + Wrap(n - 1)) >= 0 {
          return Some(v);
        }
        remaining := remaining - 1;
      }
      return None;
    }

    /** The `while (true)` loop of `nextInt(from, until)` for an empty or over-wide range. */
    method DrawUntilInRange(from: Int32, until: Int32, fuel: nat) returns (r: Option<Int32>)
      modifies this
      ensures (r, State()) == FilterDraw(old(State()), from, until, fuel)
    {
      var remaining := fuel;
      while remaining > 0
        invariant FilterDraw(old(State()), from, until, fuel) == FilterDraw(State(), from, until, remaining)
        decreases remaining
      {
        ghost var before := State();
        var rnd := NextInt();
        assert FilterDraw(before, from, until, remaining) ==
          if from <= rnd < until then (Some(rnd), State()) else FilterDraw(State(), from, until, remaining - 1);
        if from <= rnd < until {
          return Some(rnd);
        }
        remaining := remaining - 1;
      }
      return None;
    }

    /** `nextGeneIndex()`: `nextInt(0, 64)`, which always takes the power-of-two branch. */
    method NextGeneIndex() returns (r: int)
      modifies this
      ensures State() == Step(old(State()))
      ensures r == GeneIndex(old(State()))
      ensures 0 <= r < 64
    {
      GeneIndexDraw(State(), 0);
      var drawn := NextIntRange(0, 64, 0);
      r := drawn.value;
    }
  }

  /** The bits of the word-level formula, one position at a time. */
  lemma MixOpsBit(x: Int32, v: Int32, j: nat)
    requires j < 32
    ensures var t := Xor(FromInt(x), Ushr(FromInt(x), 2));
      Xor(Xor(Xor(t, Shl(t, 1)), FromInt(v)), Shl(FromInt(v), 4))[j] == MixBit(x, v, j)
  {
    var xs := FromInt(x);
    var vs := FromInt(v);
    FromIntBits(x);
    FromIntBits(v);
    var t := Xor(xs, Ushr(xs, 2));
    assert Ushr(xs, 2) == xs[2..] + Zeros(2);
    assert forall i :: 0 <= i < 32 ==> t[i] == ShiftedX(x, i);
    assert Shl(t, 1) == Zeros(1) + t[..31];
    assert Shl(vs, 4) == Zeros(4) + vs[..28];
  }

  /** The bitwise formula is the word-level sequence of xors and shifts `nextInt()` performs. */
  lemma MixWordOps(x: Int32, v: Int32)
    ensures var t := Xor(FromInt(x), Ushr(FromInt(x), 2));
      Mix(x, v) == ToInt(Xor(Xor(Xor(t, Shl(t, 1)), FromInt(v)), Shl(FromInt(v), 4)))
  {
    var t := Xor(FromInt(x), Ushr(FromInt(x), 2));
    var ops := Xor(Xor(Xor(t, Shl(t, 1)), FromInt(v)), Shl(FromInt(v), 4));
    forall j | 0 <= j < 32
      ensures ops[j] == MixBit(x, v, j)
    {
      MixOpsBit(x, v, j);
    }
    assert ops == seq(32, j requires 0 <= j < 32 => MixBit(x, v, j));
  }

  // ---------------------------------------------------------------------------
  // Properties of the stream
  // ---------------------------------------------------------------------------

  lemma {:induction false} IterateAdd<S>(f: S -> S, s: S, m: nat, n: nat)
    ensures Iterate(f, s, m + n) == Iterate(f, Iterate(f, s, m), n)
  {
    if n > 0 {
      IterateAdd(f, s, m, n - 1);
    }
  }

  lemma {:induction false} TraceAdd<S, T>(f: S -> S, out: S -> T, s: S, m: nat, n: nat)
    ensures Trace(f, out, s, m + n) == Trace(f, out, s, m) + Trace(f, out, Iterate(f, s, m), n)
  {
    if n > 0 {
      TraceAdd(f, out, s, m, n - 1);
      IterateAdd(f, s, m, n - 1);
    }
  }

  /** Draws compose: `m + n` steps are `m` steps followed by `n` more. */
  lemma AdvanceAdd(s: RandomState, m: nat, n: nat)
    ensures Advance(s, m + n) == Advance(Advance(s, m), n)
  {
    IterateAdd(Step, s, m, n);
  }

  /**
   * The stream splits: the first `m + n` values are the first `m` followed
   * by the `n` drawn from the state reached after `m`.
   */
  lemma OutputsResume(s: RandomState, m: nat, n: nat)
    ensures Outputs(s, m + n) == Outputs(s, m) + Outputs(Advance(s, m), n)
  {
    TraceAdd(Step, Output, s, m, n);
  }

  /**
   * The constructor's `init` block discards 64 values on every construction,
   * so a generator rebuilt from saved fields does not continue the saved
   * stream: its values are the saved generator's, 64 draws later.
   */
  lemma RebuiltSkipsWarmUp(saved: RandomState, n: nat)
    ensures Outputs(Advance(saved, 64), n) == Outputs(saved, 64 + n)[64..]
  {
    OutputsResume(saved, 64, n);
  }

  /** `y` of a seeded generator is the seed's sign (`seed shr 31`): -1 for a negative seed, else 0. */
  lemma SeedSign(seed: Int32)
    ensures SeedState(seed).y == if seed < 0 then -1 else 0
  {
    var s := FromInt(seed);
    FromIntToInt(seed);
    var c: Int32 := if seed < 0 then -1 else 0;
    forall j | 0 <= j < 32
      ensures Shr31(s)[j] == FromInt(c)[j]
    {
      ConstBit(c, j);
    }
    FromIntBits(c);
    assert Shr31(s) == FromInt(c);
    FromIntToInt(c);
  }

  /** `v` of a seeded generator is `seed.inv()`, which is -1 - seed. */
  lemma SeedComplement(seed: Int32)
    ensures SeedState(seed).v == -1 - seed
  {
    InvInt(seed);
  }

  /** `i.inv()` is -1 - i. */
  lemma InvInt(i: Int32)
    ensures ToInt(Inv(FromInt(i))) == -1 - i
  {
    var s := FromInt(i);
    FromIntToInt(i);
    ToIntValue(s);
    ToIntValue(Inv(s));
    InvValue(s);
    assert Inv(s) == seq(|s|, j requires 0 <= j < |s| => !s[j]);
    Pow2Facts();
    assert Value(Inv(s)) == TwoTo32 - 1 - Value(s);
    assert Inv(s)[31] == !s[31];
  }

  // ---------------------------------------------------------------------------
  // Properties of nextInt(from, until)
  // ---------------------------------------------------------------------------

  /** Whatever it draws, `nextInt(from, until)` returns a value in [from, until) whenever from < until. */
  lemma RangeDrawInRange(s: RandomState, from: Int32, until: Int32, fuel: nat)
    requires from < until
    ensures RangeDraw(s, from, until, fuel).0.Some? ==>
      from <= RangeDraw(s, from, until, fuel).0.value < until
  {
    assert RangeDrawAfter(s, from, until, fuel, 1) == RangeDrawAfter(s, from, until, fuel, 0);
    var n := Wrap(until - from);
    if n > 0 || n == MinInt {
      if LowestBitIsOnlyBit(n) {
        var k := FastLog2(n);
        var t := TakeUpperBits(Output(s), k);
        assert RangeDraw(s, from, until, fuel) == (Some(Wrap(from + t)), Step(s));
        UnsignedValue(n);
        FastLog2Bound(n);
        TakeUpperBitsValue(Output(s), k);
        assert from + t < until;
      } else {
        var (rnd, s') := RejectionDraw(s, n, fuel);
        assert RangeDraw(s, from, until, fuel) == (if rnd.Some? then Some(Wrap(from + rnd.value)) else None, s');
        MinIntPassesTest();
        RejectionDrawRange(s, n, fuel);
      }
    } else {
      assert RangeDraw(s, from, until, fuel) == FilterDraw(s, from, until, fuel);
      FilterDrawRange(s, from, until, fuel);
    }
  }

  lemma {:induction false} RejectionDrawRange(s: RandomState, n: Int32, fuel: nat)
    requires n > 0
    ensures RejectionDraw(s, n, fuel).0.Some? ==> 0 <= RejectionDraw(s, n, fuel).0.value < n
    decreases fuel
  {
    if fuel > 0 {
      UshrNonNegative(Output(s), 1);
      RejectionDrawRange(Step(s), n, fuel - 1);
    }
  }

  lemma {:induction false} FilterDrawRange(s: RandomState, from: Int32, until: Int32, fuel: nat)
    ensures FilterDraw(s, from, until, fuel).0.Some? ==> from <= FilterDraw(s, from, until, fuel).0.value < until
    decreases fuel
  {
    if fuel > 0 {
      FilterDrawRange(Step(s), from, until, fuel - 1);
    }
  }

  /**
   * A range of width 2^k (k <= 30) passes the power-of-two test, consumes
   * exactly one `nextInt()`, and yields `from` plus the top k bits of it.
   */
  lemma PowerOfTwoDraw(s: RandomState, from: Int32, k: nat, fuel: nat)
    requires k <= 30 && IsInt(from + Pow2(k))
    ensures RangeDraw(s, from, from + Pow2(k), fuel) ==
      (Some(from + Value(FromInt(Output(s))[32 - k..])), Step(s))
  {
    PowerOfTwoTakesBranch(s, from, k, fuel);
    TopBitsOffset(Output(s), from, k);
  }

  lemma PowerOfTwoTakesBranch(s: RandomState, from: Int32, k: nat, fuel: nat)
    requires k <= 30 && IsInt(from + Pow2(k))
    ensures RangeDraw(s, from, from + Pow2(k), fuel) == (Some(Wrap(from + TakeUpperBits(Output(s), k))), Step(s))
  {
    var n := Pow2(k);
    Pow2Bound(k);
    PowerOfTwoPassesTest(k);
    PowerBranch(s, from, from + n, fuel, n, k);
  }

  /** Adding the top `k` bits to `from` stays below `from + 2^k`, so it does not wrap. */
  lemma TopBitsOffset(i: int, from: Int32, k: nat)
    requires k <= 30 && IsInt(from + Pow2(k))
    ensures Wrap(from + TakeUpperBits(i, k)) == from + Value(FromInt(i)[32 - k..])
  {
    TakeUpperBitsValue(i, k);
  }

  /** The power-of-two branch of `nextInt(from, until)`: one draw, its top `k` bits added to `from`. */
  lemma PowerBranch(s: RandomState, from: Int32, until: Int32, fuel: nat, n: int, k: int)
    requires n == Wrap(until - from) && n > 0 && LowestBitIsOnlyBit(n) && k == FastLog2(n)
    ensures RangeDraw(s, from, until, fuel) == (Some(Wrap(from + TakeUpperBits(Output(s), k))), Step(s))
  {
    assert RangeDrawAfter(s, from, until, fuel, 1) == RangeDrawAfter(s, from, until, fuel, 0);
  }

  /** `nextInt(from, from + 1) == from`: `takeUpperBits(0)` masks every bit away. */
  lemma SingletonRange(s: RandomState, from: Int32, fuel: nat)
    requires IsInt(from + 1)
    ensures RangeDraw(s, from, from + 1, fuel) == (Some(from), Step(s))
  {
    PowerOfTwoDraw(s, from, 0, fuel);
  }

  /** `nextInt(0, 64)` always succeeds with one draw: the top six bits of the next value. */
  lemma GeneIndexDraw(s: RandomState, fuel: nat)
    ensures RangeDraw(s, 0, 64, fuel) == (Some(GeneIndex(s)), Step(s))
  {
    Pow2Facts();
    PowerOfTwoDraw(s, 0, 6, fuel);
  }

  // ---------------------------------------------------------------------------
  // Arithmetic of powers of two
  // ---------------------------------------------------------------------------

  lemma {:induction false} Pow2Add(a: nat, b: nat)
    ensures Pow2(a + b) == Pow2(a) * Pow2(b)
  {
    if b > 0 {
      Pow2Add(a, b - 1);
    }
  }

  lemma {:induction false} Pow2Monotone(a: nat, b: nat)
    requires a <= b
    ensures Pow2(a) <= Pow2(b)
  {
    if a < b {
      Pow2Monotone(a, b - 1);
    }
  }

  lemma Pow2Bound(k: nat)
    requires k <= 30
    ensures Pow2(k) <= 0x4000_0000
  {
    Pow2Monotone(k, 30);
    Pow2Facts();
  }

  lemma Pow2Facts()
    ensures Pow2(6) == 64 && Pow2(30) == 0x4000_0000
    ensures Pow2(31) == TwoTo31 && Pow2(32) == TwoTo32
  {
    assert Pow2(6) == 64;
    Pow2Add(6, 6);
    Pow2Add(12, 12);
    Pow2Add(24, 6);
    Pow2Add(30, 1);
    Pow2Add(31, 1);
  }

  /** Division with a remainder in [0, d) has one answer. */
  lemma DivUnique(i: int, d: int, q: int, r: int)
    requires d > 0 && i == q * d + r && 0 <= r < d
    ensures i / d == q && i % d == r
  {
    MulCancel(q, i / d + 1, d);
    MulCancel(i / d, q + 1, d);
  }

  lemma MulCancel(a: int, b: int, d: int)
    requires d > 0 && a * d < b * d
    ensures a < b
  {
  }

  lemma MulAssoc(a: int, b: int, c: int)
    ensures a * (b * c) == (a * b) * c
  {
  }

  // ---------------------------------------------------------------------------
  // Values of bit sequences
  // ---------------------------------------------------------------------------

  /** An n-bit sequence has a value below 2^n. */
  lemma {:induction false} ValueBound(w: seq<bool>)
    ensures Value(w) < Pow2(|w|)
  {
    if |w| > 0 {
      ValueBound(w[1..]);
    }
  }

  /** The top bit of a sequence weighs 2^(n-1). */
  lemma {:induction false} ValueLast(w: seq<bool>)
    requires |w| > 0
    ensures Value(w) == Value(w[..|w| - 1]) + (if w[|w| - 1] then Pow2(|w| - 1) else 0)
  {
    if |w| > 1 {
      ValueLast(w[1..]);
      assert w[..|w| - 1][1..] == w[1..][..|w| - 2];
    }
  }

  /** Clear bits from position `k` up add nothing to the value. */
  lemma {:induction false} ValueZeroTop(w: seq<bool>, k: nat)
    requires k <= |w|
    requires forall j :: k <= j < |w| ==> !w[j]
    ensures Value(w) == Value(w[..k])
  {
    if k > 0 {
      ValueZeroTop(w[1..], k - 1);
      assert w[..k][1..] == w[1..][..k - 1];
    } else if |w| > 0 {
      ValueZeroTop(w[1..], 0);
    }
  }

  /** Bit 31 decides whether the unsigned value reaches 2^31. */
  lemma SignBit(w: Bits32)
    ensures w[31] ==> TwoTo31 <= Value(w) < TwoTo32
    ensures !w[31] ==> Value(w) < TwoTo31
  {
    ValueLast(w);
    ValueBound(w[..31]);
    Pow2Facts();
  }

  /** Complementing every bit of an n-bit sequence gives 2^n - 1 minus its value. */
  lemma {:induction false} InvValue(w: seq<bool>)
    ensures Value(seq(|w|, j requires 0 <= j < |w| => !w[j])) == Pow2(|w|) - 1 - Value(w)
  {
    var inv := seq(|w|, j requires 0 <= j < |w| => !w[j]);
    if |w| > 0 {
      InvValue(w[1..]);
      assert inv[1..] == seq(|w[1..]|, j requires 0 <= j < |w[1..]| => !w[1..][j]);
    }
  }

  /** The low `n` bits of `i` differ from `i` by a multiple `q` of 2^n. */
  lemma {:induction false} BitsValue(i: int, n: nat) returns (q: int)
    ensures i == Value(Bits(i, n)) + Pow2(n) * q
    decreases n
  {
    if n == 0 {
      q := i;
    } else {
      var q' := BitsValue(i / 2, n - 1);
      assert Bits(i, n)[1..] == Bits(i / 2, n - 1);
      MulAssoc(2, Pow2(n - 1), q');
      q := q';
    }
  }

  /** Unfolds `FromInt`. */
  lemma FromIntBits(i: int)
    ensures FromInt(i) == Bits(i, 32)
  {
    assert FromIntAfter(i, 1) == FromIntAfter(i, 0);
  }

  /** Unfolds `ToInt`. */
  lemma ToIntValue(w: Bits32)
    ensures ToInt(w) == Value(w) - (if w[31] then TwoTo32 else 0)
  {
    assert ToIntAfter(w, 1) == ToIntAfter(w, 0);
  }

  /** The bits of an `Int` read unsigned: the `Int` itself, or 2^32 more for a negative one. */
  lemma UnsignedValue(i: Int32)
    ensures Value(FromInt(i)) == if i < 0 then i + TwoTo32 else i
  {
    FromIntToInt(i);
    ToIntValue(FromInt(i));
  }

  /** The bits of any integer read unsigned: its residue modulo 2^32. */
  lemma FromIntValue(i: int) returns (q: int)
    ensures i == Value(FromInt(i)) + TwoTo32 * q && Value(FromInt(i)) < TwoTo32
  {
    FromIntBits(i);
    q := BitsValue(i, 32);
    Pow2Facts();
    ValueBound(FromInt(i));
  }

  /** Reading back the bits of an `Int` gives the `Int`. */
  lemma FromIntToInt(i: Int32)
    ensures ToInt(FromInt(i)) == i
  {
    var w := FromInt(i);
    ToIntValue(w);
    var q := FromIntValue(i);
    DivUnique(i, TwoTo32, q, Value(w));
    if i >= 0 {
      DivUnique(i, TwoTo32, 0, i);
    } else {
      DivUnique(i, TwoTo32, -1, i + TwoTo32);
    }
    SignBit(w);
  }

  // ---------------------------------------------------------------------------
  // Shifts, masks and logarithms
  // ---------------------------------------------------------------------------

  /** `ushr` by at least one bit leaves a non-negative `Int`. */
  lemma UshrNonNegative(i: int, count: int)
    requires 0 < count < 32
    ensures UshrInt(i, count) >= 0
  {
  }

  /** `takeUpperBits(k)` for 0 <= k <= 31 is the value of the top `k` bits, a number in [0, 2^k). */
  lemma TakeUpperBitsValue(i: int, k: int)
    requires 0 <= k <= 31
    ensures TakeUpperBits(i, k) == Value(FromInt(i)[32 - k..])
    ensures 0 <= TakeUpperBits(i, k) < Pow2(k)
  {
    var w := FromInt(i);
    var mask := Shr31(FromInt(-k));
    SignMask(k);
    ToIntValue(And(Ushr(w, 32 - k), mask));
    if k == 0 {
      var r := And(Ushr(w, 32), mask);
      assert forall j :: 0 <= j < 32 ==> !r[j];
      ValueZeroTop(r, 0);
    } else {
      var u := Ushr(w, 32 - k);
      assert u == w[32 - k..] + Zeros(32 - k);
      assert And(u, mask) == u;
      ValueZeroTop(u, k);
      assert u[..k] == w[32 - k..];
      ValueBound(w[32 - k..]);
    }
  }

  /** `(-bitCount).shr(31)` for a count in [0, 31]: all ones unless the count is zero. */
  lemma SignMask(k: int)
    requires 0 <= k <= 31
    ensures Shr31(FromInt(-k)) == seq(32, j => k > 0)
  {
    FromIntToInt(-k);
  }

  /** The highest set bit of a sequence lies `LeadingZeros` below its top. */
  lemma {:induction false} LeadingZerosBound(w: seq<bool>)
    ensures LeadingZeros(w) == |w| ==> Value(w) == 0
    ensures LeadingZeros(w) < |w| ==> Pow2(|w| - 1 - LeadingZeros(w)) <= Value(w)
  {
    if |w| > 0 {
      var n := |w| - 1;
      ValueLast(w);
      if !w[n] {
        LeadingZerosBound(w[..n]);
      }
    }
  }

  /** For `n` whose bits read unsigned as d > 0, `fastLog2(n)` gives a k in [0, 31] with 2^k <= d. */
  lemma FastLog2Bound(n: int)
    requires Value(FromInt(n)) > 0
    ensures 0 <= FastLog2(n) <= 31
    ensures Pow2(FastLog2(n)) <= Value(FromInt(n))
  {
    LeadingZerosBound(FromInt(n));
  }

  /** Only bit `k` of 2^k is set; -2^k has every bit from `k` up set. */
  lemma {:induction false} PowerBit(k: nat, j: nat)
    ensures Bit(Pow2(k), j) == (j == k)
    ensures Bit(-(Pow2(k) as int), j) == (j >= k)
    decreases j
  {
    if j > 0 {
      if k > 0 {
        PowerBit(k - 1, j - 1);
        assert Pow2(k) / 2 == Pow2(k - 1);
        assert -(Pow2(k) as int) / 2 == -(Pow2(k - 1) as int);
      } else {
        ConstBit(0, j - 1);
        ConstBit(-1, j - 1);
      }
    }
  }

  /** Every bit of 0 is clear and every bit of -1 set. */
  lemma {:induction false} ConstBit(i: int, j: nat)
    requires i == 0 || i == -1
    ensures Bit(i, j) == (i == -1)
    decreases j
  {
    if j > 0 {
      ConstBit(i, j - 1);
    }
  }

  lemma {:induction false} LeadingZerosOfBit(n: nat, k: nat)
    requires k < n
    ensures LeadingZeros(seq(n, j => j == k)) == n - 1 - k
  {
    var w := seq(n, j => j == k);
    if k < n - 1 {
      assert w[..n - 1] == seq(n - 1, j => j == k);
      LeadingZerosOfBit(n - 1, k);
    }
  }

  /** 2^k for k <= 30 passes `n and -n == n`, and `fastLog2` of it is k. */
  lemma PowerOfTwoPassesTest(k: nat)
    requires k <= 30
    ensures LowestBitIsOnlyBit(Pow2(k))
    ensures FastLog2(Pow2(k)) == k
  {
    FromIntBits(Pow2(k));
    FromIntBits(-(Pow2(k) as int));
    forall j | 0 <= j < 32
      ensures FromInt(Pow2(k))[j] == (j == k) && FromInt(-(Pow2(k) as int))[j] == (j >= k)
    {
      PowerBit(k, j);
    }
    assert FromInt(Pow2(k)) == seq(32, j => j == k);
    assert And(FromInt(Pow2(k)), FromInt(-(Pow2(k) as int))) == FromInt(Pow2(k));
    LeadingZerosOfBit(32, k);
  }

  /** `Int.MIN_VALUE` passes the test, so the rejection branch only sees positive ranges. */
  lemma MinIntPassesTest()
    ensures LowestBitIsOnlyBit(MinInt)
  {
    Pow2Facts();
    FromIntBits(MinInt);
    FromIntBits(-MinInt);
    forall j | 0 <= j < 32
      ensures FromInt(MinInt)[j] == FromInt(-MinInt)[j]
    {
      PowerBit(31, j);
    }
    assert FromInt(MinInt) == FromInt(-MinInt);
  }
}
