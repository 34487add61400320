/**
 * The list operations behind every `upgrades` property:
 * `values().dropWhile { it.ordinal <= this.ordinal }.take(1)`.
 */
module Upgradable {

  /** `dropWhile { ord(it) <= k }`: the suffix that starts at the first element above `k`. */
  function DropWhileAtMost<T>(s: seq<T>, ord: T -> int, k: int): (r: seq<T>)
    ensures |r| <= |s| && r == s[|s| - |r|..]
    ensures r != [] ==> ord(r[0]) > k
    ensures forall i :: 0 <= i < |s| - |r| ==> ord(s[i]) <= k
  {
    if s == [] then []
    else if ord(s[0]) <= k then DropWhileAtMost(s[1..], ord, k)
    else s
  }

  /** `take(n)`: the first `n` elements, or all of them when there are fewer. */
  function Take<T>(s: seq<T>, n: nat): (r: seq<T>)
    ensures |r| == if n <= |s| then n else |s|
    ensures r == s[..|r|]
  {
    if n <= |s| then s[..n] else s
  }

  /**
   * `dropWhile { ord(it) <= ord(x) }.take(1)`. The expression is reached
   * through one countdown step, so that a caller over a literal value list
   * reasons from `UpgradesIsNextTier` instead of unrolling the list.
   */
  function NextTiers<T>(s: seq<T>, ord: T -> int, x: T): seq<T>
  {
    NextTiersAfter(s, ord, x, 1)
  }

  function NextTiersAfter<T>(s: seq<T>, ord: T -> int, x: T, steps: nat): seq<T>
  {
    if steps == 0 then Take(DropWhileAtMost(s, ord, ord(x)), 1)
    else NextTiersAfter(s, ord, x, steps - 1)
  }

  /** The elements of `s` are numbered by `ord` from 0 in declaration order. */
  ghost predicate Enumerates<T>(s: seq<T>, ord: T -> int)
  {
    forall i :: 0 <= i < |s| ==> ord(s[i]) == i
  }

  /**
   * Over a declaration-ordered value list, the `upgrades` expression is the
   * tier right after `x`, or nothing after the last tier.
   */
  lemma {:induction false} UpgradesIsNextTier<T>(s: seq<T>, ord: T -> int, x: T)
    requires Enumerates(s, ord)
    requires 0 <= ord(x) < |s|
    ensures NextTiers(s, ord, x) == if ord(x) + 1 < |s| then [s[ord(x) + 1]] else []
  {
    assert NextTiersAfter(s, ord, x, 1) == NextTiersAfter(s, ord, x, 0);
    var r := DropWhileAtMost(s, ord, ord(x));
    if |r| > 0 {
      // The first element kept sits right after the last dropped one.
      var j := |s| - |r|;
      assert r[0] == s[j];
      assert ord(s[j]) == j > ord(x);
      assert ord(s[j - 1]) == j - 1 <= ord(x);
      assert Take(r, 1) == [s[ord(x) + 1]];
    } else {
      assert ord(s[|s| - 1]) == |s| - 1 <= ord(x);
    }
  }
}
