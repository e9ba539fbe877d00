/** The pseudorandom stream and the mutable integer lists the strategy works on.
    The generator is an oracle: each draw may return any value in its documented
    range, and the object only records its seed and how many draws it has served. */
module Randomness {

  /** Some index in [0, n) lies outside `forbidden`. */
  predicate HasIndexOutside(n: int, forbidden: set<int>) {
    exists j :: 0 <= j < n && j !in forbidden
  }

  class Rng {
    var seed: int
    /** Number of values drawn from the stream since it was seeded. */
    var drawn: nat

    constructor (seed: int)
      ensures this.seed == seed && drawn == 0
    {
      this.seed := seed;
      drawn := 0;
    }

    /** A uniform double in [0, 1). */
    method NextDouble() returns (u: real)
      modifies this
      ensures 0.0 <= u < 1.0
      ensures seed == old(seed) && drawn == old(drawn) + 1
    {
      u :| 0.0 <= u < 1.0;
      drawn := drawn + 1;
    }

    /** A fair coin. */
    method NextBoolean() returns (b: bool)
      modifies this
      ensures seed == old(seed) && drawn == old(drawn) + 1
    {
      b :| b || !b;
      drawn := drawn + 1;
    }

    /** Uniform draws in [0, n) repeated until one falls outside `forbidden`; the
        accepted index is returned, after at least one draw. */
    method NextIntOutside(n: int, forbidden: set<int>) returns (k: int)
      requires HasIndexOutside(n, forbidden)
      modifies this
      ensures 0 <= k < n && k !in forbidden
      ensures seed == old(seed) && drawn > old(drawn)
    {
      k :| 0 <= k < n && k !in forbidden;
      var rejected: nat :| true;
      drawn := drawn + rejected + 1;
    }

    /** Permutes the list in place, consuming one draw per position but the first. */
    method Shuffle(list: IntList)
      modifies this, list
      ensures multiset(list.items) == multiset(old(list.items)) && |list.items| == |old(list.items)|
      ensures seed == old(seed)
      ensures drawn == old(drawn) + (if |list.items| > 1 then |list.items| - 1 else 0)
    {
      var s := list.items;
      assert multiset(s) == multiset(list.items);
      var t :| multiset(t) == multiset(s);
      list.items := t;
      assert |t| == |multiset(t)| == |s|;
      drawn := drawn + (if |t| > 1 then |t| - 1 else 0);
    }
  }

  /** A growable list of integers changed in place. */
  class IntList {
    var items: seq<int>

    constructor (init: seq<int>)
      ensures items == init
    {
      items := init;
    }

    method AddAll(s: seq<int>)
      modifies this
      ensures items == old(items) + s
    {
      items := items + s;
    }

    method Set(i: int, x: int)
      requires 0 <= i < |items|
      modifies this
      ensures items == old(items)[i := x]
    {
      items := items[i := x];
    }

    method Clear()
      modifies this
      ensures items == []
    {
      items := [];
    }
  }
}
