/**
 * The flatten-index bookkeeping of the SQL validator: a shared counter whose
 * post-increment hands out 0, 1, 2, ... to disambiguate nested FLATTEN calls,
 * and the validator that draws from it.
 */
module SqlValidation {
  import opened JavaInt

  /** The values that `n` successive post-increments return, starting from `start`. */
  function Draws(start: Int32, n: nat): (s: seq<Int32>)
    ensures |s| == n
    ensures n > 0 ==> s[0] == start
    decreases n
  {
    if n == 0 then [] else [start] + Draws(Increment(start), n - 1)
  }

  /** The `i`-th drawn value is `start + i`, wrapped to an `int`. */
  lemma {:induction false} DrawsAt(start: Int32, n: nat, i: nat)
    requires i < n
    ensures Draws(start, n)[i] == Wrap32(start + i)
    decreases n
  {
    if i > 0 {
      DrawsAt(Increment(start), n - 1, i - 1);
      Wrap32Congruent(Increment(start) + (i - 1), start + i);
    }
  }

  /** One more draw appends the next wrapped value: the history grows at its end. */
  lemma DrawsSnoc(start: Int32, n: nat)
    ensures Draws(start, n + 1) == Draws(start, n) + [Wrap32(start + n)]
  {
    var s, t := Draws(start, n + 1), Draws(start, n) + [Wrap32(start + n)];
    forall i | 0 <= i < n + 1
      ensures s[i] == t[i]
    {
      DrawsAt(start, n + 1, i);
      if i < n {
        DrawsAt(start, n, i);
      }
    }
  }

  /** As long as at most 2^31 indices have been handed out, a fresh counter returns exactly 0 .. n-1. */
  lemma FirstDrawsAreNaturals(n: nat)
    requires n <= INT_MAX + 1
    ensures forall i :: 0 <= i < n ==> Draws(0, n)[i] == i
  {
    forall i | 0 <= i < n
      ensures Draws(0, n)[i] == i
    {
      DrawsAt(0, n, i);
    }
  }

  /** Within the same range the indices are strictly increasing. */
  lemma DrawsStrictlyIncreasing(n: nat)
    requires n <= INT_MAX + 1
    ensures forall i, j :: 0 <= i < j < n ==> Draws(0, n)[i] < Draws(0, n)[j]
  {
    FirstDrawsAreNaturals(n);
  }

  /** The first 2^32 indices are pairwise distinct, the negative ones after the wrap included. */
  lemma DrawsDistinct(n: nat)
    requires n <= MODULUS
    ensures forall i, j :: 0 <= i < j < n ==> Draws(0, n)[i] != Draws(0, n)[j]
  {
    forall i, j | 0 <= i < j < n
      ensures Draws(0, n)[i] != Draws(0, n)[j]
    {
      DrawsAt(0, n, i);
      DrawsAt(0, n, j);
      if i <= INT_MAX && j > INT_MAX {
        assert Wrap32(j) == j - MODULUS;
      } else if i > INT_MAX {
        assert Wrap32(i) == i - MODULUS && Wrap32(j) == j - MODULUS;
      }
    }
  }

  /** Past the wrap-around, the index after INT_MAX is INT_MIN. */
  lemma DrawsWrapAfterIntMax(n: nat)
    requires n > INT_MAX + 1
    ensures Draws(0, n)[INT_MAX] == INT_MAX
    ensures Draws(0, n)[INT_MAX + 1] == INT_MIN
  {
    DrawsAt(0, n, INT_MAX);
    DrawsAt(0, n, INT_MAX + 1);
  }

  /** After 2^32 calls the indices start repeating. */
  lemma DrawsRepeatAfterModulus(n: nat)
    requires n > MODULUS
    ensures Draws(0, n)[MODULUS] == Draws(0, n)[0]
  {
    DrawsAt(0, n, MODULUS);
  }

  /** `SqlValidatorImpl.FlattenOpCounter`: a counter whose only mutator is the post-increment. */
  class FlattenOpCounter {
    var value: Int32
    /** Every index this counter has handed out, in order. */
    ghost var issued: seq<Int32>

    ghost predicate Valid()
      reads this
    {
      issued == Draws(0, |issued|) && value == Wrap32(|issued|)
    }

    /** The field is default-initialised, so a fresh counter holds 0 and has issued nothing. */
    constructor ()
      ensures Valid()
      ensures value == 0 && issued == []
    {
      value := 0;
      issued := [];
    }

    /** `return value++;`: returns the current value and stores its successor. */
    method NextFlattenIndex() returns (r: Int32)
      requires Valid()
      modifies this
      ensures Valid()
      ensures r == old(value) && value == Increment(old(value))
      ensures issued == old(issued) + [r]
    {
      DrawsSnoc(0, |issued|);
      Wrap32Congruent(Wrap32(|issued|) + 1, |issued| + 1);
      r := value;
      value := Increment(value);
      issued := issued + [r];
    }
  }

  /** The validator keeps a reference to a counter that several validators may share. */
  class SqlValidatorImpl {
    const flattenCount: FlattenOpCounter

    constructor (flattenCount: FlattenOpCounter)
      ensures this.flattenCount == flattenCount
    {
      this.flattenCount := flattenCount;
    }

    /** Draws the next index from the shared counter, so all validators on one counter see one sequence. */
    method NextFlattenIndex() returns (r: Int32)
      requires flattenCount.Valid()
      modifies flattenCount
      ensures flattenCount.Valid()
      ensures r == old(flattenCount.value) && flattenCount.value == Increment(old(flattenCount.value))
      ensures flattenCount.issued == old(flattenCount.issued) + [r]
    {
      r := flattenCount.NextFlattenIndex();
    }
  }
}
