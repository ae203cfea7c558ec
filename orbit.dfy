/**
 * Iterating a transition on register values, and the rejection loop that
 * keeps iterating until a value falls in a range. The register's own
 * transition is one instance; the facts here hold for any transition.
 */
module Orbits {
  import opened Wrappers

  /** The value after k applications of f to r. */
  function Iterate(f: nat -> nat, r: nat, k: nat): nat
  {
    if k == 0 then r else f(Iterate(f, r, k - 1))
  }

  /** k + m applications are m applications after the first k. */
  lemma {:induction false} IterateAdd(f: nat -> nat, r: nat, k: nat, m: nat)
    ensures Iterate(f, r, k + m) == Iterate(f, Iterate(f, r, k), m)
  {
    if m > 0 {
      IterateAdd(f, r, k, m - 1);
    }
  }

  /** A list in which each value is f of the one before, starting from f(r), is the sequence after r. */
  lemma {:induction false} IterateFollows(f: nat -> nat, r: nat, values: seq<nat>)
    requires |values| >= 1 && values[0] == f(r)
    requires forall i | 0 <= i < |values| - 1 :: values[i + 1] == f(values[i])
    ensures forall k | 0 <= k < |values| :: Iterate(f, r, k + 1) == values[k]
  {
    if |values| > 1 {
      var front := values[..|values| - 1];
      IterateFollows(f, r, front);
      var k := |values| - 1;
      assert Iterate(f, r, k) == front[k - 1];
    }
  }

  /**
   * The rejection loop: apply f to r, and keep applying it while the value
   * is outside [lo, hi], at most fuel + 1 times in all. None when every one
   * of those values is outside the range.
   */
  function Search(f: nat -> nat, r: nat, lo: int, hi: int, fuel: nat): (found: Option<nat>)
    ensures found.Some? ==> lo <= found.value <= hi
    decreases fuel
  {
    var x := f(r);
    if lo <= x <= hi then Some(x)
    else if fuel == 0 then None
    else Search(f, x, lo, hi, fuel - 1)
  }

  /**
   * The rejection loop's state part-way: x is the value just drawn and
   * `left` more draws are allowed.
   */
  function SearchFrom(f: nat -> nat, x: nat, lo: int, hi: int, left: nat): Option<nat>
  {
    if lo <= x <= hi then Some(x)
    else if left == 0 then None
    else Search(f, x, lo, hi, left - 1)
  }

  /** Starting the loop draws once: the search from r resumes at f(r). */
  lemma SearchStarts(f: nat -> nat, r: nat, lo: int, hi: int, fuel: nat)
    ensures Search(f, r, lo, hi, fuel) == SearchFrom(f, f(r), lo, hi, fuel)
  {
  }

  /** A value out of range, with draws left, moves the loop on to the next value. */
  lemma SearchMovesOn(f: nat -> nat, outcome: Option<nat>, x: nat, y: nat, lo: int, hi: int, left: nat)
    requires outcome == SearchFrom(f, x, lo, hi, left)
    requires !(lo <= x <= hi) && left > 0 && y == f(x)
    ensures outcome == SearchFrom(f, y, lo, hi, left - 1)
  {
  }

  /** The k-th value after r is in [lo, hi] and none of the ones before it is. */
  ghost predicate FirstInRange(f: nat -> nat, r: nat, lo: int, hi: int, k: nat)
  {
    && k >= 1
    && lo <= Iterate(f, r, k) <= hi
    && forall j | 1 <= j < k :: !(lo <= Iterate(f, r, j) <= hi)
  }

  /** The values after f(r) are the values after r, one index on. */
  lemma ShiftAfterFirst(f: nat -> nat, r: nat, j: nat)
    ensures Iterate(f, f(r), j) == Iterate(f, r, j + 1)
  {
    assert Iterate(f, r, 1) == f(r);
    IterateAdd(f, r, 1, j);
  }

  /** Search returns the first value in range, when it comes within the fuel. */
  lemma {:induction false} SearchFindsFirstInRange(f: nat -> nat, r: nat, lo: int, hi: int, fuel: nat, k: nat)
    requires k <= fuel + 1 && FirstInRange(f, r, lo, hi, k)
    ensures Search(f, r, lo, hi, fuel) == Some(Iterate(f, r, k))
    decreases k
  {
    ShiftAfterFirst(f, r, 0);
    if k > 1 {
      forall j | 0 <= j < k
        ensures Iterate(f, f(r), j) == Iterate(f, r, j + 1)
      {
        ShiftAfterFirst(f, r, j);
      }
      SearchFindsFirstInRange(f, f(r), lo, hi, fuel - 1, k - 1);
    }
  }

  /** Whatever Search returns is the first value in range, within fuel + 1 applications. */
  lemma {:induction false} SearchReturnsFirstInRange(f: nat -> nat, r: nat, lo: int, hi: int, fuel: nat)
    requires Search(f, r, lo, hi, fuel).Some?
    ensures exists k | 1 <= k <= fuel + 1 ::
      FirstInRange(f, r, lo, hi, k) && Search(f, r, lo, hi, fuel).value == Iterate(f, r, k)
    decreases fuel
  {
    ShiftAfterFirst(f, r, 0);
    if lo <= f(r) <= hi {
      assert FirstInRange(f, r, lo, hi, 1);
    } else {
      SearchReturnsFirstInRange(f, f(r), lo, hi, fuel - 1);
      var k :| 1 <= k <= fuel && FirstInRange(f, f(r), lo, hi, k)
               && Search(f, f(r), lo, hi, fuel - 1).value == Iterate(f, f(r), k);
      forall j | 0 <= j <= k
        ensures Iterate(f, f(r), j) == Iterate(f, r, j + 1)
      {
        ShiftAfterFirst(f, r, j);
      }
      assert forall j | 1 <= j < k + 1 :: !(lo <= Iterate(f, r, j) <= hi) by {
        forall j | 1 <= j < k + 1
          ensures !(lo <= Iterate(f, r, j) <= hi)
        {
          if j > 1 {
            assert Iterate(f, f(r), j - 1) == Iterate(f, r, j);
          }
        }
      }
      assert FirstInRange(f, r, lo, hi, k + 1);
    }
  }

  /** Search gives up exactly when none of the first fuel + 1 values is in range. */
  lemma {:induction false} SearchGivesUp(f: nat -> nat, r: nat, lo: int, hi: int, fuel: nat)
    ensures Search(f, r, lo, hi, fuel).None?
        <==> forall j | 1 <= j <= fuel + 1 :: !(lo <= Iterate(f, r, j) <= hi)
    decreases fuel
  {
    ShiftAfterFirst(f, r, 0);
    if !(lo <= f(r) <= hi) && fuel > 0 {
      SearchGivesUp(f, f(r), lo, hi, fuel - 1);
      forall j | 0 <= j <= fuel
        ensures Iterate(f, f(r), j) == Iterate(f, r, j + 1)
      {
        ShiftAfterFirst(f, r, j);
      }
      assert Iterate(f, r, 1) == f(r);
      assert Search(f, r, lo, hi, fuel) == Search(f, f(r), lo, hi, fuel - 1);
      if forall j | 1 <= j <= fuel :: !(lo <= Iterate(f, f(r), j) <= hi) {
        forall j | 1 <= j <= fuel + 1
          ensures !(lo <= Iterate(f, r, j) <= hi)
        {
          if j > 1 {
            assert Iterate(f, f(r), j - 1) == Iterate(f, r, j);
          }
        }
      } else {
        var j :| 1 <= j <= fuel && lo <= Iterate(f, f(r), j) <= hi;
        assert lo <= Iterate(f, r, j + 1) <= hi;
        assert Search(f, f(r), lo, hi, fuel - 1).None?
           <==> forall i | 1 <= i <= fuel :: !(lo <= Iterate(f, f(r), i) <= hi);
      }
    }
  }

  /** A transition that keeps values below m keeps every later value below m. */
  lemma {:induction false} IterateStaysBelow(f: nat -> nat, m: nat, r: nat, k: nat)
    requires forall x: nat | x < m :: f(x) < m
    requires r < m
    ensures Iterate(f, r, k) < m
  {
    if k > 0 {
      IterateStaysBelow(f, m, r, k - 1);
    }
  }

  /** More than m values below m cannot all be different. */
  lemma {:induction false} Pigeonhole(s: seq<nat>, m: nat)
    requires |s| > m
    requires forall i | 0 <= i < |s| :: s[i] < m
    ensures exists a, b | 0 <= a < b < |s| :: s[a] == s[b]
    decreases m
  {
    var last := |s| - 1;
    var v := s[last];
    if i :| 0 <= i < last && s[i] == v {
      assert s[i] == s[last];
    } else {
      // Relabel m - 1 as v in the prefix: the prefix then stays below m - 1
      // and a repeat in it is a repeat in s.
      var t := seq(last, i requires 0 <= i < last => if s[i] == m - 1 then v else s[i]);
      Pigeonhole(t, m - 1);
      var a, b :| 0 <= a < b < |t| && t[a] == t[b];
      assert s[a] == s[b];
    }
  }

  /** Once two values of the sequence agree, it repeats from there on. */
  lemma RepeatsFrom(f: nat -> nat, r: nat, a: nat, b: nat, t: nat)
    requires Iterate(f, r, a) == Iterate(f, r, b)
    ensures Iterate(f, r, b + t) == Iterate(f, r, a + t)
  {
    IterateAdd(f, r, b, t);
    IterateAdd(f, r, a, t);
  }

  /**
   * When f keeps values below m, every value after r already appears among
   * the first m values after r.
   */
  lemma {:induction false} OrbitWithinFirst(f: nat -> nat, m: nat, r: nat, n: nat)
    requires forall x: nat | x < m :: f(x) < m
    requires r < m && n >= 1
    ensures exists j | 1 <= j <= m :: Iterate(f, r, j) == Iterate(f, r, n)
    decreases n
  {
    if n <= m {
      assert Iterate(f, r, n) == Iterate(f, r, n);
    } else {
      var s := seq(m + 1, i requires 0 <= i <= m => Iterate(f, r, i + 1));
      forall i | 0 <= i < |s|
        ensures s[i] < m
      {
        IterateStaysBelow(f, m, r, i + 1);
      }
      Pigeonhole(s, m);
      var a, b :| 0 <= a < b < |s| && s[a] == s[b];
      // The values at a + 1 and b + 1 agree, and b + 1 <= n.
      RepeatsFrom(f, r, a + 1, b + 1, n - (b + 1));
      OrbitWithinFirst(f, m, r, a + 1 + n - (b + 1));
    }
  }

  /**
   * When f keeps values below m and the search has already looked at m values
   * in vain, no later value is in range either: an unbounded search never ends.
   */
  lemma SearchFailsForGood(f: nat -> nat, m: nat, r: nat, lo: int, hi: int, fuel: nat)
    requires forall x: nat | x < m :: f(x) < m
    requires r < m && fuel + 1 >= m
    requires Search(f, r, lo, hi, fuel).None?
    ensures forall n | n >= 1 :: !(lo <= Iterate(f, r, n) <= hi)
  {
    SearchGivesUp(f, r, lo, hi, fuel);
    forall n | n >= 1
      ensures !(lo <= Iterate(f, r, n) <= hi)
    {
      OrbitWithinFirst(f, m, r, n);
    }
  }
}
