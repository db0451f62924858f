/** Finite sets of replica ids and sequence numbers: ordered iteration, sizes and quorums. */
module Collections {
  function Max(a: nat, b: nat): nat {
    if a < b then b else a
  }

  /** Below the modulus, the remainder is the number itself; so a positive multiple is not below. */
  lemma SmallRemainder(a: nat, n: nat)
    requires n > 0
    ensures a < n ==> a % n == a
    ensures a > 0 && a % n == 0 ==> a >= n
  {
  }

  ghost function MaxOf(s: set<nat>): (m: nat)
    requires s != {}
    ensures m in s
    ensures forall x :: x in s ==> x <= m
  {
    var x :| x in s;
    if s == {x} then x else
      assert s - {x} != {};
      assert forall y :: y in s ==> y == x || y in s - {x};
      Max(x, MaxOf(s - {x}))
  }

  predicate Increasing(q: seq<nat>) {
    forall i, j :: 0 <= i < j < |q| ==> q[i] < q[j]
  }

  /** The order in which a std::set or the keys of a std::map are visited. */
  ghost function Ascending(s: set<nat>): (q: seq<nat>)
    ensures Increasing(q)
    ensures forall x :: x in q <==> x in s
    ensures |q| == |s|
  {
    if s == {} then [] else
      var m := MaxOf(s);
      Ascending(s - {m}) + [m]
  }

  /** The last element of an increasing sequence is the largest, and the others are the rest. */
  lemma LastIsLargest(q: seq<nat>, s: set<nat>)
    requires q != [] && Increasing(q) && forall x :: x in q <==> x in s
    ensures s != {} && q[|q| - 1] == MaxOf(s) && Increasing(q[..|q| - 1])
    ensures forall x :: x in q[..|q| - 1] <==> x in s - {MaxOf(s)}
  {
    var front, last := q[..|q| - 1], q[|q| - 1];
    assert last in s;
    assert MaxOf(s) in q;
    assert q == front + [last];
    forall x | x in front ensures x != last {
      var i :| 0 <= i < |front| && front[i] == x;
      assert q[i] < q[|q| - 1];
    }
  }

  /** An increasing sequence is determined by its elements. */
  lemma {:induction false} AscendingUnique(q: seq<nat>, s: set<nat>)
    requires Increasing(q)
    requires forall x :: x in q <==> x in s
    ensures q == Ascending(s)
  {
    hide Ascending, MaxOf, Increasing;
    AscendingUnfolds(s);
    if q == [] {
      assert s == {};
    } else {
      LastIsLargest(q, s);
      AscendingUnique(q[..|q| - 1], s - {MaxOf(s)});
      assert q == q[..|q| - 1] + [q[|q| - 1]];
    }
  }

  lemma AscendingUnfolds(s: set<nat>)
    ensures Ascending(s) == if s == {} then [] else Ascending(s - {MaxOf(s)}) + [MaxOf(s)]
  {
    hide MaxOf, Increasing;
  }

  /** The ids 0..n-1. */
  ghost function Ids(n: nat): (s: set<nat>)
    ensures |s| == n
    ensures forall i: nat :: i in s <==> i < n
  {
    if n == 0 then {} else Ids(n - 1) + {n - 1}
  }

  lemma SubsetSize<T>(a: set<T>, b: set<T>)
    requires a <= b
    ensures |a| <= |b|
  {
    assert b == a + (b - a);
    assert |b| == |a| + |b - a|;
  }

  /** Two sets inside a common one overlap in at least |a| + |b| - |u| elements. */
  lemma Overlap<T>(a: set<T>, b: set<T>, u: set<T>)
    requires a <= u && b <= u
    ensures |a * b| >= |a| + |b| - |u|
  {
    assert |a + b| + |a * b| == |a| + |b|;
    SubsetSize(a + b, u);
  }

  /** A range of w+1 consecutive numbers bounds the size of a set inside it. */
  lemma {:induction false} RangeSize(s: set<nat>, lo: nat, w: nat)
    requires forall x :: x in s ==> lo <= x <= lo + w
    ensures |s| <= w + 1
    decreases w
  {
    var rest := s - {lo + w};
    if w == 0 {
      assert s <= {lo};
      SubsetSize(s, {lo});
    } else {
      RangeSize(rest, lo, w - 1);
      assert s <= rest + {lo + w};
      SubsetSize(s, rest + {lo + w});
    }
  }

  /**
   * With n = 3f+1 ids of which at least n-f are correct, two sets of 2f+1 ids
   * have a correct id in common.
   */
  lemma QuorumsMeet(n: nat, f: nat, good: set<nat>, a: set<nat>, b: set<nat>) returns (j: nat)
    requires n == 3 * f + 1
    requires good <= Ids(n) && |good| >= n - f
    requires a <= Ids(n) && b <= Ids(n)
    requires |a| >= 2 * f + 1 && |b| >= 2 * f + 1
    ensures j in a && j in b && j in good
  {
    Overlap(a, b, Ids(n));
    Overlap(a * b, good, Ids(n));
    assert |a * b * good| >= 1;
    j :| j in a * b * good;
  }

  /** A set of more than n - |good| ids holds a correct one. */
  lemma CorrectMember(n: nat, f: nat, good: set<nat>, a: set<nat>) returns (j: nat)
    requires good <= Ids(n) && |good| >= n - f
    requires a <= Ids(n) && |a| >= f + 1
    ensures j in a && j in good
  {
    Overlap(a, good, Ids(n));
    assert |a * good| >= 1;
    j :| j in a * good;
  }
}
