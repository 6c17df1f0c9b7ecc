/** Facts about ordered sequences. Sorted integers under an arbitrary
    comparison show that the way the UAS7 validator sorts the day numbers
    before comparing them with 1..7 has no influence on its verdict; lists
    whose keys strictly ascend describe the order in which the SCORAD
    validators report their errors. */
module Sorting {

  /** Every earlier element is related to every later one by `le`. */
  predicate SortedBy(le: (int, int) -> bool, xs: seq<int>) {
    forall i, j | 0 <= i < j < |xs| :: le(xs[i], xs[j])
  }

  /** No two distinct values are related both ways. */
  ghost predicate AntiSymmetric(le: (int, int) -> bool) {
    forall x, y :: le(x, y) && le(y, x) ==> x == y
  }

  /** Two sequences sorted by the same antisymmetric comparison and holding
      the same multiset of values are the same sequence: a sort has only one
      possible outcome. */
  lemma {:induction false} SortedPermutationsEqual(a: seq<int>, b: seq<int>, le: (int, int) -> bool)
    requires SortedBy(le, a) && SortedBy(le, b)
    requires multiset(a) == multiset(b)
    requires AntiSymmetric(le)
    ensures a == b
  {
    if |a| == 0 {
      assert |multiset(b)| == 0;
    } else {
      assert |b| == |multiset(b)| == |multiset(a)| == |a|;
      assert a == [a[0]] + a[1..];
      assert b == [b[0]] + b[1..];
      assert a[0] in multiset(b);
      var j :| 0 <= j < |b| && b[j] == a[0];
      assert b[0] in multiset(a);
      var i :| 0 <= i < |a| && a[i] == b[0];
      assert a[0] == b[0];
      assert multiset(a[1..]) == multiset(a) - multiset{a[0]};
      assert multiset(b[1..]) == multiset(b) - multiset{b[0]};
      SortedPermutationsEqual(a[1..], b[1..], le);
    }
  }

  /** The keys strictly increase along `xs`. */
  predicate StrictlyAscending<T>(xs: seq<T>, key: T -> nat) {
    forall i, j | 0 <= i < j < |xs| :: key(xs[i]) < key(xs[j])
  }

  /** In a list whose keys strictly ascend, every element of the tail has a
      larger key than the head. */
  lemma TailAboveHead<T>(xs: seq<T>, key: T -> nat, x: T)
    requires StrictlyAscending(xs, key)
    requires |xs| > 0 && x in xs[1..]
    ensures key(xs[0]) < key(x)
  {
    var k :| 0 <= k < |xs[1..]| && xs[1..][k] == x;
    assert xs[k + 1] == x;
  }

  /** An element whose key is below every key of an ascending list can be
      put in front of it. */
  lemma AscendingCons<T>(x: T, rest: seq<T>, key: T -> nat)
    requires StrictlyAscending(rest, key)
    requires forall e | e in rest :: key(x) < key(e)
    ensures StrictlyAscending([x] + rest, key)
  {
    var xs := [x] + rest;
    forall i, j | 0 <= i < j < |xs| ensures key(xs[i]) < key(xs[j]) {
      assert xs[j] == rest[j - 1] && rest[j - 1] in rest;
      if i > 0 {
        assert xs[i] == rest[i - 1];
      }
    }
  }
}
