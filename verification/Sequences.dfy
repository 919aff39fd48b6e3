/** Facts about sequences used by the queues of every layer. */
module Sequences {

  /** Some position of x in s. */
  ghost function Position<T>(s: seq<T>, x: T): (i: nat)
    requires x in s
    ensures i < |s| && s[i] == x
  {
    var i :| 0 <= i < |s| && s[i] == x; i
  }

  /** Every element stands at one position only. */
  ghost predicate NoDuplicates<T>(s: seq<T>) {
    forall i :: 0 <= i < |s| ==> Position(s, s[i]) == i
  }

  lemma PairwiseDistinct<T>(s: seq<T>)
    ensures NoDuplicates(s) <==> forall i, j :: 0 <= i < j < |s| ==> s[i] != s[j]
  {
    if NoDuplicates(s) {
      forall i, j | 0 <= i < j < |s|
        ensures s[i] != s[j]
      {
        assert Position(s, s[i]) == i && Position(s, s[j]) == j;
      }
    }
  }

  lemma AppendNew<T>(s: seq<T>, x: T)
    requires NoDuplicates(s) && x !in s
    ensures NoDuplicates(s + [x])
  {
    PairwiseDistinct(s);
    PairwiseDistinct(s + [x]);
  }

  function IndexOf<T(==)>(s: seq<T>, x: T): (i: nat)
    requires x in s
    ensures i < |s| && s[i] == x && x !in s[..i]
  {
    if s[0] == x then 0 else 1 + IndexOf(s[1..], x)
  }

  /** s with the first occurrence of x taken out; s itself when x does not occur. */
  function Without<T(==)>(s: seq<T>, x: T): (r: seq<T>)
    ensures x !in s ==> r == s
    ensures x in s ==> r == s[..IndexOf(s, x)] + s[IndexOf(s, x) + 1..]
  {
    if x in s then s[..IndexOf(s, x)] + s[IndexOf(s, x) + 1..] else s
  }

  lemma WithoutKeepsDistinct<T>(s: seq<T>, x: T)
    requires NoDuplicates(s)
    ensures NoDuplicates(Without(s, x))
  {
    if x in s {
      var i, r := IndexOf(s, x), Without(s, x);
      forall j | 0 <= j < |r|
        ensures Position(r, r[j]) == j
      {
        var k := Position(r, r[j]);
        var j', k' := if j < i then j else j + 1, if k < i then k else k + 1;
        assert s[j'] == s[k'] && Position(s, s[j']) == j' && Position(s, s[k']) == k';
      }
    }
  }

  lemma WithoutMembers<T>(s: seq<T>, x: T, y: T)
    requires NoDuplicates(s)
    ensures NoDuplicates(Without(s, x))
    ensures y in Without(s, x) <==> y in s && y != x
  {
    WithoutKeepsDistinct(s, x);
    if x in s {
      var i := IndexOf(s, x);
      assert s == s[..i] + [x] + s[i + 1..];
      if y == x {
        assert forall j :: 0 <= j < |s| && s[j] == x ==> j == i by {
          assert Position(s, x) == i;
        }
      }
    }
  }

  lemma {:induction false} FirstIndex<T>(s: seq<T>, x: T, k: nat)
    requires k < |s| && s[k] == x && x !in s[..k]
    ensures IndexOf(s, x) == k
  {
    if k > 0 {
      assert s[0] == s[..k][0];
      assert s[1..][..k - 1] == s[..k][1..];
      FirstIndex(s[1..], x, k - 1);
    }
  }

  lemma WithoutMiddle<T>(a: seq<T>, x: T, b: seq<T>)
    requires x !in a
    ensures Without(a + [x] + b, x) == a + b
  {
    var s := a + [x] + b;
    assert s[..|a|] == a && s[|a| + 1..] == b && s[|a|] == x;
    FirstIndex(s, x, |a|);
  }

  lemma FirstIndexInFront<T>(s: seq<T>, x: T, more: seq<T>)
    requires x in s
    ensures IndexOf(s + more, x) == IndexOf(s, x)
  {
    var i := IndexOf(s, x);
    assert (s + more)[..i] == s[..i];
    FirstIndex(s + more, x, i);
  }

  lemma WithoutInFront<T>(s: seq<T>, x: T, more: seq<T>)
    requires x in s
    ensures Without(s + more, x) == Without(s, x) + more
  {
    FirstIndexInFront(s, x, more);
    var i := IndexOf(s, x);
    assert (s + more)[..i] == s[..i];
    assert (s + more)[i + 1..] == s[i + 1..] + more;
  }
}
