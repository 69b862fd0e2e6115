/** ORDER BY: listing a finite selection in the order of a comparison. */
module Listings {

  /** `q` lists the selection, each element once. */
  ghost predicate Lists<T(!new)>(q: seq<T>, selected: iset<T>) {
    && (forall i, j :: 0 <= i < j < |q| ==> q[i] != q[j])
    && (forall x :: x in q <==> x in selected)
  }

  ghost predicate Sorted<T>(q: seq<T>, lt: (T, T) -> bool) {
    forall i, j :: 0 <= i < j < |q| ==> lt(q[i], q[j])
  }

  /** No element stands before a smaller one; ties may stand in any order. */
  ghost predicate NotDescending<T>(q: seq<T>, lt: (T, T) -> bool) {
    forall i, j :: 0 <= i < j < |q| ==> !lt(q[j], q[i])
  }

  ghost predicate StrictOrder<T(!new)>(lt: (T, T) -> bool) {
    && (forall x :: !lt(x, x))
    && (forall x, y, z :: lt(x, y) && lt(y, z) ==> lt(x, z))
  }

  predicate Minimal<T(==)>(m: T, s: set<T>, lt: (T, T) -> bool) {
    m in s && forall x <- s :: !lt(x, m)
  }

  lemma {:induction false} MinimalExists<T(!new)>(s: set<T>, lt: (T, T) -> bool)
    requires s != {} && StrictOrder(lt)
    ensures exists m :: Minimal(m, s, lt)
  {
    var first :| first in s;
    var rest := s - {first};
    assert forall x <- s :: x == first || x in rest;
    if rest == {} {
      assert Minimal(first, s, lt);
    } else {
      MinimalExists(rest, lt);
      var m :| Minimal(m, rest, lt);
      assert Minimal(if lt(first, m) then first else m, s, lt);
    }
  }

  /** The rows of a selection in order, taking a smallest remaining one at a time. */
  method OrderBy<T(==, !new)>(s: set<T>, lt: (T, T) -> bool) returns (q: seq<T>)
    requires StrictOrder(lt)
    ensures Lists(q, iset x | x in s)
    ensures NotDescending(q, lt)
  {
    q := [];
    var todo := s;
    while todo != {}
      invariant todo <= s
      invariant forall x :: x in q <==> x in s && x !in todo
      invariant forall i, j :: 0 <= i < j < |q| ==> q[i] != q[j]
      invariant NotDescending(q, lt)
      invariant forall x <- q, y <- todo :: !lt(y, x)
    {
      MinimalExists(todo, lt);
      var m :| m in todo && Minimal(m, todo, lt);
      q := q + [m];
      todo := todo - {m};
    }
  }

  lemma SameMembersBothEmpty<T>(a: seq<T>, b: seq<T>)
    requires forall x :: x in a <==> x in b
    ensures a == [] <==> b == []
  {
    if a != [] {
      assert a[0] in b;
    }
    if b != [] {
      assert b[0] in a;
    }
  }

  lemma HeadNotAgain<T(!new)>(q: seq<T>, lt: (T, T) -> bool)
    requires StrictOrder(lt) && Sorted(q, lt) && q != []
    ensures q[0] !in q[1..]
  {
    assert forall i :: 0 <= i < |q[1..]| ==> lt(q[0], q[1..][i]);
  }

  /** A selection has one sorted listing. */
  lemma {:induction false} SortedListingIsUnique<T(!new)>(a: seq<T>, b: seq<T>, lt: (T, T) -> bool)
    requires StrictOrder(lt) && Sorted(a, lt) && Sorted(b, lt)
    requires forall x :: x in a <==> x in b
    decreases |a|
    ensures a == b
  {
    SameMembersBothEmpty(a, b);
    if a != [] {
      var x, y := a[0], b[0];
      assert x in b && y in a;
      var i :| 0 <= i < |b| && b[i] == x;
      var j :| 0 <= j < |a| && a[j] == y;
      assert j > 0 ==> lt(x, y);
      assert i > 0 ==> lt(y, x);
      HeadNotAgain(a, lt);
      HeadNotAgain(b, lt);
      assert a == [a[0]] + a[1..] && b == [b[0]] + b[1..];
      forall x ensures x in a[1..] <==> x in b[1..] {
        assert x in a <==> x in b;
      }
      SortedListingIsUnique(a[1..], b[1..], lt);
    }
  }

  /** Ordered up to ties, within a selection that has none: sorted. */
  lemma NoTiesMeansSorted<T(!new)>(q: seq<T>, sorted: seq<T>, lt: (T, T) -> bool)
    requires StrictOrder(lt) && Sorted(sorted, lt)
    requires forall x <- q :: x in sorted
    requires forall i, j :: 0 <= i < j < |q| ==> q[i] != q[j]
    requires NotDescending(q, lt)
    ensures Sorted(q, lt)
  {
    forall i, j | 0 <= i < j < |q| ensures lt(q[i], q[j]) {
      assert q[i] in sorted && q[j] in sorted;
      var a :| 0 <= a < |sorted| && sorted[a] == q[i];
      var b :| 0 <= b < |sorted| && sorted[b] == q[j];
      assert a != b;
    }
  }
}
