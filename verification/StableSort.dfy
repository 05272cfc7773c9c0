/** Sorting that keeps the order of elements that compare equal. */
module StableSort {
  type Before<!T> = (T, T) -> bool

  // A strict weak order: what `before` leaves incomparable counts as equal.
  ghost predicate Orders<T(!new)>(before: Before<T>) {
    && (forall a, b :: before(a, b) ==> !before(b, a))
    && (forall a, b, c :: before(a, c) ==> before(a, b) || before(b, c))
  }

  predicate Ties<T>(before: Before<T>, a: T, b: T) {
    !before(a, b) && !before(b, a)
  }

  function Insert<T>(before: Before<T>, x: T, s: seq<T>): (r: seq<T>)
    ensures |r| == |s| + 1
  {
    if s == [] then [x]
    else if before(x, s[|s| - 1]) then Insert(before, x, s[..|s| - 1]) + [s[|s| - 1]]
    else s + [x]
  }

  function Sorted<T>(before: Before<T>, s: seq<T>): (r: seq<T>)
    ensures |r| == |s|
  {
    if s == [] then [] else Insert(before, s[|s| - 1], Sorted(before, s[..|s| - 1]))
  }

  // The elements that tie with x, in order.
  function Class<T>(before: Before<T>, x: T, s: seq<T>): seq<T> {
    if s == [] then []
    else Class(before, x, s[..|s| - 1]) + if Ties(before, x, s[|s| - 1]) then [s[|s| - 1]] else []
  }

  predicate InOrder<T>(before: Before<T>, s: seq<T>) {
    forall i, j | 0 <= i < j < |s| :: !before(s[j], s[i])
  }

  lemma {:induction false} ClassOfLonger<T(!new)>(before: Before<T>, x: T, s: seq<T>, y: T)
    ensures Class(before, x, s + [y]) == Class(before, x, s) + if Ties(before, x, y) then [y] else []
  {
    assert (s + [y])[..|s|] == s;
  }

  lemma {:induction false} InsertKeepsMembers<T(!new)>(before: Before<T>, x: T, s: seq<T>)
    ensures multiset(Insert(before, x, s)) == multiset(s) + multiset{x}
  {
    if s != [] {
      InsertKeepsMembers(before, x, s[..|s| - 1]);
      assert s == s[..|s| - 1] + [s[|s| - 1]];
    }
  }

  lemma {:induction false} InsertKeepsOrder<T(!new)>(before: Before<T>, x: T, s: seq<T>)
    requires Orders(before) && InOrder(before, s)
    ensures InOrder(before, Insert(before, x, s))
  {
    if s != [] && before(x, s[|s| - 1]) {
      var init, last := s[..|s| - 1], s[|s| - 1];
      InsertKeepsOrder(before, x, init);
      InsertKeepsMembers(before, x, init);
      var r := Insert(before, x, init);
      forall i | 0 <= i < |r|
        ensures !before(last, r[i])
      {
        assert r[i] in multiset(r);
        assert r[i] == x || r[i] in multiset(init);
        if r[i] != x {
          var k :| 0 <= k < |init| && init[k] == r[i];
          assert s[k] == r[i];
        }
      }
    } else if s != [] {
      forall i | 0 <= i < |s|
        ensures !before(x, s[i])
      {
        assert i < |s| - 1 ==> !before(s[|s| - 1], s[i]);
      }
    }
  }

  lemma {:induction false} InsertIsStable<T(!new)>(before: Before<T>, x: T, s: seq<T>, y: T)
    requires Orders(before) && InOrder(before, s)
    ensures Class(before, y, Insert(before, x, s)) == Class(before, y, s) + if Ties(before, y, x) then [x] else []
  {
    ClassOfLonger(before, y, s, x);
    if s != [] && before(x, s[|s| - 1]) {
      var init, last := s[..|s| - 1], s[|s| - 1];
      InsertIsStable(before, x, init, y);
      ClassOfLonger(before, y, Insert(before, x, init), last);
      assert !(Ties(before, y, x) && Ties(before, y, last));
      var c := Class(before, y, init);
      assert (c + []) + [last] == (c + [last]) + [];
      assert (c + [x]) + [] == (c + []) + [x];
    }
  }

  /** The result is in order and keeps, for each element, those that tie with it as they stood. */
  lemma {:induction false} SortedIsStable<T(!new)>(before: Before<T>, s: seq<T>)
    requires Orders(before)
    ensures InOrder(before, Sorted(before, s))
    ensures multiset(Sorted(before, s)) == multiset(s)
    ensures forall x :: Class(before, x, Sorted(before, s)) == Class(before, x, s)
  {
    if s != [] {
      var init, last := s[..|s| - 1], s[|s| - 1];
      SortedIsStable(before, init);
      var r := Sorted(before, init);
      InsertKeepsOrder(before, last, r);
      InsertKeepsMembers(before, last, r);
      assert s == init + [last];
      forall x
        ensures Class(before, x, Insert(before, last, r)) == Class(before, x, s)
      {
        InsertIsStable(before, last, r, x);
      }
    }
  }
}
