/** Python's built-in `sorted`, which the writer applies twice: a stable
    sort by a strict ordering `before` (an element goes after every element
    it is not strictly before, so elements that compare equal keep their
    order). Stability is what makes sorting by name and then by rank give
    rank order with ties broken by name. Also Python's string comparison,
    code point by code point. */
module Sorting {

  /** `before` compares by some key: it is asymmetric and any element
      falls after the smaller of an ordered pair or before the larger. */
  ghost predicate StrictWeakOrder<T(!new)>(before: (T, T) -> bool) {
    (forall a, b :: before(a, b) ==> !before(b, a)) &&
    (forall a, b, c :: before(a, b) ==> before(a, c) || before(c, b))
  }

  /** `a` may stand before `b` in a list sorted by `before` whose ties are
      ordered by `le`. */
  predicate LexPair<T>(before: (T, T) -> bool, le: (T, T) -> bool, a: T, b: T) {
    before(a, b) || (!before(b, a) && le(a, b))
  }

  predicate LexSorted<T>(s: seq<T>, before: (T, T) -> bool, le: (T, T) -> bool) {
    forall i, j :: 0 <= i < j < |s| ==> LexPair(before, le, s[i], s[j])
  }

  /** No element stands after one it is strictly before. */
  predicate SortedBy<T>(s: seq<T>, before: (T, T) -> bool) {
    forall i, j :: 0 <= i < j < |s| ==> !before(s[j], s[i])
  }

  /** Inserts `x` after the last element it is not strictly before. */
  function Insert<T>(s: seq<T>, x: T, before: (T, T) -> bool): (r: seq<T>)
    ensures |r| == |s| + 1
  {
    if s == [] || !before(x, s[|s| - 1]) then s + [x]
    else
      var init := s[..|s| - 1];
      assert s == init + [s[|s| - 1]];
      Insert(init, x, before) + [s[|s| - 1]]
  }

  /** `sorted(s, key=...)`: insertion sort taking the elements in order. */
  function SortBy<T>(s: seq<T>, before: (T, T) -> bool): (r: seq<T>)
    ensures |r| == |s|
  {
    if s == [] then []
    else
      var init := s[..|s| - 1];
      assert s == init + [s[|s| - 1]];
      Insert(SortBy(init, before), s[|s| - 1], before)
  }

  /** Inserting adds exactly the one element. */
  lemma {:induction false} InsertPermutes<T>(s: seq<T>, x: T, before: (T, T) -> bool)
    ensures multiset(Insert(s, x, before)) == multiset(s) + multiset{x}
  {
    if s != [] && before(x, s[|s| - 1]) {
      var init := s[..|s| - 1];
      assert s == init + [s[|s| - 1]];
      InsertPermutes(init, x, before);
    }
  }

  /** Sorting neither loses nor repeats an element. */
  lemma {:induction false} SortByPermutes<T>(s: seq<T>, before: (T, T) -> bool)
    ensures multiset(SortBy(s, before)) == multiset(s)
  {
    if s != [] {
      var init := s[..|s| - 1];
      assert s == init + [s[|s| - 1]];
      SortByPermutes(init, before);
      InsertPermutes(SortBy(init, before), s[|s| - 1], before);
    }
  }

  lemma {:induction false} InsertLexSorted<T(!new)>(s: seq<T>, x: T, before: (T, T) -> bool, le: (T, T) -> bool)
    requires StrictWeakOrder(before)
    requires LexSorted(s, before, le)
    requires forall y :: y in s ==> le(y, x)
    ensures LexSorted(Insert(s, x, before), before, le)
  {
    if s == [] {
    } else if !before(x, s[|s| - 1]) {
      var w := s[|s| - 1];
      var r := s + [x];
      forall i, j | 0 <= i < j < |r|
        ensures LexPair(before, le, r[i], r[j])
      {
        if j == |s| {
          var y := s[i];
          assert y in s;
          assert !before(x, y) by {
            if i < |s| - 1 {
              assert LexPair(before, le, y, w);
            }
          }
        }
      }
    } else {
      var init := s[..|s| - 1];
      var w := s[|s| - 1];
      assert forall y :: y in init ==> y in s;
      InsertLexSorted(init, x, before, le);
      InsertPermutes(init, x, before);
      var m := Insert(init, x, before);
      var r := m + [w];
      forall i, j | 0 <= i < j < |r|
        ensures LexPair(before, le, r[i], r[j])
      {
        if j == |m| {
          var z := m[i];
          assert z in multiset(m);
          if z != x {
            assert z in init;
            var k :| 0 <= k < |init| && init[k] == z;
            assert LexPair(before, le, s[k], s[|s| - 1]);
          }
        }
      }
    }
  }

  /** Sorting a list whose elements stand in `le` order gives a list
      ordered by `before`, with ties in `le` order: the sort is stable. */
  lemma {:induction false} SortByStable<T(!new)>(s: seq<T>, before: (T, T) -> bool, le: (T, T) -> bool)
    requires StrictWeakOrder(before)
    requires forall i, j :: 0 <= i < j < |s| ==> le(s[i], s[j])
    ensures LexSorted(SortBy(s, before), before, le)
  {
    if s != [] {
      var init := s[..|s| - 1];
      var x := s[|s| - 1];
      SortByStable(init, before, le);
      SortByPermutes(init, before);
      var sorted := SortBy(init, before);
      forall y | y in sorted
        ensures le(y, x)
      {
        assert y in multiset(init);
        var k :| 0 <= k < |init| && init[k] == y;
      }
      InsertLexSorted(sorted, x, before, le);
    }
  }

  /** The result of a sort is sorted. */
  lemma SortBySorted<T(!new)>(s: seq<T>, before: (T, T) -> bool)
    requires StrictWeakOrder(before)
    ensures SortedBy(SortBy(s, before), before)
  {
    var always := (a: T, b: T) => true;
    SortByStable(s, before, always);
    var r := SortBy(s, before);
    assert forall i, j :: 0 <= i < j < |r| ==> LexPair(before, always, r[i], r[j]);
  }

  // ---------------------------------------------------------------- strings

  /** Python's `<` on strings: code point by code point, a proper prefix first. */
  predicate StrLt(a: string, b: string) {
    if a == [] then b != []
    else if b == [] then false
    else if a[0] != b[0] then a[0] < b[0]
    else StrLt(a[1..], b[1..])
  }

  lemma {:induction false} StrLtAsymmetric(a: string, b: string)
    ensures StrLt(a, b) ==> !StrLt(b, a)
  {
    if a != [] && b != [] && a[0] == b[0] {
      StrLtAsymmetric(a[1..], b[1..]);
    }
  }

  lemma {:induction false} StrLtTotal(a: string, b: string)
    ensures a == b || StrLt(a, b) || StrLt(b, a)
  {
    if a != [] && b != [] && a[0] == b[0] {
      StrLtTotal(a[1..], b[1..]);
      if a[1..] == b[1..] {
        assert a == [a[0]] + a[1..] && b == [b[0]] + b[1..];
      }
    }
  }

  lemma {:induction false} StrLtTransitive(a: string, b: string, c: string)
    requires StrLt(a, b) && StrLt(b, c)
    ensures StrLt(a, c)
  {
    if a != [] && b != [] && c != [] && a[0] == b[0] && b[0] == c[0] {
      StrLtTransitive(a[1..], b[1..], c[1..]);
    }
  }

  /** Python's string `<` is a strict total order, so comparing records by
      a string key is a strict weak order. */
  lemma StrKeyOrder<T(!new)>(before: (T, T) -> bool, key: T -> string)
    requires forall a, b :: before(a, b) == StrLt(key(a), key(b))
    ensures StrictWeakOrder(before)
  {
    forall a: T, b: T
      ensures before(a, b) ==> !before(b, a)
    {
      StrLtAsymmetric(key(a), key(b));
    }
    forall a: T, b: T, c: T | before(a, b)
      ensures before(a, c) || before(c, b)
    {
      StrLtTotal(key(a), key(c));
      if StrLt(key(c), key(a)) {
        StrLtTransitive(key(c), key(a), key(b));
      }
    }
  }
}
