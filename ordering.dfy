/** The order SQLite's BINARY collation and Python's str comparison put strings in: character by
    character, a proper prefix first; and the sorted, duplicate-free lists an ORDER BY over
    DISTINCT values produces. */
module Ordering {

  predicate LexLess(a: string, b: string)
  {
    b != [] && (a == [] || a[0] < b[0] || (a[0] == b[0] && LexLess(a[1..], b[1..])))
  }

  lemma {:induction false} LexLessIrreflexive(a: string)
    ensures !LexLess(a, a)
  {
    if a != [] {
      LexLessIrreflexive(a[1..]);
    }
  }

  lemma {:induction false} LexLessTransitive(a: string, b: string, c: string)
    requires LexLess(a, b) && LexLess(b, c)
    ensures LexLess(a, c)
  {
    if a != [] && a[0] == b[0] && b[0] == c[0] {
      LexLessTransitive(a[1..], b[1..], c[1..]);
    }
  }

  /** Any two different strings are ordered one way or the other. */
  lemma {:induction false} LexLessTotal(a: string, b: string)
    requires a != b
    ensures LexLess(a, b) || LexLess(b, a)
  {
    if a != [] && b != [] && a[0] == b[0] {
      assert a == [a[0]] + a[1..] && b == [b[0]] + b[1..];
      LexLessTotal(a[1..], b[1..]);
    }
  }

  predicate StrictlySorted(xs: seq<string>)
  {
    forall i, j :: 0 <= i < j < |xs| ==> LexLess(xs[i], xs[j])
  }

  function Elems(xs: seq<string>): set<string>
  {
    set x | x in xs
  }

  /** A sorted list with x put in its place, unless it is already there. */
  function InsertSorted(xs: seq<string>, x: string): seq<string>
  {
    if xs == [] then [x]
    else if x == xs[0] then xs
    else if LexLess(x, xs[0]) then [x] + xs
    else [xs[0]] + InsertSorted(xs[1..], x)
  }

  lemma ElemsCons(a: string, xs: seq<string>)
    ensures Elems([a] + xs) == {a} + Elems(xs)
  {
    assert forall y :: y in [a] + xs <==> y == a || y in xs;
  }

  /** Inserting adds exactly the one element. */
  lemma {:induction false} InsertSortedElems(xs: seq<string>, x: string)
    ensures Elems(InsertSorted(xs, x)) == Elems(xs) + {x}
  {
    if xs == [] {
    } else if x == xs[0] {
    } else if LexLess(x, xs[0]) {
      ElemsCons(x, xs);
    } else {
      InsertSortedElems(xs[1..], x);
      ElemsCons(xs[0], InsertSorted(xs[1..], x));
      ElemsCons(xs[0], xs[1..]);
      assert xs == [xs[0]] + xs[1..];
    }
  }

  /** Inserting keeps a list sorted. */
  lemma {:induction false} InsertSortedKeepsOrder(xs: seq<string>, x: string)
    requires StrictlySorted(xs)
    ensures StrictlySorted(InsertSorted(xs, x))
  {
    if xs == [] {
    } else if x == xs[0] {
    } else if LexLess(x, xs[0]) {
      var r := [x] + xs;
      forall i, j | 0 <= i < j < |r|
        ensures LexLess(r[i], r[j])
      {
        if i == 0 && j > 1 {
          LexLessTransitive(x, xs[0], xs[j - 1]);
        }
      }
    } else {
      LexLessTotal(x, xs[0]);
      InsertSortedKeepsOrder(xs[1..], x);
      InsertSortedElems(xs[1..], x);
      var tail := InsertSorted(xs[1..], x);
      var r := [xs[0]] + tail;
      forall j | 0 <= j < |tail|
        ensures LexLess(xs[0], tail[j])
      {
        assert tail[j] in Elems(tail);
        if tail[j] != x {
          assert tail[j] in Elems(xs[1..]);
          var k :| 0 <= k < |xs[1..]| && xs[1..][k] == tail[j];
          assert xs[k + 1] == tail[j];
        }
      }
      forall i, j | 0 <= i < j < |r|
        ensures LexLess(r[i], r[j])
      {
        if i > 0 {
          assert r[i] == tail[i - 1] && r[j] == tail[j - 1];
        }
      }
    }
  }
}
