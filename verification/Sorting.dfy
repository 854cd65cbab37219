/**
 * In-place sorting by a "must come before" comparison, as the callers of Go's sort package use it, specified by a
 * function on sequences.
 */
module Sorting {

  /** Places x in s, after every element it need not precede. */
  function Insert<T>(s: seq<T>, x: T, before: (T, T) -> bool): seq<T> {
    if s == [] || !before(x, s[|s| - 1]) then s + [x]
    else Insert(s[..|s| - 1], x, before) + [s[|s| - 1]]
  }

  function Sort<T>(s: seq<T>, before: (T, T) -> bool): seq<T> {
    if s == [] then [] else Insert(Sort(s[..|s| - 1], before), s[|s| - 1], before)
  }

  /** No element must come before an earlier one. */
  ghost predicate Ordered<T>(s: seq<T>, before: (T, T) -> bool) {
    forall i, j :: 0 <= i < j < |s| ==> !before(s[j], s[i])
  }

  ghost predicate WeakOrder<T(!new)>(before: (T, T) -> bool) {
    && (forall x, y :: before(x, y) ==> !before(y, x))
    && (forall x, y, z :: !before(y, x) && !before(z, y) ==> !before(z, x))
  }

  lemma {:induction false} InsertSorts<T(!new)>(s: seq<T>, x: T, before: (T, T) -> bool)
    requires WeakOrder(before) && Ordered(s, before)
    ensures multiset(Insert(s, x, before)) == multiset(s) + multiset{x}
    ensures Ordered(Insert(s, x, before), before)
  {
    if s == [] || !before(x, s[|s| - 1]) {
    } else {
      var front, last := s[..|s| - 1], s[|s| - 1];
      assert s == front + [last];
      InsertSorts(front, x, before);
      var r := Insert(front, x, before);
      forall y | y in r ensures !before(last, y) {
        assert y in multiset(r);
        assert y in front || y == x;
      }
    }
  }

  /** Sorting permutes its input into order. */
  lemma {:induction false} SortSorts<T(!new)>(s: seq<T>, before: (T, T) -> bool)
    requires WeakOrder(before)
    ensures multiset(Sort(s, before)) == multiset(s)
    ensures |Sort(s, before)| == |s|
    ensures Ordered(Sort(s, before), before)
    ensures forall x :: x in Sort(s, before) <==> x in s
  {
    if s != [] {
      var front := s[..|s| - 1];
      assert s == front + [s[|s| - 1]];
      SortSorts(front, before);
      InsertSorts(Sort(front, before), s[|s| - 1], before);
    }
    assert |multiset(Sort(s, before))| == |multiset(s)|;
    forall x ensures x in Sort(s, before) <==> x in s {
      assert x in Sort(s, before) <==> x in multiset(Sort(s, before));
      assert x in s <==> x in multiset(s);
    }
  }

  lemma SameHead<T>(s: seq<T>, t: seq<T>, before: (T, T) -> bool)
    requires s != [] && t != [] && s[0] in t && t[0] in s
    requires Ordered(s, before) && Ordered(t, before)
    requires forall x, y :: x in s && y in s && x != y ==> before(x, y) || before(y, x)
    ensures s[0] == t[0]
  {
    var i :| 0 <= i < |t| && t[i] == s[0];
    var j :| 0 <= j < |s| && s[j] == t[0];
    assert i > 0 ==> !before(t[i], t[0]);
    assert j > 0 ==> !before(s[j], s[0]);
    assert s[0] in s && t[0] in s;
  }

  lemma SameTail<T>(s: seq<T>, t: seq<T>)
    requires s != [] && t != [] && s[0] == t[0] && multiset(s) == multiset(t)
    ensures multiset(s[1..]) == multiset(t[1..])
  {
    assert s == [s[0]] + s[1..] && t == [t[0]] + t[1..];
    assert multiset(s[1..]) == multiset(s) - multiset{s[0]};
  }

  /** Two orderly arrangements of the same elements are the same when no two of them tie. */
  lemma {:induction false} OrderIsUnique<T>(s: seq<T>, t: seq<T>, before: (T, T) -> bool)
    requires multiset(s) == multiset(t)
    requires Ordered(s, before) && Ordered(t, before)
    requires forall x, y :: x in s && y in s && x != y ==> before(x, y) || before(y, x)
    ensures s == t
  {
    assert |s| == |multiset(s)| == |multiset(t)| == |t|;
    if s != [] {
      assert s[0] in multiset(t) && t[0] in multiset(s);
      SameHead(s, t, before);
      SameTail(s, t);
      OrderIsUnique(s[1..], t[1..], before);
      assert s == [s[0]] + s[1..] && t == [t[0]] + t[1..];
    }
  }

  lemma InsertBelow<T>(front: seq<T>, last: T, x: T, tail: seq<T>, before: (T, T) -> bool)
    requires before(x, last)
    ensures Insert(front + [last], x, before) + tail == Insert(front, x, before) + ([last] + tail)
  {
    assert (front + [last])[..|front|] == front;
  }

  /** One pass of the sort: moves a[i] down into the ordered part below it. */
  method SiftDown<T>(a: array<T>, i: nat, before: (T, T) -> bool)
    requires i < a.Length
    modifies a
    ensures a[..i + 1] == Insert(old(a[..i]), old(a[i]), before)
    ensures a[i + 1..] == old(a[i + 1..])
  {
    ghost var x := a[i];
    ghost var goal := Insert(a[..i], x, before);
    var j := i;
    while j > 0 && before(a[j], a[j - 1])
      invariant 0 <= j <= i
      invariant a[j] == x
      invariant Insert(a[..j], x, before) + a[j + 1..i + 1] == goal
      invariant a[i + 1..] == old(a[i + 1..])
    {
      ghost var front, last, tail := a[..j - 1], a[j - 1], a[j + 1..i + 1];
      assert a[..j] == front + [last];
      InsertBelow(front, last, x, tail, before);
      a[j], a[j - 1] := a[j - 1], a[j];
      assert a[..j - 1] == front && a[j..i + 1] == [last] + tail;
      j := j - 1;
    }
    assert a[..i + 1] == a[..j] + [x] + a[j + 1..i + 1];
  }

  method SortInPlace<T>(a: array<T>, before: (T, T) -> bool)
    modifies a
    ensures a[..] == Sort(old(a[..]), before)
  {
    ghost var s := a[..];
    var i := 0;
    while i < a.Length
      invariant 0 <= i <= a.Length
      invariant a[..i] == Sort(s[..i], before)
      invariant a[i..] == s[i..]
    {
      assert s[..i + 1][..i] == s[..i];
      assert a[i] == a[i..][0] == s[i];
      SiftDown(a, i, before);
      assert a[i + 1..] == s[i..][1..];
      i := i + 1;
    }
    assert a[..] == a[..i];
    assert s[..i] == s;
  }
}
