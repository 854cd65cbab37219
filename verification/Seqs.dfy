/** Sequences, sums over maps and string order: the vocabulary of both controllers. */
module Seqs {

  datatype Option<+T> = None | Some(value: T)

  datatype Result<+T> = Ok(value: T) | Err

  function Min(a: int, b: int): int { if a < b then a else b }

  function Max(a: int, b: int): int { if a < b then b else a }

  /** The elements of s that satisfy keep, in their order. */
  function Filter<T>(s: seq<T>, keep: T -> bool): seq<T> {
    if s == [] then []
    else
      var rest := Filter(s[..|s| - 1], keep);
      if keep(s[|s| - 1]) then rest + [s[|s| - 1]] else rest
  }

  lemma FilterStep<T>(s: seq<T>, i: nat, keep: T -> bool)
    requires i < |s|
    ensures Filter(s[..i + 1], keep) == Filter(s[..i], keep) + if keep(s[i]) then [s[i]] else []
  {
    assert s[..i + 1][..i] == s[..i];
  }

  lemma {:induction false} FilterMembers<T(!new)>(s: seq<T>, keep: T -> bool)
    ensures forall x :: x in Filter(s, keep) <==> x in s && keep(x)
    ensures |Filter(s, keep)| <= |s|
  {
    if s != [] {
      FilterMembers(s[..|s| - 1], keep);
      assert s == s[..|s| - 1] + [s[|s| - 1]];
    }
  }

  /** A relation between earlier and later elements survives filtering. */
  lemma {:induction false} FilterKeepsOrder<T(!new)>(s: seq<T>, keep: T -> bool, related: (T, T) -> bool)
    requires forall i, j :: 0 <= i < j < |s| ==> related(s[i], s[j])
    ensures forall i, j :: 0 <= i < j < |Filter(s, keep)| ==> related(Filter(s, keep)[i], Filter(s, keep)[j])
  {
    if s != [] {
      var front := s[..|s| - 1];
      FilterKeepsOrder(front, keep, related);
      FilterMembers(front, keep);
      forall x | x in Filter(front, keep) ensures related(x, s[|s| - 1]) {
        assert x in front;
        var i :| 0 <= i < |front| && front[i] == x;
        assert related(s[i], s[|s| - 1]);
      }
      var kept := Filter(front, keep);
      forall i, j | 0 <= i < j < |Filter(s, keep)| ensures related(Filter(s, keep)[i], Filter(s, keep)[j]) {
        assert kept[i] in kept;
      }
    }
  }

  lemma {:induction false} FilterAll<T(!new)>(s: seq<T>, keep: T -> bool)
    requires forall x :: x in s ==> keep(x)
    ensures Filter(s, keep) == s
  {
    if s != [] {
      FilterAll(s[..|s| - 1], keep);
    }
  }

  lemma {:induction false} FilterNone<T(!new)>(s: seq<T>, keep: T -> bool)
    requires forall x :: x in s ==> !keep(x)
    ensures Filter(s, keep) == []
  {
    if s != [] {
      FilterNone(s[..|s| - 1], keep);
    }
  }

  lemma {:induction false} FilterConcat<T(!new)>(s: seq<T>, t: seq<T>, keep: T -> bool)
    ensures Filter(s + t, keep) == Filter(s, keep) + Filter(t, keep)
  {
    if t == [] {
      assert s + t == s;
    } else {
      var front := t[..|t| - 1];
      assert (s + t)[..|s + t| - 1] == s + front;
      FilterConcat(s, front, keep);
    }
  }

  lemma {:induction false} FilterCounts<T(!new)>(s: seq<T>, keep: T -> bool, x: T)
    ensures multiset(Filter(s, keep))[x] == if keep(x) then multiset(s)[x] else 0
  {
    if s != [] {
      FilterCounts(s[..|s| - 1], keep, x);
      assert s == s[..|s| - 1] + [s[|s| - 1]];
    }
  }

  /** Filtering splits a sequence into two parts and loses nothing. */
  lemma {:induction false} FilterSplits<T(!new)>(s: seq<T>, keep: T -> bool, drop: T -> bool)
    requires forall x :: x in s ==> drop(x) == !keep(x)
    ensures multiset(s) == multiset(Filter(s, keep)) + multiset(Filter(s, drop))
  {
    if s != [] {
      var front, last := s[..|s| - 1], s[|s| - 1];
      FilterSplits(front, keep, drop);
      assert s == front + [last];
      assert multiset(s) == multiset(front) + multiset{last};
    }
  }

  ghost predicate Distinct<T>(s: seq<T>) {
    forall i, j :: 0 <= i < j < |s| ==> s[i] != s[j]
  }

  /** order lists every element of keys exactly once. */
  ghost predicate Enumerates<T>(order: seq<T>, keys: set<T>) {
    && Distinct(order)
    && (forall i :: 0 <= i < |order| ==> order[i] in keys)
    && (forall x :: x in keys ==> x in order)
  }

  lemma {:induction false} DistinctSize<T>(s: seq<T>, keys: set<T>)
    requires Distinct(s) && forall x :: x in s ==> x in keys
    ensures |s| <= |keys|
    ensures |s| == |keys| ==> Enumerates(s, keys)
    ensures Enumerates(s, keys) ==> |s| == |keys|
    decreases |s|
  {
    if s == [] {
    } else {
      var x := s[|s| - 1];
      var front := s[..|s| - 1];
      assert s == front + [x];
      DistinctSize(front, keys - {x});
      assert keys == keys - {x} + {x};
      if Enumerates(s, keys) {
        assert Enumerates(front, keys - {x});
      }
    }
  }

  lemma {:induction false} DistinctMultiplicity<T>(s: seq<T>, x: T)
    requires Distinct(s)
    ensures multiset(s)[x] == if x in s then 1 else 0
  {
    if s != [] {
      DistinctMultiplicity(s[..|s| - 1], x);
      assert s == s[..|s| - 1] + [s[|s| - 1]];
    }
  }

  lemma {:induction false} SingleIsDistinct<T(!new)>(s: seq<T>)
    requires forall x :: multiset(s)[x] <= 1
    ensures Distinct(s)
  {
    if s != [] {
      var front, last := s[..|s| - 1], s[|s| - 1];
      assert s == front + [last];
      assert multiset(s) == multiset(front) + multiset{last};
      forall x ensures multiset(front)[x] <= 1 { assert multiset(front)[x] <= multiset(s)[x]; }
      assert multiset(s)[last] <= 1;
      assert last !in multiset(front);
      SingleIsDistinct(front);
    }
  }

  lemma PermutedIsDistinct<T(!new)>(s: seq<T>, t: seq<T>)
    requires Distinct(s) && multiset(s) == multiset(t)
    ensures Distinct(t)
  {
    forall x ensures multiset(t)[x] <= 1 { DistinctMultiplicity(s, x); }
    SingleIsDistinct(t);
  }

  lemma {:induction false} Subset<T>(a: set<T>, b: set<T>)
    requires a <= b
    ensures |a| <= |b|
  {
    assert b == a + (b - a);
  }

  function IndexOf<T(==)>(order: seq<T>, x: T): (i: nat)
    requires x in order
    ensures i < |order| && order[i] == x
  {
    if order[0] == x then 0 else 1 + IndexOf(order[1..], x)
  }

  /** The sum of the values of a map. */
  ghost function Sum<K>(m: map<K, int>): int
    decreases |m|
  {
    if m == map[] then 0
    else
      var k :| k in m;
      assert (m - {k}).Keys == m.Keys - {k};
      m[k] + Sum(m - {k})
  }

  lemma {:induction false} SumRemove<K>(m: map<K, int>, k: K)
    requires k in m
    ensures Sum(m) == m[k] + Sum(m - {k})
    decreases |m|
  {
    var pick :| pick in m && Sum(m) == m[pick] + Sum(m - {pick});
    if pick != k {
      assert (m - {pick}).Keys == m.Keys - {pick};
      SumRemove(m - {pick}, k);
      assert (m - {k}).Keys == m.Keys - {k};
      SumRemove(m - {k}, pick);
      assert m - {pick} - {k} == m - {k} - {pick};
    }
  }

  /** The sum can be taken along any enumeration of the keys. */
  ghost function SumAlong<K>(order: seq<K>, m: map<K, int>): int
    requires forall x :: x in order ==> x in m
  {
    if order == [] then 0 else SumAlong(order[..|order| - 1], m) + m[order[|order| - 1]]
  }

  lemma {:induction false} SumAlongKeys<K>(order: seq<K>, m: map<K, int>)
    requires Enumerates(order, m.Keys)
    ensures Sum(m) == SumAlong(order, m)
  {
    if order == [] {
      assert m.Keys == {};
      assert m == map[];
    } else {
      var front, last := order[..|order| - 1], order[|order| - 1];
      assert order == front + [last];
      SumRemove(m, last);
      assert (m - {last}).Keys == m.Keys - {last};
      SumAlongKeys(front, m - {last});
      SumAlongSame(front, m - {last}, m);
    }
  }

  lemma {:induction false} SumAlongSame<K>(order: seq<K>, m: map<K, int>, m': map<K, int>)
    requires forall x :: x in order ==> x in m && x in m' && m[x] == m'[x]
    ensures SumAlong(order, m) == SumAlong(order, m')
  {
    if order != [] {
      SumAlongSame(order[..|order| - 1], m, m');
    }
  }

  /** Byte-wise order of strings, the order of sort.Strings. */
  predicate Less(a: string, b: string) {
    if b == "" then false
    else if a == "" then true
    else if a[0] != b[0] then a[0] < b[0]
    else Less(a[1..], b[1..])
  }

  /** b goes on where a ends, or has the greater character where the two first differ. */
  ghost predicate Precedes(a: string, b: string) {
    || (|a| < |b| && a == b[..|a|])
    || exists k :: 0 <= k < |a| && k < |b| && a[..k] == b[..k] && a[k] < b[k]
  }

  lemma PrecedesNext(a: string, b: string)
    requires a != "" && b != "" && a[0] == b[0]
    ensures Precedes(a, b) <==> Precedes(a[1..], b[1..])
  {
    if Precedes(a, b) {
      if k :| 0 <= k < |a| && k < |b| && a[..k] == b[..k] && a[k] < b[k] {
        assert a[1..][..k - 1] == a[..k][1..] && b[1..][..k - 1] == b[..k][1..];
        assert a[1..][k - 1] < b[1..][k - 1];
      } else {
        assert b[1..][..|a| - 1] == b[..|a|][1..];
      }
    }
    if Precedes(a[1..], b[1..]) {
      if k :| 0 <= k < |a| - 1 && k < |b| - 1 && a[1..][..k] == b[1..][..k] && a[1..][k] < b[1..][k] {
        assert a[..k + 1] == [a[0]] + a[1..][..k] && b[..k + 1] == [b[0]] + b[1..][..k];
        assert a[k + 1] < b[k + 1];
      } else {
        assert a == [a[0]] + a[1..] && b[..|a|] == [b[0]] + b[1..][..|a| - 1];
      }
    }
  }

  /** The order is the lexical one. */
  lemma {:induction false} LessIsLexical(a: string, b: string)
    ensures Less(a, b) <==> Precedes(a, b)
  {
    if a != "" && b != "" {
      if a[0] == b[0] {
        PrecedesNext(a, b);
        LessIsLexical(a[1..], b[1..]);
      } else {
        assert a[..0] == b[..0] && (Less(a, b) ==> a[0] < b[0]);
        forall k | 0 < k < |a| && k < |b| ensures a[..k] != b[..k] {
          assert a[..k][0] != b[..k][0];
        }
        assert |a| < |b| ==> a[0] != b[..|a|][0];
      }
    }
  }

  lemma {:induction false} LessIsStrict(a: string, b: string)
    ensures !(Less(a, b) && Less(b, a))
    ensures a != b ==> Less(a, b) || Less(b, a)
    ensures Less(a, b) ==> a != b
  {
    if a != "" && b != "" && a[0] == b[0] {
      LessIsStrict(a[1..], b[1..]);
      assert a == [a[0]] + a[1..] && b == [b[0]] + b[1..];
    }
  }

  lemma {:induction false} LessIsTransitive(a: string, b: string, c: string)
    ensures !Less(b, a) && !Less(c, b) ==> !Less(c, a)
  {
    if a != "" && b != "" && c != "" && a[0] == b[0] == c[0] {
      LessIsTransitive(a[1..], b[1..], c[1..]);
    }
  }
}
