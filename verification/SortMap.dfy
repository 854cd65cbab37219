/** SortMapByValue: a map as a list of pairs, lowest value first (pkg/utils/sort_map.go). */
module SortMap {
  import opened Seqs
  import opened Sorting

  datatype Pair = Pair(key: string, value: int)

  /** The comparison that remains after sort.Reverse turns Less around. */
  predicate Lower(a: Pair, b: Pair) {
    a.value < b.value
  }

  function Keys(pairs: seq<Pair>): seq<string> {
    seq(|pairs|, i requires 0 <= i < |pairs| => pairs[i].key)
  }

  /** Every key of m once, with values that never fall. */
  ghost predicate Ascending(order: seq<string>, m: map<string, int>) {
    && Enumerates(order, m.Keys)
    && forall i, j :: 0 <= i < j < |order| ==> m[order[i]] <= m[order[j]]
  }

  ghost predicate Lists(pairs: seq<Pair>, m: map<string, int>) {
    && |pairs| == |m|
    && (forall i :: 0 <= i < |pairs| ==> pairs[i].key in m && pairs[i].value == m[pairs[i].key])
    && Distinct(pairs)
  }

  lemma ListedKeys(pairs: seq<Pair>, m: map<string, int>)
    requires Lists(pairs, m)
    ensures Enumerates(Keys(pairs), m.Keys)
  {
    DistinctSize(Keys(pairs), m.Keys);
  }

  lemma SortKeepsList(filled: seq<Pair>, pairs: seq<Pair>, m: map<string, int>)
    requires Lists(filled, m) && pairs == Sort(filled, Lower)
    ensures Lists(pairs, m) && Ordered(pairs, Lower)
  {
    SortSorts(filled, Lower);
    PermutedIsDistinct(filled, pairs);
    forall j | 0 <= j < |pairs| ensures pairs[j].key in m && pairs[j].value == m[pairs[j].key] {
      assert pairs[j] in filled;
    }
  }

  method SortMapByValue(m: map<string, int>) returns (pairs: seq<Pair>)
    ensures Lists(pairs, m)
    ensures Ascending(Keys(pairs), m)
  {
    var a := new Pair[|m|];
    FillFromMap(a, m);
    ghost var filled := a[..];
    SortInPlace(a, Lower);
    pairs := a[..];
    SortKeepsList(filled, pairs, m);
    ListedKeys(pairs, m);
  }

  /** The order in which a map is read is up to the runtime: any key may come next. */
  method FillFromMap(a: array<Pair>, m: map<string, int>)
    requires a.Length == |m|
    modifies a
    ensures Lists(a[..], m)
  {
    var i, rest := 0, m.Keys;
    while rest != {}
      invariant rest <= m.Keys && i + |rest| == |m|
      invariant forall j :: 0 <= j < i ==> a[j].key in m && a[j].key !in rest && a[j].value == m[a[j].key]
      invariant forall j, k :: 0 <= j < k < i ==> a[j].key != a[k].key
      decreases rest
    {
      var k :| k in rest;
      assert |rest - {k}| == |rest| - 1;
      a[i] := Pair(k, m[k]);
      i, rest := i + 1, rest - {k};
    }
  }
}
