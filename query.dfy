/**
 * The queries the handlers run on an in-memory collection: `findById` (the
 * position of the document with a given id), `find(filter)` and
 * `sort({ updatedAt: -1 })`. The database's order among equal timestamps is
 * not specified; the model uses a stable insertion sort, and what is proved
 * is what every such ordering satisfies: sorted descending and a permutation.
 */
module Query {
  import opened Common

  /** The position of the first document whose id is `id`, if any. */
  function IndexOfId<T>(docs: seq<T>, id: string, idOf: T -> string): (r: Option<nat>)
    ensures r.Some? ==> r.value < |docs| && idOf(docs[r.value]) == id
    ensures r.None? ==> forall k :: 0 <= k < |docs| ==> idOf(docs[k]) != id
  {
    if docs == [] then None
    else if idOf(docs[0]) == id then Some(0)
    else match IndexOfId(docs[1..], id, idOf)
      case None => None
      case Some(k) => Some(k + 1)
  }

  ghost predicate UniqueIds<T>(docs: seq<T>, idOf: T -> string) {
    forall i, j :: 0 <= i < j < |docs| ==> idOf(docs[i]) != idOf(docs[j])
  }

  /** Membership after removing position i: every other document, and no document with the removed id. */
  lemma RemoveAtMembers<T(!new)>(docs: seq<T>, i: nat, idOf: T -> string)
    requires UniqueIds(docs, idOf) && i < |docs|
    ensures forall d :: d in docs[..i] + docs[i + 1..] <==> d in docs && idOf(d) != idOf(docs[i])
  {
    var docs' := docs[..i] + docs[i + 1..];
    forall d ensures d in docs' <==> d in docs && idOf(d) != idOf(docs[i]) {
      if d in docs' {
        var k :| 0 <= k < |docs'| && docs'[k] == d;
        if k < i { assert docs[k] == d; } else { assert docs[k + 1] == d; }
      }
      if d in docs && idOf(d) != idOf(docs[i]) {
        var k :| 0 <= k < |docs| && docs[k] == d;
        if k < i { assert docs'[k] == d; } else { assert k != i; assert docs'[k - 1] == d; }
      }
    }
  }

  /** Removing a position keeps the ids distinct. */
  lemma RemoveAtUnique<T>(docs: seq<T>, i: nat, idOf: T -> string)
    requires UniqueIds(docs, idOf) && i < |docs|
    ensures UniqueIds(docs[..i] + docs[i + 1..], idOf)
  {
    var docs' := docs[..i] + docs[i + 1..];
    forall a, b | 0 <= a < b < |docs'| ensures idOf(docs'[a]) != idOf(docs'[b]) {
      var a', b' := if a < i then a else a + 1, if b < i then b else b + 1;
      assert docs'[a] == docs[a'] && docs'[b] == docs[b'];
    }
  }

  /** Removing the document at position i of a collection with distinct ids removes that id and nothing else. */
  lemma RemoveAt<T(!new)>(docs: seq<T>, i: nat, idOf: T -> string)
    requires UniqueIds(docs, idOf) && i < |docs|
    ensures var docs' := docs[..i] + docs[i + 1..];
      |docs'| == |docs| - 1 && UniqueIds(docs', idOf)
      && forall d :: d in docs' <==> d in docs && idOf(d) != idOf(docs[i])
  {
    RemoveAtMembers(docs, i, idOf);
    RemoveAtUnique(docs, i, idOf);
  }

  ghost predicate SortedDesc<T>(s: seq<T>, key: T -> int) {
    forall i, j :: 0 <= i < j < |s| ==> key(s[i]) >= key(s[j])
  }

  /** Every element of a permutation of `s` plus `x` is bounded when `x` and all of `s` are. */
  lemma BoundedAfterInsert<T>(x: T, s: seq<T>, r: seq<T>, key: T -> int, top: int)
    requires multiset(r) == multiset(s) + multiset{x}
    requires key(x) <= top && forall k :: 0 <= k < |s| ==> key(s[k]) <= top
    ensures forall k :: 0 <= k < |r| ==> key(r[k]) <= top
  {
    forall k | 0 <= k < |r| ensures key(r[k]) <= top {
      assert r[k] in multiset(r);
      if r[k] != x {
        assert r[k] in multiset(s);
        var m :| 0 <= m < |s| && s[m] == r[k];
      }
    }
  }

  /** A head no smaller than every element of a sorted tail keeps the sequence sorted. */
  lemma SortedCons<T>(h: T, r: seq<T>, key: T -> int)
    requires SortedDesc(r, key) && forall k :: 0 <= k < |r| ==> key(r[k]) <= key(h)
    ensures SortedDesc([h] + r, key)
  {
    var t := [h] + r;
    forall i, j | 0 <= i < j < |t| ensures key(t[i]) >= key(t[j]) {
      assert t[j] == r[j - 1];
      if i > 0 {
        assert t[i] == r[i - 1];
      }
    }
  }

  /** Insert `x` in front of the first element whose key is not larger. */
  function Insert<T>(x: T, s: seq<T>, key: T -> int): (r: seq<T>)
    requires SortedDesc(s, key)
    ensures SortedDesc(r, key)
    ensures multiset(r) == multiset(s) + multiset{x}
    ensures |r| == |s| + 1
  {
    if s == [] || key(x) >= key(s[0]) then
      SortedCons(x, s, key);
      [x] + s
    else
      var rest := Insert(x, s[1..], key);
      assert s == [s[0]] + s[1..];
      BoundedAfterInsert(x, s[1..], rest, key, key(s[0]));
      SortedCons(s[0], rest, key);
      [s[0]] + rest
  }

  function SortDesc<T>(s: seq<T>, key: T -> int): (r: seq<T>)
    ensures SortedDesc(r, key)
    ensures multiset(r) == multiset(s)
    ensures |r| == |s|
  {
    if s == [] then []
    else
      assert s == [s[0]] + s[1..];
      Insert(s[0], SortDesc(s[1..], key), key)
  }

  /** The elements kept by a filter, in their original order. */
  function Filter<T(!new)>(s: seq<T>, keep: T -> bool): (r: seq<T>)
    ensures |r| <= |s|
    ensures forall k :: 0 <= k < |r| ==> keep(r[k])
    ensures forall x :: x in s && keep(x) <==> x in r
    ensures forall x :: keep(x) ==> multiset(r)[x] == multiset(s)[x]
  {
    if s == [] then []
    else
      assert s == [s[0]] + s[1..];
      if keep(s[0]) then [s[0]] + Filter(s[1..], keep) else Filter(s[1..], keep)
  }

  /** The kept documents, sorted: exactly the kept ones, each as often as before, in descending key order. */
  lemma SortedFilter<T(!new)>(docs: seq<T>, keep: T -> bool, key: T -> int)
    ensures var r := SortDesc(Filter(docs, keep), key);
      && (forall k :: 0 <= k < |r| ==> keep(r[k]))
      && (forall d :: d in docs && keep(d) <==> d in r)
      && (forall d :: keep(d) ==> multiset(r)[d] == multiset(docs)[d])
      && SortedDesc(r, key)
  {
    var f := Filter(docs, keep);
    var r := SortDesc(f, key);
    forall k | 0 <= k < |r| ensures keep(r[k]) {
      assert r[k] in multiset(f);
    }
    forall d ensures d in docs && keep(d) <==> d in r {
      assert d in r <==> d in multiset(f);
    }
  }
}
