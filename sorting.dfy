/**
 * A stable insertion sort by an integer key, standing for the database's ORDER BY on a timestamp
 * (ascending, or descending through a negated key).
 */
module Sorting {

  ghost predicate SortedBy<T>(s: seq<T>, key: T -> int) {
    forall i, j :: 0 <= i < j < |s| ==> key(s[i]) <= key(s[j])
  }

  /** Inserts x before the first element whose key is not smaller than x's. */
  function InsertBy<T>(x: T, s: seq<T>, key: T -> int): (r: seq<T>)
    requires SortedBy(s, key)
    ensures SortedBy(r, key)
    ensures multiset(r) == multiset(s) + multiset{x}
    ensures forall k :: 0 <= k < |r| ==> key(x) <= key(r[k]) || (s != [] && key(s[0]) <= key(r[k]))
  {
    if s == [] then [x]
    else if key(x) <= key(s[0]) then [x] + s
    else
      var rest := InsertBy(x, s[1..], key);
      assert s == [s[0]] + s[1..];
      assert forall k :: 0 <= k < |rest| ==> key(s[0]) <= key(rest[k]);
      ConsSorted(s[0], rest, key);
      [s[0]] + rest
  }

  /** A sorted sequence stays sorted under a head whose key bounds every element. */
  lemma ConsSorted<T>(h: T, t: seq<T>, key: T -> int)
    requires SortedBy(t, key)
    requires forall k :: 0 <= k < |t| ==> key(h) <= key(t[k])
    ensures SortedBy([h] + t, key)
  {
    var r := [h] + t;
    forall i, j | 0 <= i < j < |r| ensures key(r[i]) <= key(r[j]) {
      assert r[j] == t[j - 1];
      if i > 0 {
        assert r[i] == t[i - 1];
      }
    }
  }

  function SortBy<T>(s: seq<T>, key: T -> int): (r: seq<T>)
    ensures SortedBy(r, key)
    ensures multiset(r) == multiset(s)
  {
    if s == [] then []
    else
      assert s == [s[0]] + s[1..];
      InsertBy(s[0], SortBy(s[1..], key), key)
  }

  /** Page number `page` of `size` elements: elements page*size up to page*size + size, clipped at the end. */
  function Page<T>(s: seq<T>, page: nat, size: nat): (r: seq<T>)
    requires size >= 1
    ensures |r| <= size
    ensures page * size >= |s| ==> r == []
    ensures page * size < |s| ==> |r| == (if page * size + size <= |s| then size else |s| - page * size)
    ensures forall i :: 0 <= i < |r| ==> page * size + i < |s| && r[i] == s[page * size + i]
    ensures forall x :: x in r ==> x in s
  {
    var lo := page * size;
    if lo >= |s| then []
    else
      var hi := if lo + size <= |s| then lo + size else |s|;
      s[lo..hi]
  }

  /** Every element lands on exactly the page its position determines. */
  lemma {:induction false} OnItsPage<T>(s: seq<T>, k: nat, size: nat)
    requires size >= 1 && k < |s|
    ensures var p := k / size; k - p * size < |Page(s, p, size)| && Page(s, p, size)[k - p * size] == s[k]
  {
    var p := k / size;
    assert p * size <= k < p * size + size;
  }

  /** A page of a sorted sequence is sorted. */
  lemma PageOfSorted<T>(s: seq<T>, page: nat, size: nat, key: T -> int)
    requires size >= 1 && SortedBy(s, key)
    ensures SortedBy(Page(s, page, size), key)
  {
    var r := Page(s, page, size);
    if page * size < |s| {
      forall i, j | 0 <= i < j < |r| ensures key(r[i]) <= key(r[j]) {
        assert r[i] == s[page * size + i] && r[j] == s[page * size + j];
      }
    }
  }

  /** Sorting keeps exactly the same elements. */
  lemma SortByMembers<T>(s: seq<T>, key: T -> int)
    ensures forall x :: x in SortBy(s, key) <==> x in s
  {
    var r := SortBy(s, key);
    assert forall x :: x in r <==> x in multiset(r);
    assert forall x :: x in s <==> x in multiset(s);
  }
}
