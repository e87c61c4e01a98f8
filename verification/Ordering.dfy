/** ORDER BY on two columns: sorting by a (time, identifier) key. */
module Ordering {

  type Key = (int, int)

  /** SQL's row comparison (a, b) < (c, d). */
  predicate Before(a: Key, b: Key) {
    a.0 < b.0 || (a.0 == b.0 && a.1 < b.1)
  }

  ghost predicate Ascending<T>(s: seq<T>, key: T -> Key) {
    forall i, j :: 0 <= i < j < |s| ==> Before(key(s[i]), key(s[j]))
  }

  ghost predicate DistinctKeys<T>(s: seq<T>, key: T -> Key) {
    forall i, j :: 0 <= i < j < |s| ==> key(s[i]) != key(s[j])
  }

  function Insert<T>(s: seq<T>, x: T, key: T -> Key): seq<T> {
    if s == [] || Before(key(x), key(s[0])) then [x] + s else [s[0]] + Insert(s[1..], x, key)
  }

  function SortBy<T>(s: seq<T>, key: T -> Key): seq<T> {
    if s == [] then [] else Insert(SortBy(s[..|s| - 1], key), s[|s| - 1], key)
  }

  function Take<T>(s: seq<T>, n: nat): seq<T> {
    if n < |s| then s[..n] else s
  }

  lemma {:induction false} InsertAdds<T>(s: seq<T>, x: T, key: T -> Key)
    ensures multiset(Insert(s, x, key)) == multiset(s) + multiset{x}
  {
    if s != [] {
      assert s == [s[0]] + s[1..];
      InsertAdds(s[1..], x, key);
    }
  }

  lemma {:induction false} InsertKeepsOrder<T>(s: seq<T>, x: T, key: T -> Key)
    requires Ascending(s, key) && forall i :: 0 <= i < |s| ==> key(s[i]) != key(x)
    ensures Ascending(Insert(s, x, key), key)
  {
    if s != [] && !Before(key(x), key(s[0])) {
      var rest := Insert(s[1..], x, key);
      InsertKeepsOrder(s[1..], x, key);
      InsertAdds(s[1..], x, key);
      forall i | 0 <= i < |rest|
        ensures Before(key(s[0]), key(rest[i]))
      {
        assert rest[i] in multiset(rest);
        assert rest[i] == x || rest[i] in s[1..];
      }
    }
  }

  /** Sorting by a key that is unique gives the same elements in strictly ascending order. */
  lemma {:induction false} SortBySorts<T>(s: seq<T>, key: T -> Key)
    requires DistinctKeys(s, key)
    ensures Ascending(SortBy(s, key), key) && multiset(SortBy(s, key)) == multiset(s)
  {
    if s != [] {
      var m := |s| - 1;
      SortBySorts(s[..m], key);
      assert s == s[..m] + [s[m]];
      var rest := SortBy(s[..m], key);
      forall i | 0 <= i < |rest|
        ensures key(rest[i]) != key(s[m])
      {
        assert rest[i] in multiset(rest);
      }
      InsertKeepsOrder(rest, s[m], key);
      InsertAdds(rest, s[m], key);
    }
  }

  lemma SortHasSame<T>(s: seq<T>, key: T -> Key, x: T)
    requires DistinctKeys(s, key)
    ensures x in SortBy(s, key) <==> x in s
    ensures |SortBy(s, key)| == |s|
  {
    SortBySorts(s, key);
    assert x in SortBy(s, key) <==> x in multiset(SortBy(s, key));
    assert |multiset(SortBy(s, key))| == |multiset(s)|;
  }

  lemma Inhabited<T>(s: seq<T>)
    ensures s == [] || exists x :: x in s
  {
    if s != [] {
      assert s[0] in s;
    }
  }

  /** Two strictly ascending sequences with the same elements are the same sequence. */
  lemma {:induction false} AscendingIsUnique<T>(s: seq<T>, t: seq<T>, key: T -> Key)
    requires Ascending(s, key) && Ascending(t, key) && forall x :: x in s <==> x in t
    ensures s == t
  {
    if s == [] {
      Inhabited(t);
    } else {
      assert s[0] in t && t != [];
      assert t[0] in s;
      assert s[0] == t[0];
      forall x
        ensures x in s[1..] <==> x in t[1..]
      {
        assert x in s[1..] <==> x in s && x != s[0];
        assert x in t[1..] <==> x in t && x != t[0];
      }
      AscendingIsUnique(s[1..], t[1..], key);
      assert s == [s[0]] + s[1..] && t == [t[0]] + t[1..];
    }
  }
}
