/**
 * Array.prototype.sort as the leaderboards of bot.js use it. Every
 * comparator there sorts in descending order of a key of one or two numbers
 * (level then XP, XP alone, minutes survived): the comparator is negative
 * exactly when the first argument's key is lexicographically larger. The
 * engine's stable in-place sort is modelled as a stable insertion sort on
 * sequences: elements with equal keys keep the order they had.
 */
module Sorting {

  /** A descending sort key: the major number first, the minor one breaks ties. */
  datatype SortKey = SortKey(major: real, minor: real)

  /** a must come before b: its key is lexicographically larger. */
  predicate Ahead(a: SortKey, b: SortKey) {
    a.major > b.major || (a.major == b.major && a.minor > b.minor)
  }

  /** No element is followed by one that must come before it. */
  ghost predicate SortedBy<T>(s: seq<T>, key: T -> SortKey) {
    forall i, j :: 0 <= i < j < |s| ==> !Ahead(key(s[j]), key(s[i]))
  }

  /**
   * Insert x, which came later than every element of s, after all the
   * elements it does not have to precede.
   */
  function Insert<T>(x: T, s: seq<T>, key: T -> SortKey): (r: seq<T>)
    ensures multiset(r) == multiset(s) + multiset{x}
    ensures |r| == |s| + 1
  {
    if s == [] then [x]
    else if Ahead(key(x), key(s[0])) then [x] + s
    else
      assert s == [s[0]] + s[1..];
      [s[0]] + Insert(x, s[1..], key)
  }

  /** Stable insertion sort: each element in turn is inserted into the sorted prefix. */
  function Sort<T>(s: seq<T>, key: T -> SortKey): (r: seq<T>)
    ensures multiset(r) == multiset(s)
    ensures |r| == |s|
  {
    if s == [] then []
    else
      assert s == s[..|s| - 1] + [s[|s| - 1]];
      Insert(s[|s| - 1], Sort(s[..|s| - 1], key), key)
  }

  /** Inserting into a sorted sequence keeps it sorted. */
  lemma {:induction false} InsertSorted<T>(x: T, s: seq<T>, key: T -> SortKey)
    requires SortedBy(s, key)
    ensures SortedBy(Insert(x, s, key), key)
  {
    if s == [] {
    } else if Ahead(key(x), key(s[0])) {
      var r := [x] + s;
      forall i, j | 0 <= i < j < |r|
        ensures !Ahead(key(r[j]), key(r[i]))
      {
        if i == 0 && j > 1 {
          assert !Ahead(key(s[j - 1]), key(s[0]));
        }
      }
    } else {
      var tail := Insert(x, s[1..], key);
      InsertSorted(x, s[1..], key);
      var r := [s[0]] + tail;
      forall i, j | 0 <= i < j < |r|
        ensures !Ahead(key(r[j]), key(r[i]))
      {
        if i == 0 {
          var y := tail[j - 1];
          assert y in multiset(tail);
          if y != x {
            assert y in multiset(s[1..]);
            var k :| 0 <= k < |s[1..]| && s[1..][k] == y;
            assert !Ahead(key(s[k + 1]), key(s[0]));
          }
        }
      }
    }
  }

  /** Sort sorts. */
  lemma {:induction false} SortSorted<T>(s: seq<T>, key: T -> SortKey)
    ensures SortedBy(Sort(s, key), key)
  {
    if s != [] {
      SortSorted(s[..|s| - 1], key);
      InsertSorted(s[|s| - 1], Sort(s[..|s| - 1], key), key);
    }
  }

  /** The elements of s whose key is k, in their order in s. */
  function WithKey<T>(s: seq<T>, key: T -> SortKey, k: SortKey): (r: seq<T>)
    ensures |r| <= |s|
  {
    if s == [] then []
    else (if key(s[0]) == k then [s[0]] else []) + WithKey(s[1..], key, k)
  }

  /** Filtering distributes over concatenation. */
  lemma {:induction false} WithKeyAppend<T>(a: seq<T>, b: seq<T>, key: T -> SortKey, k: SortKey)
    ensures WithKey(a + b, key, k) == WithKey(a, key, k) + WithKey(b, key, k)
  {
    if a == [] {
      assert a + b == b;
    } else {
      var head := if key(a[0]) == k then [a[0]] else [];
      assert (a + b)[0] == a[0] && (a + b)[1..] == a[1..] + b;
      WithKeyAppend(a[1..], b, key, k);
      calc {
        WithKey(a + b, key, k);
        head + WithKey(a[1..] + b, key, k);
        head + (WithKey(a[1..], key, k) + WithKey(b, key, k));
        (head + WithKey(a[1..], key, k)) + WithKey(b, key, k);
      }
    }
  }

  /** Inserting x appends it to the elements sharing its key and leaves every other key's elements alone. */
  lemma {:induction false} InsertStable<T>(x: T, s: seq<T>, key: T -> SortKey, k: SortKey)
    requires SortedBy(s, key)
    ensures WithKey(Insert(x, s, key), key, k) == WithKey(s, key, k) + WithKey([x], key, k)
  {
    assert [x][1..] == [];
    if s == [] {
      assert Insert(x, s, key) == [x];
    } else if Ahead(key(x), key(s[0])) {
      assert Insert(x, s, key) == [x] + s;
      WithKeyAppend([x], s, key, k);
      if key(x) == k {
        NoneWithKey(s, key, k);
      }
    } else {
      var tail := Insert(x, s[1..], key);
      assert Insert(x, s, key) == [s[0]] + tail;
      SortedTail(s, key);
      InsertStable(x, s[1..], key, k);
      WithKeyAppend([s[0]], tail, key, k);
      assert s == [s[0]] + s[1..];
      WithKeyAppend([s[0]], s[1..], key, k);
    }
  }

  /** What follows the head of a sorted sequence is sorted. */
  lemma SortedTail<T>(s: seq<T>, key: T -> SortKey)
    requires SortedBy(s, key) && s != []
    ensures SortedBy(s[1..], key)
  {
    forall i, j | 0 <= i < j < |s[1..]| ensures !Ahead(key(s[1..][j]), key(s[1..][i])) {
      assert s[1..][j] == s[j + 1] && s[1..][i] == s[i + 1];
    }
  }

  /** A key strictly ahead of the head of a sorted sequence occurs nowhere in it. */
  lemma {:induction false} NoneWithKey<T>(s: seq<T>, key: T -> SortKey, k: SortKey)
    requires SortedBy(s, key)
    requires s != [] && Ahead(k, key(s[0]))
    ensures WithKey(s, key, k) == []
  {
    if |s| > 1 {
      assert !Ahead(key(s[1]), key(s[0]));
      SortedTail(s, key);
      NoneWithKey(s[1..], key, k);
    }
  }

  /** Sort is stable: the elements sharing any one key keep their original order. */
  lemma {:induction false} SortStable<T>(s: seq<T>, key: T -> SortKey, k: SortKey)
    ensures WithKey(Sort(s, key), key, k) == WithKey(s, key, k)
  {
    if s != [] {
      var init, last := s[..|s| - 1], s[|s| - 1];
      SortStable(init, key, k);
      SortSorted(init, key);
      InsertStable(last, Sort(init, key), key, k);
      assert s == init + [last];
      WithKeyAppend(init, [last], key, k);
    }
  }

  /** The first n elements, or all of them when there are fewer: slice(0, n). */
  function Take<T>(s: seq<T>, n: nat): (r: seq<T>)
    ensures |r| == if |s| < n then |s| else n
    ensures r == s[..|r|]
  {
    if |s| < n then s else s[..n]
  }
}
