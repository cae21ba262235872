/** `Array.prototype.sort` with a numeric comparator `(a, b) => key(a) - key(b)`.
    The ECMAScript sort is stable, and a stable sort by an integer key has exactly
    one possible result; `SortBy` computes it by insertion, and `StableSortUnique`
    shows that any sorted arrangement that keeps the relative order of equal keys
    is that result. */
module StableSort {

  /** Keys never decrease from left to right. */
  predicate SortedBy<T>(s: seq<T>, key: T -> int) {
    forall i, j :: 0 <= i < j < |s| ==> key(s[i]) <= key(s[j])
  }

  /** The elements of `s` whose key is `k`, in their order in `s`. */
  function KeyClass<T>(s: seq<T>, key: T -> int, k: int): seq<T>
  {
    if s == [] then [] else (if key(s[0]) == k then [s[0]] else []) + KeyClass(s[1..], key, k)
  }

  /** Places `x` in front of the first element whose key is at least `key(x)`. */
  function Insert<T>(x: T, s: seq<T>, key: T -> int): (r: seq<T>)
    ensures multiset(r) == multiset(s) + multiset{x}
    ensures |r| == |s| + 1
  {
    if s == [] || key(x) <= key(s[0]) then [x] + s
    else
      assert s == [s[0]] + s[1..];
      [s[0]] + Insert(x, s[1..], key)
  }

  /** The stable sort of `s` by `key`. */
  function SortBy<T>(s: seq<T>, key: T -> int): (r: seq<T>)
    ensures |r| == |s|
    ensures multiset(r) == multiset(s)
  {
    if s == [] then []
    else
      assert s == [s[0]] + s[1..];
      Insert(s[0], SortBy(s[1..], key), key)
  }

  lemma {:induction false} InsertSorted<T>(x: T, s: seq<T>, key: T -> int)
    requires SortedBy(s, key)
    ensures SortedBy(Insert(x, s, key), key)
  {
    if s != [] && key(x) > key(s[0]) {
      var t := Insert(x, s[1..], key);
      InsertSorted(x, s[1..], key);
      forall j | 0 <= j < |t| ensures key(s[0]) <= key(t[j]) {
        assert t[j] in multiset(t);
        assert t[j] == x || t[j] in multiset(s[1..]);
        if t[j] != x {
          var m :| 1 <= m < |s| && s[m] == t[j] by {
            assert t[j] in s[1..];
          }
        }
      }
      assert Insert(x, s, key) == [s[0]] + t;
    }
  }

  /** Insertion only passes over elements with a strictly smaller key, so the
      elements of each key keep their order. */
  lemma {:induction false} InsertKeyClass<T>(x: T, s: seq<T>, key: T -> int, k: int)
    ensures KeyClass(Insert(x, s, key), key, k) == KeyClass([x] + s, key, k)
  {
    if s != [] && key(x) > key(s[0]) {
      InsertKeyClass(x, s[1..], key, k);
      assert ([s[0]] + Insert(x, s[1..], key))[1..] == Insert(x, s[1..], key);
      assert ([x] + s)[1..] == s;
      assert ([x] + s[1..])[1..] == s[1..];
    }
  }

  lemma {:induction false} SortBySorted<T>(s: seq<T>, key: T -> int)
    ensures SortedBy(SortBy(s, key), key)
  {
    if s != [] {
      SortBySorted(s[1..], key);
      InsertSorted(s[0], SortBy(s[1..], key), key);
    }
  }

  /** Stability: among elements with equal keys the input order survives. */
  lemma {:induction false} SortByStable<T>(s: seq<T>, key: T -> int, k: int)
    ensures KeyClass(SortBy(s, key), key, k) == KeyClass(s, key, k)
  {
    if s != [] {
      var r := SortBy(s[1..], key);
      SortByStable(s[1..], key, k);
      InsertKeyClass(s[0], r, key, k);
      assert ([s[0]] + r)[1..] == r;
    }
  }

  /** Sorting an already sorted sequence changes nothing. */
  lemma {:induction false} SortByOfSorted<T>(s: seq<T>, key: T -> int)
    requires SortedBy(s, key)
    ensures SortBy(s, key) == s
  {
    if s != [] {
      SortByOfSorted(s[1..], key);
      assert SortBy(s, key) == Insert(s[0], s[1..], key);
      if |s| > 1 {
        assert key(s[0]) <= key(s[1]);
      }
    }
  }

  lemma {:induction false} KeyClassHead<T>(s: seq<T>, key: T -> int)
    requires s != []
    ensures KeyClass(s, key, key(s[0])) != [] && KeyClass(s, key, key(s[0]))[0] == s[0]
  {
  }

  lemma {:induction false} KeyClassMember<T>(s: seq<T>, key: T -> int, k: int)
    requires KeyClass(s, key, k) != []
    ensures exists i :: 0 <= i < |s| && key(s[i]) == k
  {
    if key(s[0]) != k {
      KeyClassMember(s[1..], key, k);
      var i :| 0 <= i < |s[1..]| && key(s[1..][i]) == k;
      assert key(s[i + 1]) == k;
    }
  }

  lemma {:induction false} KeyClassTail<T>(s: seq<T>, key: T -> int, k: int)
    requires s != []
    ensures key(s[0]) == k ==> KeyClass(s[1..], key, k) == KeyClass(s, key, k)[1..]
    ensures key(s[0]) != k ==> KeyClass(s[1..], key, k) == KeyClass(s, key, k)
  {
  }

  /** In a sorted sequence the first key is the least. */
  lemma SortedHeadLeast<T>(t: seq<T>, key: T -> int, k: int)
    requires SortedBy(t, key) && KeyClass(t, key, k) != []
    ensures key(t[0]) <= k
  {
    KeyClassMember(t, key, k);
    var i :| 0 <= i < |t| && key(t[i]) == k;
    if i > 0 {
      assert key(t[0]) <= key(t[i]);
    }
  }

  /** Two sorted sequences whose elements of every key appear in the same order
      are equal. */
  lemma {:induction false} SortedClassesEqual<T>(t: seq<T>, u: seq<T>, key: T -> int)
    requires SortedBy(t, key) && SortedBy(u, key)
    requires forall k :: KeyClass(t, key, k) == KeyClass(u, key, k)
    ensures t == u
    decreases |t|
  {
    if t == [] {
      if u != [] {
        KeyClassHead(u, key);
      }
    } else if u == [] {
      KeyClassHead(t, key);
    } else {
      var k := key(t[0]);
      var k2 := key(u[0]);
      KeyClassHead(t, key);
      KeyClassHead(u, key);
      assert KeyClass(u, key, k) == KeyClass(t, key, k);
      assert KeyClass(t, key, k2) == KeyClass(u, key, k2);
      SortedHeadLeast(u, key, k);
      SortedHeadLeast(t, key, k2);
      assert t[0] == KeyClass(t, key, k)[0] == u[0];
      assert SortedBy(t[1..], key) && SortedBy(u[1..], key);
      forall k' ensures KeyClass(t[1..], key, k') == KeyClass(u[1..], key, k') {
        KeyClassTail(t, key, k');
        KeyClassTail(u, key, k');
        assert KeyClass(t, key, k') == KeyClass(u, key, k');
      }
      SortedClassesEqual(t[1..], u[1..], key);
      assert t == [t[0]] + t[1..] && u == [u[0]] + u[1..];
    }
  }

  /** The stable sort is unique: any sorted rearrangement of `s` that keeps the
      order of equal keys is `SortBy(s, key)`. */
  lemma StableSortUnique<T>(s: seq<T>, t: seq<T>, key: T -> int)
    requires SortedBy(t, key)
    requires forall k :: KeyClass(t, key, k) == KeyClass(s, key, k)
    ensures t == SortBy(s, key)
  {
    SortBySorted(s, key);
    forall k ensures KeyClass(t, key, k) == KeyClass(SortBy(s, key), key, k) {
      SortByStable(s, key, k);
    }
    SortedClassesEqual(t, SortBy(s, key), key);
  }
}
