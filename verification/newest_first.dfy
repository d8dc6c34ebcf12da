/** The stable sort `Array.prototype.sort` performs with a comparator
    `(a, b) => key(b) - key(a)`: descending by key, elements with equal keys
    left in their original relative order. */
module NewestFirst {

  ghost predicate Descending<T>(s: seq<T>, key: T -> int) {
    forall i, j :: 0 <= i < j < |s| ==> key(s[i]) >= key(s[j])
  }

  /** The elements of `s` whose key is `k`, in their order in `s`. */
  function KeyClass<T>(s: seq<T>, key: T -> int, k: int): seq<T>
    decreases |s|
  {
    if |s| == 0 then []
    else (if key(s[0]) == k then [s[0]] else []) + KeyClass(s[1..], key, k)
  }

  /** Places `x` in front of the first element whose key does not exceed its
      own. */
  function Insert<T>(x: T, t: seq<T>, key: T -> int): (r: seq<T>)
    ensures |r| == |t| + 1
    ensures multiset(r) == multiset(t) + multiset{x}
    decreases |t|
  {
    if |t| == 0 || key(x) >= key(t[0]) then [x] + t
    else
      assert t == [t[0]] + t[1..];
      [t[0]] + Insert(x, t[1..], key)
  }

  lemma {:induction false} InsertDescending<T>(x: T, t: seq<T>, key: T -> int)
    requires Descending(t, key)
    ensures Descending(Insert(x, t, key), key)
    decreases |t|
  {
    if |t| > 0 && key(x) < key(t[0]) {
      var rest := Insert(x, t[1..], key);
      InsertDescending(x, t[1..], key);
      forall j | 0 <= j < |rest|
        ensures key(t[0]) >= key(rest[j])
      {
        assert rest[j] in multiset(rest);
        if rest[j] != x {
          assert rest[j] in multiset(t[1..]);
          var i :| 0 <= i < |t[1..]| && t[1..][i] == rest[j];
          assert t[i + 1] == rest[j];
        }
      }
      assert Insert(x, t, key) == [t[0]] + rest;
    }
  }

  function Sort<T>(s: seq<T>, key: T -> int): (r: seq<T>)
    ensures |r| == |s|
    ensures multiset(r) == multiset(s)
    ensures Descending(r, key)
    decreases |s|
  {
    if |s| == 0 then []
    else
      assert s == [s[0]] + s[1..];
      var sorted := Sort(s[1..], key);
      InsertDescending(s[0], sorted, key);
      Insert(s[0], sorted, key)
  }

  /** Inserting into a descending sequence puts `x` ahead of every element
      with the same key. */
  lemma {:induction false} InsertKeyClass<T>(x: T, t: seq<T>, key: T -> int, k: int)
    requires Descending(t, key)
    ensures KeyClass(Insert(x, t, key), key, k) == (if key(x) == k then [x] else []) + KeyClass(t, key, k)
    decreases |t|
  {
    if |t| == 0 || key(x) >= key(t[0]) {
      assert ([x] + t)[1..] == t;
    } else {
      var rest := Insert(x, t[1..], key);
      assert Descending(t[1..], key) by {
        assert forall i :: 0 <= i < |t[1..]| ==> t[1..][i] == t[i + 1];
      }
      InsertKeyClass(x, t[1..], key, k);
      var tail := KeyClass(t[1..], key, k);
      assert ([t[0]] + rest)[0] == t[0] && ([t[0]] + rest)[1..] == rest;
      assert KeyClass(t, key, k) == (if key(t[0]) == k then [t[0]] else []) + tail;
      if key(t[0]) == k {
        assert key(x) != k;
        assert KeyClass([t[0]] + rest, key, k) == [t[0]] + tail;
      } else {
        assert KeyClass([t[0]] + rest, key, k) == KeyClass(rest, key, k);
      }
    }
  }

  /** The sort is stable: each class of equal keys keeps its order. */
  lemma {:induction false} SortIsStable<T>(s: seq<T>, key: T -> int, k: int)
    ensures KeyClass(Sort(s, key), key, k) == KeyClass(s, key, k)
    decreases |s|
  {
    if |s| > 0 {
      SortIsStable(s[1..], key, k);
      InsertKeyClass(s[0], Sort(s[1..], key), key, k);
    }
  }

  /** A contiguous window of a descending sequence is descending. */
  lemma WindowDescending<T>(s: seq<T>, key: T -> int, lo: nat, hi: nat)
    requires lo <= hi <= |s|
    requires Descending(s, key)
    ensures Descending(s[lo..hi], key)
  {
    forall i, j | 0 <= i < j < hi - lo
      ensures key(s[lo..hi][i]) >= key(s[lo..hi][j])
    {
      assert s[lo..hi][i] == s[lo + i] && s[lo..hi][j] == s[lo + j];
    }
  }

  /** Sorting neither invents nor loses elements. */
  lemma SortMembers<T>(s: seq<T>, key: T -> int, i: nat)
    requires i < |Sort(s, key)|
    ensures Sort(s, key)[i] in s
  {
    var r := Sort(s, key);
    assert r[i] in multiset(r);
  }
}
