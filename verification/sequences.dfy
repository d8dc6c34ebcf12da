/** The array operations of the modelled code: `filter`, `find` and `slice`. */
module Sequences {
  import opened Wrappers
  import opened Numbers

  /** `s.filter(f)`: the elements satisfying `f`, in their original order. */
  function Filter<T>(s: seq<T>, f: T -> bool): (r: seq<T>)
    ensures |r| <= |s|
  {
    if |s| == 0 then []
    else (if f(s[0]) then [s[0]] else []) + Filter(s[1..], f)
  }

  /** `s.findIndex(f)`, with -1 as `None`: the first index whose element
      satisfies `f`. */
  function FindIndex<T>(s: seq<T>, f: T -> bool): (r: Option<nat>)
    ensures r.Some? ==> r.value < |s| && f(s[r.value])
    ensures r.Some? ==> forall j :: 0 <= j < r.value ==> !f(s[j])
    ensures r.None? ==> forall j :: 0 <= j < |s| ==> !f(s[j])
  {
    if |s| == 0 then None
    else if f(s[0]) then Some(0)
    else match FindIndex(s[1..], f)
      case None => None
      case Some(i) => Some(i + 1)
  }

  /** `FindIndex` finds the first index whose element satisfies `f`. */
  lemma FindIndexIs<T>(s: seq<T>, f: T -> bool, n: nat)
    requires n < |s| && f(s[n])
    requires forall j :: 0 <= j < n ==> !f(s[j])
    ensures FindIndex(s, f) == Some(n)
  {
  }

  /** How `slice` resolves an index: negative positions count back from the
      end, and both kinds are clamped to the array. */
  function RelativeIndex(i: int, len: nat): (r: nat)
    ensures r <= len
    ensures 0 <= i ==> r == Min(i, len)
    ensures i < 0 ==> r == Max(len + i, 0)
  {
    if i < 0 then (if len + i < 0 then 0 else len + i)
    else if i < len then i else len
  }

  /** `s.slice(start, end)`. */
  function Slice<T>(s: seq<T>, start: int, end: int): (r: seq<T>)
    ensures 0 <= start <= end ==> r == s[Min(start, |s|)..Min(end, |s|)]
    ensures RelativeIndex(end, |s|) <= RelativeIndex(start, |s|) ==> r == []
    ensures RelativeIndex(start, |s|) < RelativeIndex(end, |s|) ==>
              r == s[RelativeIndex(start, |s|)..RelativeIndex(end, |s|)]
    ensures |r| <= |s|
  {
    var lo := RelativeIndex(start, |s|);
    var hi := RelativeIndex(end, |s|);
    if hi <= lo then [] else s[lo..hi]
  }

  /** The filter keeps exactly the elements satisfying `f`. */
  lemma {:induction false} FilterMembers<T>(s: seq<T>, f: T -> bool)
    ensures forall i :: 0 <= i < |Filter(s, f)| ==> Filter(s, f)[i] in s && f(Filter(s, f)[i])
    ensures forall i :: 0 <= i < |s| && f(s[i]) ==> s[i] in Filter(s, f)
    decreases |s|
  {
    if |s| > 0 {
      FilterMembers(s[1..], f);
    }
  }

  /** Filtering by a predicate every element satisfies keeps everything. */
  lemma {:induction false} FilterAll<T>(s: seq<T>, f: T -> bool)
    requires forall i :: 0 <= i < |s| ==> f(s[i])
    ensures Filter(s, f) == s
    decreases |s|
  {
    if |s| > 0 {
      FilterAll(s[1..], f);
      assert s == [s[0]] + s[1..];
    }
  }

  /** Two filters in a row are one filter by the conjunction. */
  lemma {:induction false} FilterBoth<T>(s: seq<T>, f: T -> bool, g: T -> bool, h: T -> bool)
    requires forall x :: h(x) == (f(x) && g(x))
    ensures Filter(Filter(s, f), g) == Filter(s, h)
    decreases |s|
  {
    if |s| > 0 {
      FilterBoth(s[1..], f, g, h);
      var tail := Filter(s[1..], f);
      if f(s[0]) {
        assert Filter(s, f) == [s[0]] + tail;
        assert ([s[0]] + tail)[1..] == tail;
        assert Filter([s[0]] + tail, g) == (if g(s[0]) then [s[0]] else []) + Filter(tail, g);
      } else {
        assert Filter(s, f) == tail;
      }
      assert h(s[0]) == (f(s[0]) && g(s[0]));
    }
  }

  lemma {:induction false} FilterConcat<T>(a: seq<T>, b: seq<T>, f: T -> bool)
    ensures Filter(a + b, f) == Filter(a, f) + Filter(b, f)
    decreases |a|
  {
    if |a| > 0 {
      assert (a + b)[1..] == a[1..] + b;
      FilterConcat(a[1..], b, f);
    } else {
      assert a + b == b;
    }
  }

  /** A slice is always a contiguous window of the array. */
  lemma SliceIsWindow<T>(s: seq<T>, start: int, end: int)
    ensures exists lo, hi :: 0 <= lo <= hi <= |s| && Slice(s, start, end) == s[lo..hi]
  {
    var lo := RelativeIndex(start, |s|);
    var hi := RelativeIndex(end, |s|);
    if hi <= lo {
      assert Slice(s, start, end) == s[lo..lo];
    } else {
      assert Slice(s, start, end) == s[lo..hi];
    }
  }

  /** `items.map((x, i) => f(i, x))` where `f` may throw: the mapped array
      when no call throws, otherwise what the first throwing call throws. */
  function TryMap<A, T, E>(items: seq<A>, f: (nat, A) -> Result<T, E>): (r: Result<seq<T>, E>)
    ensures r.Ok? <==> forall i :: 0 <= i < |items| ==> f(i, items[i]).Ok?
    ensures r.Ok? ==> |r.value| == |items| && forall i :: 0 <= i < |items| ==> r.value[i] == f(i, items[i]).value
    ensures r.Err? ==> exists i :: && 0 <= i < |items| && f(i, items[i]).Err? && r.error == f(i, items[i]).error
                                   && forall j :: 0 <= j < i ==> f(j, items[j]).Ok?
  {
    TryMapFrom(items, f, 0)
  }

  function TryMapFrom<A, T, E>(items: seq<A>, f: (nat, A) -> Result<T, E>, k: nat): (r: Result<seq<T>, E>)
    requires k <= |items|
    ensures r.Ok? <==> forall i :: k <= i < |items| ==> f(i, items[i]).Ok?
    ensures r.Ok? ==> |r.value| == |items| - k && forall i :: k <= i < |items| ==> r.value[i - k] == f(i, items[i]).value
    ensures r.Err? ==> exists i :: && k <= i < |items| && f(i, items[i]).Err? && r.error == f(i, items[i]).error
                                   && forall j :: k <= j < i ==> f(j, items[j]).Ok?
    decreases |items| - k
  {
    if k == |items| then Ok([])
    else match f(k, items[k])
      case Err(e) => Err(e)
      case Ok(x) =>
        match TryMapFrom(items, f, k + 1)
        case Err(e) => Err(e)
        case Ok(rest) => Ok([x] + rest)
  }
}
