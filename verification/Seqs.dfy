/** The JavaScript array operations the screens use: `filter` and `slice`. */
module Seqs {

  /** `s.filter(p)`: the elements of `s` that satisfy `p`, in their original order. */
  function Filter<T>(p: T -> bool, s: seq<T>): (r: seq<T>)
    ensures |r| <= |s|
    ensures forall i :: 0 <= i < |r| ==> r[i] in s && p(r[i])
    ensures forall i :: 0 <= i < |s| && p(s[i]) ==> s[i] in r
    decreases |s|
  {
    if s == [] then [] else (if p(s[0]) then [s[0]] else []) + Filter(p, s[1..])
  }

  /** An element in front that the predicate keeps stays in front. */
  lemma FilterConsKept<T>(p: T -> bool, x: T, s: seq<T>)
    requires p(x)
    ensures Filter(p, [x] + s) == [x] + Filter(p, s)
  {
    assert ([x] + s)[0] == x;
    assert ([x] + s)[1..] == s;
  }

  /** An element in front that the predicate rejects is dropped. */
  lemma FilterConsDropped<T>(p: T -> bool, x: T, s: seq<T>)
    requires !p(x)
    ensures Filter(p, [x] + s) == Filter(p, s)
  {
    assert ([x] + s)[0] == x;
    assert ([x] + s)[1..] == s;
  }

  /**
   * Filtering distributes over concatenation: an element kept from the front
   * part stays in front of one kept from the back part, so the relative order
   * of the kept elements is the original order.
   */
  lemma {:induction false} FilterConcat<T>(p: T -> bool, a: seq<T>, b: seq<T>)
    ensures Filter(p, a + b) == Filter(p, a) + Filter(p, b)
    decreases |a|
  {
    if a == [] {
      assert a + b == b;
    } else {
      assert (a + b)[0] == a[0];
      assert (a + b)[1..] == a[1..] + b;
      FilterConcat(p, a[1..], b);
    }
  }

  /** A filter that rejects nothing returns its input unchanged. */
  lemma {:induction false} FilterKeepsAll<T>(p: T -> bool, s: seq<T>)
    requires forall i :: 0 <= i < |s| ==> p(s[i])
    ensures Filter(p, s) == s
    decreases |s|
  {
    if s != [] {
      FilterKeepsAll(p, s[1..]);
    }
  }

  /** Filtering twice by the same predicate is filtering once. */
  lemma FilterIdempotent<T>(p: T -> bool, s: seq<T>)
    ensures Filter(p, Filter(p, s)) == Filter(p, s)
  {
    FilterKeepsAll(p, Filter(p, s));
  }

  /**
   * The index `Array.prototype.slice` uses for a start or end argument:
   * a negative value counts back from the end, and the result is clamped to
   * the array's bounds.
   */
  function SliceIndex(k: int, len: nat): (r: nat)
    ensures r <= len
    ensures 0 <= k <= len ==> r == k
    ensures k > len ==> r == len
  {
    if k < 0 then (if len + k < 0 then 0 else len + k) else if k > len then len else k
  }

  /** `s.slice(start, end)`. */
  function JsSlice<T>(s: seq<T>, start: int, end: int): (r: seq<T>)
    ensures var a, b := SliceIndex(start, |s|), SliceIndex(end, |s|);
      && |r| == (if a < b then b - a else 0)
      && forall i :: 0 <= i < |r| ==> r[i] == s[a + i]
  {
    var a, b := SliceIndex(start, |s|), SliceIndex(end, |s|);
    if a < b then s[a..b] else []
  }

  /** `s.filter((_, index) => index !== i)`. */
  function RemoveAt<T>(s: seq<T>, i: int): (r: seq<T>)
    ensures |r| == if 0 <= i < |s| then |s| - 1 else |s|
    decreases |s|
  {
    if s == [] then [] else (if i == 0 then [] else [s[0]]) + RemoveAt(s[1..], i - 1)
  }

  /** An index that is not a position of `s` drops nothing. */
  lemma {:induction false} RemoveAtOutOfRange<T>(s: seq<T>, i: int)
    requires !(0 <= i < |s|)
    ensures RemoveAt(s, i) == s
    decreases |s|
  {
    if s != [] {
      RemoveAtOutOfRange(s[1..], i - 1);
      assert RemoveAt(s, i) == [s[0]] + s[1..];
    }
  }

  /** A position of `s` is cut out, the elements on either side kept in order. */
  lemma {:induction false} RemoveAtInRange<T>(s: seq<T>, i: int)
    requires 0 <= i < |s|
    ensures RemoveAt(s, i) == s[..i] + s[i + 1..]
    decreases |s|
  {
    var tail := s[1..];
    if i == 0 {
      RemoveAtOutOfRange(tail, -1);
      assert RemoveAt(s, i) == tail;
    } else {
      RemoveAtInRange(tail, i - 1);
      assert RemoveAt(s, i) == [s[0]] + (tail[..i - 1] + tail[i..]);
      assert tail[..i - 1] == s[1..i] && tail[i..] == s[i + 1..];
      assert [s[0]] + s[1..i] == s[..i];
    }
  }

  /**
   * Dropping by index removes exactly the element at position `i`, keeping the
   * others in order, and changes nothing when `i` is not a position of `s`.
   */
  lemma RemoveAtSplices<T>(s: seq<T>, i: int)
    ensures 0 <= i < |s| ==> RemoveAt(s, i) == s[..i] + s[i + 1..]
    ensures !(0 <= i < |s|) ==> RemoveAt(s, i) == s
  {
    if 0 <= i < |s| {
      RemoveAtInRange(s, i);
    } else {
      RemoveAtOutOfRange(s, i);
    }
  }
}
