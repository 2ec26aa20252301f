/** `Array.prototype.slice` as JavaScript defines it, and the bounded
    first-in-first-out buffer built from `push` and `shift` that both
    telemetry buffers use. */
module Slices {

  function Min(a: int, b: int): int {
    if a <= b then a else b
  }

  /** How `slice` reads an index: a negative one counts from the end, and the
      result is clamped to `[0, n]`. */
  function RelIndex(i: int, n: nat): (r: nat)
    ensures r <= n
    ensures 0 <= i ==> r == Min(i, n)
    ensures i < 0 ==> r == if n + i < 0 then 0 else n + i
  {
    if i < 0 then (if n + i < 0 then 0 else n + i) else if i > n then n else i
  }

  /** `s.slice(start)`: from `start` on, or the last `-start` elements for
      a negative `start`. */
  function SliceFrom<T>(s: seq<T>, start: int): (r: seq<T>)
    ensures 0 <= start ==> r == s[Min(start, |s|)..]
    ensures start < 0 ==> r == LastN(s, -start)
  {
    s[RelIndex(start, |s|)..]
  }

  /** `s.slice(start, end)`: the elements from the position `start` reads as
      up to, not including, the position `end` reads as; empty when that
      range is empty. */
  function Slice<T>(s: seq<T>, start: int, end: int): (r: seq<T>)
    ensures var a, b := RelIndex(start, |s|), RelIndex(end, |s|);
      |r| == (if a < b then b - a else 0) &&
      forall k :: 0 <= k < |r| ==> r[k] == s[a + k]
    ensures 0 <= start <= end <= |s| ==> r == s[start..end]
    ensures end >= |s| ==> r == SliceFrom(s, start)
  {
    var a, b := RelIndex(start, |s|), RelIndex(end, |s|);
    if a < b then s[a..b] else []
  }

  /** The last `n` elements of `s` (all of them when there are fewer). */
  function LastN<T>(s: seq<T>, n: nat): (r: seq<T>)
    ensures |r| == Min(n, |s|)
  {
    s[|s| - Min(n, |s|)..]
  }

  /** `slice(-limit)`: for a positive limit, the last `limit` entries; for a
      limit of 0 the index `-0` is `0`, so the whole sequence; for a negative
      limit, everything but the first `-limit` entries. */
  lemma SliceFromMinusLimit<T>(s: seq<T>, limit: int)
    ensures limit >= 1 ==> SliceFrom(s, -limit) == LastN(s, limit)
    ensures limit == 0 ==> SliceFrom(s, -limit) == s
    ensures limit < 0 ==> SliceFrom(s, -limit) == s[Min(-limit, |s|)..]
  {
  }

  /** `push(x)` followed by one `shift()` when the length went over `cap`. */
  function PushBounded<T>(s: seq<T>, x: T, cap: nat): (r: seq<T>)
    requires 1 <= cap && |s| <= cap
    ensures 0 < |r| <= cap
    ensures r[|r| - 1] == x
  {
    var t := s + [x];
    if |t| > cap then t[1..] else t
  }

  /** The FIFO law: a bounded buffer holding the last `cap` entries of a
      history holds, after one more push, the last `cap` entries of the
      extended history. */
  lemma {:induction false} PushBoundedKeepsLast<T>(h: seq<T>, x: T, cap: nat)
    requires 1 <= cap
    ensures PushBounded(LastN(h, cap), x, cap) == LastN(h + [x], cap)
  {
    var s := LastN(h, cap);
    var t := s + [x];
    var h' := h + [x];
    if |h| < cap {
      assert s == h;
      assert LastN(h', cap) == h';
    } else {
      assert |t| == cap + 1;
      assert PushBounded(s, x, cap) == t[1..];
      assert LastN(h', cap) == h'[|h'| - cap..];
      assert t[1..] == h'[|h'| - cap..];
    }
  }

  /** `s.filter(p)`: the elements satisfying `p`, in their order. */
  function Filter<T>(s: seq<T>, p: T -> bool): (r: seq<T>)
    ensures |r| <= |s|
    ensures forall k :: 0 <= k < |r| ==> p(r[k])
    ensures forall k :: 0 <= k < |r| ==> r[k] in s
    ensures forall k :: 0 <= k < |s| && p(s[k]) ==> s[k] in r
  {
    if s == [] then []
    else Filter(s[..|s| - 1], p) + (if p(s[|s| - 1]) then [s[|s| - 1]] else [])
  }

  /** Filtering distributes over concatenation, so it keeps arrival order. */
  lemma {:induction false} FilterAppend<T>(a: seq<T>, b: seq<T>, p: T -> bool)
    ensures Filter(a + b, p) == Filter(a, p) + Filter(b, p)
  {
    if b == [] {
      assert a + b == a;
    } else {
      var b' := b[..|b| - 1];
      assert (a + b)[..|a + b| - 1] == a + b';
      assert (a + b)[|a + b| - 1] == b[|b| - 1];
      FilterAppend(a, b', p);
    }
  }

  /** Keeping the last `m` of the last `n` is keeping the last `m`. */
  lemma LastNOfLastN<T>(s: seq<T>, n: nat, m: nat)
    requires m <= n
    ensures LastN(LastN(s, n), m) == LastN(s, m)
  {
    var t := LastN(s, n);
    assert t == s[|s| - Min(n, |s|)..];
    assert LastN(t, m) == s[|s| - Min(m, |s|)..];
  }

  /** The last `n` entries of a history end with its latest entries. */
  lemma LastNEnds<T>(h: seq<T>, tail: seq<T>, n: nat)
    requires |tail| <= n
    ensures |LastN(h + tail, n)| >= |tail|
    ensures var r := LastN(h + tail, n); r[|r| - |tail|..] == tail
  {
    var r := LastN(h + tail, n);
    assert r == (h + tail)[|h + tail| - Min(n, |h + tail|)..];
    assert r[|r| - |tail|..] == (h + tail)[|h|..];
  }
}
