// Depth-bounded sample series of the console: every acquisition iteration
// appends one value to a series and then keeps only `xs[-sample_depth:]`,
// Python's suffix slice.  The sample depth is whatever integer the user typed,
// so the slice is modelled for every integer, not only for positive depths.
module SampleSeries {

  function Min(a: int, b: int): (r: int)
    ensures r <= a && r <= b && (r == a || r == b)
  {
    if a <= b then a else b
  }

  /** Python's `s[-d:]`: the start index -d is normalised the way CPython
      normalises a slice start for a positive step. */
  function PySuffix<T>(s: seq<T>, d: int): (r: seq<T>)
    // a positive depth keeps the newest min(|s|, d) entries, in order
    ensures d > 0 ==> |r| == Min(|s|, d) && r == s[|s| - |r|..]
    // `s[-0:]` is `s[0:]`: the whole sequence
    ensures d == 0 ==> r == s
    // a negative depth is a positive start: the first |d| entries go
    ensures d < 0 ==> r == s[Min(-d, |s|)..]
  {
    var start := -d;
    var lo := if start < 0 then
                (if start + |s| < 0 then 0 else start + |s|)
              else if start > |s| then |s| else start;
    s[lo..]
  }

  /** One iteration on one series: `xs.append(x)` followed by `xs = xs[-d:]`. */
  function AppendEvict<T>(xs: seq<T>, x: T, d: int): (r: seq<T>)
    // with a positive depth the newest sample is last and the length is capped
    ensures d >= 1 ==> 1 <= |r| <= d && r[|r| - 1] == x
    // below the cap the series grows by exactly the new sample
    ensures d >= 1 && |xs| < d ==> r == xs + [x]
    // at or above the cap the oldest entries are evicted first
    ensures d >= 1 && |xs| >= d ==> r == xs[|xs| - d + 1..] + [x]
    // depth 0 never evicts
    ensures d == 0 ==> r == xs + [x]
    // a negative depth drops the |d| oldest entries of the extended series
    ensures d < 0 ==> r == (xs + [x])[Min(-d, |xs| + 1)..]
  {
    var r := PySuffix(xs + [x], d);
    assert d >= 1 && |xs| >= d ==> (xs + [x])[|xs| + 1 - d..] == xs[|xs| - d + 1..] + [x];
    r
  }

  /** The series a loop holds after appending every element of `xs`, in order,
      to a series that the loop cleared before its first iteration. */
  function Fill<T>(xs: seq<T>, d: int): (r: seq<T>)
    ensures |r| <= |xs|
    ensures d >= 1 ==> |r| == Min(|xs|, d)
  {
    if xs == [] then [] else AppendEvict(Fill(xs[..|xs| - 1], d), xs[|xs| - 1], d)
  }

  /** Appending one more sample to a filled series is one more iteration. */
  lemma FillSnoc<T>(xs: seq<T>, x: T, d: int)
    ensures Fill(xs + [x], d) == AppendEvict(Fill(xs, d), x, d)
  {
    assert (xs + [x])[..|xs|] == xs;
  }

  /** With a positive depth a series holds exactly the last min(n, d) of the
      n samples appended since it was cleared, oldest first. */
  lemma {:induction false} FillKeepsNewest<T>(xs: seq<T>, d: int)
    requires d >= 1
    ensures Fill(xs, d) == xs[|xs| - Min(|xs|, d)..]
  {
    if xs != [] {
      var p, x := xs[..|xs| - 1], xs[|xs| - 1];
      FillKeepsNewest(p, d);
      var kept := p[|p| - Min(|p|, d)..];
      assert Fill(xs, d) == AppendEvict(kept, x, d);
      AppendToNewest(xs, d);
    }
  }

  /** The inductive step of FillKeepsNewest: appending the last sample to the
      newest entries of the earlier samples gives the newest entries of all. */
  lemma AppendToNewest<T>(xs: seq<T>, d: int)
    requires d >= 1 && xs != []
    ensures var p := xs[..|xs| - 1];
            AppendEvict(p[|p| - Min(|p|, d)..], xs[|xs| - 1], d) == xs[|xs| - Min(|xs|, d)..]
  {
    var p, x := xs[..|xs| - 1], xs[|xs| - 1];
    assert xs == p + [x];
    if |p| < d {
      assert p[|p| - Min(|p|, d)..] == p;
      assert AppendEvict(p, x, d) == xs;
      assert xs[|xs| - Min(|xs|, d)..] == xs;
    } else {
      var kept := p[|p| - d..];
      assert |kept| == d;
      assert AppendEvict(kept, x, d) == kept[1..] + [x];
      assert kept[1..] == p[|p| - d + 1..];
      assert p[|p| - d + 1..] + [x] == xs[|xs| - d..];
    }
  }

  /** A depth of 0 never evicts: the series keeps every sample of the run. */
  lemma {:induction false} FillDepthZeroKeepsAll<T>(xs: seq<T>)
    ensures Fill(xs, 0) == xs
  {
    if xs != [] {
      var p, x := xs[..|xs| - 1], xs[|xs| - 1];
      FillDepthZeroKeepsAll(p);
      assert Fill(xs, 0) == AppendEvict(p, x, 0) == p + [x];
      assert p + [x] == xs;
    }
  }

  /** A negative depth evicts everything: a cleared series stays empty. */
  lemma {:induction false} FillNegativeDepthKeepsNone<T>(xs: seq<T>, d: int)
    requires d < 0
    ensures Fill(xs, d) == []
  {
    if xs != [] {
      FillNegativeDepthKeepsNone(xs[..|xs| - 1], d);
    }
  }

  /** The length of a filled series depends only on how many samples were
      appended, so parallel series fed once per iteration stay equally long. */
  lemma {:induction false} FillLengthsAgree<T, U>(xs: seq<T>, ys: seq<U>, d: int)
    requires |xs| == |ys|
    ensures |Fill(xs, d)| == |Fill(ys, d)|
  {
    if d >= 1 {
    } else if d == 0 {
      FillDepthZeroKeepsAll(xs);
      FillDepthZeroKeepsAll(ys);
    } else {
      FillNegativeDepthKeepsNone(xs, d);
      FillNegativeDepthKeepsNone(ys, d);
    }
  }

  /** The same fact for one iteration: equal lengths before, equal after. */
  lemma AppendEvictLengthsAgree<T, U>(xs: seq<T>, x: T, ys: seq<U>, y: U, d: int)
    requires |xs| == |ys|
    ensures |AppendEvict(xs, x, d)| == |AppendEvict(ys, y, d)|
  {
  }
}
