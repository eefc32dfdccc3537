/**
 `logPointRuns`: the coalescing of an ordered point map into ranges of
 consecutive indices with one description.
 */
module PointRuns {
  import opened Measurements

  /** One logged line: `[first]` or `[first..last]`, and the description. */
  datatype PointRun<D> = PointRun(first: uint16, last: uint16, desc: D)

  /** The iteration order of a `std::map`. */
  predicate Ascending<P>(points: seq<(uint16, P)>) {
    forall i, j :: 0 <= i < j < |points| ==> points[i].0 < points[j].0
  }

  function Described<P, D>(points: seq<(uint16, P)>, describe: P -> D): (ds: seq<(uint16, D)>)
    ensures |ds| == |points|
  {
    seq(|points|, i requires 0 <= i < |points| => (points[i].0, describe(points[i].1)))
  }

  predicate Proper<D>(rs: seq<PointRun<D>>) {
    forall i :: 0 <= i < |rs| ==> rs[i].first <= rs[i].last
  }

  function ExpandRun<D>(r: PointRun<D>): (ds: seq<(uint16, D)>)
    requires r.first <= r.last
    ensures |ds| == (r.last - r.first) as int + 1
  {
    seq((r.last - r.first) as int + 1,
        k requires 0 <= k <= (r.last - r.first) as int => ((r.first as int + k) as uint16, r.desc))
  }

  /** The point map a list of runs stands for. */
  function Expand<D>(rs: seq<PointRun<D>>): seq<(uint16, D)>
    requires Proper(rs)
  {
    if rs == [] then [] else Expand(rs[..|rs| - 1]) + ExpandRun(rs[|rs| - 1])
  }

  /** y continues the run that x is in. The sum is an int: 65535 has no successor. */
  predicate Continues<D(==)>(x: (uint16, D), y: (uint16, D)) {
    y.0 as int == x.0 as int + 1 && y.1 == x.1
  }

  predicate Mergeable<D(==)>(r: PointRun<D>, s: PointRun<D>) {
    s.first as int == r.last as int + 1 && s.desc == r.desc
  }

  /** Runs are disjoint, increasing, and no neighbours could be merged. */
  predicate Maximal<D(==)>(rs: seq<PointRun<D>>) {
    forall i, j :: 0 <= i && j == i + 1 < |rs| ==> rs[i].last < rs[j].first && !Mergeable(rs[i], rs[j])
  }

  /** The runs stand for exactly ds, and are maximal. */
  ghost predicate Lossless<D>(rs: seq<PointRun<D>>, ds: seq<(uint16, D)>) {
    Proper(rs) && Expand(rs) == ds && Maximal(rs)
  }

  /** The open run grows by one index. */
  lemma ExtendLast<D>(rs: seq<PointRun<D>>, r: PointRun<D>, all: seq<(uint16, D)>, n: nat)
    requires n < |all| && r.first <= r.last && Lossless(rs + [r], all[..n])
    requires Continues((r.last, r.desc), all[n])
    ensures Lossless(rs + [r.(last := all[n].0)], all[..n + 1])
  {
    var grown := r.(last := all[n].0);
    assert ExpandRun(grown) == ExpandRun(r) + [all[n]];
    assert (rs + [r])[..|rs|] == rs && (rs + [grown])[..|rs|] == rs;
    assert all[..n + 1] == all[..n] + [all[n]];
    assert Maximal(rs + [grown]) by {
      forall i, j | 0 <= i && j == i + 1 < |rs| + 1
        ensures (rs + [grown])[i].last < (rs + [grown])[j].first && !Mergeable((rs + [grown])[i], (rs + [grown])[j])
      {
        assert (rs + [r])[i].last < (rs + [r])[j].first && !Mergeable((rs + [r])[i], (rs + [r])[j]);
      }
    }
  }

  /** A new run opens with one index that does not continue the last one. */
  lemma OpenNext<D>(rs: seq<PointRun<D>>, r: PointRun<D>, all: seq<(uint16, D)>, n: nat)
    requires n < |all| && r.first <= r.last && Lossless(rs + [r], all[..n])
    requires r.last < all[n].0 && !Continues((r.last, r.desc), all[n])
    ensures Lossless(rs + [r] + [PointRun(all[n].0, all[n].0, all[n].1)], all[..n + 1])
  {
    var next := PointRun(all[n].0, all[n].0, all[n].1);
    assert ExpandRun(next) == [all[n]];
    assert (rs + [r] + [next])[..|rs| + 1] == rs + [r];
    assert all[..n + 1] == all[..n] + [all[n]];
  }

  lemma ExpandSingle<D>(r: PointRun<D>)
    requires r.first == r.last
    ensures Expand([r]) == [(r.first, r.desc)]
  {
    assert ExpandRun(r) == [(r.first, r.desc)];
  }

  lemma OpenFirst<D>(all: seq<(uint16, D)>)
    requires all != []
    ensures Lossless([] + [PointRun(all[0].0, all[0].0, all[0].1)], all[..1])
  {
    var r := PointRun(all[0].0, all[0].0, all[0].1);
    ExpandSingle(r);
    assert [] + [r] == [r];
    assert all[..1] == [all[0]];
  }

  /** Run r covers index i with description d. */
  predicate Shows<D(==)>(r: PointRun<D>, i: uint16, d: D) {
    r.first <= i <= r.last && r.desc == d
  }

  lemma RunShows<D>(r: PointRun<D>, i: uint16, d: D)
    requires r.first <= r.last
    ensures (i, d) in ExpandRun(r) <==> Shows(r, i, d)
  {
    if Shows(r, i, d) {
      assert ExpandRun(r)[i as int - r.first as int] == (i, d);
    }
  }

  /** What a list of runs stands for is what its runs cover. */
  lemma {:induction false} ExpandShows<D>(rs: seq<PointRun<D>>, i: uint16, d: D)
    requires Proper(rs)
    ensures (i, d) in Expand(rs) <==> exists k :: 0 <= k < |rs| && Shows(rs[k], i, d)
  {
    if rs != [] {
      var n := |rs| - 1;
      ExpandShows(rs[..n], i, d);
      RunShows(rs[n], i, d);
      assert Expand(rs) == Expand(rs[..n]) + ExpandRun(rs[n]);
      assert forall k :: 0 <= k < n ==> rs[..n][k] == rs[k];
    }
  }

  predicate Logged<D(==)>(log: seq<PointRun<D>>, i: uint16, d: D) {
    exists k :: 0 <= k < |log| && Shows(log[k], i, d)
  }

  /** i is a point, and d describes it. */
  predicate IsPoint<P, D(==)>(points: seq<(uint16, P)>, describe: P -> D, i: uint16, d: D) {
    exists n :: 0 <= n < |points| && points[n].0 == i && describe(points[n].1) == d
  }

  /** A run shows an index with a description if and only if that is a point and its description. */
  ghost predicate LogsExactly<P, D(!new)>(log: seq<PointRun<D>>, points: seq<(uint16, P)>, describe: P -> D) {
    forall i: uint16, d: D :: Logged(log, i, d) <==> IsPoint(points, describe, i, d)
  }

  lemma LosslessLogsExactly<P, D(!new)>(log: seq<PointRun<D>>, points: seq<(uint16, P)>, describe: P -> D)
    requires Lossless(log, Described(points, describe))
    ensures LogsExactly(log, points, describe)
  {
    var all := Described(points, describe);
    forall i: uint16, d: D ensures Logged(log, i, d) <==> IsPoint(points, describe, i, d) {
      ExpandShows(log, i, d);
      assert forall n :: 0 <= n < |points| ==> all[n] == (points[n].0, describe(points[n].1));
      assert (i, d) in all <==> IsPoint(points, describe, i, d);
    }
  }

  method LogPointRuns<P, D(==, !new)>(points: seq<(uint16, P)>, describe: P -> D) returns (log: seq<PointRun<D>>)
    requires Ascending(points)
    ensures Lossless(log, Described(points, describe)) && LogsExactly(log, points, describe)
  {
    log := [];
    if points == [] { return; }
    var runStart, prev, desc := points[0].0, points[0].0, describe(points[0].1);
    ghost var all := Described(points, describe);
    OpenFirst(all);
    for n := 1 to |points|
      invariant runStart <= prev && prev == points[n - 1].0
      invariant Lossless(log + [PointRun(runStart, prev, desc)], all[..n])
    {
      var nextDesc := describe(points[n].1);
      if points[n].0 as int != prev as int + 1 || nextDesc != desc {
        OpenNext(log, PointRun(runStart, prev, desc), all, n);
        log := log + [PointRun(runStart, prev, desc)];
        runStart := points[n].0;
        desc := nextDesc;
      } else {
        ExtendLast(log, PointRun(runStart, prev, desc), all, n);
      }
      prev := points[n].0;
    }
    log := log + [PointRun(runStart, prev, desc)];
    assert all[..|points|] == all;
    LosslessLogsExactly(log, points, describe);
  }

  // -------------------------------------------------------------------------
  // Optimality
  // -------------------------------------------------------------------------

  /** The number of places where a described map cannot be continued. */
  function Breaks<D(==)>(ds: seq<(uint16, D)>): nat {
    if |ds| < 2 then 0
    else Breaks(ds[..|ds| - 1]) + if Continues(ds[|ds| - 2], ds[|ds| - 1]) then 0 else 1
  }

  lemma {:induction false} BreaksJoin<D>(xs: seq<(uint16, D)>, ys: seq<(uint16, D)>)
    requires xs != [] && ys != []
    ensures Breaks(xs + ys) == Breaks(xs) + Breaks(ys) + if Continues(xs[|xs| - 1], ys[0]) then 0 else 1
  {
    var n := |xs + ys|;
    if |ys| == 1 {
      assert (xs + ys)[..n - 1] == xs;
    } else {
      BreaksJoin(xs, ys[..|ys| - 1]);
      assert (xs + ys)[..n - 1] == xs + ys[..|ys| - 1];
    }
  }

  lemma {:induction false} RunHasNoBreaks<D>(r: PointRun<D>)
    requires r.first <= r.last
    ensures Breaks(ExpandRun(r)) == 0
    decreases r.last - r.first
  {
    if r.first < r.last {
      var s := r.(last := r.last - 1);
      RunHasNoBreaks(s);
      var ds := ExpandRun(r);
      assert ds[..|ds| - 1] == ExpandRun(s);
    }
  }

  /** The breaks of xs followed by one more run. */
  lemma RunAddsBreak<D>(xs: seq<(uint16, D)>, r: PointRun<D>)
    requires xs != [] && r.first <= r.last
    ensures Breaks(xs + ExpandRun(r)) == Breaks(xs) + if Continues(xs[|xs| - 1], (r.first, r.desc)) then 0 else 1
  {
    RunHasNoBreaks(r);
    BreaksJoin(xs, ExpandRun(r));
  }

  lemma {:induction false} ExpandEndsWith<D>(rs: seq<PointRun<D>>)
    requires Proper(rs) && rs != []
    ensures Expand(rs) != []
    ensures Expand(rs)[|Expand(rs)| - 1] == (rs[|rs| - 1].last, rs[|rs| - 1].desc)
  {
    var r := rs[|rs| - 1];
    assert ExpandRun(r)[|ExpandRun(r)| - 1] == (r.last, r.desc);
  }

  /** One more run adds a break exactly when it cannot be merged. */
  lemma LastRunBreaks<D>(rs: seq<PointRun<D>>, n: nat)
    requires Proper(rs) && n + 1 == |rs| && n > 0
    ensures Breaks(Expand(rs)) == Breaks(Expand(rs[..n])) + if Mergeable(rs[n - 1], rs[n]) then 0 else 1
  {
    var front := rs[..n];
    ExpandEndsWith(front);
    assert front[n - 1] == rs[n - 1];
    var ds := Expand(front);
    assert Expand(rs) == ds + ExpandRun(rs[n]);
    RunAddsBreak(ds, rs[n]);
  }

  lemma {:induction false} RunsCoverBreaks<D>(rs: seq<PointRun<D>>)
    requires Proper(rs) && rs != []
    ensures Breaks(Expand(rs)) + 1 <= |rs|
  {
    var n := |rs| - 1;
    if n == 0 {
      SingleRunHasNoBreaks(rs);
    } else {
      RunsCoverBreaks(rs[..n]);
      LastRunBreaks(rs, n);
    }
  }

  lemma {:induction false} MaximalRunsAreBreaks<D>(rs: seq<PointRun<D>>)
    requires Proper(rs) && rs != [] && Maximal(rs)
    ensures Breaks(Expand(rs)) + 1 == |rs|
  {
    var n := |rs| - 1;
    if n == 0 {
      SingleRunHasNoBreaks(rs);
    } else {
      MaximalPrefix(rs, n);
      MaximalRunsAreBreaks(rs[..n]);
      LastRunBreaks(rs, n);
    }
  }

  lemma SingleRunHasNoBreaks<D>(rs: seq<PointRun<D>>)
    requires Proper(rs) && |rs| == 1
    ensures Breaks(Expand(rs)) == 0
  {
    RunHasNoBreaks(rs[0]);
    assert Expand(rs) == ExpandRun(rs[0]);
  }

  lemma MaximalPrefix<D>(rs: seq<PointRun<D>>, n: nat)
    requires Maximal(rs) && n <= |rs|
    ensures Maximal(rs[..n])
  {
  }

  /**
   Maximal runs are an optimal compression: no lossless list of runs for the
   same map is shorter.
   */
  lemma {:induction false} MaximalIsShortest<D>(rs: seq<PointRun<D>>, other: seq<PointRun<D>>)
    requires Proper(rs) && Maximal(rs) && Proper(other) && Expand(rs) == Expand(other)
    ensures |rs| <= |other|
  {
    if rs != [] {
      MaximalRunsAreBreaks(rs);
      if other != [] {
        RunsCoverBreaks(other);
      }
    }
  }
}
