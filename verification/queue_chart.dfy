/** The queue-depth chart: backends with a known pending count, deepest queue first,
    ties in their original order, at most twelve bars. */
module QueueChart {
  import opened Basics
  import opened Seqs
  import opened JobModel

  /** How many bars the chart shows at most. */
  const ChartLimit: nat := 12

  /** One bar of the chart. */
  datatype ChartPoint = ChartPoint(name: string, count: nat)

  /** The sort key, `b.pending_jobs || 0`. */
  function Depth(b: BackendSummary): nat
  {
    b.pendingJobs.GetOr(0)
  }

  /** The backends whose status call reported a pending count, in their original order
      (and each as often as it is listed, see `KnownCounts`). */
  function Known(bs: seq<BackendSummary>): (r: seq<BackendSummary>)
    ensures IsSubsequence(r, bs)
    ensures forall b :: b in r <==> b in bs && b.pendingJobs.Some?
  {
    if bs == [] then []
    else
      var rest := Known(bs[1..]);
      assert forall b :: b in bs <==> b == bs[0] || b in bs[1..] by {
        assert bs == [bs[0]] + bs[1..];
      }
      if bs[0].pendingJobs.Some? then [bs[0]] + rest
      else
        SubsequenceOfTail(rest, bs);
        rest
  }

  /** A backend with a known count is kept as often as it is listed; others never. */
  lemma {:induction false} KnownCounts(bs: seq<BackendSummary>)
    ensures forall b :: multiset(Known(bs))[b] == if b.pendingJobs.Some? then multiset(bs)[b] else 0
  {
    if bs != [] {
      KnownCounts(bs[1..]);
      assert bs == [bs[0]] + bs[1..];
    }
  }

  /** Deeper queues come first: no entry is deeper than the one before it. */
  predicate DepthNonIncreasing(s: seq<BackendSummary>)
  {
    forall i :: 0 < i < |s| ==> Depth(s[i - 1]) >= Depth(s[i])
  }

  /** In such a list every entry is at least as deep as every later one. */
  lemma {:induction false} DepthNonIncreasingPairwise(s: seq<BackendSummary>)
    requires DepthNonIncreasing(s)
    ensures forall i, k :: 0 <= i < k < |s| ==> Depth(s[i]) >= Depth(s[k])
  {
    if s != [] {
      DepthNonIncreasingPairwise(s[1..]);
      forall i, k | 0 <= i < k < |s| ensures Depth(s[i]) >= Depth(s[k]) {
        assert s[k] == s[1..][k - 1];
        if i > 0 {
          assert s[i] == s[1..][i - 1];
        } else if k > 1 {
          assert s[1] == s[1..][0];
        }
      }
    }
  }

  /** The entries of `s` whose depth is `d`, in their order in `s`. */
  function WithDepth(s: seq<BackendSummary>, d: nat): (r: seq<BackendSummary>)
    ensures forall b :: b in r <==> b in s && Depth(b) == d
  {
    if s == [] then []
    else
      assert forall b :: b in s <==> b == s[0] || b in s[1..] by {
        assert s == [s[0]] + s[1..];
      }
      (if Depth(s[0]) == d then [s[0]] else []) + WithDepth(s[1..], d)
  }

  /** Insert `x` before the first entry that is not deeper than it. */
  function InsertByDepth(x: BackendSummary, s: seq<BackendSummary>): (r: seq<BackendSummary>)
    ensures |r| == |s| + 1
  {
    if s == [] || Depth(s[0]) <= Depth(x) then [x] + s
    else [s[0]] + InsertByDepth(x, s[1..])
  }

  /** The inserted entry or the old first entry comes first. */
  lemma InsertByDepthHead(x: BackendSummary, s: seq<BackendSummary>)
    ensures InsertByDepth(x, s)[0] == x || (s != [] && InsertByDepth(x, s)[0] == s[0])
  {
  }

  /** Inserting into a list sorted deepest first keeps it sorted. */
  lemma {:induction false} InsertByDepthSorted(x: BackendSummary, s: seq<BackendSummary>)
    requires DepthNonIncreasing(s)
    ensures DepthNonIncreasing(InsertByDepth(x, s))
  {
    if s == [] || Depth(s[0]) <= Depth(x) {
      var r := [x] + s;
      assert InsertByDepth(x, s) == r;
      forall i | 0 < i < |r| ensures Depth(r[i - 1]) >= Depth(r[i]) {
        if i > 1 {
          assert r[i - 1] == s[i - 2] && r[i] == s[i - 1];
        }
      }
    } else {
      var rest := InsertByDepth(x, s[1..]);
      InsertByDepthSorted(x, s[1..]);
      InsertByDepthHead(x, s[1..]);
      var r := [s[0]] + rest;
      assert InsertByDepth(x, s) == r;
      forall i | 0 < i < |r| ensures Depth(r[i - 1]) >= Depth(r[i]) {
        if i == 1 {
          assert r[1] == rest[0];
          if s[1..] != [] {
            assert s[1..][0] == s[1];
          }
        } else {
          assert r[i - 1] == rest[i - 2] && r[i] == rest[i - 1];
        }
      }
    }
  }

  /** Inserting adds exactly `x`. */
  lemma {:induction false} InsertByDepthPermutes(x: BackendSummary, s: seq<BackendSummary>)
    ensures multiset(InsertByDepth(x, s)) == multiset(s) + multiset{x}
  {
    if s != [] && Depth(s[0]) > Depth(x) {
      InsertByDepthPermutes(x, s[1..]);
      assert InsertByDepth(x, s) == [s[0]] + InsertByDepth(x, s[1..]);
      assert s == [s[0]] + s[1..];
    }
  }

  /** Inserting `x` adds it in front of the entries of equal depth and leaves the order
      within every other depth alone. */
  lemma {:induction false} InsertByDepthKeepsTies(x: BackendSummary, s: seq<BackendSummary>, d: nat)
    ensures WithDepth(InsertByDepth(x, s), d) == if Depth(x) == d then [x] + WithDepth(s, d) else WithDepth(s, d)
  {
    if s == [] || Depth(s[0]) <= Depth(x) {
      assert InsertByDepth(x, s) == [x] + s;
      WithDepthCons(x, s, d);
    } else {
      var rest := InsertByDepth(x, s[1..]);
      assert InsertByDepth(x, s) == [s[0]] + rest;
      InsertByDepthKeepsTies(x, s[1..], d);
      WithDepthCons(s[0], rest, d);
      WithDepthCons(s[0], s[1..], d);
      assert s == [s[0]] + s[1..];
      if Depth(x) == d {
        assert Depth(s[0]) != d;
        assert WithDepth([s[0]] + rest, d) == [x] + WithDepth(s[1..], d);
      }
    }
  }

  /** The entries of one depth in a list with a new first element. */
  lemma WithDepthCons(a: BackendSummary, s: seq<BackendSummary>, d: nat)
    ensures WithDepth([a] + s, d) == (if Depth(a) == d then [a] else []) + WithDepth(s, d)
  {
    assert ([a] + s)[1..] == s;
  }

  /** `Array.prototype.sort` with the comparator `(a, b) => Depth(b) - Depth(a)`, which
      is stable: deepest first (see `StableSortPermutes` for it being a permutation). */
  function StableSortByDepth(xs: seq<BackendSummary>): (r: seq<BackendSummary>)
    ensures |r| == |xs|
    ensures DepthNonIncreasing(r)
  {
    if xs == [] then []
    else
      InsertByDepthSorted(xs[0], StableSortByDepth(xs[1..]));
      InsertByDepth(xs[0], StableSortByDepth(xs[1..]))
  }

  /** The sort rearranges its input: nothing is lost, duplicated or added. */
  lemma {:induction false} StableSortPermutes(xs: seq<BackendSummary>)
    ensures multiset(StableSortByDepth(xs)) == multiset(xs)
  {
    if xs != [] {
      StableSortPermutes(xs[1..]);
      InsertByDepthPermutes(xs[0], StableSortByDepth(xs[1..]));
      assert xs == [xs[0]] + xs[1..];
    }
  }

  /** Stability: for every depth, the entries of that depth keep their original order. */
  lemma {:induction false} StableSortKeepsTies(xs: seq<BackendSummary>, d: nat)
    ensures WithDepth(StableSortByDepth(xs), d) == WithDepth(xs, d)
  {
    if xs != [] {
      var sortedTail := StableSortByDepth(xs[1..]);
      assert StableSortByDepth(xs) == InsertByDepth(xs[0], sortedTail);
      StableSortKeepsTies(xs[1..], d);
      InsertByDepthKeepsTies(xs[0], sortedTail, d);
      assert WithDepth(xs, d) == (if Depth(xs[0]) == d then [xs[0]] else []) + WithDepth(xs[1..], d);
    }
  }

  /** Cutting a list short keeps a prefix of the entries of every depth. */
  lemma {:induction false} WithDepthPrefix(s: seq<BackendSummary>, n: nat, d: nat)
    requires n <= |s|
    ensures WithDepth(s[..n], d) <= WithDepth(s, d)
  {
    if n > 0 {
      WithDepthPrefix(s[1..], n - 1, d);
      assert s[..n] == [s[0]] + s[1..][..n - 1];
      WithDepthCons(s[0], s[1..][..n - 1], d);
      assert s == [s[0]] + s[1..];
      WithDepthCons(s[0], s[1..], d);
    }
  }

  /** The first `n` of the sorted list hold, for every depth, the first few entries of
      that depth in their original order. */
  lemma SortedPrefixKeepsTies(xs: seq<BackendSummary>, n: nat, d: nat)
    requires n <= |xs|
    ensures WithDepth(StableSortByDepth(xs)[..n], d) <= WithDepth(xs, d)
  {
    WithDepthPrefix(StableSortByDepth(xs), n, d);
    StableSortKeepsTies(xs, d);
  }

  /** The bar for one backend with a known count (`pending_jobs!`). */
  function Point(b: BackendSummary): ChartPoint
    requires b.pendingJobs.Some?
  {
    ChartPoint(b.name, b.pendingJobs.value)
  }

  /** Bars for a list of backends with known counts. */
  function Points(s: seq<BackendSummary>): (r: seq<ChartPoint>)
    requires forall b :: b in s ==> b.pendingJobs.Some?
    ensures |r| == |s| && forall i :: 0 <= i < |s| ==> r[i] == Point(s[i])
  {
    if s == [] then [] else [Point(s[0])] + Points(s[1..])
  }

  /** The sorted known backends are backends of `bs` with a known count. */
  lemma SortedKnownMembers(bs: seq<BackendSummary>)
    ensures forall b :: b in StableSortByDepth(Known(bs)) ==> b in bs && b.pendingJobs.Some?
  {
    var sorted := StableSortByDepth(Known(bs));
    StableSortPermutes(Known(bs));
    forall b | b in sorted ensures b in bs && b.pendingJobs.Some? {
      assert b in multiset(sorted);
    }
  }

  /** The chart's length: all known backends, but at most twelve. */
  function ChartSize(bs: seq<BackendSummary>): nat
  {
    if |Known(bs)| < ChartLimit then |Known(bs)| else ChartLimit
  }

  /** `queueChartData`: keep the backends with a known count, sort them deepest first
      (stably), keep the first twelve and turn each into a bar. */
  function QueueChartData(bs: seq<BackendSummary>): seq<ChartPoint>
  {
    SortedKnownMembers(bs);
    Points(StableSortByDepth(Known(bs))[..ChartSize(bs)])
  }

  /** Bar `i` is the `i`-th deepest known backend. */
  lemma ChartBar(bs: seq<BackendSummary>, i: int)
    requires 0 <= i < ChartSize(bs)
    ensures var sorted := StableSortByDepth(Known(bs));
      && |QueueChartData(bs)| == ChartSize(bs)
      && sorted[i] in bs && sorted[i].pendingJobs.Some?
      && QueueChartData(bs)[i] == Point(sorted[i])
  {
    SortedKnownMembers(bs);
    var sorted := StableSortByDepth(Known(bs));
    assert sorted[i] in sorted;
    assert sorted[..ChartSize(bs)][i] == sorted[i];
  }

  /** The chart has one bar per known backend, but never more than twelve, and every
      bar shows a backend of the input with the count its status call reported. */
  lemma ChartBarsAreKnownBackends(bs: seq<BackendSummary>)
    ensures |QueueChartData(bs)| <= ChartLimit
    ensures |QueueChartData(bs)| == if |Known(bs)| < ChartLimit then |Known(bs)| else ChartLimit
    ensures forall p :: p in QueueChartData(bs) ==>
      exists b :: b in bs && b.name == p.name && b.pendingJobs == Some(p.count)
  {
    var r := QueueChartData(bs);
    forall p | p in r ensures exists b :: b in bs && b.name == p.name && b.pendingJobs == Some(p.count) {
      var i :| 0 <= i < |r| && r[i] == p;
      ChartBar(bs, i);
    }
  }

  /** Bars are ordered by non-increasing count. */
  lemma ChartDescending(bs: seq<BackendSummary>)
    ensures forall i, k :: 0 <= i < k < |QueueChartData(bs)| ==> QueueChartData(bs)[i].count >= QueueChartData(bs)[k].count
  {
    var r := QueueChartData(bs);
    var sorted := StableSortByDepth(Known(bs));
    DepthNonIncreasingPairwise(sorted);
    forall i, k | 0 <= i < k < |r| ensures r[i].count >= r[k].count {
      ChartBar(bs, i);
      ChartBar(bs, k);
    }
  }

  /** A known backend missing from the chart is beaten by every bar, and then there are
      more than twelve known backends and the chart is full: the chart shows the twelve
      deepest queues. */
  lemma ChartKeepsDeepest(bs: seq<BackendSummary>, b: BackendSummary)
    requires b in bs && b.pendingJobs.Some?
    ensures Point(b) in QueueChartData(bs)
      || (&& |Known(bs)| > ChartLimit && |QueueChartData(bs)| == ChartLimit
          && forall p :: p in QueueChartData(bs) ==> p.count >= b.pendingJobs.value)
  {
    var r := QueueChartData(bs);
    var sorted := StableSortByDepth(Known(bs));
    StableSortPermutes(Known(bs));
    assert b in multiset(Known(bs));
    var j :| 0 <= j < |sorted| && sorted[j] == b;
    if j < ChartSize(bs) {
      ChartBar(bs, j);
    } else {
      DepthNonIncreasingPairwise(sorted);
      forall p | p in r ensures p.count >= b.pendingJobs.value {
        var i :| 0 <= i < |r| && r[i] == p;
        ChartBar(bs, i);
      }
    }
  }

  /** With twelve or fewer known backends the chart is the bars of all of them, deepest
      first: each known backend is charted as often as it is listed, and nothing else. */
  lemma ChartShowsAllKnown(bs: seq<BackendSummary>)
    requires |Known(bs)| <= ChartLimit
    ensures forall b :: b in StableSortByDepth(Known(bs)) ==> b.pendingJobs.Some?
    ensures QueueChartData(bs) == Points(StableSortByDepth(Known(bs)))
    ensures multiset(StableSortByDepth(Known(bs))) == multiset(Known(bs))
    ensures forall b :: b in bs && b.pendingJobs.Some? ==> Point(b) in QueueChartData(bs)
  {
    SortedKnownMembers(bs);
    var sorted := StableSortByDepth(Known(bs));
    assert sorted[..ChartSize(bs)] == sorted;
    StableSortPermutes(Known(bs));
    forall b | b in bs && b.pendingJobs.Some? ensures Point(b) in QueueChartData(bs) {
      assert b in multiset(sorted);
      var k :| 0 <= k < |sorted| && sorted[k] == b;
      assert Points(sorted)[k] == Point(b);
    }
  }

  /** The bars of one count, in chart order. */
  function BarsWithCount(ps: seq<ChartPoint>, d: nat): seq<ChartPoint>
  {
    if ps == [] then []
    else (if ps[0].count == d then [ps[0]] else []) + BarsWithCount(ps[1..], d)
  }

  /** Bars for the entries of one depth are the bars of that count. */
  lemma {:induction false} PointsWithDepth(s: seq<BackendSummary>, d: nat)
    requires forall b :: b in s ==> b.pendingJobs.Some?
    ensures BarsWithCount(Points(s), d) == Points(WithDepth(s, d))
  {
    if s != [] {
      PointsWithDepth(s[1..], d);
      assert Points(s)[1..] == Points(s[1..]);
    }
  }

  /** Cutting a list of bars short keeps a prefix of the bars of every count. */
  lemma {:induction false} BarsWithCountPrefix(ps: seq<ChartPoint>, n: nat, d: nat)
    requires n <= |ps|
    ensures BarsWithCount(ps[..n], d) <= BarsWithCount(ps, d)
  {
    if n > 0 {
      BarsWithCountPrefix(ps[1..], n - 1, d);
      assert ps[..n][1..] == ps[1..][..n - 1];
    }
  }

  /** Ties keep their original order: the bars of any one count are the first few of
      the known backends with that count, in the order the backends were listed. */
  lemma ChartKeepsTieOrder(bs: seq<BackendSummary>, d: nat)
    ensures BarsWithCount(QueueChartData(bs), d) <= BarsWithCount(Points(Known(bs)), d)
  {
    SortedKnownMembers(bs);
    var sorted := StableSortByDepth(Known(bs));
    assert Points(sorted[..ChartSize(bs)]) == Points(sorted)[..ChartSize(bs)];
    BarsWithCountPrefix(Points(sorted), ChartSize(bs), d);
    PointsWithDepth(sorted, d);
    PointsWithDepth(Known(bs), d);
    StableSortKeepsTies(Known(bs), d);
  }
}
