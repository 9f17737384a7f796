/** The backend and program selector options: "all" followed by the distinct values,
    sorted with JavaScript's default string order. */
module PickLists {
  import opened Basics
  import opened Text
  import opened JobModel

  /** Each element strictly precedes every later one, so in particular none repeats. */
  predicate StrictlyAscending(s: seq<string>)
  {
    forall i, k :: 0 <= i < k < |s| ==> Before(s[i], s[k])
  }

  /** Insert `x` into a strictly ascending list, leaving it unchanged if `x` is present. */
  function InsertSorted(s: seq<string>, x: string): (r: seq<string>)
    requires StrictlyAscending(s)
    ensures StrictlyAscending(r)
    ensures forall y :: y in r <==> y in s || y == x
  {
    if s == [] then [x]
    else if x == s[0] then s
    else if Before(x, s[0]) then
      assert forall k :: 0 < k < |s| ==> Before(x, s[k]) by {
        forall k | 0 < k < |s| ensures Before(x, s[k]) {
          BeforeTransitive(x, s[0], s[k]);
        }
      }
      var r := [x] + s;
      assert forall i, k :: 0 <= i < k < |r| ==> Before(r[i], r[k]) by {
        forall i, k | 0 <= i < k < |r| ensures Before(r[i], r[k]) {
          if i > 0 { assert r[i] == s[i - 1] && r[k] == s[k - 1]; }
        }
      }
      r
    else
      BeforeTotal(x, s[0]);
      var rest := InsertSorted(s[1..], x);
      var r := [s[0]] + rest;
      assert forall y :: y in s <==> y == s[0] || y in s[1..] by {
        assert s == [s[0]] + s[1..];
      }
      assert forall i, k :: 0 <= i < k < |r| ==> Before(r[i], r[k]) by {
        forall i, k | 0 <= i < k < |r| ensures Before(r[i], r[k]) {
          if i == 0 {
            assert r[k] == rest[k - 1] && r[k] in rest;
          } else {
            assert r[i] == rest[i - 1] && r[k] == rest[k - 1];
          }
        }
      }
      r
  }

  /** `Array.from(new Set(xs)).sort()`: the distinct values of `xs` in ascending order. */
  function SortedDistinct(xs: seq<string>): (r: seq<string>)
    ensures StrictlyAscending(r)
    ensures forall y :: y in r <==> y in xs
  {
    if xs == [] then []
    else
      var init := xs[..|xs| - 1];
      assert xs == init + [xs[|xs| - 1]];
      InsertSorted(SortedDistinct(init), xs[|xs| - 1])
  }

  /** Two strictly ascending lists with the same members are the same list: the sorted
      option list does not depend on the order values were collected in. */
  lemma {:induction false} AscendingUnique(a: seq<string>, b: seq<string>)
    requires StrictlyAscending(a) && StrictlyAscending(b)
    requires forall y :: y in a <==> y in b
    ensures a == b
  {
    assert a == [] <==> b == [] by {
      if a != [] { assert a[0] in a; }
      if b != [] { assert b[0] in b; }
    }
    if a != [] {
      // The first elements are each other's minimum.
      if a[0] != b[0] {
        BeforeTotal(a[0], b[0]);
        assert a[0] in a && b[0] in b;
        if Before(a[0], b[0]) {
          var k :| 0 <= k < |b| && b[k] == a[0];
          BeforeAsymmetric(b[0], b[k]);
        }
      }
      assert forall y :: y in a[1..] <==> y in b[1..] by {
        forall y ensures y in a[1..] <==> y in b[1..] {
          if y in a[1..] {
            var k :| 1 <= k < |a| && a[k] == y;
            BeforeIrreflexive(y);
            assert y != a[0] && y in b;
            var m :| 0 <= m < |b| && b[m] == y;
            assert m != 0;
            assert b[1..][m - 1] == y;
          }
          if y in b[1..] {
            var k :| 1 <= k < |b| && b[k] == y;
            BeforeIrreflexive(y);
            assert y != b[0] && y in a;
            var m :| 0 <= m < |a| && a[m] == y;
            assert m != 0;
            assert a[1..][m - 1] == y;
          }
        }
      }
      AscendingUnique(a[1..], b[1..]);
      assert a == [a[0]] + a[1..] && b == [b[0]] + b[1..];
    }
  }

  /** The backend of every job, in order. */
  function JobBackends(js: seq<Job>): (r: seq<string>)
    ensures |r| == |js| && forall i :: 0 <= i < |js| ==> r[i] == js[i].backend
  {
    if js == [] then [] else [js[0].backend] + JobBackends(js[1..])
  }

  /** The name of every backend summary, in order. */
  function SummaryNames(bs: seq<BackendSummary>): (r: seq<string>)
    ensures |r| == |bs| && forall i :: 0 <= i < |bs| ==> r[i] == bs[i].name
  {
    if bs == [] then [] else [bs[0].name] + SummaryNames(bs[1..])
  }

  /** The values `allBackends` collects are the backends of the jobs and the names of
      the summaries. */
  lemma CollectedBackends(js: seq<Job>, bs: seq<BackendSummary>, y: string)
    ensures y in JobBackends(js) + SummaryNames(bs) <==>
      (exists j :: j in js && j.backend == y) || (exists b :: b in bs && b.name == y)
  {
    var xs := JobBackends(js) + SummaryNames(bs);
    if y in xs {
      var i :| 0 <= i < |xs| && xs[i] == y;
      if i < |js| { assert js[i] in js; } else { assert bs[i - |js|] in bs; }
    }
    if exists j :: j in js && j.backend == y {
      var j :| j in js && j.backend == y;
      var i :| 0 <= i < |js| && js[i] == j;
      assert xs[i] == y;
    }
    if exists b :: b in bs && b.name == y {
      var b :| b in bs && b.name == y;
      var i :| 0 <= i < |bs| && bs[i] == b;
      assert xs[|js| + i] == y;
    }
  }

  /** The truthy program ids of the jobs (`j.program?.id && ...`), in order. */
  function ProgramIds(js: seq<Job>): (r: seq<string>)
    ensures forall y :: y in r <==> y != "" && exists j :: j in js && j.program == Some(Program(y))
  {
    if js == [] then []
    else
      var rest := ProgramIds(js[1..]);
      assert forall j :: j in js <==> j == js[0] || j in js[1..] by {
        assert js == [js[0]] + js[1..];
      }
      var p := js[0].program;
      if p.Some? && p.value.id != "" then [p.value.id] + rest else rest
  }

  /** `allBackends`: "all", then every backend a pending or completed job names or a
      backend summary carries, each once, ascending. */
  function AllBackends(pending: seq<Job>, done: seq<Job>, backends: seq<BackendSummary>): (r: seq<string>)
    ensures |r| >= 1 && r[0] == All
    ensures StrictlyAscending(r[1..])
    ensures forall y :: y in r[1..] <==>
      (exists j :: j in pending + done && j.backend == y) || (exists b :: b in backends && b.name == y)
  {
    var xs := JobBackends(pending + done) + SummaryNames(backends);
    var r := [All] + SortedDistinct(xs);
    assert r[1..] == SortedDistinct(xs);
    forall y ensures y in xs <==>
      (exists j :: j in pending + done && j.backend == y) || (exists b :: b in backends && b.name == y) {
      CollectedBackends(pending + done, backends, y);
    }
    r
  }

  /** `allPrograms`: "all", then every non-empty program id of a pending or completed
      job, each once, ascending. */
  function AllPrograms(pending: seq<Job>, done: seq<Job>): (r: seq<string>)
    ensures |r| >= 1 && r[0] == All
    ensures StrictlyAscending(r[1..])
    ensures forall y :: y in r[1..] <==> y != "" && exists j :: j in pending + done && j.program == Some(Program(y))
  {
    var r := [All] + SortedDistinct(ProgramIds(pending + done));
    assert r[1..] == SortedDistinct(ProgramIds(pending + done));
    r
  }

  /** A strictly ascending list has no repeated element. */
  lemma AscendingHasNoDuplicates(s: seq<string>)
    requires StrictlyAscending(s)
    ensures forall i, k :: 0 <= i < k < |s| ==> s[i] != s[k]
  {
    forall i, k | 0 <= i < k < |s| ensures s[i] != s[k] {
      BeforeIrreflexive(s[i]);
    }
  }
}
