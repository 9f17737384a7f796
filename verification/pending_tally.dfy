/** The per-backend count of pending jobs that feeds the aggregate chart. */
module PendingTally {
  import opened JobModel

  /** One `{name, count}` entry of the tally. */
  datatype BackendCount = BackendCount(name: string, count: nat)

  /** How many jobs of `js` run on backend `b`. */
  function CountOn(js: seq<Job>, b: string): nat
  {
    if js == [] then 0
    else CountOn(js[..|js| - 1], b) + (if js[|js| - 1].backend == b then 1 else 0)
  }

  /** The backends the jobs of `js` name. */
  function Backends(js: seq<Job>): set<string>
  {
    if js == [] then {} else Backends(js[..|js| - 1]) + {js[|js| - 1].backend}
  }

  /** The names a tally has entries for. */
  function NamesOf(t: seq<BackendCount>): set<string>
  {
    if t == [] then {} else {t[0].name} + NamesOf(t[1..])
  }

  /** Every entry's name is among the tally's names. */
  lemma {:induction false} NamesOfCoversEntries(t: seq<BackendCount>)
    ensures forall i :: 0 <= i < |t| ==> t[i].name in NamesOf(t)
  {
    if t != [] {
      NamesOfCoversEntries(t[1..]);
      assert forall i :: 1 <= i < |t| ==> t[i] == t[1..][i - 1];
    }
  }

  /** No two entries share a name, as keys of a JavaScript object cannot. */
  predicate DistinctNames(t: seq<BackendCount>)
  {
    t == [] || (t[0].name !in NamesOf(t[1..]) && DistinctNames(t[1..]))
  }

  /** Looking a backend up in a tally: the count of its entry, or 0 without one. */
  function CountFor(t: seq<BackendCount>, x: string): nat
  {
    if t == [] then 0 else (if t[0].name == x then t[0].count else 0) + CountFor(t[1..], x)
  }

  /** The sum of a tally's counts. */
  function Total(t: seq<BackendCount>): nat
  {
    if t == [] then 0 else t[0].count + Total(t[1..])
  }

  /** One `map[b] = (map[b] || 0) + 1` step: the entry for `b` goes up by one, or is
      appended with count 1 when `b` is new; every other entry is unchanged. */
  function Bump(t: seq<BackendCount>, b: string): (r: seq<BackendCount>)
    requires DistinctNames(t)
    ensures DistinctNames(r)
    ensures NamesOf(r) == NamesOf(t) + {b}
    ensures |r| == if b in NamesOf(t) then |t| else |t| + 1
    ensures forall i :: 0 <= i < |t| ==>
      r[i].name == t[i].name && r[i].count == t[i].count + (if t[i].name == b then 1 else 0)
    ensures b !in NamesOf(t) ==> r[|t|] == BackendCount(b, 1)
    ensures forall x :: CountFor(r, x) == CountFor(t, x) + (if x == b then 1 else 0)
    ensures Total(r) == Total(t) + 1
  {
    if t == [] then [BackendCount(b, 1)]
    else if t[0].name == b then
      var r := [t[0].(count := t[0].count + 1)] + t[1..];
      NamesOfCoversEntries(t[1..]);
      assert r[1..] == t[1..];
      r
    else
      var rest := Bump(t[1..], b);
      var r := [t[0]] + rest;
      assert r[1..] == rest;
      r
  }

  /** `pendingByBackend`: one entry per distinct backend among `js`, in order of first
      appearance; looking a backend up in the tally gives how many jobs of `js` are on
      it; every entry is positive and the counts add up to the number of jobs. */
  function PendingByBackend(js: seq<Job>): (r: seq<BackendCount>)
    ensures DistinctNames(r)
    ensures NamesOf(r) == Backends(js)
    ensures forall x :: CountFor(r, x) == CountOn(js, x)
    ensures forall i :: 0 <= i < |r| ==> r[i].count >= 1
    ensures Total(r) == |js|
  {
    if js == [] then []
    else
      var init := js[..|js| - 1];
      var b := js[|js| - 1].backend;
      var t := PendingByBackend(init);
      var r := Bump(t, b);
      assert forall x :: CountOn(js, x) == CountOn(init, x) + (if x == b then 1 else 0);
      assert forall i :: 0 <= i < |r| ==> r[i].count >= 1 by {
        forall i | 0 <= i < |r| ensures r[i].count >= 1 {
          if i < |t| {
            assert r[i].count >= t[i].count;
          }
        }
      }
      r
  }

  /** Each entry of the tally holds exactly the number of jobs on its backend. */
  lemma PendingEntryCounts(js: seq<Job>, i: int)
    requires 0 <= i < |PendingByBackend(js)|
    ensures PendingByBackend(js)[i].count == CountOn(js, PendingByBackend(js)[i].name)
  {
    EntryCount(PendingByBackend(js), i);
  }

  /** In a tally with distinct names, looking up an entry's name gives its count. */
  lemma {:induction false} EntryCount(t: seq<BackendCount>, i: int)
    requires DistinctNames(t) && 0 <= i < |t|
    ensures CountFor(t, t[i].name) == t[i].count
  {
    if i == 0 {
      CountForAbsent(t[1..], t[0].name);
    } else {
      EntryCount(t[1..], i - 1);
      NamesOfCoversEntries(t[1..]);
      assert t[1..][i - 1] == t[i];
    }
  }

  /** A name without an entry looks up as zero. */
  lemma {:induction false} CountForAbsent(t: seq<BackendCount>, x: string)
    requires x !in NamesOf(t)
    ensures CountFor(t, x) == 0
  {
    if t != [] {
      CountForAbsent(t[1..], x);
    }
  }

  /** Entries keep the position they were created at: the tally of any prefix of the
      jobs is, name by name, the start of the tally of all of them, so backends are
      listed in the order they first appear. */
  lemma {:induction false} TallyGrowsByAppending(js: seq<Job>, n: nat)
    requires n <= |js|
    ensures |PendingByBackend(js[..n])| <= |PendingByBackend(js)|
    ensures forall i :: 0 <= i < |PendingByBackend(js[..n])| ==>
      PendingByBackend(js)[i].name == PendingByBackend(js[..n])[i].name
    decreases |js|
  {
    if n == |js| {
      assert js[..n] == js;
    } else {
      var init := js[..|js| - 1];
      assert init[..n] == js[..n];
      TallyGrowsByAppending(init, n);
    }
  }
}
