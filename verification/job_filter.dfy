/** The filter behind the pending and completed job tables: two selectors and a free-text
    query, applied identically to both lists. */
module JobFilter {
  import opened Basics
  import opened Seqs
  import opened Text
  import opened JobModel

  /** The user's current filter settings: query text, backend selector, program selector. */
  datatype Criteria = Criteria(query: string, backend: string, program: string)

  /** The query as it is matched: trimmed, then lower-cased. */
  function Needle(c: Criteria): string
  {
    Lower(Trim(c.query))
  }

  /** The two selectors admit `j`: each is "all" or equals the job's field; a job with no
      program fails a program selector other than "all". */
  predicate SelectorsAdmit(j: Job, c: Criteria)
  {
    && (c.backend == All || j.backend == c.backend)
    && (c.program == All || (j.program.Some? && j.program.value.id == c.program))
  }

  /** The (already normalised) query `q` admits `j`: it is empty, or it occurs in the
      lower-cased id, backend or program id. */
  predicate QueryAdmits(j: Job, q: string)
  {
    || q == []
    || Includes(Lower(j.id), q)
    || Includes(Lower(j.backend), q)
    || (j.program.Some? && Includes(Lower(j.program.value.id), q))
  }

  /** The predicate both job tables apply. */
  predicate Keeps(j: Job, c: Criteria)
  {
    SelectorsAdmit(j, c) && QueryAdmits(j, Needle(c))
  }

  /** `Array.prototype.filter` with `Keeps`: exactly the admitted jobs, in their original
      order (and each as often as it occurs, see `FilterJobsCounts`). */
  function FilterJobs(js: seq<Job>, c: Criteria): (r: seq<Job>)
    ensures IsSubsequence(r, js)
    ensures forall j :: j in r <==> j in js && Keeps(j, c)
  {
    if js == [] then []
    else
      var rest := FilterJobs(js[1..], c);
      if Keeps(js[0], c) then
        [js[0]] + rest
      else
        SubsequenceOfTail(rest, js);
        rest
  }

  /** Filtering keeps every occurrence of an admitted job and none of the others. */
  lemma {:induction false} FilterJobsCounts(js: seq<Job>, c: Criteria, j: Job)
    ensures multiset(FilterJobs(js, c))[j] == if Keeps(j, c) then multiset(js)[j] else 0
  {
    if js != [] {
      FilterJobsCounts(js[1..], c, j);
      assert js == [js[0]] + js[1..];
    }
  }

  /** The two filtered tables share one predicate. */
  function FilteredViews(pending: seq<Job>, done: seq<Job>, c: Criteria): (r: (seq<Job>, seq<Job>))
    ensures IsSubsequence(r.0, pending) && IsSubsequence(r.1, done)
    ensures forall j :: j in r.0 <==> j in pending && Keeps(j, c)
    ensures forall j :: j in r.1 <==> j in done && Keeps(j, c)
  {
    (FilterJobs(pending, c), FilterJobs(done, c))
  }

  /** Filtering an already-filtered list with the same criteria changes nothing. */
  lemma {:induction false} FilterIdempotent(js: seq<Job>, c: Criteria)
    ensures FilterJobs(FilterJobs(js, c), c) == FilterJobs(js, c)
  {
    if js != [] {
      FilterIdempotent(js[1..], c);
    }
  }

  /** A blank query with both selectors at "all" lets every job through. */
  lemma {:induction false} FilterIdentity(js: seq<Job>, c: Criteria)
    requires IsBlank(c.query) && c.backend == All && c.program == All
    ensures FilterJobs(js, c) == js
  {
    if js != [] {
      assert Trim(c.query) == [];
      FilterIdentity(js[1..], c);
    }
  }

  /** What a kept job satisfies, selector by selector; for a non-blank query, the
      normalised query occurs in one of the three lower-cased fields. */
  lemma KeptJobSatisfiesCriteria(js: seq<Job>, c: Criteria, j: Job)
    requires j in FilterJobs(js, c)
    ensures j in js
    ensures c.backend != All ==> j.backend == c.backend
    ensures c.program != All ==> j.program == Some(Program(c.program))
    ensures !IsBlank(c.query) ==>
      || Substring(Needle(c), Lower(j.id))
      || Substring(Needle(c), Lower(j.backend))
      || (j.program.Some? && Substring(Needle(c), Lower(j.program.value.id)))
  {
    assert Keeps(j, c);
  }

  /** Example: query "kyoto" keeps the job on ibm_kyoto and drops the
      one on ibm_brisbane, whatever their other fields hold. */
  lemma KyotoScenario(j1: Job, j2: Job, query: string)
    requires query == "kyoto"
    requires j1.id == "j1" && j1.backend == "ibm_brisbane" && j1.program == None
    requires j2.id == "j2" && j2.backend == "ibm_kyoto" && j2.program == None
    ensures FilterJobs([j1, j2], Criteria(query, All, All)) == [j2]
  {
    var c := Criteria(query, All, All);
    KyotoNeedle(c);
    BrisbaneMissesKyoto(j1, c);
    KyotoHitsKyoto(j2, c);
    FilterDropsFirst(j1, j2, c);
  }

  /** The query "kyoto" is matched as typed. */
  lemma KyotoNeedle(c: Criteria)
    requires c.query == "kyoto"
    ensures Needle(c) == "kyoto"
  {
    assert NoCapitals("kyoto");
    assert "kyoto"[0] == 'k' && "kyoto"[4] == 'o' && !IsJsSpace('k') && !IsJsSpace('o');
    NeedleOfPlainWord(c);
  }

  /** The job j1 on ibm_brisbane does not contain "kyoto" anywhere. */
  lemma BrisbaneMissesKyoto(j: Job, c: Criteria)
    requires Needle(c) == "kyoto" && c.backend == All && c.program == All
    requires j.id == "j1" && j.backend == "ibm_brisbane" && j.program == None
    ensures !Keeps(j, c)
  {
    assert NoCapitals("j1") && NoCapitals("ibm_brisbane");
    assert 'k' !in "j1" && 'k' !in "ibm_brisbane";
    QueryMissesWithoutFirstChar(j, Needle(c));
  }

  /** The job j2 on ibm_kyoto contains "kyoto" in its backend. */
  lemma KyotoHitsKyoto(j: Job, c: Criteria)
    requires Needle(c) == "kyoto" && c.backend == All && c.program == All
    requires j.backend == "ibm_kyoto"
    ensures Keeps(j, c)
  {
    assert "ibm_kyoto"[4..9] == "kyoto";
    assert NoCapitals("ibm_kyoto");
    QueryHitsBackend(j, Needle(c), 4);
  }

  /** A query with no capitals and no surrounding whitespace is matched as typed. */
  lemma NeedleOfPlainWord(c: Criteria)
    requires c.query != [] && NoCapitals(c.query)
    requires !IsJsSpace(c.query[0]) && !IsJsSpace(c.query[|c.query| - 1])
    ensures Needle(c) == c.query
  {
    assert Trim(c.query) == c.query;
    LowerOfLower(c.query);
  }

  /** A job whose id and backend lack the query's first character, and which has no
      program, is rejected by a non-empty query in lower case. */
  lemma QueryMissesWithoutFirstChar(j: Job, q: string)
    requires q != [] && NoCapitals(j.id) && NoCapitals(j.backend)
    requires q[0] !in j.id && q[0] !in j.backend && j.program == None
    ensures !QueryAdmits(j, q)
  {
    LowerOfLower(j.id);
    LowerOfLower(j.backend);
    NotSubstringByFirstChar(q, j.id);
    NotSubstringByFirstChar(q, j.backend);
  }

  /** A query occurring in a backend name without capitals admits the job. */
  lemma QueryHitsBackend(j: Job, q: string, k: int)
    requires NoCapitals(j.backend) && OccursAt(j.backend, q, k)
    ensures QueryAdmits(j, q)
  {
    LowerOfLower(j.backend);
  }

  /** Of two jobs, a filter that rejects the first and keeps the second returns the second. */
  lemma FilterDropsFirst(j1: Job, j2: Job, c: Criteria)
    requires !Keeps(j1, c) && Keeps(j2, c)
    ensures FilterJobs([j1, j2], c) == [j2]
  {
    assert FilterJobs([], c) == [];
    assert [j2][1..] == [];
    assert FilterJobs([j2], c) == [j2];
    assert [j1, j2][1..] == [j2];
  }
}
