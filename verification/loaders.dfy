/** The two loaders that fill the dashboard from the provider: `loadJobs`, which replaces
    the job lists, and `loadBackends`, which enumerates backends and asks each for its
    status. Every response is an oracle value; nothing here talks to a network. */
module Loaders {
  import opened Basics
  import opened Seqs
  import opened JobModel

  /** The credentials one load sees: the API key and the bearer token in the state the
      loader was created from (an empty string when there is none). A load started by a
      polling tick sees the state of the render that started polling, so its bearer can
      be empty even when a newer token is cached. */
  datatype Auth = Auth(apiKey: string, bearer: string)

  /** The body of a jobs request: `null`, or an object whose `jobs` field may be missing. */
  datatype JobsBody = NullJobs | JobsBody(jobs: Option<seq<Job>>)

  /** One entry of the backend list: a bare name, an object with an optional `name`
      field, or `null`. */
  datatype ListItem = NameString(s: string) | NamedObject(name: Option<string>) | NullItem

  /** The body of the backend list request: `null`, a bare array, or an object whose
      `backends` field may be missing. */
  datatype ListBody = NullList | BareList(items: seq<ListItem>) | Wrapped(backends: Option<seq<ListItem>>)

  /** The body of one backend's status request: `null` or an object with optional fields. */
  datatype StatusBody = NullStatus | Status(pendingJobs: Option<nat>, operational: Option<bool>)

  /** What the provider answers during one load: the outcome of the token exchange and of
      every request the loaders can make. Status requests are answered one by one, keyed
      by their position in the probed list as well as by backend name, so a backend
      listed twice can get two different answers. */
  datatype Api = Api(
    iam: Fetch<string>,
    pendingJobs: Fetch<JobsBody>,
    doneJobs: Fetch<JobsBody>,
    backendList: Fetch<ListBody>,
    status: (nat, string) -> Fetch<StatusBody>)

  /** The part of the dashboard's state the loaders write. */
  datatype Dashboard = Dashboard(jobsPending: seq<Job>, jobsDone: seq<Job>, backends: seq<BackendSummary>)

  /** One authenticated request (`ibmFetch`): with a cached bearer the request goes out
      at once; without one the token exchange runs first, and it refuses an empty API key
      and passes on an identity-endpoint failure. */
  function Call<T>(auth: Auth, iam: Fetch<string>, resp: Fetch<T>): (r: Fetch<T>)
    ensures r.Ok? ==> r == resp
    ensures auth.bearer == "" && auth.apiKey == "" ==> r == Failed(MissingApiKey)
    ensures auth.bearer != "" || (auth.apiKey != "" && iam.Ok?) ==> r == resp
    ensures r.Failed? && resp.Ok? ==> auth.bearer == "" && (auth.apiKey == "" || iam.Failed?)
    ensures auth.bearer == "" && auth.apiKey != "" && iam.Failed? ==> r == Failed(iam.error)
  {
    if auth.bearer != "" then resp
    else if auth.apiKey == "" then Failed(MissingApiKey)
    else if iam.Failed? then Failed(iam.error)
    else resp
  }

  /** Without a bearer and without an API key every request fails the same way,
      whatever the provider would have answered. */
  lemma NoKeyNoRequest<T>(iam: Fetch<string>, resp: Fetch<T>)
    ensures Call(Auth("", ""), iam, resp) == Failed(MissingApiKey)
  {
  }

  // ---------------------------------------------------------------- loadJobs

  /** `loadJobs`: the pending request, then the done request; if either fails nothing
      changes. The pending list is written before the done body is read, so a `null` done
      body still replaces the pending list, while a `null` pending body changes nothing.
      A missing `jobs` field counts as an empty list. */
  function LoadJobs(d: Dashboard, auth: Auth, api: Api): (r: Dashboard)
    ensures r.backends == d.backends
    ensures Call(auth, api.iam, api.pendingJobs).Failed? || Call(auth, api.iam, api.doneJobs).Failed? ==> r == d
    ensures r.jobsPending != d.jobsPending ==>
      api.pendingJobs.Ok? && api.pendingJobs.body.JobsBody? && r.jobsPending == api.pendingJobs.body.jobs.GetOr([])
    ensures r.jobsDone != d.jobsDone ==>
      && api.doneJobs.Ok? && api.doneJobs.body.JobsBody? && r.jobsDone == api.doneJobs.body.jobs.GetOr([])
      && api.pendingJobs.Ok? && api.pendingJobs.body.JobsBody? && r.jobsPending == api.pendingJobs.body.jobs.GetOr([])
    ensures Call(auth, api.iam, api.pendingJobs).Ok? && Call(auth, api.iam, api.doneJobs).Ok? ==>
      var pending, done := api.pendingJobs.body, api.doneJobs.body;
      && (pending.NullJobs? ==> r == d)
      && (pending.JobsBody? ==> r.jobsPending == pending.jobs.GetOr([]))
      && (pending.JobsBody? && done.JobsBody? ==> r.jobsDone == done.jobs.GetOr([]))
      && (done.NullJobs? ==> r.jobsDone == d.jobsDone)
  {
    match Call(auth, api.iam, api.pendingJobs)
    case Failed(_) => d
    case Ok(pending) =>
      match Call(auth, api.iam, api.doneJobs)
      case Failed(_) => d
      case Ok(done) =>
        if pending.NullJobs? then d
        else
          var d1 := d.(jobsPending := pending.jobs.GetOr([]));
          if done.NullJobs? then d1 else d1.(jobsDone := done.jobs.GetOr([]))
  }

  /** When both requests succeed with object bodies, both lists are replaced outright:
      no merge with the previous snapshot. */
  lemma LoadJobsReplaces(d: Dashboard, auth: Auth, api: Api)
    requires Call(auth, api.iam, api.pendingJobs).Ok? && api.pendingJobs.body.JobsBody?
    requires Call(auth, api.iam, api.doneJobs).Ok? && api.doneJobs.body.JobsBody?
    ensures LoadJobs(d, auth, api).jobsPending == api.pendingJobs.body.jobs.GetOr([])
    ensures LoadJobs(d, auth, api).jobsDone == api.doneJobs.body.jobs.GetOr([])
    ensures LoadJobs(d, auth, api).backends == d.backends
  {
  }

  /** Loading twice against the same answers is the same as loading once. */
  lemma LoadJobsIdempotent(d: Dashboard, auth: Auth, api: Api)
    ensures LoadJobs(LoadJobs(d, auth, api), auth, api) == LoadJobs(d, auth, api)
  {
  }

  /** When the identity endpoint rejects the API key, the request fails with that
      rejection, whatever the provider would have answered. */
  lemma RejectedTokenFailsRequest<T>(key: string, code: int, resp: Fetch<T>)
    requires key != ""
    ensures Call(Auth(key, ""), Failed(IamRejected(code)), resp) == Failed(IamRejected(code))
  {
  }

  /** A pending request that throws (a network failure or a body that is not JSON)
      leaves the whole snapshot as it was. */
  lemma PendingThrowKeepsSnapshot(d: Dashboard, auth: Auth, api: Api)
    requires api.pendingJobs == Failed(Thrown)
    ensures LoadJobs(d, auth, api) == d
  {
  }

  /** A server error on the done request leaves the whole snapshot as it was, even when
      the pending request succeeded. */
  lemma DoneServerErrorKeepsSnapshot(d: Dashboard, auth: Auth, api: Api)
    requires api.doneJobs == Failed(HttpStatus(500))
    ensures LoadJobs(d, auth, api) == d
  {
  }

  // ------------------------------------------------------------ loadBackends

  /** How many backends get a status request at most. */
  const MaxBackends: nat := 24

  /** The name one list entry contributes (`typeof b === "string" ? b : b.name`), or
      `None` when reading it throws: `null.name`. A missing name reads as "". */
  function ItemName(item: ListItem): Option<string>
  {
    match item
    case NameString(s) => Some(s)
    case NamedObject(n) => Some(n.GetOr(""))
    case NullItem => None
  }

  /** The truthy names of a list, in order; `None` when any entry is `null`, which makes
      the map throw and aborts the whole load. `NamesOfOne` and `NamesAppend` pin down
      order and repetition. */
  function Names(items: seq<ListItem>): (r: Option<seq<string>>)
    ensures r.None? <==> NullItem in items
    ensures r.Some? ==> forall n :: n in r.value <==> n != "" && (NameString(n) in items || NamedObject(Some(n)) in items)
    ensures r.Some? ==> |r.value| <= |items|
  {
    if items == [] then Some([])
    else
      var rest := Names(items[1..]);
      assert items == [items[0]] + items[1..];
      match ItemName(items[0])
      case None => None
      case Some(n) =>
        if rest.None? then None
        else if n == "" then rest
        else Some([n] + rest.value)
  }

  /** The names a single entry yields: its name when that is non-empty, none for an
      empty name, and a failure for `null`. */
  lemma NamesOfOne(item: ListItem)
    ensures item.NullItem? ==> Names([item]) == None
    ensures item.NameString? ==> Names([item]) == Some(if item.s == "" then [] else [item.s])
    ensures item.NamedObject? ==>
      Names([item]) == Some(if item.name.GetOr("") == "" then [] else [item.name.value])
  {
    assert [item][1..] == [] && [item][0] == item;
    assert Names([]) == Some([]);
    if ItemName(item).Some? {
      var n := ItemName(item).value;
      assert [n] + [] == [n];
    }
  }

  /** The names of a list with a first entry: the entry's own names, then the rest's. */
  lemma NamesCons(x: ListItem, s: seq<ListItem>)
    ensures Names([x] + s) ==
      if x.NullItem? || Names(s).None? then None
      else Some((if ItemName(x).value == "" then [] else [ItemName(x).value]) + Names(s).value)
  {
    assert ([x] + s)[1..] == s && ([x] + s)[0] == x;
    if Names(s).Some? {
      assert [] + Names(s).value == Names(s).value;
    }
  }

  /** The names of two lists one after the other are the names of the first followed by
      the names of the second, and the whole fails when either part does. With
      `NamesOfOne`, this fixes the order and the repetitions of the names. */
  lemma {:induction false} NamesAppend(a: seq<ListItem>, b: seq<ListItem>)
    ensures Names(a + b) ==
      if Names(a).None? || Names(b).None? then None else Some(Names(a).value + Names(b).value)
  {
    if a == [] {
      assert a + b == b;
      assert Names(a) == Some([]);
      if Names(b).Some? {
        assert [] + Names(b).value == Names(b).value;
      }
    } else {
      var x, tail := a[0], a[1..];
      assert a == [x] + tail;
      assert a + b == [x] + (tail + b);
      NamesAppend(tail, b);
      NamesCons(x, tail + b);
      NamesCons(x, tail);
      if !x.NullItem? && Names(tail).Some? && Names(b).Some? {
        var h := if ItemName(x).value == "" then [] else [ItemName(x).value];
        ConcatAssoc(h, Names(tail).value, Names(b).value);
      }
    }
  }

  /** The names a list body yields: a bare array is used as is, an object contributes its
      `backends` field (or nothing), and a `null` body throws. */
  function ListNames(body: ListBody): (r: Option<seq<string>>)
    ensures r.Some? ==> forall n :: n in r.value ==> n != ""
    ensures body.NullList? ==> r.None?
    ensures body.BareList? ==> r == Names(body.items)
    ensures body.Wrapped? && body.backends.Some? ==> r == Names(body.backends.value)
    ensures body.Wrapped? && body.backends.None? ==> r == Some([])
  {
    match body
    case NullList => None
    case BareList(items) => Names(items)
    case Wrapped(None) => Some([])
    case Wrapped(Some(items)) => Names(items)
  }

  /** The backend names one load enumerates, or `None` when the list request or its
      decoding failed. */
  function BackendNames(auth: Auth, api: Api): (r: Option<seq<string>>)
    ensures Call(auth, api.iam, api.backendList).Failed? ==> r.None?
    ensures Call(auth, api.iam, api.backendList).Ok? ==> r == ListNames(api.backendList.body)
    ensures r.Some? ==> forall n :: n in r.value ==> n != ""
  {
    match Call(auth, api.iam, api.backendList)
    case Failed(_) => None
    case Ok(body) => ListNames(body)
  }

  /** The names that get a status request: the first 24. */
  function Capped(names: seq<string>): (r: seq<string>)
    ensures |r| <= MaxBackends && |r| <= |names|
    ensures |r| == if |names| <= MaxBackends then |names| else MaxBackends
    ensures |names| <= MaxBackends ==> r == names
    ensures forall i :: 0 <= i < |r| ==> r[i] == names[i]
  {
    if |names| <= MaxBackends then names else names[..MaxBackends]
  }

  /** The summary one backend gets from its own status request: what the request
      returned, or only its name when the request failed or returned `null`. */
  function Probe(auth: Auth, api: Api, i: nat, name: string): (r: BackendSummary)
    ensures r.name == name
    ensures Call(auth, api.iam, api.status(i, name)).Failed? ==> r == BackendSummary(name, None, None)
    ensures Call(auth, api.iam, api.status(i, name)) == Ok(NullStatus) ==> r == BackendSummary(name, None, None)
    ensures Call(auth, api.iam, api.status(i, name)).Ok? && api.status(i, name).body.Status? ==>
      r == BackendSummary(name, api.status(i, name).body.pendingJobs, api.status(i, name).body.operational)
  {
    match Call(auth, api.iam, api.status(i, name))
    case Failed(_) => BackendSummary(name, None, None)
    case Ok(body) =>
      if body.NullStatus? then BackendSummary(name, None, None)
      else BackendSummary(name, body.pendingJobs, body.operational)
  }

  /** `loadBackends`: enumerate the backends, then ask each of the first 24 for its status
      one after the other. A failing status request costs only its own entry's details;
      a failing list request leaves the dashboard as it was. The job lists are never
      touched. */
  method LoadBackends(d: Dashboard, auth: Auth, api: Api) returns (r: Dashboard)
    ensures r.jobsPending == d.jobsPending && r.jobsDone == d.jobsDone
    ensures BackendNames(auth, api).None? ==> r == d
    ensures BackendNames(auth, api).Some? ==>
      var first := Capped(BackendNames(auth, api).value);
      && |r.backends| == |first| <= MaxBackends
      && forall i :: 0 <= i < |first| ==>
        && r.backends[i].name == first[i]
        && (api.status(i, first[i]).Ok? && api.status(i, first[i]).body.Status? && Call(auth, api.iam, api.status(i, first[i])).Ok? ==>
              r.backends[i].pendingJobs == api.status(i, first[i]).body.pendingJobs
              && r.backends[i].operational == api.status(i, first[i]).body.operational)
        && (Call(auth, api.iam, api.status(i, first[i])).Failed? ==>
              r.backends[i].pendingJobs.None? && r.backends[i].operational.None?)
        && (Call(auth, api.iam, api.status(i, first[i])) == Ok(NullStatus) ==>
              r.backends[i].pendingJobs.None? && r.backends[i].operational.None?)
  {
    var names := BackendNames(auth, api);
    if names.None? {
      return d;
    }
    var first := Capped(names.value);
    var statuses: seq<BackendSummary> := [];
    var i := 0;
    while i < |first|
      invariant 0 <= i <= |first|
      invariant |statuses| == i
      invariant forall k :: 0 <= k < i ==> statuses[k] == Probe(auth, api, k, first[k])
    {
      statuses := statuses + [Probe(auth, api, i, first[i])];
      i := i + 1;
    }
    r := d.(backends := statuses);
  }

  /** The list `["b1", "b2"]` where only b2's status request fails: both backends are
      listed, b1 with what its status reported and b2 with its name only. */
  method LoadTwoBackends(d: Dashboard, api: Api, p: nat, o: bool) returns (r: Dashboard)
    requires api.backendList == Ok(BareList([NameString("b1"), NameString("b2")]))
    requires api.status(0, "b1") == Ok(Status(Some(p), Some(o)))
    requires api.status(1, "b2") == Failed(HttpStatus(500))
    ensures r.backends == [BackendSummary("b1", Some(p), Some(o)), BackendSummary("b2", None, None)]
    ensures r.jobsPending == d.jobsPending && r.jobsDone == d.jobsDone
  {
    var auth := Auth("key", "token");
    var items := [NameString("b1"), NameString("b2")];
    assert items[1..] == [NameString("b2")] && items[1..][1..] == [];
    assert Names([]) == Some([]);
    assert ["b2"] + [] == ["b2"];
    assert Names(items[1..]) == Some(["b2"]);
    assert ItemName(items[0]) == Some("b1");
    assert ["b1"] + ["b2"] == ["b1", "b2"];
    assert BackendNames(auth, api) == Some(["b1", "b2"]);
    r := LoadBackends(d, auth, api);
  }

  /** The list `["b1", "b1"]` where the first status request succeeds and the second
      fails: each request stands alone, so the two entries for b1 differ. */
  method LoadRepeatedBackend(d: Dashboard, api: Api, p: nat, o: bool) returns (r: Dashboard)
    requires api.backendList == Ok(BareList([NameString("b1"), NameString("b1")]))
    requires api.status(0, "b1") == Ok(Status(Some(p), Some(o)))
    requires api.status(1, "b1") == Failed(HttpStatus(500))
    ensures r.backends == [BackendSummary("b1", Some(p), Some(o)), BackendSummary("b1", None, None)]
    ensures r.backends[0] != r.backends[1]
  {
    var auth := Auth("key", "token");
    var items := [NameString("b1"), NameString("b1")];
    assert items[1..] == [NameString("b1")] && items[1..][1..] == [];
    assert Names([]) == Some([]);
    assert ["b1"] + [] == ["b1"];
    assert Names(items[1..]) == Some(["b1"]);
    assert ItemName(items[0]) == Some("b1");
    assert ["b1"] + ["b1"] == ["b1", "b1"];
    assert BackendNames(auth, api) == Some(["b1", "b1"]);
    r := LoadBackends(d, auth, api);
  }
}
