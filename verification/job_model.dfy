/** The records the dashboard receives from the provider: jobs and backend summaries. */
module JobModel {
  import opened Basics

  /** The selector value that disables a selector; it is also the first option of both
      selector lists. */
  const All: string := "all"

  /** The nested `state` object of a job. */
  datatype JobState = JobState(status: string, reason: Option<string>)

  /** The `program` object of a job. */
  datatype Program = Program(id: string)

  /** One job as the jobs endpoint returns it; every field but `id` and `backend` is optional. */
  datatype Job = Job(
    id: string,
    backend: string,
    status: Option<string>,
    state: Option<JobState>,
    created: Option<string>,
    program: Option<Program>,
    usageSeconds: Option<real>,
    tags: Option<seq<string>>,
    sessionId: Option<string>,
    isPrivate: Option<bool>,
    cost: Option<real>)

  /** One backend with whatever its status call reported; both details may be unknown. */
  datatype BackendSummary = BackendSummary(name: string, pendingJobs: Option<nat>, operational: Option<bool>)

  /** JavaScript truthiness of an optional string: present and not "". */
  predicate Truthy(s: Option<string>)
  {
    s.Some? && s.value != ""
  }

  /** The status shown for a job: the direct `status` field when it is truthy, otherwise
      the nested `state.status`, otherwise "". */
  function ResolveStatus(j: Job): (r: string)
    ensures Truthy(j.status) ==> r == j.status.value
    ensures r == "" <==> !Truthy(j.status) && !(j.state.Some? && j.state.value.status != "")
    ensures r != "" && r != j.status.GetOr("") ==> j.state.Some? && r == j.state.value.status
  {
    if Truthy(j.status) then j.status.value
    else if j.state.Some? then j.state.value.status
    else ""
  }

  /** A job with only the identifying fields set. */
  function BareJob(id: string, backend: string): Job
  {
    Job(id, backend, None, None, None, None, None, None, None, None, None)
  }

  /** Both response shapes resolve, and the direct field wins when both are present;
      an empty direct field does not hide the nested one. */
  lemma ResolveStatusShapes()
    ensures ResolveStatus(BareJob("j1", "b").(status := Some("Running"))) == "Running"
    ensures ResolveStatus(BareJob("j1", "b").(state := Some(JobState("Queued", None)))) == "Queued"
    ensures ResolveStatus(BareJob("j1", "b").(status := Some("Done"), state := Some(JobState("Queued", None)))) == "Done"
    ensures ResolveStatus(BareJob("j1", "b").(status := Some(""), state := Some(JobState("Queued", None)))) == "Queued"
    ensures ResolveStatus(BareJob("j1", "b")) == ""
  {
  }
}
