# IBM Quantum live jobs dashboard — a Dafny model of its data core

`QuantumComputing/jobs.js` is a React dashboard. It signs in to IBM Cloud with an API
key, lists the pending and completed jobs of an IBM Quantum instance, polls for fresh
job lists on a timer, and asks each backend for its queue depth. This project models
the logic between the network and the screen, and proves properties of it:

- **the job filter** (`text.dfy`, `job_filter.dfy`): the trimmed, lower-cased query and
  the backend and program selectors. Both job tables use the same filter.
- **the pending tally** (`pending_tally.dfy`): `pendingByBackend` counts pending jobs
  per backend.
- **the selector options** (`pick_lists.dfy`): `allBackends` and `allPrograms` give
  "all" followed by the distinct values, in JavaScript's default sort order.
- **the queue chart** (`queue_chart.dfy`): the backends with a known queue depth,
  deepest first, ties in their original order, at most twelve.
- **the loaders** (`loaders.dfy`):
  - `loadJobs` replaces the two job lists.
  - `loadBackends` enumerates at most 24 backends and probes each one separately.
  - Both go through the authenticated request, whose token exchange refuses an empty
    API key.
- **the polling timer** (`polling.dfy`): `startPolling` and `stopPolling`, with the
  period clamped to at least five seconds.
- **the job record and status resolution** (`job_model.dfy`).

The loaders never touch a network. Every response they use is a parameter: an `Api`
value holds the outcome of each request as either a decoded body or an error. Status
requests are answered by position in the probed list and by backend name, so each
request has its own outcome. The
browser's timer table is a set of live intervals.

Three behaviours of the code are worth knowing:

- A job with neither a `status` nor a `state.status` shows "", not "Unknown"
  (`JobModel.ResolveStatus`).
- `loadJobs` makes its two requests one after the other and writes nothing unless both
  succeed. There is one exception. A successful done request whose body is `null`
  still replaces the pending list, because the pending list is written before the
  done body is read (`Loaders.LoadJobs`).
- A backend named "all" can appear twice in the backend options. Only the part after
  the leading "all" is free of duplicates.

## Model

| member | source | states |
|---|---|---|
| JobModel.ResolveStatus | QuantumComputing/jobs.js:419 | A truthy direct `status` wins. The result is "" exactly when neither the direct field nor a non-empty nested `state.status` exists. Any other result is the nested status. |
| JobModel.ResolveStatusShapes | QuantumComputing/jobs.js:419 | Both response shapes resolve. The direct field takes precedence, an empty direct field does not hide the nested one, and a job with neither shows "". |
| Text.Trim | QuantumComputing/jobs.js:87 | The trimmed query is no longer than the input, and it is empty exactly when the input is all whitespace. |
| Text.TrimShape | QuantumComputing/jobs.js:87 | The trimmed query is a contiguous slice of the input with no whitespace at either end. Everything cut from either side is whitespace. |
| Text.Lower | QuantumComputing/jobs.js:87 | The lower-cased text has the same length and no capital letter. Every character other than a capital is kept. A capital becomes the small letter at the same place in the alphabet. |
| Text.LowerIdempotent | QuantumComputing/jobs.js:87 | Lower-casing twice is the same as lower-casing once. |
| Text.Includes | QuantumComputing/jobs.js:91 | The scan returns true exactly when the pattern occurs in the string at some position. |
| Text.Before | QuantumComputing/jobs.js:209 | The default string order of `Array.prototype.sort`, by code point. It has no contract of its own; `BeforeIrreflexive`, `BeforeTransitive`, `BeforeTotal` and `BeforeAsymmetric` state that it is a strict total order. |
| Text.BeforeIrreflexive | QuantumComputing/jobs.js:209 | The default string order never puts a string before itself. |
| Text.BeforeTransitive | QuantumComputing/jobs.js:209 | The default string order is transitive. |
| Text.BeforeTotal | QuantumComputing/jobs.js:209 | Of two different strings, one comes before the other. |
| Text.BeforeAsymmetric | QuantumComputing/jobs.js:209 | Two strings are never each before the other. |
| JobFilter.Keeps | QuantumComputing/jobs.js:88-91 | The predicate both tables filter with: both selectors admit the job and the normalised query is blank or occurs in its lower-cased id, backend or program id. It has no contract of its own; `FilterJobs`, `KeptJobSatisfiesCriteria` and `FilterIdentity` state what it admits. |
| JobFilter.FilterJobs | QuantumComputing/jobs.js:86-93 | The filtered table keeps the jobs of the list in their order, as a subsequence. It holds exactly the jobs that pass both selectors and whose id, backend or program id contains the normalised query. |
| JobFilter.FilterJobsCounts | QuantumComputing/jobs.js:86-93 | Every occurrence of an admitted job is kept, and no occurrence of any other job. |
| JobFilter.FilteredViews | QuantumComputing/jobs.js:86-102 | The pending and completed tables are filtered by one and the same predicate. |
| JobFilter.FilterIdempotent | QuantumComputing/jobs.js:95-102 | Filtering an already filtered table again changes nothing. |
| JobFilter.FilterIdentity | QuantumComputing/jobs.js:86-93 | A blank query with both selectors at "all" keeps every job. |
| JobFilter.KeptJobSatisfiesCriteria | QuantumComputing/jobs.js:89-91 | A kept job matches each set selector. For a non-blank query, the normalised query occurs in its lower-cased id, backend or program id. |
| JobFilter.KyotoScenario | QuantumComputing/jobs.js:95-102 | With the query "kyoto", the job on ibm_brisbane is dropped and the job on ibm_kyoto is kept. |
| PendingTally.Bump | QuantumComputing/jobs.js:106 | One counting step raises the entry for the backend by one, or appends it with count 1. Every other entry, and name uniqueness, are kept. The total grows by one. |
| PendingTally.PendingByBackend | QuantumComputing/jobs.js:104-108 | There is one entry per distinct backend of the pending jobs. Looking up any backend gives the number of pending jobs on it. Every entry is positive, and the counts add up to the number of jobs. |
| PendingTally.PendingEntryCounts | QuantumComputing/jobs.js:104-108 | Each entry's count is the number of pending jobs on its backend. |
| PendingTally.TallyGrowsByAppending | QuantumComputing/jobs.js:104-108 | The tally of any prefix of the jobs agrees name by name with the start of the full tally. So entries appear in the order backends first appear. |
| PickLists.InsertSorted | QuantumComputing/jobs.js:207-209 | Adding a value to the set keeps the option list strictly ascending. The value is added exactly once. |
| PickLists.SortedDistinct | QuantumComputing/jobs.js:207-209 | The sorted set of values is strictly ascending and holds exactly the values collected. |
| PickLists.AscendingUnique | QuantumComputing/jobs.js:209 | Two strictly ascending lists with the same members are equal. So the options do not depend on the order values were collected in. |
| PickLists.AscendingHasNoDuplicates | QuantumComputing/jobs.js:209 | A strictly ascending option list repeats no value. |
| PickLists.ProgramIds | QuantumComputing/jobs.js:214 | The collected program ids are exactly the non-empty ids of jobs that have a program. |
| PickLists.AllBackends | QuantumComputing/jobs.js:205-210 | The list starts with "all". The rest is strictly ascending and holds exactly the backends named by a pending or completed job or by a backend summary. |
| PickLists.AllPrograms | QuantumComputing/jobs.js:212-216 | The list starts with "all". The rest is strictly ascending and holds exactly the non-empty program ids of pending and completed jobs. |
| QueueChart.Known | QuantumComputing/jobs.js:220 | Keeps, in order, exactly the summaries whose status call reported a pending count. |
| QueueChart.KnownCounts | QuantumComputing/jobs.js:220 | A summary with a known count is kept as often as it is listed. Other summaries are never kept. |
| QueueChart.InsertByDepthSorted | QuantumComputing/jobs.js:221 | One insertion step of the sort keeps a list sorted deepest first. |
| QueueChart.InsertByDepthPermutes | QuantumComputing/jobs.js:221 | One insertion step adds exactly the inserted backend and loses nothing. |
| QueueChart.StableSortByDepth | QuantumComputing/jobs.js:221 | The sorted list is as long as its input and its depth never increases from one entry to the next. |
| QueueChart.StableSortPermutes | QuantumComputing/jobs.js:221 | The sort is a permutation of its input: same backends, same number of times each. |
| QueueChart.StableSortKeepsTies | QuantumComputing/jobs.js:221 | The sort is stable: for every depth, the backends of that depth keep their original order. |
| QueueChart.WithDepthPrefix | QuantumComputing/jobs.js:222 | Cutting a list short keeps, for every depth, a prefix of the entries of that depth. |
| QueueChart.SortedPrefixKeepsTies | QuantumComputing/jobs.js:221-222 | The first `n` of the sorted list hold, for every depth, the first entries of that depth in their input order. |
| QueueChart.QueueChartData | QuantumComputing/jobs.js:218-224 | The chart data itself. It has no contract of its own; `ChartBar`, `ChartBarsAreKnownBackends`, `ChartDescending`, `ChartKeepsDeepest`, `ChartShowsAllKnown` and `ChartKeepsTieOrder` state its behaviour. |
| QueueChart.ChartBar | QuantumComputing/jobs.js:218-224 | Bar `i` shows the name and count of the `i`-th deepest known backend. |
| QueueChart.ChartBarsAreKnownBackends | QuantumComputing/jobs.js:218-224 | The chart has one bar per known backend, capped at twelve. Every bar shows a backend of the input with the count its status call reported. |
| QueueChart.ChartDescending | QuantumComputing/jobs.js:221 | Bar counts never increase from left to right. |
| QueueChart.ChartKeepsDeepest | QuantumComputing/jobs.js:220-222 | A known backend without a bar means there are more than twelve known backends, the chart is full, and every bar is at least as deep. |
| QueueChart.ChartShowsAllKnown | QuantumComputing/jobs.js:218-224 | With twelve or fewer known backends, the chart is the bars of all of them, deepest first. The charted backends are the known ones with their multiplicities, so every known backend has a bar. |
| QueueChart.ChartKeepsTieOrder | QuantumComputing/jobs.js:221-222 | The bars of any one count are the first backends with that count, in the order the backends were listed. |
| Loaders.Call | QuantumComputing/jobs.js:110-143 | A request with a cached bearer, or with an API key and a successful token exchange, yields the provider's answer. With neither bearer nor key it fails with the missing-key error. With a key but a failed token exchange it fails with that exchange's error. It never turns a failed answer into a success. |
| Loaders.NoKeyNoRequest | QuantumComputing/jobs.js:111 | Without a key and a bearer, every request fails the same way, whatever the provider would answer. |
| Loaders.RejectedTokenFailsRequest | QuantumComputing/jobs.js:123 | With a key but no bearer, a rejected token exchange fails the request with that rejection, whatever the provider would answer. |
| Loaders.LoadJobs | QuantumComputing/jobs.js:146-157 | If either request fails, nothing changes. When both succeed, a `null` pending body changes nothing. An object pending body replaces the pending list with its `jobs`, a missing field counting as empty. The done list is replaced only when both bodies are objects. Backends are untouched. |
| Loaders.LoadJobsReplaces | QuantumComputing/jobs.js:152-153 | When both responses are objects, both lists are replaced outright, with no merge. |
| Loaders.LoadJobsIdempotent | QuantumComputing/jobs.js:146-157 | Loading twice against the same answers is the same as loading once. |
| Loaders.PendingThrowKeepsSnapshot | QuantumComputing/jobs.js:146-157 | A pending request that throws leaves both lists as they were. |
| Loaders.DoneServerErrorKeepsSnapshot | QuantumComputing/jobs.js:150-156 | A 500 on the done request leaves both lists as they were, even when the pending request succeeded. |
| Loaders.Names | QuantumComputing/jobs.js:163 | A `null` entry aborts the enumeration. Otherwise the names are exactly the non-empty string entries and object names, never more than the entries. |
| Loaders.NamesOfOne | QuantumComputing/jobs.js:163 | A single entry gives its name when it is non-empty. An empty or missing name gives nothing. A `null` entry fails. |
| Loaders.NamesAppend | QuantumComputing/jobs.js:163 | The names of two lists joined are the first list's names followed by the second's. The whole fails when either part fails. With `NamesOfOne` this fixes the order and the repetitions of the names. |
| Loaders.ListNames | QuantumComputing/jobs.js:163 | A `null` body fails. A bare array yields the names of its entries. An object yields the names of its `backends` entries, or none without that field. Enumerated names are never empty. |
| Loaders.BackendNames | QuantumComputing/jobs.js:161-163 | A failed list request yields no names. A successful one yields the names of its body, which are never empty. |
| Loaders.Capped | QuantumComputing/jobs.js:164 | The probed names are the first min(24, n) names, in their order. A list of 24 or fewer is probed whole. |
| Loaders.Probe | QuantumComputing/jobs.js:166-173 | An entry always carries its backend's name. A successful status request with an object body gives the reported count and operational flag. A failed request or a `null` body leaves both details unknown. |
| Loaders.LoadBackends | QuantumComputing/jobs.js:159-178 | A failed enumeration changes nothing. Otherwise there is one entry per probed name, in order, at most 24. Each entry depends only on its own status request. A success with an object body gives the reported details. A failure or a `null` body leaves them unknown. The job lists are untouched. |
| Loaders.LoadTwoBackends | QuantumComputing/jobs.js:159-178 | For the list b1, b2 where only b2's status request fails, the result is b1 with its reported details and b2 with its name only, not an aborted list. |
| Loaders.LoadRepeatedBackend | QuantumComputing/jobs.js:165-173 | For the list b1, b1 where the first status request succeeds and the second fails, the result holds two different entries for b1: one with the reported details and one with the name only. |
| Polling.Period | QuantumComputing/jobs.js:184 | The period is at least five seconds and at least the setting, and it is one of the two. |
| Polling.Stop | QuantumComputing/jobs.js:186-191 | Stopping with a truthy handle clears the intervals with that handle and forgets it. Every interval with another handle keeps firing. Stopping without a handle changes nothing. |
| Polling.Start | QuantumComputing/jobs.js:180-185 | Starting registers a new interval with the clamped period and remembers it. The previously remembered interval no longer fires unless it is the new one. Every interval with another handle keeps firing, and nothing else fires. |
| Polling.StopCancelsAll | QuantumComputing/jobs.js:186-191 | From a consistent state, stopping leaves no interval firing. |
| Polling.StartKeepsOneTimer | QuantumComputing/jobs.js:180-185 | From a consistent state, starting leaves exactly one interval firing: the new one. |
| Polling.StopWhenIdle | QuantumComputing/jobs.js:187 | Stopping when idle is a no-op. |
| Polling.StopIdempotent | QuantumComputing/jobs.js:186-191 | Stopping twice is the same as stopping once. |
| Polling.ApplyIntervalIsStart | QuantumComputing/jobs.js:307 | "Apply interval" (stop, then start) is the same as starting. |
| Polling.PeriodClamp | QuantumComputing/jobs.js:184 | A two-second setting polls every five seconds. A setting of five seconds or more is used as given. |
| Polling.RunPreservesGood | QuantumComputing/jobs.js:180-191 | Any sequence of starts and stops keeps the one-timer invariant. |
| Polling.RunKeepsOneTimer | QuantumComputing/jobs.js:180-191 | From a fresh dashboard, at most one interval is ever firing. |

## Left out

- Rendering (lines 226-438): tables, badges, charts, the settings form, and the `cls`
  helper. They only display the values modelled here.
- `useStickyState` (lines 51-66): session-storage persistence of the settings.
- `fmtTime` (line 47): it formats dates for display.
- The real token exchange and HTTP requests (lines 110-144): URLs, headers, the
  `Service-CRN` header, JSON decoding and the caching of the bearer in component
  state. Each request is an oracle outcome, and the token exchange has one outcome per
  load.
- The second token exchange `ibmFetch` makes when no bearer is cached (lines 133-134)
  is not modelled. With one outcome per load it cannot change a result.
- Captured credentials: a polling tick (lines 182-184) runs the `loadJobs` of the render that
  started polling. When polling starts from the bootstrap (lines 195-198), that render
  has no bearer, so every tick repeats the token exchange, twice per request, even
  after a token is cached. The model takes the credentials a load sees as a parameter.
  A tick is a load with an empty bearer. Which render a tick belongs to is not
  modelled.
- The bootstrap effect (lines 193-203), which loads and starts polling once credentials
  exist, is not modelled. The effect's own steps are modelled.
- Time is not modelled: when ticks fire, and overlapping `loadJobs` calls from ticks
  that outlive a slow request.
- `setInterval` with a `NaN` period (from `parseInt` of a bad setting) is not modelled.
- Text.Lower: lower-cases ASCII letters only, because full Unicode case mapping
  (including length-changing mappings) is outside the model.
- Text.Before: compares whole code points, while JavaScript compares UTF-16 code units.
  The two differ only for characters outside the Basic Multilingual Plane.
- PendingTally.PendingByBackend: `Object.entries` puts integer-like keys first in
  numeric order. Names such as `__proto__` or `constructor` interact with the object's
  prototype. The model lists entries in insertion order and treats every name as an
  ordinary key.
- `pending_jobs` is a natural number or absent. Fractional, negative or `NaN` values,
  and a non-number that is not absent, are not modelled.
- `BackendSummary.operational` and every job field other than id, backend, status,
  state and program are only carried through.
- Loaders.Names: a `name` field that is present but not a string is not modelled.
