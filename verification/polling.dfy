/** The polling timer behind `startPolling` and `stopPolling`: one repeating interval
    that runs `loadJobs`, remembered in `timerRef`. The browser's timer table is modelled
    as the set of live intervals; time itself is not modelled. */
module Polling {
  import opened Basics

  /** The shortest polling period the dashboard accepts, in milliseconds. */
  const MinPeriodMs: int := 5000

  /** A repeating interval registered with the browser: its handle and its period. */
  datatype Interval = Interval(id: nat, periodMs: int)

  /** The dashboard's timer state: the interval `timerRef` remembers, the intervals the
      browser still fires, and the handle the browser gives out next (handles are
      positive and never reused). */
  datatype Scheduler = Scheduler(timer: Option<Interval>, live: set<Interval>, nextId: nat)

  /** No timer at all, as the dashboard starts. */
  const Idle: Scheduler := Scheduler(None, {}, 1)

  /** The interval remembered in `timerRef` is the only one firing, and every handle
      given out so far is positive and below the next one. */
  predicate Good(s: Scheduler)
  {
    && 1 <= s.nextId
    && (s.timer.None? ==> s.live == {})
    && (s.timer.Some? ==> s.live == {s.timer.value})
    && (forall iv :: iv in s.live ==> 1 <= iv.id < s.nextId)
  }

  /** The period actually used: `Math.max(5000, pollMs)`. */
  function Period(pollMs: int): (r: int)
    ensures r >= MinPeriodMs && r >= pollMs
    ensures r == MinPeriodMs || r == pollMs
  {
    if pollMs < MinPeriodMs then MinPeriodMs else pollMs
  }

  /** `stopPolling`: when `timerRef` holds a truthy handle, clear that interval and
      forget it; otherwise do nothing. Intervals with other handles keep firing. */
  function Stop(s: Scheduler): (r: Scheduler)
    ensures r.nextId == s.nextId && r.live <= s.live
    ensures s.timer.Some? && s.timer.value.id != 0 ==>
      r.timer.None? && forall iv :: iv in r.live ==> iv.id != s.timer.value.id
    ensures s.timer.None? ==> r == s
    ensures forall iv :: iv in s.live && !(s.timer.Some? && s.timer.value.id != 0 && iv.id == s.timer.value.id) ==>
      iv in r.live
  {
    if s.timer.Some? && s.timer.value.id != 0 then
      Scheduler(None, (set iv | iv in s.live && iv.id != s.timer.value.id), s.nextId)
    else s
  }

  /** `startPolling`: stop first, then register a new interval with the clamped period and
      remember its handle. Only the remembered interval is cleared; any other interval
      keeps firing. */
  function Start(s: Scheduler, pollMs: int): (r: Scheduler)
    ensures r.timer == Some(Interval(s.nextId, Period(pollMs)))
    ensures r.nextId == s.nextId + 1
    ensures r.timer.value in r.live && r.live - {r.timer.value} <= s.live
    ensures forall iv :: iv in s.live && !(s.timer.Some? && s.timer.value.id != 0 && iv.id == s.timer.value.id) ==>
      iv in r.live
    ensures s.timer.Some? && s.timer.value.id != 0 && s.timer.value in r.live ==> s.timer.value == r.timer.value
  {
    var s1 := Stop(s);
    var iv := Interval(s1.nextId, Period(pollMs));
    Scheduler(Some(iv), s1.live + {iv}, s1.nextId + 1)
  }

  /** Stopping keeps the invariant and leaves no interval firing. */
  lemma StopCancelsAll(s: Scheduler)
    requires Good(s)
    ensures Good(Stop(s)) && Stop(s).live == {}
  {
    if s.timer.Some? {
      assert forall iv :: iv in s.live ==> iv == s.timer.value;
    }
  }

  /** Starting keeps the invariant: however often the dashboard starts polling, exactly
      one interval fires, the one just registered. */
  lemma StartKeepsOneTimer(s: Scheduler, pollMs: int)
    requires Good(s)
    ensures Good(Start(s, pollMs))
    ensures Start(s, pollMs).live == {Interval(s.nextId, Period(pollMs))}
  {
    StopCancelsAll(s);
  }

  /** Stopping an idle dashboard changes nothing. */
  lemma StopWhenIdle(s: Scheduler)
    requires s.timer.None?
    ensures Stop(s) == s
  {
  }

  /** Stopping twice is stopping once. */
  lemma StopIdempotent(s: Scheduler)
    ensures Stop(Stop(s)) == Stop(s)
  {
  }

  /** "Apply interval" stops and then starts; since starting stops first anyway, this is
      the same as starting. */
  lemma ApplyIntervalIsStart(s: Scheduler, pollMs: int)
    ensures Start(Stop(s), pollMs) == Start(s, pollMs)
  {
  }

  /** Asking for a two-second period polls every five seconds; a period of five seconds
      or more is used as given. */
  lemma PeriodClamp(s: Scheduler, pollMs: int)
    ensures Start(s, 2000).timer.value.periodMs == 5000
    ensures pollMs >= MinPeriodMs ==> Start(s, pollMs).timer.value.periodMs == pollMs
  {
  }

  /** From a fresh dashboard, any sequence of starts and stops leaves at most one
      interval firing, and none after a final stop. */
  lemma {:induction false} RunKeepsOneTimer(ops: seq<Option<int>>)
    ensures Good(Run(Idle, ops))
    ensures |Run(Idle, ops).live| <= 1
  {
    RunPreservesGood(Idle, ops);
    var r := Run(Idle, ops);
    if r.timer.Some? {
      assert r.live == {r.timer.value};
    }
  }

  /** One call: `Some(pollMs)` is `startPolling` with that setting, `None` is `stopPolling`. */
  function Step(s: Scheduler, op: Option<int>): Scheduler
  {
    match op
    case Some(p) => Start(s, p)
    case None => Stop(s)
  }

  /** Replay a sequence of calls. */
  function Run(s: Scheduler, ops: seq<Option<int>>): Scheduler
    decreases |ops|
  {
    if ops == [] then s
    else
      Run(Step(s, ops[0]), ops[1..])
  }

  /** Every replay from a good state ends in a good state. */
  lemma {:induction false} RunPreservesGood(s: Scheduler, ops: seq<Option<int>>)
    requires Good(s)
    ensures Good(Run(s, ops))
    decreases |ops|
  {
    if ops != [] {
      if ops[0].Some? {
        StartKeepsOneTimer(s, ops[0].value);
      } else {
        StopCancelsAll(s);
      }
      RunPreservesGood(Step(s, ops[0]), ops[1..]);
    }
  }
}
