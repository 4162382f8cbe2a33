/**
 The store of asynchronous transcription jobs. Every method but `Sweep` is one region under the
 store's lock; workers, cancellers, the sweeper and new requests interleave between them.
 */
module JobStores {
  import opened Prelude

  datatype JobId = JobId(text: string)

  datatype Status = Processing | Completed(result: string) | Failed(error: string) | Cancelled {
    predicate IsTerminal() { !Processing? }
  }

  datatype Job = Job(status: Status, createdAt: int, completedAt: Option<int>)

  type Jobs = map<JobId, Job>

  datatype CancelOutcome = MarkedCancelled | AlreadyTerminal | NotFound

  // -------------------------------------------------------------------
  // What the operations do
  // -------------------------------------------------------------------

  /** The longest TTL, in milliseconds, that the time library can represent. */
  const MAX_DURATION_MS: nat := 0x7FFF_FFFF_FFFF_FFFF

  /** The first instant of the time library's calendar, in milliseconds since 1970: the start of the year -262143. */
  const EARLIEST_MS: int := -8334601228800000

  /**
   The instant before which completed jobs expire. A TTL that cannot be represented counts as none at
   all; one that reaches back before the calendar makes the subtraction panic, which is `None`.
   */
  function Cutoff(now: int, ttlMs: nat): Option<int> {
    var cutoff := now - if ttlMs <= MAX_DURATION_MS then ttlMs else 0;
    if cutoff < EARLIEST_MS then None else Some(cutoff)
  }

  predicate IsExpired(j: Job, cutoff: int) {
    j.status.IsTerminal() && j.completedAt.Some? && j.completedAt.value <= cutoff
  }

  /**
   At any clock reading within the calendar, a terminal job expires when it is at least as old as the
   TTL, except under a TTL that reaches before the calendar, where the attempt panics, and under one too
   long to represent, where a job completed by now expires before its time.
   */
  lemma ExpiresByAge(j: Job, now: int, ttlMs: nat)
    requires j.status.IsTerminal() && j.completedAt.Some? && now >= -8334601228800000
    ensures Cutoff(now, ttlMs).None? <==> now + 8334601228800000 < ttlMs <= 0x7FFF_FFFF_FFFF_FFFF
    ensures Cutoff(now, ttlMs).Some? ==>
              ((IsExpired(j, Cutoff(now, ttlMs).value) <==> now - j.completedAt.value >= ttlMs) <==>
               !(ttlMs > 0x7FFF_FFFF_FFFF_FFFF && 0 <= now - j.completedAt.value < ttlMs))
  {
  }

  function Expired(jobs: Jobs, cutoff: int): set<JobId> {
    set id | id in jobs && IsExpired(jobs[id], cutoff)
  }

  function Terminal(jobs: Jobs): set<JobId> {
    set id | id in jobs && jobs[id].status.IsTerminal()
  }

  function InFlight(jobs: Jobs): set<JobId> {
    set id | id in jobs && jobs[id].status.Processing?
  }

  /**
   The capacity pass takes `jobs` to `r`: nothing happens at or below the target; above it, just enough
   terminal jobs go, or all there are, and none of them is younger than a terminal job that stays.
   Which of several jobs of the same age go is open.
   */
  ghost predicate CapPass(jobs: Jobs, target: nat, r: Jobs) {
    var gone := jobs.Keys - r.Keys;
    && r.Keys <= jobs.Keys && (forall id :: id in r ==> r[id] == jobs[id])
    && gone <= Terminal(jobs)
    && |gone| == Min(if |jobs| > target then |jobs| - target else 0, |Terminal(jobs)|)
    && (forall a, b :: a in gone && b in Terminal(r) ==> jobs[a].createdAt <= jobs[b].createdAt)
  }

  ghost predicate Swept(jobs: Jobs, target: nat, cutoff: int, r: Jobs) {
    CapPass(jobs - Expired(jobs, cutoff), target, r)
  }

  predicate NeedsWork(jobs: Jobs, max: nat, cutoff: int) {
    |jobs| > max || exists id :: id in jobs && IsExpired(jobs[id], cutoff)
  }

  function AfterFinish(jobs: Jobs, id: JobId, terminal: Status, now: int): Jobs {
    if id in jobs && jobs[id].status.Processing? then jobs[id := jobs[id].(status := terminal, completedAt := Some(now))] else jobs
  }

  function AfterCancel(jobs: Jobs, id: JobId, now: int): Jobs {
    if id in jobs && jobs[id].status.IsTerminal() then jobs - {id} else AfterFinish(jobs, id, Cancelled, now)
  }

  // -------------------------------------------------------------------
  // Facts about a sweep
  // -------------------------------------------------------------------

  lemma TerminalAndInFlight(jobs: Jobs)
    ensures |jobs| == |Terminal(jobs)| + |InFlight(jobs)|
  {
    assert jobs.Keys == Terminal(jobs) + InFlight(jobs);
    assert |jobs.Keys| == |jobs|;
  }

  lemma CapPassSizes(jobs: Jobs, target: nat, r: Jobs)
    requires CapPass(jobs, target, r)
    ensures |r| == |jobs| - |jobs.Keys - r.Keys|
    ensures |jobs.Keys - r.Keys| == |Terminal(jobs)| ==> jobs.Keys - r.Keys == Terminal(jobs)
  {
    var gone := jobs.Keys - r.Keys;
    assert r.Keys == jobs.Keys - gone;
    assert |jobs.Keys| == |jobs| && |r.Keys| == |r|;
    SubsetSize(gone, Terminal(jobs));
  }

  lemma CapPassKeepsInFlight(jobs: Jobs, target: nat, r: Jobs)
    requires CapPass(jobs, target, r)
    ensures InFlight(r) == InFlight(jobs)
  {
    forall id | id in InFlight(jobs) ensures id in r {
      assert id !in Terminal(jobs);
    }
  }

  lemma CapPassMakesRoom(jobs: Jobs, target: nat, r: Jobs)
    requires CapPass(jobs, target, r)
    ensures |r| <= target || Terminal(r) == {}
  {
    CapPassSizes(jobs, target, r);
    if |r| > target {
      var gone := jobs.Keys - r.Keys;
      assert gone == Terminal(jobs);
      assert Terminal(r) <= Terminal(jobs) - gone;
    }
  }

  /** A sweep ends at or below its target unless only jobs in flight are left; those all stay. */
  lemma SweepMakesRoom(jobs: Jobs, target: nat, cutoff: int, r: Jobs)
    requires Swept(jobs, target, cutoff, r)
    ensures |r| <= target || Terminal(r) == {}
    ensures InFlight(r) == InFlight(jobs)
    ensures r.Keys <= jobs.Keys && forall id :: id in r ==> r[id] == jobs[id]
  {
    var kept := jobs - Expired(jobs, cutoff);
    CapPassMakesRoom(kept, target, r);
    CapPassKeepsInFlight(kept, target, r);
    assert InFlight(kept) == InFlight(jobs);
  }

  /**
   Everything expired goes, and of what has not expired only as much as the target then still asks for:
   an unexpired job goes only if the sweep leaves the store at its target or above, and never before an
   older terminal one.
   */
  lemma SweepSparesTheUnexpired(jobs: Jobs, target: nat, cutoff: int, r: Jobs)
    requires Swept(jobs, target, cutoff, r)
    ensures forall id :: id in r ==> id in jobs && !IsExpired(jobs[id], cutoff)
    ensures forall id :: id in jobs && id !in r && !IsExpired(jobs[id], cutoff) ==> jobs[id].status.IsTerminal() && |r| >= target
    ensures forall a, b :: a in jobs && a !in r && !IsExpired(jobs[a], cutoff) && b in r && jobs[b].status.IsTerminal() ==> jobs[a].createdAt <= jobs[b].createdAt
  {
    var kept := jobs - Expired(jobs, cutoff);
    CapPassSizes(kept, target, r);
    forall id | id in jobs && id !in r && !IsExpired(jobs[id], cutoff) ensures jobs[id].status.IsTerminal() && |r| >= target {
      assert id in kept.Keys - r.Keys;
      assert |kept.Keys - r.Keys| > 0;
    }
    forall a, b | a in jobs && a !in r && !IsExpired(jobs[a], cutoff) && b in r && jobs[b].status.IsTerminal() ensures jobs[a].createdAt <= jobs[b].createdAt {
      assert a in kept.Keys - r.Keys && b in Terminal(r);
    }
  }

  lemma CapPassIsIdentity(jobs: Jobs, target: nat, r: Jobs)
    requires CapPass(jobs, target, r)
    ensures r == jobs <==> |jobs| <= target || Terminal(jobs) == {}
  {
    CapPassSizes(jobs, target, r);
    if |jobs| <= target || Terminal(jobs) == {} {
      assert jobs.Keys - r.Keys == {};
    }
  }

  /** A sweep changes nothing exactly when nothing has expired and there is nothing to evict or no need to. */
  lemma SweepIsIdentity(jobs: Jobs, target: nat, cutoff: int, r: Jobs)
    requires Swept(jobs, target, cutoff, r)
    ensures r == jobs <==> Expired(jobs, cutoff) == {} && (|jobs| <= target || Terminal(jobs) == {})
  {
    var kept := jobs - Expired(jobs, cutoff);
    if Expired(jobs, cutoff) == {} {
      assert kept == jobs;
      CapPassIsIdentity(jobs, target, r);
    } else {
      var id :| id in Expired(jobs, cutoff);
      assert id in jobs && id !in kept;
    }
  }

  /** The sweeper's read-locked check never skips a sweep that would have done something. */
  lemma SkippedSweepIsIdentity(jobs: Jobs, max: nat, cutoff: int, r: Jobs)
    requires !NeedsWork(jobs, max, cutoff) && Swept(jobs, max, cutoff, r)
    ensures r == jobs
  {
    assert Expired(jobs, cutoff) == {};
    SweepIsIdentity(jobs, max, cutoff, r);
  }

  // -------------------------------------------------------------------
  // Every run
  // -------------------------------------------------------------------

  datatype Event =
    | Insert(id: JobId, createdAt: int, now: int)
    | Finish(id: JobId, terminal: Status, now: int)
    | Cancel(id: JobId, now: int)
    | Remove(id: JobId)
    | Sweep(now: int)

  datatype Limits = Limits(maxJobs: nat, ttlMs: nat)

  /** `known`: every id ever inserted. `peak`: the most jobs that were ever in flight at once. */
  datatype Store = Store(jobs: Jobs, known: set<JobId>, peak: nat)

  function NewJob(createdAt: int): Job { Job(Processing, createdAt, None) }

  /** The jobs an insert finds room among: swept if the store is full. */
  ghost predicate MadeRoom(jobs: Jobs, now: int, limits: Limits, r: Jobs) {
    if |jobs| >= limits.maxJobs then SweptAt(jobs, Max(limits.maxJobs - 1, 0), now, limits, r) else r == jobs
  }

  /** A sweep at that clock reading, which changes nothing if it panics. */
  ghost predicate SweptAt(jobs: Jobs, target: nat, now: int, limits: Limits, r: Jobs) {
    var cutoff := Cutoff(now, limits.ttlMs);
    if cutoff.Some? then Swept(jobs, target, cutoff.value, r) else r == jobs
  }

  /** The insert sweeps first, and that sweep panics. */
  predicate InsertPanics(jobs: Jobs, now: int, limits: Limits) {
    |jobs| >= limits.maxJobs && Cutoff(now, limits.ttlMs).None?
  }

  ghost predicate Inserted(jobs: Jobs, id: JobId, job: Job, now: int, limits: Limits, r: Jobs) {
    if InsertPanics(jobs, now, limits) then r == jobs
    else exists m :: MadeRoom(jobs, now, limits, m) && r == m[id := job]
  }

  /** Requests insert only jobs that are processing, under fresh ids; workers finish with a terminal status. */
  ghost predicate JobsStep(s: Store, e: Event, limits: Limits, r: Jobs) {
    match e
    case Insert(id, createdAt, now) => id !in s.known && Inserted(s.jobs, id, NewJob(createdAt), now, limits, r)
    case Finish(id, terminal, now) => terminal.IsTerminal() && r == AfterFinish(s.jobs, id, terminal, now)
    case Cancel(id, now) => r == AfterCancel(s.jobs, id, now)
    case Remove(id) => r == s.jobs - {id}
    case Sweep(now) => SweptAt(s.jobs, limits.maxJobs, now, limits, r)
  }

  ghost predicate Step(s: Store, e: Event, limits: Limits, t: Store) {
    && JobsStep(s, e, limits, t.jobs)
    && t.known == s.known + (if e.Insert? then {e.id} else {})
    && t.peak == Max(s.peak, |InFlight(t.jobs)|)
  }

  ghost predicate Run(states: seq<Store>, events: seq<Event>, limits: Limits) {
    && |states| == |events| + 1
    && states[0] == Store(map[], {}, 0)
    && forall i {:trigger events[i]} :: 0 <= i < |events| ==> Step(states[i], events[i], limits, states[i + 1])
  }

  /** A completion time is set exactly on the terminal jobs. */
  ghost predicate Stamped(jobs: Jobs) {
    forall id :: id in jobs ==> (jobs[id].completedAt.Some? <==> jobs[id].status.IsTerminal())
  }

  ghost predicate Inv(s: Store, limits: Limits) {
    && s.jobs.Keys <= s.known
    && Stamped(s.jobs)
    && |InFlight(s.jobs)| <= s.peak
    && |s.jobs| <= Max(limits.maxJobs, s.peak)
  }

  /** A job that is there before and after a step is the same, or was processing and is now stamped terminal. */
  ghost predicate Ages(a: Job, b: Job) {
    b == a || (a.status.Processing? && b.status.IsTerminal() && b.completedAt.Some? && b.createdAt == a.createdAt)
  }

  /** No job is new, and each that is still there has aged at most once. */
  ghost predicate OnlyAges(jobs: Jobs, r: Jobs) {
    r.Keys <= jobs.Keys && forall id :: id in r ==> Ages(jobs[id], r[id])
  }

  lemma RoomKeeps(jobs: Jobs, now: int, limits: Limits, m: Jobs)
    requires MadeRoom(jobs, now, limits, m) && !InsertPanics(jobs, now, limits)
    ensures m.Keys <= jobs.Keys && forall id :: id in m ==> m[id] == jobs[id]
    ensures |m| < limits.maxJobs || Terminal(m) == {}
  {
    if |jobs| >= limits.maxJobs {
      SweepMakesRoom(jobs, Max(limits.maxJobs - 1, 0), Cutoff(now, limits.ttlMs).value, m);
      if limits.maxJobs == 0 && |m| == 0 {
        assert |m.Keys| == 0;
      }
    }
  }

  lemma Fewer(jobs: Jobs, r: Jobs)
    requires r.Keys <= jobs.Keys
    ensures |r| <= |jobs|
  {
    SubsetSize(r.Keys, jobs.Keys);
    assert |r| == |r.Keys| && |jobs.Keys| == |jobs|;
  }

  lemma InsertFits(m: Jobs, id: JobId, createdAt: int, max: nat)
    requires id !in m && (|m| < max || Terminal(m) == {})
    ensures var r := m[id := NewJob(createdAt)]; |r| <= Max(max, |InFlight(r)|)
  {
    var r := m[id := NewJob(createdAt)];
    MapGrows(m, id, NewJob(createdAt));
    TerminalAndInFlight(r);
    if Terminal(m) == {} {
      assert Terminal(r) == {} by {
        assert forall x :: x in Terminal(r) ==> x in Terminal(m);
      }
    }
  }

  /** An insert adds its job, unless it panics, and evicts others but changes none. */
  lemma InsertKeeps(jobs: Jobs, id: JobId, job: Job, now: int, limits: Limits, r: Jobs)
    requires Inserted(jobs, id, job, now, limits, r)
    ensures !InsertPanics(jobs, now, limits) ==> id in r && r[id] == job
    ensures InsertPanics(jobs, now, limits) ==> r == jobs
    ensures forall x :: x in r && x != id ==> x in jobs && r[x] == jobs[x]
  {
    if !InsertPanics(jobs, now, limits) {
      var m :| MadeRoom(jobs, now, limits, m) && r == m[id := job];
      RoomKeeps(jobs, now, limits, m);
    }
  }

  lemma SweptForRoom(jobs: Jobs, id: JobId, job: Job, cutoff: int, max: nat, m: Jobs, x: JobId)
    requires id !in jobs && Swept(jobs, Max(max - 1, 0), cutoff, m) && x in jobs && x !in m
    ensures jobs[x].status.IsTerminal() && (IsExpired(jobs[x], cutoff) || |m[id := job]| >= max)
  {
    SweepSparesTheUnexpired(jobs, Max(max - 1, 0), cutoff, m);
    SweepMakesRoom(jobs, Max(max - 1, 0), cutoff, m);
    MapGrows(m, id, job);
  }

  /** A store with room loses nothing to an insert; a full one loses what has expired, and beyond that only as much as leaves it full. */
  lemma InsertEvictsJustEnough(jobs: Jobs, id: JobId, job: Job, now: int, limits: Limits, r: Jobs, x: JobId)
    requires id !in jobs && Inserted(jobs, id, job, now, limits, r)
    ensures |jobs| < limits.maxJobs ==> r == jobs[id := job]
    ensures x in jobs && x !in r ==>
              && Cutoff(now, limits.ttlMs).Some? && jobs[x].status.IsTerminal()
              && (IsExpired(jobs[x], Cutoff(now, limits.ttlMs).value) || |r| >= limits.maxJobs)
  {
    if |jobs| < limits.maxJobs {
      assert MadeRoom(jobs, now, limits, jobs);
    } else if Cutoff(now, limits.ttlMs).Some? && x in jobs && x !in r {
      var m :| MadeRoom(jobs, now, limits, m) && r == m[id := job];
      SweptForRoom(jobs, id, job, Cutoff(now, limits.ttlMs).value, limits.maxJobs, m, x);
    }
  }

  lemma InsertHasRoom(jobs: Jobs, id: JobId, createdAt: int, now: int, limits: Limits, r: Jobs)
    requires id !in jobs && Inserted(jobs, id, NewJob(createdAt), now, limits, r) && !InsertPanics(jobs, now, limits)
    ensures |r| <= Max(limits.maxJobs, |InFlight(r)|)
  {
    var m :| MadeRoom(jobs, now, limits, m) && r == m[id := NewJob(createdAt)];
    RoomKeeps(jobs, now, limits, m);
    InsertFits(m, id, createdAt, limits.maxJobs);
  }

  /** Every other step only removes jobs and stamps them. */
  lemma OtherStepsKeep(s: Store, e: Event, limits: Limits, r: Jobs)
    requires JobsStep(s, e, limits, r) && !e.Insert?
    ensures OnlyAges(s.jobs, r)
  {
    if e.Sweep? && Cutoff(e.now, limits.ttlMs).Some? {
      SweepMakesRoom(s.jobs, limits.maxJobs, Cutoff(e.now, limits.ttlMs).value, r);
    }
  }

  lemma InsertKeepsInv(s: Store, e: Event, limits: Limits, t: Store)
    requires Inv(s, limits) && Step(s, e, limits, t) && e.Insert?
    ensures Inv(t, limits)
  {
    InsertKeeps(s.jobs, e.id, NewJob(e.createdAt), e.now, limits, t.jobs);
    if !InsertPanics(s.jobs, e.now, limits) {
      InsertHasRoom(s.jobs, e.id, e.createdAt, e.now, limits, t.jobs);
    }
  }

  lemma AgingKeepsInv(s: Store, limits: Limits, t: Store)
    requires Inv(s, limits) && OnlyAges(s.jobs, t.jobs) && t.known == s.known && t.peak == Max(s.peak, |InFlight(t.jobs)|)
    ensures Inv(t, limits)
  {
    Fewer(s.jobs, t.jobs);
  }

  lemma StepKeepsInv(s: Store, e: Event, limits: Limits, t: Store)
    requires Inv(s, limits) && Step(s, e, limits, t)
    ensures Inv(t, limits)
  {
    if e.Insert? {
      InsertKeepsInv(s, e, limits, t);
    } else {
      OtherStepsKeep(s, e, limits, t.jobs);
      AgingKeepsInv(s, limits, t);
    }
  }

  /** From `s` to a later `t`: if the job is still there it has aged at most once, and if it was gone it stays gone. */
  ghost predicate Since(s: Store, t: Store, id: JobId) {
    && (id in s.jobs && id in t.jobs ==> Ages(s.jobs[id], t.jobs[id]))
    && (id in s.known && id !in s.jobs ==> id !in t.jobs)
    && s.known <= t.known && s.jobs.Keys <= s.known
  }

  lemma StepIsSince(s: Store, e: Event, limits: Limits, t: Store, id: JobId)
    requires s.jobs.Keys <= s.known && Step(s, e, limits, t)
    ensures Since(s, t, id)
  {
    if e.Insert? {
      InsertKeeps(s.jobs, e.id, NewJob(e.createdAt), e.now, limits, t.jobs);
    } else {
      OtherStepsKeep(s, e, limits, t.jobs);
    }
  }

  /** A worker's result lands exactly on a job still processing, with its time, and touches no other. */
  lemma ResultLands(s: Store, id: JobId, terminal: Status, now: int, limits: Limits, t: Store)
    requires Step(s, Finish(id, terminal, now), limits, t)
    ensures t.jobs.Keys == s.jobs.Keys && forall other :: other in s.jobs && other != id ==> t.jobs[other] == s.jobs[other]
    ensures id in s.jobs ==> t.jobs[id] == if s.jobs[id].status == Processing then Job(terminal, s.jobs[id].createdAt, Some(now)) else s.jobs[id]
  {
  }

  /** A cancel ends a processing job as cancelled and makes a finished one go. */
  lemma CancelEnds(s: Store, id: JobId, now: int, limits: Limits, t: Store)
    requires Step(s, Cancel(id, now), limits, t)
    ensures forall other :: other != id ==> (other in t.jobs <==> other in s.jobs) && (other in s.jobs ==> t.jobs[other] == s.jobs[other])
    ensures id in t.jobs <==> id in s.jobs && s.jobs[id].status == Processing
    ensures id in t.jobs ==> t.jobs[id] == Job(Cancelled, s.jobs[id].createdAt, Some(now))
  {
  }

  lemma SinceTransitively(s: Store, t: Store, u: Store, id: JobId)
    requires Since(s, t, id) && Since(t, u, id)
    ensures Since(s, u, id)
  {
  }

  lemma StepOfRun(states: seq<Store>, events: seq<Event>, limits: Limits, i: nat)
    requires Run(states, events, limits) && 0 < i < |states|
    ensures Step(states[i - 1], events[i - 1], limits, states[i])
  {
    var e := events[i - 1];
  }

  lemma {:induction false} RunKeepsInv(states: seq<Store>, events: seq<Event>, limits: Limits, i: nat)
    requires Run(states, events, limits) && i < |states|
    ensures Inv(states[i], limits)
  {
    if i > 0 {
      RunKeepsInv(states, events, limits, i - 1);
      StepOfRun(states, events, limits, i);
      StepKeepsInv(states[i - 1], events[i - 1], limits, states[i]);
    }
  }

  lemma PeakAfterStep(states: seq<Store>, events: seq<Event>, limits: Limits, i: nat)
    requires Run(states, events, limits) && 0 < i < |states|
    ensures states[i].peak == Max(states[i - 1].peak, |InFlight(states[i].jobs)|)
  {
    StepOfRun(states, events, limits, i);
  }

  function FlightOf(s: Store): nat { |InFlight(s.jobs)| }

  /** The peak is no more than was once in flight. */
  lemma {:induction false} PeakWasReached(states: seq<Store>, events: seq<Event>, limits: Limits, i: nat) returns (j: nat)
    requires Run(states, events, limits) && i < |states|
    ensures j <= i && FlightOf(states[j]) == states[i].peak
  {
    if i == 0 {
      j := 0;
      assert InFlight(states[0].jobs) == {};
    } else {
      PeakAfterStep(states, events, limits, i);
      j := PeakWasReached(states, events, limits, i - 1);
      if FlightOf(states[i]) > FlightOf(states[j]) {
        j := i;
      }
    }
  }

  /** In every reachable state: at most the limit, or the most that were ever in flight at once; a time exactly on terminal jobs. */
  lemma StoreOverEveryRun(states: seq<Store>, events: seq<Event>, limits: Limits, i: nat)
    requires Run(states, events, limits) && i < |states|
    ensures |states[i].jobs| <= Max(limits.maxJobs, states[i].peak)
    ensures Stamped(states[i].jobs)
  {
    RunKeepsInv(states, events, limits, i);
  }

  lemma KnownOverRun(states: seq<Store>, events: seq<Event>, limits: Limits, i: nat)
    requires Run(states, events, limits) && i < |states|
    ensures states[i].jobs.Keys <= states[i].known
  {
    RunKeepsInv(states, events, limits, i);
  }

  lemma RunStepIsSince(states: seq<Store>, events: seq<Event>, limits: Limits, i: nat, id: JobId)
    requires Run(states, events, limits) && 0 < i < |states|
    ensures Since(states[i - 1], states[i], id)
  {
    KnownOverRun(states, events, limits, i - 1);
    StepOfRun(states, events, limits, i);
    StepIsSince(states[i - 1], events[i - 1], limits, states[i], id);
  }

  lemma {:induction false} JobAgesOnce(states: seq<Store>, events: seq<Event>, limits: Limits, i: nat, j: nat, id: JobId)
    requires Run(states, events, limits) && i <= j < |states|
    ensures Since(states[i], states[j], id)
    decreases j
  {
    if i == j {
      RunKeepsInv(states, events, limits, i);
    } else {
      JobAgesOnce(states, events, limits, i, j - 1, id);
      RunStepIsSince(states, events, limits, j, id);
      SinceTransitively(states[i], states[j - 1], states[j], id);
    }
  }

  /**
   Once terminal, always terminal: after a job has completed, failed or been cancelled it never reads
   differently again. In particular a cancelled job is never turned into a completed or failed one.
   */
  lemma TerminalIsFinal(states: seq<Store>, events: seq<Event>, limits: Limits, i: nat, j: nat, id: JobId)
    requires Run(states, events, limits) && i <= j < |states|
    requires id in states[i].jobs && states[i].jobs[id].status.IsTerminal() && id in states[j].jobs
    ensures states[j].jobs[id] == states[i].jobs[id]
  {
    JobAgesOnce(states, events, limits, i, j, id);
  }

  /** A job's status changes at most once over a run, and only from processing. */
  lemma StatusChangesOnce(states: seq<Store>, events: seq<Event>, limits: Limits, i: nat, j: nat, k: nat, id: JobId)
    requires Run(states, events, limits) && i <= j <= k < |states|
    requires id in states[i].jobs && id in states[k].jobs
    ensures id in states[j].jobs
    ensures states[i].jobs[id].status != states[j].jobs[id].status ==>
              states[i].jobs[id].status.Processing? && states[k].jobs[id] == states[j].jobs[id]
  {
    RunKeepsInv(states, events, limits, i);
    JobAgesOnce(states, events, limits, i, j, id);
    JobAgesOnce(states, events, limits, j, k, id);
  }

  // -------------------------------------------------------------------
  // The store as written
  // -------------------------------------------------------------------

  datatype Entry = Entry(id: JobId, createdAt: int)

  function EntryAge(e: Entry): int { e.createdAt }

  function EntryIds(s: seq<Entry>): set<JobId> {
    set e | e in s :: e.id
  }

  /** Every terminal job once. */
  ghost predicate ListsTerminal(jobs: Jobs, s: seq<Entry>) {
    && (forall e :: e in s <==> e.id in Terminal(jobs) && e.createdAt == jobs[e.id].createdAt)
    && |s| == |Terminal(jobs)|
  }

  lemma {:induction false} AtMostOneEach(s: seq<Entry>)
    ensures |EntryIds(s)| <= |s|
  {
    if s != [] {
      AtMostOneEach(s[1..]);
      assert s == [s[0]] + s[1..];
      assert EntryIds(s) == EntryIds(s[1..]) + {s[0].id};
    }
  }

  /** A listing as long as the set it lists repeats nothing, so each prefix has as many ids as entries. */
  lemma PrefixSize(s: seq<Entry>, n: nat)
    requires n <= |s| && |EntryIds(s)| == |s|
    ensures |EntryIds(s[..n])| == n
    ensures EntryIds(s[..n]) !! EntryIds(s[n..])
  {
    AtMostOneEach(s[..n]);
    AtMostOneEach(s[n..]);
    assert s == s[..n] + s[n..];
    var a, b := EntryIds(s[..n]), EntryIds(s[n..]);
    assert EntryIds(s) == a + b;
    assert |a + b| == |a| + |b| - |a * b|;
    forall id | id in a ensures id !in b {
      assert a * b == {};
      assert id !in a * b;
    }
  }

  lemma SortedListing(jobs: Jobs, s: seq<Entry>)
    requires ListsTerminal(jobs, s)
    ensures ListsTerminal(jobs, SortBy(s, EntryAge)) && Ascends(SortBy(s, EntryAge), EntryAge)
    ensures EntryIds(SortBy(s, EntryAge)) == Terminal(jobs)
  {
    SortBySorts(s, EntryAge);
    var t := SortBy(s, EntryAge);
    forall e ensures e in t <==> e in s {
      assert e in multiset(t) <==> e in multiset(s);
    }
    forall id | id in Terminal(jobs) ensures id in EntryIds(t) {
      assert Entry(id, jobs[id].createdAt) in t;
    }
  }

  /** Dropping the first `n` of the sorted terminal jobs is what the capacity pass allows. */
  lemma OldestFirst(jobs: Jobs, s: seq<Entry>, target: nat, n: nat)
    requires ListsTerminal(jobs, s) && Ascends(s, EntryAge) && EntryIds(s) == Terminal(jobs)
    requires |jobs| > target && n == Min(|jobs| - target, |s|)
    ensures CapPass(jobs, target, jobs - EntryIds(s[..n]))
  {
    PrefixSize(s, n);
    var r := jobs - EntryIds(s[..n]);
    var gone := jobs.Keys - r.Keys;
    assert s == s[..n] + s[n..];
    assert EntryIds(s[..n]) <= EntryIds(s);
    assert gone == EntryIds(s[..n]);
    forall a, b | a in gone && b in Terminal(r) ensures jobs[a].createdAt <= jobs[b].createdAt {
      OlderEntry(jobs, s, n, a, b);
    }
  }

  lemma OlderEntry(jobs: Jobs, s: seq<Entry>, n: nat, a: JobId, b: JobId)
    requires ListsTerminal(jobs, s) && Ascends(s, EntryAge) && n <= |s|
    requires a in EntryIds(s[..n]) && b in Terminal(jobs) && b !in EntryIds(s[..n])
    ensures a in jobs && jobs[a].createdAt <= jobs[b].createdAt
  {
    var x :| x in s[..n] && x.id == a;
    var y := Entry(b, jobs[b].createdAt);
    assert x in s && y in s;
    var i :| 0 <= i < n && s[i] == x;
    assert forall h :: 0 <= h < n ==> s[h] in s[..n];
    var j :| 0 <= j < |s| && s[j] == y;
    assert EntryAge(s[i]) <= EntryAge(s[j]);
  }

  class JobStore {
    const limits: Limits
    var jobs: Jobs

    constructor (maxJobs: nat, ttlMs: nat)
      ensures jobs == map[] && limits == Limits(maxJobs, ttlMs)
    {
      limits, jobs := Limits(maxJobs, ttlMs), map[];
    }

    /** The terminal jobs, in whatever order the map gives them. */
    method ListTerminal() returns (s: seq<Entry>)
      ensures ListsTerminal(jobs, s)
    {
      s := [];
      var rest := Terminal(jobs);
      while rest != {}
        invariant rest <= Terminal(jobs)
        invariant forall e :: e in s <==> e.id in Terminal(jobs) - rest && e.createdAt == jobs[e.id].createdAt
        invariant |s| + |rest| == |Terminal(jobs)|
        decreases |rest|
      {
        var id :| id in rest;
        s := s + [Entry(id, jobs[id].createdAt)];
        rest := rest - {id};
      }
    }

    /** The terminal jobs, oldest first. */
    method SortedTerminal() returns (s: seq<Entry>)
      ensures ListsTerminal(jobs, s) && Ascends(s, EntryAge) && EntryIds(s) == Terminal(jobs)
    {
      var listed := ListTerminal();
      s := SortBy(listed, EntryAge);
      SortedListing(jobs, listed);
    }

    /** Both passes under the write lock, unless the subtraction panics. */
    method SweepLocked(target: nat, now: int) returns (done: bool)
      modifies this`jobs
      ensures done == Cutoff(now, limits.ttlMs).Some? && SweptAt(old(jobs), target, now, limits, jobs)
    {
      var cutoff := Cutoff(now, limits.ttlMs);
      if cutoff.None? {
        return false;
      }
      done := true;
      jobs := jobs - Expired(jobs, cutoff.value);
      if |jobs| <= target {
        RoomAlready(jobs, target);
      } else {
        EvictOldest(target);
      }
    }

    /** Remove the first `excess` of the jobs listed, or all of them. */
    method RemoveFirst(listed: seq<Entry>, excess: nat)
      modifies this`jobs
      ensures jobs == old(jobs) - EntryIds(listed[..Min(excess, |listed|)])
    {
      var i := 0;
      NoEntryYet(jobs, listed);
      while i < |listed| && i < excess
        invariant 0 <= i <= |listed| && i <= excess
        invariant jobs == old(jobs) - EntryIds(listed[..i])
      {
        OneEntryMore(old(jobs), listed, i);
        jobs := jobs - {listed[i].id};
        i := i + 1;
      }
    }

    /** The capacity pass over a store that is too full. */
    method EvictOldest(target: nat)
      requires |jobs| > target
      modifies this`jobs
      ensures CapPass(old(jobs), target, jobs)
    {
      var terminal := SortedTerminal();
      var excess := |jobs| - target;
      OldestFirst(jobs, terminal, target, Min(excess, |terminal|));
      RemoveFirst(terminal, excess);
    }

    /** A full store is swept down to one below its limit before the job goes in. */
    method Insert(id: JobId, job: Job, now: int) returns (done: bool)
      modifies this`jobs
      ensures done == !InsertPanics(old(jobs), now, limits) && Inserted(old(jobs), id, job, now, limits, jobs)
    {
      done := true;
      if |jobs| >= limits.maxJobs {
        done := SweepLocked(Max(limits.maxJobs - 1, 0), now);
        if !done {
          return;
        }
      }
      assert MadeRoom(old(jobs), now, limits, jobs);
      jobs := jobs[id := job];
    }

    method Finish(id: JobId, terminal: Status, now: int)
      modifies this`jobs
      ensures jobs == AfterFinish(old(jobs), id, terminal, now)
      ensures id in old(jobs) && old(jobs)[id].status == Processing ==> jobs == old(jobs)[id := Job(terminal, old(jobs)[id].createdAt, Some(now))]
      ensures !(id in old(jobs) && old(jobs)[id].status == Processing) ==> jobs == old(jobs)
    {
      if id in jobs {
        var job := jobs[id];
        if job.status.Processing? {
          jobs := jobs[id := job.(status := terminal, completedAt := Some(now))];
        }
      }
    }

    method Cancel(id: JobId, now: int) returns (r: CancelOutcome)
      modifies this`jobs
      ensures jobs == AfterCancel(old(jobs), id, now)
      ensures r == NotFound ==> jobs == old(jobs)
      ensures r == MarkedCancelled ==> id in old(jobs) && jobs == old(jobs)[id := Job(Cancelled, old(jobs)[id].createdAt, Some(now))]
      ensures r == AlreadyTerminal ==> jobs == old(jobs) - {id}
      ensures r == if id !in old(jobs) then NotFound else if old(jobs)[id].status.Processing? then MarkedCancelled else AlreadyTerminal
    {
      if id !in jobs {
        return NotFound;
      }
      if jobs[id].status.Processing? {
        jobs := jobs[id := jobs[id].(status := Cancelled, completedAt := Some(now))];
        return MarkedCancelled;
      }
      jobs := jobs - {id};
      r := AlreadyTerminal;
    }

    method Remove(id: JobId) returns (existed: bool)
      modifies this`jobs
      ensures jobs == old(jobs) - {id} && existed == (id in old(jobs))
    {
      existed := id in jobs;
      jobs := jobs - {id};
    }

    /** The periodic sweep's look under the read lock; `None` when the subtraction before it panics. */
    method NeedsSweep(now: int) returns (needed: Option<bool>)
      ensures needed.Some? == Cutoff(now, limits.ttlMs).Some?
      ensures needed.Some? ==> (needed.value <==> NeedsWork(jobs, limits.maxJobs, Cutoff(now, limits.ttlMs).value))
      ensures needed == Some(false) ==> SweptAt(jobs, limits.maxJobs, now, limits, jobs)
    {
      var cutoff := Cutoff(now, limits.ttlMs);
      if cutoff.None? {
        return None;
      }
      var found := |jobs| > limits.maxJobs;
      var rest := jobs.Keys;
      while !found && rest != {}
        invariant rest <= jobs.Keys
        invariant found ==> NeedsWork(jobs, limits.maxJobs, cutoff.value)
        invariant !found ==> |jobs| <= limits.maxJobs && forall id :: id in jobs && id !in rest ==> !IsExpired(jobs[id], cutoff.value)
        decreases |rest|
      {
        var id :| id in rest;
        found := IsExpired(jobs[id], cutoff.value);
        rest := rest - {id};
      }
      if !found {
        NoSweepNeeded(jobs, limits.maxJobs, cutoff.value);
      }
      needed := Some(found);
    }

    /** The periodic sweep: that look, and if it finds work the sweep under the write lock, with nothing in between; the clock may move on. */
    method Sweep(checkedAt: int, now: int) returns (done: bool)
      modifies this`jobs
      ensures if Cutoff(checkedAt, limits.ttlMs).None? then !done && jobs == old(jobs)
              else if NeedsWork(old(jobs), limits.maxJobs, Cutoff(checkedAt, limits.ttlMs).value)
              then done == Cutoff(now, limits.ttlMs).Some? && SweptAt(old(jobs), limits.maxJobs, now, limits, jobs)
              else done && jobs == old(jobs)
    {
      var needed := NeedsSweep(checkedAt);
      if needed.None? {
        return false;
      }
      done := true;
      if needed.value {
        done := SweepLocked(limits.maxJobs, now);
      }
    }
  }

  lemma NoSweepNeeded(jobs: Jobs, max: nat, cutoff: int)
    requires !NeedsWork(jobs, max, cutoff)
    ensures Swept(jobs, max, cutoff, jobs)
  {
    assert Expired(jobs, cutoff) == {};
    assert jobs - {} == jobs;
    RoomAlready(jobs, max);
  }

  lemma RoomAlready(jobs: Jobs, target: nat)
    requires |jobs| <= target
    ensures CapPass(jobs, target, jobs)
  {
    assert jobs.Keys - jobs.Keys == {};
  }

  lemma NoEntryYet(kept: Jobs, s: seq<Entry>)
    ensures kept - EntryIds(s[..0]) == kept
  {
    assert EntryIds(s[..0]) == {};
  }

  lemma OneEntryMore(kept: Jobs, s: seq<Entry>, i: nat)
    requires i < |s|
    ensures kept - EntryIds(s[..i + 1]) == (kept - EntryIds(s[..i])) - {s[i].id}
  {
    assert s[..i + 1] == s[..i] + [s[i]];
    assert EntryIds(s[..i + 1]) == EntryIds(s[..i]) + {s[i].id};
  }
}
