/**
 Recurring jobs: claim with a lease, stale recovery, fenced reschedule
 (app/core/jobs/worker.py).
 */
module Jobs {
  import opened Common

  type JobId = nat

  /** hostname:pid, which a restarted worker may inherit from a dead one. */
  type WorkerId = nat

  datatype Status = Pending | Running

  /** A row of scheduled_jobs. */
  datatype Job = Job(
    interval: Time, status: Status, nextRunAt: Time, lastRunAt: Option<Time>, lastError: Option<string>,
    runCount: nat, claimedBy: Option<WorkerId>, leaseUntil: Option<Time>)

  type Table = map<JobId, Job>

  const LAST_ERROR_CHARS: nat := 500

  predicate IsStale(j: Job, at: Time) { j.status == Running && (j.leaseUntil.None? || j.leaseUntil.value < at) }

  function Freed(j: Job): Job { j.(status := Pending, claimedBy := None, leaseUntil := None) }

  function Recovered(jobs: Table, at: Time): Table {
    map id | id in jobs :: if IsStale(jobs[id], at) then Freed(jobs[id]) else jobs[id]
  }

  predicate IsClaimable(jobs: Table, id: JobId, at: Time) {
    id in jobs && jobs[id].status == Pending && jobs[id].nextRunAt <= at
  }

  function Claimed(jobs: Table, id: JobId, worker: WorkerId, leaseUntil: Time, at: Time): Table {
    if IsClaimable(jobs, id, at)
    then jobs[id := jobs[id].(status := Running, claimedBy := Some(worker), leaseUntil := Some(leaseUntil))]
    else jobs
  }

  function ErrorKept(error: string): Option<string> {
    if error == "" then None
    else Some(if |error| <= LAST_ERROR_CHARS then error else error[|error| - LAST_ERROR_CHARS..])
  }

  predicate Owns(jobs: Table, id: JobId, worker: WorkerId) { id in jobs && jobs[id].claimedBy == Some(worker) }

  /** "" stands for no error. */
  function Rescheduled(jobs: Table, id: JobId, worker: WorkerId, interval: Time, at: Time, error: string): Table {
    if Owns(jobs, id, worker)
    then jobs[id := Freed(jobs[id]).(
                    nextRunAt := at + interval, lastRunAt := Some(at), lastError := ErrorKept(error),
                    runCount := jobs[id].runCount + 1)]
    else jobs
  }

  function ChangedRows(before: Table, after: Table): set<JobId> {
    set j | j in before && j in after && after[j] != before[j]
  }

  class JobTable {
    var rows: Table

    constructor (rows: Table)
      ensures this.rows == rows
    {
      this.rows := rows;
    }
  }

  class JobWorker {
    const table: JobTable
    const id: WorkerId
    const lease: Time

    constructor (table: JobTable, id: WorkerId, lease: Time)
      ensures this.table == table && this.id == id && this.lease == lease
    {
      this.table, this.id, this.lease := table, id, lease;
    }

    method RecoverStaleJobs(now: Time) returns (recovered: nat)
      modifies table
      ensures table.rows == Recovered(old(table.rows), now)
      ensures recovered == |ChangedRows(old(table.rows), table.rows)|
      ensures forall j :: j in table.rows ==> !IsStale(table.rows[j], now)
    {
      ghost var before := table.rows;
      recovered := |set j | j in table.rows && IsStale(table.rows[j], now)|;
      table.rows := Recovered(table.rows, now);
      RecoveryHeals(before, now);
    }

    /** Phase 1. The lease is reckoned from `leaseFrom`, before the statement runs. */
    method Claim(job: JobId, leaseFrom: Time, now: Time) returns (interval: Option<Time>)
      modifies table
      ensures table.rows == Claimed(old(table.rows), job, id, leaseFrom + lease, now)
      ensures interval == if IsClaimable(old(table.rows), job, now) then Some(old(table.rows)[job].interval) else None
    {
      var leaseUntil := leaseFrom + lease;
      if job !in table.rows { return None; }
      var row := table.rows[job];
      if row.status != Pending || row.nextRunAt > now { return None; }
      table.rows := table.rows[job := row.(status := Running, claimedBy := Some(id), leaseUntil := Some(leaseUntil))];
      return Some(row.interval);
    }

    /** Phase 3; on false the row belongs to somebody else by now. */
    method Reschedule(job: JobId, interval: Time, now: Time, error: string) returns (owned: bool)
      modifies table
      ensures table.rows == Rescheduled(old(table.rows), job, id, interval, now, error)
      ensures owned == Owns(old(table.rows), job, id)
    {
      if job !in table.rows || table.rows[job].claimedBy != Some(id) { return false; }
      var row := table.rows[job];
      table.rows := table.rows[job := row.(
        status := Pending, claimedBy := None, leaseUntil := None, nextRunAt := now + interval,
        lastRunAt := Some(now), runCount := row.runCount + 1, lastError := ErrorKept(error))];
      return true;
    }
  }

  // ----- One job -----

  /** What a worker writes when it claims and when it reschedules: the lease runs from
      its clock, and the job is due again an interval after it ended, with the last
      500 characters of its error, if any. */
  lemma RowsWritten(
    jobs: Table, id: JobId, worker: WorkerId, leaseUntil: Time, interval: Time, at: Time, error: string)
    requires id in jobs
    ensures jobs[id].status == Pending && jobs[id].nextRunAt <= at ==>
              Claimed(jobs, id, worker, leaseUntil, at)
              == jobs[id := jobs[id].(status := Running, claimedBy := Some(worker), leaseUntil := Some(leaseUntil))]
    ensures !(jobs[id].status == Pending && jobs[id].nextRunAt <= at)
        ==> Claimed(jobs, id, worker, leaseUntil, at) == jobs
    ensures jobs[id].claimedBy == Some(worker) ==>
              var kept := if error == "" then None
                          else if |error| <= 500 then Some(error) else Some(error[|error| - 500..]);
              Rescheduled(jobs, id, worker, interval, at, error)
              == jobs[id :=
                  Job(jobs[id].interval, Pending, at + interval, Some(at), kept, jobs[id].runCount + 1, None, None)]
    ensures jobs[id].claimedBy != Some(worker) ==> Rescheduled(jobs, id, worker, interval, at, error) == jobs
  {
  }

  // ----- Many workers -----

  /** An execution of a job by a live worker, between claim and reschedule.
      `ticket` is a history variable: the how-manieth claim of the job it holds. */
  datatype Exec = Exec(job: JobId, leaseFrom: Time, interval: Time, ticket: nat)

  /** `claims` and `recoveries` are history variables, counted per job. */
  datatype World = World(jobs: Table, execs: map<WorkerId, Exec>, now: Time, claims: map<JobId, nat>,
      recoveries: map<JobId, nat>)

  datatype Step =
    | Tick(to: Time)
    | Recover(at: Time)
    | Claim(worker: WorkerId, job: JobId, leaseFrom: Time, at: Time)
    | Reschedule(worker: WorkerId, at: Time, error: string)
    | Die(worker: WorkerId)

  /** Statements commit at `w.now`, with clocks read somewhat earlier. */
  predicate Enabled(w: World, st: Step) {
    match st
    case Tick(to) => w.now <= to
    case Recover(at) => at <= w.now
    case Claim(worker, job, leaseFrom, at) => worker !in w.execs && leaseFrom <= at <= w.now
        && IsClaimable(w.jobs, job, at)
    case Reschedule(worker, at, _) => worker in w.execs && at <= w.now
    case Die(worker) => worker in w.execs
  }

  function Bumped(m: map<JobId, nat>, id: JobId): map<JobId, nat> { m[id := 1 + if id in m then m[id] else 0] }

  function Next(w: World, st: Step, lease: Time): World
    requires Enabled(w, st)
  {
    match st
    case Tick(to) => w.(now := to)
    case Recover(at) =>
      w.(jobs := Recovered(w.jobs, at),
         recoveries := map id | id in w.recoveries ::
           if id in w.jobs && IsStale(w.jobs[id], at) then w.recoveries[id] + 1 else w.recoveries[id])
    case Claim(worker, job, leaseFrom, at) =>
      var claims := Bumped(w.claims, job);
      w.(jobs := Claimed(w.jobs, job, worker, leaseFrom + lease, at),
         execs := w.execs[worker := Exec(job, leaseFrom, w.jobs[job].interval, claims[job])],
         claims := claims)
    case Reschedule(worker, at, error) =>
      var e := w.execs[worker];
      w.(jobs := Rescheduled(w.jobs, e.job, worker, e.interval, at, error), execs := w.execs - {worker})
    case Die(worker) => w.(execs := w.execs - {worker})
  }

  /** Freshly seeded jobs and no worker at work. */
  predicate IsStart(w: World) {
    && w.execs == map[]
    && w.claims.Keys == w.jobs.Keys && w.recoveries.Keys == w.jobs.Keys
    && forall id | id in w.jobs ::
      var j := w.jobs[id];
      j.status == Pending && j.claimedBy.None? && j.leaseUntil.None? && j.runCount == 0 && w.claims[id] == 0
          && w.recoveries[id] == 0
  }

  ghost predicate IsRun(ws: seq<World>, steps: seq<Step>, lease: Time) {
    && |ws| == |steps| + 1 && IsStart(ws[0])
    && forall i :: 0 <= i < |steps| ==> Enabled(ws[i], steps[i]) && ws[i + 1] == Next(ws[i], steps[i], lease)
  }

  // ----- Without any assumption on time -----

  /** RUNNING exactly when owned and leased; then the job is due. */
  predicate RowOk(j: Job, now: Time) {
    && (j.status == Running <==> j.claimedBy.Some?)
    && (j.status == Running <==> j.leaseUntil.Some?)
    && (j.status == Running ==> j.nextRunAt <= now)
  }

  /** Every claim ended in an owned reschedule or in a recovery, or is still held. */
  predicate ClaimsAddUp(j: Job, claims: nat, recoveries: nat) {
    claims == j.runCount + recoveries + if j.status == Running then 1 else 0
  }

  /** claimed_by works as a fencing token: a worker's name on the row means that
      the row is still held by this very claim, not by a later one. */
  predicate Fenced(w: World, worker: WorkerId)
    requires worker in w.execs
  {
    var e := w.execs[worker];
    && e.job in w.jobs && e.job in w.claims && 1 <= e.ticket <= w.claims[e.job]
    && (Owns(w.jobs, e.job, worker) <==> w.jobs[e.job].status == Running && e.ticket == w.claims[e.job])
  }

  ghost predicate RowsAddUp(w: World) {
    && w.claims.Keys == w.jobs.Keys && w.recoveries.Keys == w.jobs.Keys
    && (forall id :: id in w.jobs ==> RowOk(w.jobs[id], w.now))
    && (forall id :: id in w.jobs ==> ClaimsAddUp(w.jobs[id], w.claims[id], w.recoveries[id]))
  }

  ghost predicate Fences(w: World) {
    && (forall x :: x in w.execs ==> Fenced(w, x))
    && (forall x, y ::
        x in w.execs && y in w.execs && x != y && w.execs[x].job == w.execs[y].job ==>
            w.execs[x].ticket != w.execs[y].ticket)
  }

  ghost predicate Consistent(w: World) { RowsAddUp(w) && Fences(w) }

  lemma RowsStayAddedUp(w: World, st: Step, lease: Time)
    requires Enabled(w, st) && Consistent(w)
    ensures RowsAddUp(Next(w, st, lease))
  {
    match st
    case Reschedule(worker, at, error) =>
      var e := w.execs[worker];
      hide Fences, ErrorKept;
      RescheduleAddsUp(w, e.job, worker, e.interval, at, error);
    case _ =>
      hide Fences, ErrorKept, Rescheduled;
  }

  lemma RescheduleAddsUp(w: World, id: JobId, worker: WorkerId, interval: Time, at: Time, error: string)
    requires RowsAddUp(w)
    ensures RowsAddUp(w.(jobs := Rescheduled(w.jobs, id, worker, interval, at, error)))
  {
    hide ErrorKept;
    if Owns(w.jobs, id, worker) {
      assert RowOk(w.jobs[id], w.now) && ClaimsAddUp(w.jobs[id], w.claims[id], w.recoveries[id]);
    }
  }

  lemma StepKeepsFences(w: World, st: Step, lease: Time)
    requires Enabled(w, st) && Consistent(w)
    ensures Fences(Next(w, st, lease))
  {
    hide ClaimsAddUp, ErrorKept;
  }

  lemma StepKeepsConsistent(w: World, st: Step, lease: Time)
    requires Enabled(w, st) && Consistent(w)
    ensures Consistent(Next(w, st, lease))
  {
    hide Next, Enabled, RowsAddUp, Fences;
    RowsStayAddedUp(w, st, lease);
    StepKeepsFences(w, st, lease);
  }

  /** In every state of every run, whatever the timing: RUNNING iff owned iff
      leased; claims == run_count + recoveries + running; and fencing is exact. */
  lemma {:induction false} RunsStayConsistent(ws: seq<World>, steps: seq<Step>, lease: Time, i: nat)
    requires IsRun(ws, steps, lease) && i < |ws|
    ensures Consistent(ws[i])
  {
    hide Next, Enabled;
    if i > 0 {
      RunsStayConsistent(ws, steps, lease, i - 1);
      assert ws[i] == Next(ws[i - 1], steps[i - 1], lease);
      hide Consistent;
      StepKeepsConsistent(ws[i - 1], steps[i - 1], lease);
    }
  }

  /** A worker that lost its row, to a recovery or to a later owner, changes no
      job when it reschedules; one that did not adds exactly one to run_count. */
  lemma LateRescheduleChangesNothing(ws: seq<World>, steps: seq<Step>, lease: Time, i: nat)
    requires IsRun(ws, steps, lease) && i < |steps| && steps[i].Reschedule?
    ensures var e := ws[i].execs[steps[i].worker];
            && e.job in ws[i].jobs && e.job in ws[i].claims
            && var held := ws[i].jobs[e.job].status == Running && e.ticket == ws[i].claims[e.job];
               && (!held ==> ws[i + 1].jobs == ws[i].jobs)
               && (held ==> ws[i + 1].jobs.Keys == ws[i].jobs.Keys
                            && ws[i + 1].jobs[e.job].runCount == ws[i].jobs[e.job].runCount + 1
                            && ws[i + 1].jobs[e.job].nextRunAt == steps[i].at + e.interval
                            && forall id :: id in ws[i].jobs && id != e.job ==> ws[i + 1].jobs[id] == ws[i].jobs[id])
  {
    RunsStayConsistent(ws, steps, lease, i);
    assert Fenced(ws[i], steps[i].worker);
  }

  /** A job that ran is due again one interval later, and whoever runs it will say so. */
  ghost predicate OnSchedule(w: World) {
    && (forall id :: id in w.jobs && w.jobs[id].lastRunAt.Some? ==>
          w.jobs[id].nextRunAt == w.jobs[id].lastRunAt.value + w.jobs[id].interval)
    && (forall x :: x in w.execs ==>
          w.execs[x].job in w.jobs && w.execs[x].interval == w.jobs[w.execs[x].job].interval)
  }

  lemma StepKeepsSchedule(w: World, st: Step, lease: Time)
    requires Enabled(w, st) && OnSchedule(w)
    ensures OnSchedule(Next(w, st, lease))
  {
    hide ErrorKept, IsStale;
  }

  lemma {:induction false} RunsKeepSchedule(ws: seq<World>, steps: seq<Step>, lease: Time, i: nat)
    requires IsRun(ws, steps, lease) && i < |ws|
    requires forall id :: id in ws[0].jobs ==> ws[0].jobs[id].lastRunAt.None?
    ensures OnSchedule(ws[i])
  {
    hide Next, Enabled;
    if i > 0 {
      RunsKeepSchedule(ws, steps, lease, i - 1);
      assert ws[i] == Next(ws[i - 1], steps[i - 1], lease);
      hide OnSchedule;
      StepKeepsSchedule(ws[i - 1], steps[i - 1], lease);
    }
  }

  /** In every run of freshly seeded jobs, recoveries and deaths included: no job is
      claimed again before a whole interval has passed since the end of its last run. */
  lemma JobsWaitTheirInterval(ws: seq<World>, steps: seq<Step>, lease: Time, i: nat)
    requires IsRun(ws, steps, lease) && i < |steps| && steps[i].Claim?
    requires forall id :: id in ws[0].jobs ==> ws[0].jobs[id].lastRunAt.None?
    ensures steps[i].job in ws[i].jobs
    ensures var job := ws[i].jobs[steps[i].job];
            job.lastRunAt.Some? ==> job.lastRunAt.value + job.interval <= steps[i].at <= ws[i].now
  {
    RunsKeepSchedule(ws, steps, lease, i);
    assert Enabled(ws[i], steps[i]);
    hide IsRun;
  }

  /** A job whose worker died is not lost: once its lease is over, a recovery
      makes it claimable at once. */
  lemma DeadJobsComeBack(ws: seq<World>, steps: seq<Step>, lease: Time, i: nat, id: JobId, at: Time)
    requires IsRun(ws, steps, lease) && i < |ws| && id in ws[i].jobs && ws[i].jobs[id].status == Running
    requires at >= ws[i].now
    ensures ws[i].jobs[id].leaseUntil.Some?
    ensures IsClaimable(Recovered(ws[i].jobs, at), id, at) <==> ws[i].jobs[id].leaseUntil.value < at
  {
    RunsStayConsistent(ws, steps, lease, i);
    assert RowOk(ws[i].jobs[id], ws[i].now);
  }

  /** No RUNNING row without a live lease survives a recovery, also not one left
      over from an older version of the table. */
  lemma RecoveryHeals(jobs: Table, at: Time)
    ensures forall id | id in Recovered(jobs, at) && Recovered(jobs, at)[id].status == Running ::
              jobs[id].leaseUntil.Some? && jobs[id].leaseUntil.value >= at && Recovered(jobs, at)[id] == jobs[id]
    ensures Recovered(Recovered(jobs, at), at) == Recovered(jobs, at)
    ensures ChangedRows(jobs, Recovered(jobs, at)) == set j | j in jobs && IsStale(jobs[j], at)
  {
    assert forall j :: j in jobs && IsStale(jobs[j], at) ==> Recovered(jobs, at)[j].status == Pending;
  }

  // ----- With the timing assumption -----

  /** Every live execution is at most `d` old, from the reading of its lease clock
      to the commit of its reschedule. */
  predicate InTime(w: World, d: Time) { forall x :: x in w.execs ==> w.now <= w.execs[x].leaseFrom + d }

  /** No two workers run the same job, and every worker at work holds its row. */
  predicate Exclusive(w: World) {
    && (forall x, y :: x in w.execs && y in w.execs && w.execs[x].job == w.execs[y].job ==> x == y)
    && (forall x :: x in w.execs ==> Owns(w.jobs, w.execs[x].job, x))
  }

  predicate Leased(w: World, lease: Time) {
    forall x | x in w.execs ::
      var e := w.execs[x];
      e.job in w.jobs && w.jobs[e.job].status == Running && w.jobs[e.job].leaseUntil == Some(e.leaseFrom + lease)
  }

  lemma RecoveryKeepsExclusive(w: World, at: Time, lease: Time, d: Time)
    requires at <= w.now && Exclusive(w) && Leased(w, lease) && InTime(w, d) && d <= lease
    ensures var w' := Next(w, Recover(at), lease); Exclusive(w') && Leased(w', lease)
  {
    var w' := Next(w, Recover(at), lease);
    assert forall x :: x in w.execs ==> w.execs[x].job in w.jobs && !IsStale(w.jobs[w.execs[x].job], at);
    assert forall x :: x in w.execs ==> w'.jobs[w.execs[x].job] == w.jobs[w.execs[x].job];
  }

  lemma ClaimKeepsExclusive(w: World, st: Step, lease: Time)
    requires st.Claim? && Enabled(w, st) && Exclusive(w) && Leased(w, lease)
    ensures Exclusive(Next(w, st, lease)) && Leased(Next(w, st, lease), lease)
  {
    assert forall x :: x in w.execs ==> w.execs[x].job != st.job && x != st.worker;
    hide Bumped;
  }

  lemma StepKeepsExclusive(w: World, st: Step, lease: Time, d: Time)
    requires Enabled(w, st) && Exclusive(w) && Leased(w, lease) && InTime(w, d) && d <= lease
    ensures Exclusive(Next(w, st, lease)) && Leased(Next(w, st, lease), lease)
  {
    match st
    case Recover(at) =>
      RecoveryKeepsExclusive(w, at, lease, d);
      hide *;
    case Claim(_, _, _, _) =>
      ClaimKeepsExclusive(w, st, lease);
      hide *;
    case _ =>
      hide ErrorKept, Claimed, Recovered;
  }

  ghost predicate AllInTime(ws: seq<World>, d: Time) { forall i :: 0 <= i < |ws| ==> InTime(ws[i], d) }

  lemma {:induction false} RunsAreExclusive(ws: seq<World>, steps: seq<Step>, lease: Time, d: Time, i: nat)
    requires IsRun(ws, steps, lease) && AllInTime(ws, d) && d <= lease && i < |ws|
    ensures Exclusive(ws[i]) && Leased(ws[i], lease)
  {
    hide Next, Enabled;
    if i > 0 {
      RunsAreExclusive(ws, steps, lease, d, i - 1);
      assert ws[i] == Next(ws[i - 1], steps[i - 1], lease);
      hide Exclusive, Leased;
      StepKeepsExclusive(ws[i - 1], steps[i - 1], lease, d);
    }
  }

  /** Two workers on the same job, when an execution may outlive its lease. */
  lemma LongExecutionsOverlap(lease: Time, d: Time) returns (ws: seq<World>, steps: seq<Step>)
    requires 0 <= lease < d
    ensures IsRun(ws, steps, lease) && AllInTime(ws, d) && |ws| == 5 && !Exclusive(ws[4])
  {
    var job := Job(60, Pending, 0, None, None, 0, None, None);
    var w0 := World(map[0 := job], map[], 0, map[0 := 0], map[0 := 0]);
    steps := [Claim(0, 0, 0, 0), Tick(lease + 1), Recover(lease + 1), Claim(1, 0, lease + 1, lease + 1)];
    var w1 := Next(w0, steps[0], lease);
    var w2 := Next(w1, steps[1], lease);
    var w3 := Next(w2, steps[2], lease);
    var w4 := Next(w3, steps[3], lease);
    ws := [w0, w1, w2, w3, w4];
    assert 0 in w4.execs && 1 in w4.execs && w4.execs[0].job == w4.execs[1].job;
  }

  ghost predicate AlwaysExclusive(lease: Time, d: Time) {
    forall ws, steps, i | IsRun(ws, steps, lease) && AllInTime(ws, d) && 0 <= i < |ws| :: Exclusive(ws[i])
  }

  /** Exactly when the lease covers the longest execution, no job is ever run by
      two workers at once and no live worker loses its row. */
  lemma ExclusiveIffLeaseCovers(lease: Time, d: Time)
    requires lease >= 0
    ensures AlwaysExclusive(lease, d) <==> d <= lease
  {
    if d <= lease {
      forall ws, steps, i | IsRun(ws, steps, lease) && AllInTime(ws, d) && 0 <= i < |ws| ensures Exclusive(ws[i]) {
        RunsAreExclusive(ws, steps, lease, d, i);
      }
    } else {
      var ws, steps := LongExecutionsOverlap(lease, d);
    }
  }

  /** The start-up check on the settings, lease >= 2 * timeout, is enough when
      everything around the handler fits in one more timeout. */
  lemma ValidSettingsAreSafe(lease: Time, timeout: Time, overhead: Time)
    requires timeout >= 0 && lease >= 2 * timeout && overhead <= timeout
    ensures AlwaysExclusive(lease, timeout + overhead)
  {
    ExclusiveIffLeaseCovers(lease, timeout + overhead);
  }
}
