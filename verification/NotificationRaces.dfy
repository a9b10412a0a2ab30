/**
 When exactly the promises of the delivery job hold, and the runs that break them
 otherwise (app/notifications/repos/delivery.py, app/notifications/use_cases,
 app/core/jobs/handlers/notifications_deliver.py).
 */
module NotificationRaces {
  import opened Common
  import opened NotificationTables
  import opened DeliveryStatements
  import opened Deliver
  import opened NotificationRuns
  import opened DeliveryLeases
  import opened LoneSubscription
  import opened Matching
  import Jobs

  // ----- How far the lease carries -----

  /** Every live delivery run is younger than `d`. */
  predicate Within(w: World, d: Time) { forall r :: r in w.runs ==> w.now < w.runs[r].claimedAt + d }

  ghost predicate AllWithin(ws: seq<World>, d: Time) { forall i: nat :: i < |ws| ==> Within(ws[i], d) }

  /** The step resumes a subscription whose claim is in flight. */
  ghost predicate ResumesInFlight(w: World, st: Step) {
    st.Resume? && exists r, i :: InFlight(w, r, i) && ClaimAt(w, r, i).sub == st.sub
  }

  ghost predicate NoneResumed(ws: seq<World>, steps: seq<Step>) {
    |ws| == |steps| + 1 && forall i: nat :: i < |steps| ==> !ResumesInFlight(ws[i], steps[i])
  }

  /** In all runs whose deliveries end within `d` of their claim, with resumes in
      flight or without, no subscription is in two claims at once. */
  ghost predicate AlwaysExclusive(cfg: Settings, d: Time, resumes: bool) {
    forall ws, steps, i: nat | IsRun(ws, steps, cfg) && AllWithin(ws, d) && (resumes || NoneResumed(ws, steps))
        && i < |ws| ::
      Exclusive(ws[i])
  }

  lemma PromptRunsAreOrderly(ws: seq<World>, steps: seq<Step>, cfg: Settings, d: Time)
    requires IsRun(ws, steps, cfg) && AllWithin(ws, d) && d <= LEASE && NoneResumed(ws, steps)
    ensures IsOrderlyRun(ws, steps, cfg)
  {
    forall i | 0 <= i < |steps| ensures Orderly(ws[i], steps[i]) {
      StepOf(ws, steps, cfg, i);
      assert Within(ws[i + 1], d) && !ResumesInFlight(ws[i], steps[i]);
      hide IsRun, AllWithin, NoneResumed, Enabled;
    }
  }

  lemma WithinGrows(ws: seq<World>, w: World, d: Time)
    requires AllWithin(ws, d) && Within(w, d)
    ensures AllWithin(ws + [w], d)
  {
    hide Within;
  }

  lemma NoneResumedGrows(ws: seq<World>, steps: seq<Step>, w: World, st: Step)
    requires NoneResumed(ws, steps) && !ResumesInFlight(ws[|steps|], st)
    ensures NoneResumed(ws + [w], steps + [st])
  {
    hide ResumesInFlight;
    forall i: nat | i < |steps| + 1 ensures !ResumesInFlight((ws + [w])[i], (steps + [st])[i]) {
      if i < |steps| { assert !ResumesInFlight(ws[i], steps[i]); }
    }
  }

  /** Two claims of the one subscription in flight, of the runs 0 and 1. */
  lemma TwoClaimsAreNotExclusive(w: World)
    requires InFlight(w, 0, 0) && InFlight(w, 1, 0) && ClaimAt(w, 0, 0).sub == ClaimAt(w, 1, 0).sub
    ensures !Exclusive(w)
  {
  }

  lemma LeaseIsPositive()
    ensures LEASE > 0
  {
  }

  /** Nothing in flight yet. */
  lemma IdleIsWithin(ws: seq<World>, steps: seq<Step>, d: Time)
    requires |ws| == |steps| + 1 && forall i: nat :: i < |ws| ==> ws[i].runs == map[]
    requires forall i: nat :: i < |steps| ==> !steps[i].Resume?
    ensures AllWithin(ws, d) && NoneResumed(ws, steps)
  {
  }

  lemma ClaimStaysWithin(w: World, cfg: Settings, d: Time)
    requires Lone(w) && cfg.limit >= 1 && Within(w, d) && d > 0
    ensures Enabled(w, CLAIM, cfg) && Within(Next(w, CLAIM, cfg), d) && !ResumesInFlight(w, CLAIM)
  {
    LoneClaim(w, cfg);
    hide Next, Enabled;
  }

  /** A minute passes with the claim in flight: its subscription is free again. */
  lemma MinutePasses(w: World, cfg: Settings, d: Time)
    requires Lone(w) && cfg.limit >= 1 && w.now == 0 && w.runs == map[] && d > LEASE && Enabled(w, CLAIM, cfg)
    ensures var w1 := Next(w, CLAIM, cfg);
            && Enabled(w1, Tick(60), cfg) && !ResumesInFlight(w1, Tick(60))
            && Lone(Next(w1, Tick(60), cfg)) && Within(Next(w1, Tick(60), cfg), d)
            && Next(w1, Tick(60), cfg).runs == w1.runs && Next(w1, Tick(60), cfg).nextRun == w1.nextRun
  {
    LoneClaim(w, cfg);
    hide Lone, ClaimsOf, AfterClaim;
  }

  /** Its subscription is resumed: free again at once. */
  lemma ClaimIsResumed(w: World, cfg: Settings, d: Time)
    requires Lone(w) && cfg.limit >= 1 && w.runs == map[] && d > 0 && Enabled(w, CLAIM, cfg)
    ensures var w1 := Next(w, CLAIM, cfg);
            && Enabled(w1, Resume(0), cfg) && Lone(Next(w1, Resume(0), cfg)) && Within(Next(w1, Resume(0), cfg), d)
            && Next(w1, Resume(0), cfg).runs == w1.runs && Next(w1, Resume(0), cfg).nextRun == w1.nextRun
  {
    LoneClaim(w, cfg);
    hide ClaimsOf, AfterClaim;
  }

  /** A second claim of the free subscription joins the first. */
  lemma SecondClaim(w: World, w': World, cfg: Settings)
    requires Lone(w) && cfg.limit >= 1 && w.nextRun == 0 && Enabled(w, CLAIM, cfg)
    requires Lone(w') && w'.runs == Next(w, CLAIM, cfg).runs && w'.nextRun == Next(w, CLAIM, cfg).nextRun
    ensures Enabled(w', CLAIM, cfg) && !Exclusive(Next(w', CLAIM, cfg))
  {
    hide Next, Enabled, Lone, Exclusive;
    LoneClaim(w, cfg);
    LoneClaim(w', cfg);
    TwoClaimsAreNotExclusive(Next(w', CLAIM, cfg));
  }

  /** A delivery that takes as long as the lease: claimed again after 60 s, without
      any resume. */
  lemma LongDeliveriesOverlap(cfg: Settings, d: Time) returns (ws: seq<World>, steps: seq<Step>)
    requires cfg.limit >= 1 && d > LEASE
    ensures IsRun(ws, steps, cfg) && steps == [SUBSCRIBE, COMMIT, CLAIM, Tick(60), CLAIM] && |ws| == 6
    ensures AllWithin(ws, d) && NoneResumed(ws, steps) && !Exclusive(ws[5])
  {
    hide *;
    LeaseIsPositive();
    ws, steps := OneDelivery(cfg);
    IdleIsWithin(ws, steps, d);
    WithinAt(ws, d, 2);
    var w2 := ws[2];
    ClaimStaysWithin(w2, cfg, d);
    MinutePasses(w2, cfg, d);
    var w3 := Next(w2, CLAIM, cfg);
    var w4 := Next(w3, Tick(60), cfg);
    ClaimStaysWithin(w4, cfg, d);
    SecondClaim(w2, w4, cfg);
    ws, steps := Goes(ws, steps, cfg, d, CLAIM);
    ws, steps := Goes(ws, steps, cfg, d, Tick(60));
    ws, steps := Goes(ws, steps, cfg, d, CLAIM);
  }

  /** One more step of a run whose deliveries are within `d`. */
  lemma Goes(
    ws: seq<World>, steps: seq<Step>, cfg: Settings, d: Time, st: Step) returns (ws': seq<World>, steps': seq<Step>)
    requires IsRun(ws, steps, cfg) && |ws| == |steps| + 1 && AllWithin(ws, d)
    requires Enabled(ws[|steps|], st, cfg) && Within(Next(ws[|steps|], st, cfg), d)
    ensures |ws'| == |ws| + 1 && steps' == steps + [st] && ws'[|steps'|] == Next(ws[|steps|], st, cfg)
    ensures IsRun(ws', steps', cfg) && AllWithin(ws', d)
    ensures NoneResumed(ws, steps) && !ResumesInFlight(ws[|steps|], st) ==> NoneResumed(ws', steps')
  {
    hide *;
    var w := Next(ws[|steps|], st, cfg);
    ws', steps' := ws + [w], steps + [st];
    RunGrows(ws, steps, cfg, st);
    WithinGrows(ws, w, d);
    if NoneResumed(ws, steps) && !ResumesInFlight(ws[|steps|], st) { NoneResumedGrows(ws, steps, w, st); }
  }

  lemma WithinAt(ws: seq<World>, d: Time, i: nat)
    requires AllWithin(ws, d) && i < |ws|
    ensures Within(ws[i], d)
  {
  }

  /** A resume clears the lease of a claim in flight, and a second worker claims the
      same subscription. */
  lemma ResumeBreaksTheLease(cfg: Settings, d: Time) returns (ws: seq<World>, steps: seq<Step>)
    requires cfg.limit >= 1 && d > 0
    ensures IsRun(ws, steps, cfg) && steps == [SUBSCRIBE, COMMIT, CLAIM, Resume(0), CLAIM] && |ws| == 6
    ensures AllWithin(ws, d) && !Exclusive(ws[5])
  {
    hide *;
    ws, steps := OneDelivery(cfg);
    IdleIsWithin(ws, steps, d);
    WithinAt(ws, d, 2);
    var w2 := ws[2];
    ClaimStaysWithin(w2, cfg, d);
    ClaimIsResumed(w2, cfg, d);
    var w3 := Next(w2, CLAIM, cfg);
    var w4 := Next(w3, Resume(0), cfg);
    ClaimStaysWithin(w4, cfg, d);
    SecondClaim(w2, w4, cfg);
    ws, steps := Goes(ws, steps, cfg, d, CLAIM);
    ws, steps := Goes(ws, steps, cfg, d, Resume(0));
    ws, steps := Goes(ws, steps, cfg, d, CLAIM);
  }

  /** retry_at keeps every subscription in one claim at a time, in all runs, exactly
      if deliveries end within the 60 s of the shortest backoff and no resume hits a
      claim in flight. */
  lemma ExclusiveIff(cfg: Settings, d: Time, resumes: bool)
    requires cfg.limit >= 1 && d > 0
    ensures AlwaysExclusive(cfg, d, resumes) <==> d <= LEASE && !resumes
  {
    if d <= LEASE && !resumes {
      forall ws, steps, i: nat | IsRun(ws, steps, cfg) && AllWithin(ws, d) && NoneResumed(ws, steps) && i < |ws|
        ensures Exclusive(ws[i])
      {
        PromptRunsAreOrderly(ws, steps, cfg, d);
        hide *;
        RunsKeepLeases(ws, steps, cfg, i);
      }
    } else if d > LEASE {
      var ws, steps := LongDeliveriesOverlap(cfg, d);
      hide IsRun, AllWithin, NoneResumed, Exclusive;
    } else {
      var ws, steps := ResumeBreaksTheLease(cfg, d);
      hide IsRun, AllWithin, NoneResumed, Exclusive;
    }
  }

  // ----- The job that makes all deliveries -----

  /** Every live delivery run is made by a worker that executes the job `job`, one
      run per execution. */
  ghost predicate Hosted(w: World, jobs: Jobs.World, job: Jobs.JobId, host: map<RunId, Jobs.WorkerId>) {
    && (forall r :: r in w.runs ==> r in host && host[r] in jobs.execs && jobs.execs[host[r]].job == job)
    && (forall r, r' :: r in w.runs && r' in w.runs && host[r] == host[r'] ==> r == r')
  }

  /** While the job table runs alongside, with executions that its lease covers, at
      most one delivery run is live at any time. */
  lemma OneJobOneRun(
    w: World, job: Jobs.JobId, host: map<RunId, Jobs.WorkerId>,
    jobs: seq<Jobs.World>, jobSteps: seq<Jobs.Step>, jobLease: Time, d: Time, n: nat)
    requires Jobs.IsRun(jobs, jobSteps, jobLease) && Jobs.AllInTime(jobs, d) && d <= jobLease && n < |jobs|
    requires Hosted(w, jobs[n], job, host)
    ensures OneAtATime(w)
  {
    hide Jobs.IsRun, Jobs.AllInTime;
    Jobs.RunsAreExclusive(jobs, jobSteps, jobLease, d, n);
    hide Jobs.Leased;
  }

  /** All deliveries are made by one job. As long as that job's lease covers its
      executions, no subscription is in two claims at once and messages keep the
      minimum interval, with no assumption on resumes nor on the 60 s: the state
      `i` of the notifications falls together with the state `at[i]` of the jobs. */
  lemma OneJobKeepsClaimsApart(
    ws: seq<World>, steps: seq<Step>, cfg: Settings, job: Jobs.JobId, hosts: seq<map<RunId, Jobs.WorkerId>>,
    jobs: seq<Jobs.World>, jobSteps: seq<Jobs.Step>, jobLease: Time, d: Time, at: seq<nat>, i: nat)
    requires IsRun(ws, steps, cfg) && i < |ws| == |hosts| == |at| && cfg.minInterval >= 0
    requires Jobs.IsRun(jobs, jobSteps, jobLease) && Jobs.AllInTime(jobs, d) && d <= jobLease
    requires forall n: nat :: n < |ws| ==> at[n] < |jobs| && Hosted(ws[n], jobs[at[n]], job, hosts[n])
    ensures Exclusive(ws[i]) && SpacedRows(ws[i].db.subs, ws[i].log, cfg.minInterval)
  {
    hide IsRun, Jobs.IsRun, Jobs.AllInTime, Hosted, OneAtATime;
    forall n: nat | n < |ws| ensures OneAtATime(ws[n]) {
      OneJobOneRun(ws[n], job, hosts[n], jobs, jobSteps, jobLease, d, at[n]);
    }
    OneRunIsExclusive(ws, steps, cfg, i);
    OneRunIsSpaced(ws, steps, cfg, i);
  }

  // ----- A pause that comes in between -----

  /** A matcher reads the subscription active, a pause commits, the matcher commits
      what it read, and the paused subscription holds a pending delivery. */
  lemma PauseRaceHappens(cfg: Settings) returns (ws: seq<World>, steps: seq<Step>)
    ensures IsRun(ws, steps, cfg) && steps == [SUBSCRIBE, Pause(0), COMMIT] && |ws| == 4
    ensures IsMatchList(COMMIT.ms, ws[1].db.subs, QuakeScene(), QUAKE_QUERY)
    ensures 0 in ws[3].db.subs && ws[3].db.subs[0].status == Paused && HasPending(ws[3].db, 0)
  {
    hide *;
    StartIsRun(cfg);
    PausedReader(cfg);
    var w1 := Next(START, SUBSCRIBE, cfg);
    RunGrows([START], [], cfg, SUBSCRIBE);
    var w2 := Next(w1, Pause(0), cfg);
    RunGrows([START] + [w1], [] + [SUBSCRIBE], cfg, Pause(0));
    PausedCommit(w2, cfg);
    RunGrows([START] + [w1] + [w2], [] + [SUBSCRIBE] + [Pause(0)], cfg, COMMIT);
    ws := [START] + [w1] + [w2] + [Next(w2, COMMIT, cfg)];
    steps := [] + [SUBSCRIBE] + [Pause(0)] + [COMMIT];
  }

  /** The subscription is paused and the tables hold no episode yet. */
  predicate PausedAndEmpty(w: World) {
    && w.db.subs.Keys == {0} && w.db.subs[0].status == Paused
    && w.db.deliveries == map[] && w.db.episodes == map[] && w.db.nextEpisode == 0
  }

  lemma PausedReader(cfg: Settings)
    ensures Enabled(START, SUBSCRIBE, cfg)
    ensures var w1 := Next(START, SUBSCRIBE, cfg);
            && IsMatchList(COMMIT.ms, w1.db.subs, QuakeScene(), QUAKE_QUERY)
            && Enabled(w1, Pause(0), cfg) && PausedAndEmpty(Next(w1, Pause(0), cfg))
  {
    var w1 := Next(START, SUBSCRIBE, cfg);
    assert w1.db.subs == map[0 := NewSubscription({Earthquake}, 1, 0)];
    QuakeIsRead(w1.db.subs);
    hide IsMatchList;
  }

  lemma PausedCommit(w: World, cfg: Settings)
    requires PausedAndEmpty(w)
    ensures Enabled(w, COMMIT, cfg)
    ensures var db := Next(w, COMMIT, cfg).db; 0 in db.subs && db.subs[0].status == Paused && HasPending(db, 0)
  {
    QuakeCommits(w, cfg);
    hide Next, Enabled;
    assert IsPending(Next(w, COMMIT, cfg).db, QUAKE_ROW);
  }

  const SEND := Send(0, Accepted)

  /** A message is accepted, a pause fails its row, and recording the message turns
      the failed row into a sent one. */
  lemma LateMessageIsRecorded(cfg: Settings) returns (ws: seq<World>, steps: seq<Step>)
    requires cfg.limit >= 1 && cfg.retention >= 0
    ensures IsRun(ws, steps, cfg) && steps == [SUBSCRIBE, COMMIT, CLAIM, SEND, Pause(0), Record(0)] && |ws| == 7
    ensures QUAKE_ROW in ws[5].db.deliveries && ws[5].db.deliveries[QUAKE_ROW].status == Failed
    ensures QUAKE_ROW in ws[6].db.deliveries && ws[6].db.deliveries[QUAKE_ROW].status == Sent
  {
    hide *;
    ws, steps := OneDelivery(cfg);
    var w2 := ws[2];
    MessageSent(w2, cfg);
    var w3 := Next(w2, CLAIM, cfg);
    var w4 := Next(w3, SEND, cfg);
    RowPaused(w4, cfg);
    var w5 := Next(w4, Pause(0), cfg);
    RecordedLate(w5, cfg);
    var w6 := Next(w5, Record(0), cfg);
    RunGrows(ws, steps, cfg, CLAIM);
    RunGrows(ws + [w3], steps + [CLAIM], cfg, SEND);
    RunGrows(ws + [w3] + [w4], steps + [CLAIM] + [SEND], cfg, Pause(0));
    RunGrows(ws + [w3] + [w4] + [w5], steps + [CLAIM] + [SEND] + [Pause(0)], cfg, Record(0));
    ws, steps := ws + [w3] + [w4] + [w5] + [w6], steps + [CLAIM] + [SEND] + [Pause(0)] + [Record(0)];
  }

  /** Run 0 has one outcome, an accepted message with the one row. */
  predicate SentOnce(w: World) {
    && w.now == 0 && 0 in w.runs && |w.runs[0].claims| == 1 == |w.runs[0].outcomes|
    && w.runs[0].outcomes[0].SentAs? && w.runs[0].outcomes[0].claim.deliveries == [QUAKE_ROW]
    && w.db.subs.Keys == {0} && w.db.deliveries.Keys == {QUAKE_ROW} && w.db.deliveries[QUAKE_ROW].sub == 0
    && FreshEpisode(w.db)
  }

  lemma MessageSent(w: World, cfg: Settings)
    requires Lone(w) && cfg.limit >= 1 && w.now == 0 && w.nextRun == 0
    ensures Enabled(w, CLAIM, cfg) && Enabled(Next(w, CLAIM, cfg), SEND, cfg)
    ensures var w' := Next(Next(w, CLAIM, cfg), SEND, cfg);
            SentOnce(w') && w'.db.deliveries[QUAKE_ROW].status == Pending
  {
    LoneClaim(w, cfg);
    hide ClaimsOf, AfterClaim, IsSelection, IsPendingList;
  }

  lemma RowPaused(w: World, cfg: Settings)
    requires SentOnce(w) && w.db.deliveries[QUAKE_ROW].status == Pending
    ensures Enabled(w, Pause(0), cfg)
    ensures var w' := Next(w, Pause(0), cfg); SentOnce(w') && w'.db.deliveries[QUAKE_ROW].status == Failed
  {
  }

  lemma RecordedLate(w: World, cfg: Settings)
    requires SentOnce(w) && w.db.deliveries[QUAKE_ROW].status == Failed && cfg.retention >= 0
    ensures Enabled(w, Record(0), cfg)
    ensures QUAKE_ROW in Next(w, Record(0), cfg).db.deliveries
    ensures Next(w, Record(0), cfg).db.deliveries[QUAKE_ROW].status == Sent
  {
    var os := w.runs[0].outcomes;
    assert os[..0] == [] && OutcomesRecorded(w.db, [], w.now, cfg.pauseAfter) == w.db;
    var db := OutcomesRecorded(w.db, os, w.now, cfg.pauseAfter);
    assert db == OutcomeRecorded(w.db, os[0], w.now, cfg.pauseAfter);
    assert db.deliveries[QUAKE_ROW].status == Sent && db.deliveries[QUAKE_ROW].sentAt == Some(0) && FreshEpisode(db);
    hide OutcomesRecorded, OutcomeRecorded, IsPending;
    var purged := DeliveriesPurged(db, 0 - cfg.retention);
    assert QUAKE_ROW in purged.deliveries && !StaleEpisode(purged, 0, 0 - cfg.retention);
  }
}
