/** The claim as a lease: one worker per subscription, and messages spaced by the
    minimum interval, over every run whose timing keeps the promise of the job. */
module DeliveryLeases {
  import opened Common
  import opened NotificationTables
  import opened MatchBatch
  import opened MatchTransaction
  import opened DeliveryStatements
  import opened Deliver
  import opened NotificationRuns
  import opened SubscriptionHealth

  /** The shortest backoff, so the shortest lease. */
  const LEASE: Time := 60

  predicate InFlight(w: World, r: RunId, i: nat) { r in w.runs && i < |w.runs[r].claims| }

  function ClaimAt(w: World, r: RunId, i: nat): ClaimedSubscription
    requires InFlight(w, r, i)
  {
    w.runs[r].claims[i]
  }

  /** At most one claim in flight per subscription, across all workers. */
  ghost predicate Exclusive(w: World) {
    forall r, i, r', i' | InFlight(w, r, i) && InFlight(w, r', i')
        && ClaimAt(w, r, i).sub == ClaimAt(w, r', i').sub :: r == r' && i == i'
  }

  /** While its claim is in flight, a subscription is leased and rested. */
  ghost predicate LeasedOut(w: World, minInterval: Time) {
    forall r, i | InFlight(w, r, i) && ClaimAt(w, r, i).sub in w.db.subs ::
      var s := w.db.subs[ClaimAt(w, r, i).sub];
      && s.retryAt.Some? && s.retryAt.value >= w.runs[r].claimedAt + LEASE
      && (s.lastSentAt.Some? ==> s.lastSentAt.value <= w.runs[r].claimedAt - minInterval)
  }

  ghost predicate Fresh(w: World) {
    && (forall r :: r in w.runs ==> r < w.nextRun && w.runs[r].claimedAt <= w.now)
    && (forall s :: s in w.db.subs ==> s < w.nextSub)
    && (forall r :: r in w.runs ==> FreshRun(w.runs[r], w.nextSub))
  }

  ghost predicate FreshRun(run: Run, nextSub: SubId) {
    && (forall c :: c in run.claims ==> c.sub < nextSub)
    && |run.outcomes| <= |run.claims|
    && (forall i :: 0 <= i < |run.outcomes| ==> run.outcomes[i].claim == run.claims[i])
  }

  lemma FreshAlways(w: World, st: Step, cfg: Settings)
    requires Sound(w.db) && Enabled(w, st, cfg) && Fresh(w)
    ensures Fresh(Next(w, st, cfg))
  {
    hide Sound, GroupsApplied, OutcomesRecorded, IsPendingList, LocksHeld;
    var w' := Next(w, st, cfg);
    if st.MatchCommit? { CommitKeepsSubs(w, st, cfg); }
    if st.Record? { OutcomesKeepSubs(w.db, w.runs[st.run].outcomes, w.now, cfg.pauseAfter); }
    if st.ClaimSome? {
      forall c | c in w'.runs[w.nextRun].claims ensures c.sub < w.nextSub {
        assert c.sub in st.chosen && Eligible(w.db, c.sub, w.now, cfg.minInterval);
      }
    }
    RunsStayFresh(w, st, cfg);
    hide FreshRun, Backoff;
  }

  lemma FreshStays(w: World, st: Step, cfg: Settings)
    requires Sound(w.db) && Enabled(w, st, cfg) && Fresh(w) && InTime(w) && Orderly(w, st)
    ensures Fresh(Next(w, st, cfg)) && InTime(Next(w, st, cfg))
  {
    FreshAlways(w, st, cfg);
    hide Sound, GroupsApplied, OutcomesRecorded, IsPendingList, LocksHeld, IsSelection, FreshRun;
  }

  lemma RunsStayFresh(w: World, st: Step, cfg: Settings)
    requires Enabled(w, st, cfg) && Fresh(w)
        && (st.ClaimSome? ==> FreshRun(Next(w, st, cfg).runs[w.nextRun], w.nextSub))
    ensures forall r :: r in Next(w, st, cfg).runs ==> FreshRun(Next(w, st, cfg).runs[r], Next(w, st, cfg).nextSub)
  {
    hide GroupsApplied, OutcomesRecorded, LocksHeld, IsSelection, IsPendingList;
  }

  ghost predicate InTime(w: World) { forall r :: r in w.runs ==> w.now < w.runs[r].claimedAt + LEASE }

  ghost predicate Leases(w: World, cfg: Settings) {
    Fresh(w) && InTime(w) && Exclusive(w) && LeasedOut(w, cfg.minInterval)
  }

  /** The two assumptions: a run is recorded or dead within LEASE of its claim, and
      nobody resumes a subscription whose claim is in flight. */
  ghost predicate Orderly(w: World, st: Step) {
    match st
    case Tick(to) => forall r :: r in w.runs ==> to < w.runs[r].claimedAt + LEASE
    case Resume(s) => forall r, i | InFlight(w, r, i) :: ClaimAt(w, r, i).sub != s
    case _ => true
  }

  lemma {:induction false} OutcomesSpareOthers(
    db: Db, log: map<SubId, seq<LogEntry>>, os: seq<Outcome>, claimedAt: Time, now: Time, pauseAfter: Time, s: SubId)
    requires s in db.subs && forall i :: 0 <= i < |os| ==> os[i].claim.sub != s
    ensures var db' := OutcomesRecorded(db, os, now, pauseAfter); s in db'.subs && db'.subs[s] == db.subs[s]
    ensures var log' := OutcomesLogged(log, os, claimedAt, now); s in log <==> s in log'
    ensures s in log ==> OutcomesLogged(log, os, claimedAt, now)[s] == log[s]
  {
    if os != [] {
      var (init, o) := (os[..|os| - 1], os[|os| - 1]);
      OutcomesSpareOthers(db, log, init, claimedAt, now, pauseAfter, s);
      var (db1, log1) := (OutcomesRecorded(db, init, now, pauseAfter), OutcomesLogged(log, init, claimedAt, now));
      assert OutcomesRecorded(db, os, now, pauseAfter) == OutcomeRecorded(db1, o, now, pauseAfter);
      assert OutcomesLogged(log, os, claimedAt, now) == OutcomeLogged(log1, o, claimedAt, now);
      hide *;
      OutcomeSparesOthers(db1, log1, o, claimedAt, now, pauseAfter, s);
    }
  }

  lemma OutcomeSparesOthers(
    db: Db, log: map<SubId, seq<LogEntry>>, o: Outcome, claimedAt: Time, now: Time, pauseAfter: Time, s: SubId)
    requires s in db.subs && o.claim.sub != s
    ensures var db' := OutcomeRecorded(db, o, now, pauseAfter); s in db'.subs && db'.subs[s] == db.subs[s]
    ensures var log' := OutcomeLogged(log, o, claimedAt, now);
            (s in log <==> s in log') && (s in log ==> log'[s] == log[s])
  {
  }

  lemma {:induction false} OutcomesKeepSubs(db: Db, os: seq<Outcome>, now: Time, pauseAfter: Time)
    ensures OutcomesRecorded(db, os, now, pauseAfter).subs.Keys == db.subs.Keys
  {
    if os != [] {
      OutcomesKeepSubs(db, os[..|os| - 1], now, pauseAfter);
      OutcomeKeepsSubs(OutcomesRecorded(db, os[..|os| - 1], now, pauseAfter), os[|os| - 1], now, pauseAfter);
    }
  }

  lemma OutcomeKeepsSubs(db: Db, o: Outcome, now: Time, pauseAfter: Time)
    ensures OutcomeRecorded(db, o, now, pauseAfter).subs.Keys == db.subs.Keys
  {
  }

  /** A claim never takes a subscription already claimed: its lease has not run out. */
  lemma ChosenAreFree(w: World, cfg: Settings, locked: set<SubId>, chosen: seq<SubId>, r: RunId, i: nat)
    requires Leases(w, cfg) && InFlight(w, r, i)
    requires IsSelection(w.db, w.now, cfg.minInterval, cfg.limit, locked, chosen)
    ensures ClaimAt(w, r, i).sub !in chosen
  {
    var s := ClaimAt(w, r, i).sub;
    assert s in chosen ==> Eligible(w.db, s, w.now, cfg.minInterval);
  }

  /** The runs of `w'` are runs of `w` with the same claims, whose subscriptions
      keep their lease and their last message. */
  ghost predicate SameClaims(w: World, w': World) {
    && (forall r :: r in w'.runs ==>
          r in w.runs && w'.runs[r].claims == w.runs[r].claims && w'.runs[r].claimedAt == w.runs[r].claimedAt)
    && (forall r, i | InFlight(w', r, i) && ClaimAt(w', r, i).sub in w'.db.subs ::
          var s := ClaimAt(w', r, i).sub;
          s in w.db.subs && w'.db.subs[s].retryAt == w.db.subs[s].retryAt
              && w'.db.subs[s].lastSentAt == w.db.subs[s].lastSentAt)
  }

  lemma SameClaimsKeepLeases(w: World, w': World, cfg: Settings)
    requires Exclusive(w) && LeasedOut(w, cfg.minInterval) && SameClaims(w, w')
    ensures Exclusive(w') && LeasedOut(w', cfg.minInterval)
  {
    assert forall r, i | InFlight(w', r, i) :: InFlight(w, r, i) && ClaimAt(w', r, i) == ClaimAt(w, r, i);
  }

  /** A new run whose subscriptions had no claim in flight. */
  lemma NewRunKeepsLeases(w: World, w': World, r0: RunId, cfg: Settings)
    requires Exclusive(w) && LeasedOut(w, cfg.minInterval) && r0 !in w.runs && r0 in w'.runs
    requires w'.runs == w.runs[r0 := w'.runs[r0]] && w'.db.subs.Keys == w.db.subs.Keys
    requires forall i, j | InFlight(w', r0, i) && InFlight(w', r0, j)
        && ClaimAt(w', r0, i).sub == ClaimAt(w', r0, j).sub :: i == j
    requires forall i | InFlight(w', r0, i) :: ClaimAt(w', r0, i).sub in w'.db.subs &&
                                               var s := w'.db.subs[ClaimAt(w', r0, i).sub];
                                               && s.retryAt.Some? && s.retryAt.value >= w'.runs[r0].claimedAt + LEASE
                                               && (s.lastSentAt.Some?
                                                   ==> s.lastSentAt.value <= w'.runs[r0].claimedAt - cfg.minInterval)
    requires forall r, i | InFlight(w, r, i) ::
               && (forall j | InFlight(w', r0, j) :: ClaimAt(w', r0, j).sub != ClaimAt(w, r, i).sub)
               && (ClaimAt(w, r, i).sub in w.db.subs
                   ==> w'.db.subs[ClaimAt(w, r, i).sub] == w.db.subs[ClaimAt(w, r, i).sub])
    ensures Exclusive(w') && LeasedOut(w', cfg.minInterval)
  {
    assert forall r, i | InFlight(w', r, i) && r != r0 :: InFlight(w, r, i) && ClaimAt(w', r, i) == ClaimAt(w, r, i);
  }

  lemma ClaimKeepsLeases(w: World, st: Step, cfg: Settings)
    requires Sound(w.db) && Enabled(w, st, cfg) && Leases(w, cfg) && st.ClaimSome?
    ensures Leases(Next(w, st, cfg), cfg)
  {
    var w' := Next(w, st, cfg);
    FreshStays(w, st, cfg);
    hide Fresh, InTime, Sound, Exclusive, LeasedOut, IsSelection, IsPendingList, HasPending, LeasedAll, AttemptedAll;
    forall r, i | InFlight(w, r, i) ensures ClaimAt(w, r, i).sub !in st.chosen {
      ChosenAreFree(w, cfg, st.locked, st.chosen, r, i);
    }
    ChosenAreLeased(w.db, st.locked, st.chosen, st.rows, w.now, cfg);
    hide AfterClaim, ClaimMarks;
    NewClaims(w, w', st.chosen, st.rows);
    hide *;
    NewRunKeepsLeases(w, w', w.nextRun, cfg);
  }

  /** The claims of the new run are those of the chosen subscriptions, in order. */
  lemma NewClaims(w: World, w': World, chosen: seq<SubId>, rows: seq<DeliveryKey>)
    requires forall s :: s in chosen ==> s in w.db.subs
    requires w'.runs == w.runs[w.nextRun := Run(w.now, ClaimsOf(w.db, chosen, rows), [])] && Distinct(chosen)
    ensures forall i: nat | InFlight(w', w.nextRun, i) ::
        i < |chosen| && ClaimAt(w', w.nextRun, i).sub == chosen[i] && chosen[i] in chosen
    ensures forall i, j | InFlight(w', w.nextRun, i) && InFlight(w', w.nextRun, j)
        && ClaimAt(w', w.nextRun, i).sub == ClaimAt(w', w.nextRun, j).sub :: i == j
  {
  }

  lemma ChosenAreLeased(
    db: Db, locked: set<SubId>, chosen: seq<SubId>, rows: seq<DeliveryKey>, now: Time, cfg: Settings)
    requires IsSelection(db, now, cfg.minInterval, cfg.limit, locked, chosen)
    ensures Distinct(chosen)
    ensures var subs' := AfterClaim(db, chosen, rows, now).subs;
            && subs'.Keys == db.subs.Keys
            && (forall s :: s in subs' && s !in chosen ==> subs'[s] == db.subs[s])
            && (forall s :: s in chosen ==>
                  && s in subs' && subs'[s].retryAt.Some? && subs'[s].retryAt.value >= now + LEASE
                  && (subs'[s].lastSentAt.Some? ==> subs'[s].lastSentAt.value <= now - cfg.minInterval))
  {
    forall s | s in chosen
      ensures Eligible(db, s, now, cfg.minInterval) && Backoff(db.subs[s].consecutiveFailures) >= LEASE
    {
      BackoffDoubles(db.subs[s].consecutiveFailures);
    }
    hide IsSelection, HasPending, Backoff, AttemptedAll;
  }

  /** Steps that neither claim nor record keep every claim in flight as it was. */
  lemma OtherStepsKeepLeases(w: World, st: Step, cfg: Settings)
    requires Sound(w.db) && Enabled(w, st, cfg) && Leases(w, cfg) && Orderly(w, st)
    requires !st.ClaimSome? && !st.Record?
    ensures Leases(Next(w, st, cfg), cfg)
  {
    var w' := Next(w, st, cfg);
    hide Sound, GroupsApplied, Exclusive, LeasedOut, LocksHeld;
    FreshStays(w, st, cfg);
    OthersSameClaims(w, st, cfg);
    hide Fresh, InTime;
    SameClaimsKeepLeases(w, w', cfg);
  }

  lemma OthersSameClaims(w: World, st: Step, cfg: Settings)
    requires Sound(w.db) && Enabled(w, st, cfg) && Fresh(w) && Orderly(w, st)
    requires !st.ClaimSome? && !st.Record?
    ensures SameClaims(w, Next(w, st, cfg))
  {
    var w' := Next(w, st, cfg);
    OthersKeepRuns(w, st, cfg);
    OthersKeepRows(w, st, cfg);
    hide Next, Enabled, Sound;
    forall r, i: nat | InFlight(w', r, i)
      ensures InFlight(w, r, i) && ClaimAt(w', r, i) == ClaimAt(w, r, i) && ClaimAt(w, r, i).sub < w.nextSub
    {
      assert ClaimAt(w, r, i) in w.runs[r].claims;
    }
  }

  lemma OthersKeepRuns(w: World, st: Step, cfg: Settings)
    requires Enabled(w, st, cfg) && !st.ClaimSome? && !st.Record?
    ensures var runs' := Next(w, st, cfg).runs;
            forall r :: r in runs'
                ==> r in w.runs && runs'[r].claims == w.runs[r].claims && runs'[r].claimedAt == w.runs[r].claimedAt
  {
    hide OneOpen, GroupsApplied, AfterPause, AfterResume, AfterRemove;
  }

  lemma OthersKeepRows(w: World, st: Step, cfg: Settings)
    requires Sound(w.db) && Enabled(w, st, cfg) && !st.ClaimSome? && !st.Record?
    ensures forall s :: s in Next(w, st, cfg).db.subs && s != w.nextSub && st != Resume(s) ==>
                          var subs' := Next(w, st, cfg).db.subs;
                          s in w.db.subs && subs'[s].retryAt == w.db.subs[s].retryAt
                              && subs'[s].lastSentAt == w.db.subs[s].lastSentAt
  {
    hide Sound, GroupsApplied, LocksHeld;
    if st.MatchCommit? { CommitKeepsSubs(w, st, cfg); }
  }

  lemma RecordKeepsLeases(w: World, st: Step, cfg: Settings)
    requires Sound(w.db) && Enabled(w, st, cfg) && Leases(w, cfg) && st.Record?
    ensures Leases(Next(w, st, cfg), cfg)
  {
    var w' := Next(w, st, cfg);
    var run := w.runs[st.run];
    OutcomesKeepSubs(w.db, run.outcomes, w.now, cfg.pauseAfter);
    forall r, i | InFlight(w', r, i)
      ensures ClaimAt(w', r, i).sub in w.db.subs
          ==> w'.db.subs[ClaimAt(w', r, i).sub] == w.db.subs[ClaimAt(w', r, i).sub]
    {
      var s := ClaimAt(w', r, i).sub;
      if s in w.db.subs {
        forall j | 0 <= j < |run.outcomes| ensures run.outcomes[j].claim.sub != s {
          assert InFlight(w, st.run, j) && ClaimAt(w, st.run, j) == run.outcomes[j].claim;
          assert InFlight(w, r, i) && ClaimAt(w, r, i).sub == s;
        }
        OutcomesSpareOthers(w.db, w.log, run.outcomes, run.claimedAt, w.now, cfg.pauseAfter, s);
      }
    }
    FreshStays(w, st, cfg);
    hide Fresh, InTime, Sound, OutcomesRecorded, Exclusive, LeasedOut;
    assert w'.db.subs.Keys == w.db.subs.Keys;
    SameClaimsKeepLeases(w, w', cfg);
  }

  /** What spacing needs: every claim in flight is alone and was taken at rest. */
  ghost predicate Apart(w: World, cfg: Settings) { Fresh(w) && Exclusive(w) && Rested(w, cfg.minInterval) }

  ghost predicate Rested(w: World, minInterval: Time) {
    forall r, i | InFlight(w, r, i) && ClaimAt(w, r, i).sub in w.db.subs ::
      var last := w.db.subs[ClaimAt(w, r, i).sub].lastSentAt;
      last.Some? ==> last.value <= w.runs[r].claimedAt - minInterval
  }

  lemma LeasedAreApart(w: World, cfg: Settings)
    requires Leases(w, cfg)
    ensures Apart(w, cfg)
  {
    hide Fresh, Exclusive, InTime;
  }

  ghost predicate IsOrderlyRun(ws: seq<World>, steps: seq<Step>, cfg: Settings) {
    IsRun(ws, steps, cfg) && forall i :: 0 <= i < |steps| ==> Orderly(ws[i], steps[i])
  }

  lemma StartHasNoRuns(cfg: Settings)
    ensures Leases(START, cfg)
  {
  }

  /** In every state of every orderly run: at most one claim in flight per
      subscription, whoever the workers are. */
  lemma {:induction false} RunsKeepLeases(ws: seq<World>, steps: seq<Step>, cfg: Settings, i: nat)
    requires IsOrderlyRun(ws, steps, cfg) && i < |ws|
    ensures Leases(ws[i], cfg) && Exclusive(ws[i])
  {
    hide Next, Enabled, Sound, Orderly;
    if i == 0 {
      StartHasNoRuns(cfg);
    } else {
      RunsAreSound(ws, steps, cfg, i - 1);
      RunsKeepLeases(ws, steps, cfg, i - 1);
      var (w, st) := (ws[i - 1], steps[i - 1]);
      StepOf(ws, steps, cfg, i - 1);
      if st.ClaimSome? { ClaimKeepsLeases(w, st, cfg); }
      else if st.Record? { RecordKeepsLeases(w, st, cfg); }
      else { OtherStepsKeepLeases(w, st, cfg); }
    }
    assert Leases(ws[i], cfg);
  }

  // ----- The minimum interval -----

  /** Every message of the log was claimed a minimum interval after each earlier one. */
  ghost predicate Spaced(log: seq<LogEntry>, minInterval: Time) {
    forall i, j ::
        0 <= i < j < |log| && log[i].SentAt? && log[j].SentAt? ==> log[j].claimedAt >= log[i].at + minInterval
  }

  ghost predicate SpacedRow(s: Subscription, log: seq<LogEntry>, minInterval: Time) {
    && Spaced(log, minInterval)
    && (forall i :: 0 <= i < |log| && log[i].SentAt? ==> s.lastSentAt.Some? && log[i].at <= s.lastSentAt.value)
  }

  ghost predicate SpacedRows(subs: map<SubId, Subscription>, log: map<SubId, seq<LogEntry>>, minInterval: Time) {
    forall s :: s in subs ==> s in log && SpacedRow(subs[s], log[s], minInterval)
  }

  lemma OutcomeKeepsSpacing(
    db: Db, log: map<SubId, seq<LogEntry>>, o: Outcome, claimedAt: Time, now: Time, cfg: Settings)
    requires SpacedRows(db.subs, log, cfg.minInterval) && cfg.minInterval >= 0 && claimedAt <= now
    requires o.claim.sub in db.subs && db.subs[o.claim.sub].lastSentAt.Some?
        ==> db.subs[o.claim.sub].lastSentAt.value <= claimedAt - cfg.minInterval
    ensures SpacedRows(OutcomeRecorded(db, o, now, cfg.pauseAfter).subs, OutcomeLogged(log, o, claimedAt, now),
        cfg.minInterval)
  {
    var s := o.claim.sub;
    var db' := OutcomeRecorded(db, o, now, cfg.pauseAfter);
    if s in db.subs {
      assert SpacedRow(db.subs[s], log[s], cfg.minInterval);
      assert SpacedRow(db'.subs[s], OutcomeLogged(log, o, claimedAt, now)[s], cfg.minInterval);
    }
    hide SpacedRow;
  }

  lemma {:induction false} OutcomesKeepSpacing(
    db: Db, log: map<SubId, seq<LogEntry>>, os: seq<Outcome>, claimedAt: Time, now: Time, cfg: Settings)
    requires SpacedRows(db.subs, log, cfg.minInterval) && cfg.minInterval >= 0 && claimedAt <= now
    requires forall i, j :: 0 <= i < j < |os| ==> os[i].claim.sub != os[j].claim.sub
    requires forall i :: 0 <= i < |os| && os[i].claim.sub in db.subs ==>
                           var last := db.subs[os[i].claim.sub].lastSentAt;
                           last.Some? ==> last.value <= claimedAt - cfg.minInterval
    ensures SpacedRows(OutcomesRecorded(db, os, now, cfg.pauseAfter).subs, OutcomesLogged(log, os, claimedAt, now),
        cfg.minInterval)
  {
    if os != [] {
      var init, o := os[..|os| - 1], os[|os| - 1];
      OutcomesKeepSpacing(db, log, init, claimedAt, now, cfg);
      OutcomesKeepSubs(db, init, now, cfg.pauseAfter);
      if o.claim.sub in db.subs {
        OutcomesSpareOthers(db, log, init, claimedAt, now, cfg.pauseAfter, o.claim.sub);
      }
      hide SpacedRows;
      OutcomeKeepsSpacing(OutcomesRecorded(db, init, now, cfg.pauseAfter),
          OutcomesLogged(log, init, claimedAt, now), o, claimedAt, now, cfg);
    }
  }

  lemma StepKeepsSpacing(w: World, st: Step, cfg: Settings)
    requires Sound(w.db) && Enabled(w, st, cfg) && Apart(w, cfg) && cfg.minInterval >= 0
    requires SpacedRows(w.db.subs, w.log, cfg.minInterval)
    ensures SpacedRows(Next(w, st, cfg).db.subs, Next(w, st, cfg).log, cfg.minInterval)
  {
    var w' := Next(w, st, cfg);
    match st
    case MatchCommit(_, _, _) =>
      CommitKeepsSubs(w, st, cfg);
      assert w'.db.subs == w.db.subs && w'.log == w.log;
      hide *;
    case Record(r) =>
      RecordKeepsSpacing(w, r, cfg);
      hide *;
    case Add(_, _, _) =>
      assert w'.db.subs == w.db.subs[w.nextSub := w'.db.subs[w.nextSub]] && w'.log == w.log[w.nextSub := []];
      assert SpacedRow(w'.db.subs[w.nextSub], [], cfg.minInterval);
      hide *;
      OneRowSpaced(w.db.subs, w.log, w.nextSub, w'.db.subs[w.nextSub], [], cfg.minInterval);
    case Resume(s) =>
      assert w'.db.subs == w.db.subs[s := w'.db.subs[s]] && w'.log == w.log[s := w.log[s] + [Resumed]];
      assert SpacedRow(w.db.subs[s], w.log[s], cfg.minInterval);
      assert SpacedRow(w'.db.subs[s], w.log[s] + [Resumed], cfg.minInterval);
      hide *;
      OneRowSpaced(w.db.subs, w.log, s, w'.db.subs[s], w.log[s] + [Resumed], cfg.minInterval);
    case _ =>
      OthersKeepLastSent(w, st, cfg);
      hide *;
      SameRowsSpaced(w.db.subs, w'.db.subs, w.log, cfg.minInterval);
  }

  lemma OneRowSpaced(
    subs: map<SubId, Subscription>, log: map<SubId, seq<LogEntry>>, s: SubId, row: Subscription,
    entries: seq<LogEntry>, minInterval: Time)
    requires SpacedRows(subs, log, minInterval) && SpacedRow(row, entries, minInterval)
    ensures SpacedRows(subs[s := row], log[s := entries], minInterval)
  {
  }

  lemma SameRowsSpaced(
    subs: map<SubId, Subscription>, subs': map<SubId, Subscription>, log: map<SubId, seq<LogEntry>>,
    minInterval: Time)
    requires SpacedRows(subs, log, minInterval)
    requires forall s :: s in subs' ==> s in subs && subs'[s].lastSentAt == subs[s].lastSentAt
    ensures SpacedRows(subs', log, minInterval)
  {
    hide Spaced;
  }

  lemma RecordKeepsSpacing(w: World, r: RunId, cfg: Settings)
    requires Enabled(w, Record(r), cfg) && Apart(w, cfg) && cfg.minInterval >= 0
    requires SpacedRows(w.db.subs, w.log, cfg.minInterval)
    ensures SpacedRows(Next(w, Record(r), cfg).db.subs, Next(w, Record(r), cfg).log, cfg.minInterval)
  {
    var run := w.runs[r];
    forall i | 0 <= i < |run.outcomes| ensures InFlight(w, r, i) && run.outcomes[i].claim == ClaimAt(w, r, i) {}
    hide SpacedRows, Exclusive;
    OutcomesKeepSpacing(w.db, w.log, run.outcomes, run.claimedAt, w.now, cfg);
  }

  lemma OthersKeepLastSent(w: World, st: Step, cfg: Settings)
    requires Enabled(w, st, cfg) && !st.MatchCommit? && !st.Record? && !st.Add? && !st.Resume?
    ensures Next(w, st, cfg).log == w.log
    ensures forall s ::
        s in Next(w, st, cfg).db.subs ==>
            s in w.db.subs && Next(w, st, cfg).db.subs[s].lastSentAt == w.db.subs[s].lastSentAt
  {
    hide IsSelection, IsPendingList, GroupsApplied, OneOpen;
  }

  /** Where claims stay apart, the claim behind each recorded message of a
      subscription comes at least the minimum interval after every earlier one. */
  lemma {:induction false} ApartRunsAreSpaced(ws: seq<World>, steps: seq<Step>, cfg: Settings, i: nat)
    requires IsRun(ws, steps, cfg) && i < |ws| && cfg.minInterval >= 0
    requires forall n: nat :: n < i ==> Apart(ws[n], cfg)
    ensures SpacedRows(ws[i].db.subs, ws[i].log, cfg.minInterval)
  {
    hide Next, Enabled, Sound, Apart, SpacedRow;
    if i > 0 {
      RunsAreSound(ws, steps, cfg, i - 1);
      ApartRunsAreSpaced(ws, steps, cfg, i - 1);
      StepOf(ws, steps, cfg, i - 1);
      StepKeepsSpacing(ws[i - 1], steps[i - 1], cfg);
    }
  }

  /** In every orderly run messages are spaced. */
  lemma MessagesAreSpaced(ws: seq<World>, steps: seq<Step>, cfg: Settings, i: nat)
    requires IsOrderlyRun(ws, steps, cfg) && i < |ws| && cfg.minInterval >= 0
    ensures SpacedRows(ws[i].db.subs, ws[i].log, cfg.minInterval)
  {
    hide IsRun, Orderly, Leases, Apart, Exclusive;
    forall n: nat | n < i ensures Apart(ws[n], cfg) {
      RunsKeepLeases(ws, steps, cfg, n);
      LeasedAreApart(ws[n], cfg);
    }
    ApartRunsAreSpaced(ws, steps, cfg, i);
  }

  // ----- One run at a time -----

  /** At most one delivery run is live, whatever the timing. */
  predicate OneAtATime(w: World) { forall r, r' :: r in w.runs && r' in w.runs ==> r == r' }

  lemma OneRunStaysApart(w: World, st: Step, cfg: Settings)
    requires Sound(w.db) && Enabled(w, st, cfg) && Apart(w, cfg) && OneAtATime(w) && OneAtATime(Next(w, st, cfg))
    ensures Apart(Next(w, st, cfg), cfg)
  {
    FreshAlways(w, st, cfg);
    if st.ClaimSome? {
      LoneRunIsApart(w, st, cfg);
    } else if st.Record? {
      assert Next(w, st, cfg).runs == map[];
      hide Fresh, Sound;
    } else {
      hide Exclusive, Rested;
      OthersStayApart(w, st, cfg);
    }
  }

  lemma LoneRunIsApart(w: World, st: Step, cfg: Settings)
    requires Enabled(w, st, cfg) && st.ClaimSome? && Fresh(w) && OneAtATime(Next(w, st, cfg))
    ensures Exclusive(Next(w, st, cfg)) && Rested(Next(w, st, cfg), cfg.minInterval)
  {
    var w' := Next(w, st, cfg);
    hide IsSelection, IsPendingList, HasPending, LeasedAll, AttemptedAll, FreshRun;
    assert w'.runs.Keys == {w.nextRun} by {
      assert w.nextRun in w'.runs && forall r :: r in w'.runs ==> r == w.nextRun;
    }
    ChosenAreLeased(w.db, st.locked, st.chosen, st.rows, w.now, cfg);
    hide AfterClaim, ClaimMarks;
    NewClaims(w, w', st.chosen, st.rows);
    hide ClaimsOf;
  }

  lemma OthersStayApart(w: World, st: Step, cfg: Settings)
    requires Sound(w.db) && Enabled(w, st, cfg) && Apart(w, cfg) && !st.ClaimSome? && !st.Record?
    ensures Exclusive(Next(w, st, cfg)) && Rested(Next(w, st, cfg), cfg.minInterval)
  {
    var w' := Next(w, st, cfg);
    OthersKeepRuns(w, st, cfg);
    OthersKeepLast(w, st, cfg);
    hide Next, Enabled, Sound;
    forall r, i: nat | InFlight(w', r, i)
      ensures InFlight(w, r, i) && ClaimAt(w', r, i) == ClaimAt(w, r, i) && ClaimAt(w, r, i).sub < w.nextSub
    {
      assert ClaimAt(w, r, i) in w.runs[r].claims;
    }
    hide Fresh;
  }

  lemma OthersKeepLast(w: World, st: Step, cfg: Settings)
    requires Sound(w.db) && Enabled(w, st, cfg) && !st.ClaimSome? && !st.Record?
    ensures forall s :: s in Next(w, st, cfg).db.subs && s != w.nextSub ==>
                          s in w.db.subs && Next(w, st, cfg).db.subs[s].lastSentAt == w.db.subs[s].lastSentAt
  {
    hide Sound, GroupsApplied, LocksHeld;
    if st.MatchCommit? { CommitKeepsSubs(w, st, cfg); }
  }

  lemma StartIsApart(cfg: Settings)
    ensures Apart(START, cfg)
  {
  }

  /** If at most one delivery run is live at any time, then no subscription is in two
      claims at once and messages are spaced, with no assumption on how long a run
      takes nor on resumes. */
  lemma {:induction false} OneRunIsExclusive(ws: seq<World>, steps: seq<Step>, cfg: Settings, i: nat)
    requires IsRun(ws, steps, cfg) && i < |ws| && forall n: nat :: n < |ws| ==> OneAtATime(ws[n])
    ensures Apart(ws[i], cfg) && Exclusive(ws[i])
  {
    hide Next, Enabled, Sound, OneAtATime, Fresh, Exclusive, Rested;
    if i == 0 {
      StartIsApart(cfg);
    } else {
      RunsAreSound(ws, steps, cfg, i - 1);
      OneRunIsExclusive(ws, steps, cfg, i - 1);
      StepOf(ws, steps, cfg, i - 1);
      OneRunStaysApart(ws[i - 1], steps[i - 1], cfg);
    }
  }

  lemma OneRunIsSpaced(ws: seq<World>, steps: seq<Step>, cfg: Settings, i: nat)
    requires IsRun(ws, steps, cfg) && i < |ws| && (forall n: nat :: n < |ws| ==> OneAtATime(ws[n]))
        && cfg.minInterval >= 0
    ensures SpacedRows(ws[i].db.subs, ws[i].log, cfg.minInterval)
  {
    hide IsRun, OneAtATime, Apart, Exclusive;
    assert |ws| > i;
    forall n: nat | n < i ensures Apart(ws[n], cfg) {
      OneRunIsExclusive(ws, steps, cfg, n);
    }
    ApartRunsAreSpaced(ws, steps, cfg, i);
  }

  // ----- Retry times -----

  ghost predicate RetryBound(w: World) {
    && (forall s :: s in w.db.subs ==> DueSoon(w.db.subs[s], s, w.lastClaim))
    && (forall r :: r in w.runs ==> ClaimsDue(w.runs[r], w.lastClaim))
    && (forall s :: s in w.lastClaim ==> w.lastClaim[s] <= w.now)
  }

  predicate DueSoon(row: Subscription, s: SubId, lastClaim: map<SubId, Time>) {
    row.retryAt.Some? ==> s in lastClaim && row.retryAt.value <= lastClaim[s] + BACKOFF_CAP
  }

  /** A claim remembers a retry_at that was already due when it was taken. */
  ghost predicate ClaimsDue(run: Run, lastClaim: map<SubId, Time>) {
    forall c :: c in run.claims ==>
      && c.sub in lastClaim && run.claimedAt <= lastClaim[c.sub]
      && (c.previousRetryAt.Some? ==> c.previousRetryAt.value <= run.claimedAt)
  }

  lemma {:induction false} OutcomesKeepDue(
    db: Db, os: seq<Outcome>, now: Time, pauseAfter: Time, s: SubId, lastClaim: map<SubId, Time>)
    requires s in db.subs && DueSoon(db.subs[s], s, lastClaim)
    requires forall i :: 0 <= i < |os| && os[i].claim.sub == s ==>
                           s in lastClaim
                               && (os[i].claim.previousRetryAt.Some?
                                   ==> os[i].claim.previousRetryAt.value <= lastClaim[s])
    ensures var db' := OutcomesRecorded(db, os, now, pauseAfter); s in db'.subs && DueSoon(db'.subs[s], s, lastClaim)
  {
    if os != [] {
      var (init, o) := (os[..|os| - 1], os[|os| - 1]);
      OutcomesKeepDue(db, init, now, pauseAfter, s, lastClaim);
      assert o.claim.sub == s
          ==> s in lastClaim && (o.claim.previousRetryAt.Some? ==> o.claim.previousRetryAt.value <= lastClaim[s]);
      var db1 := OutcomesRecorded(db, init, now, pauseAfter);
      assert OutcomesRecorded(db, os, now, pauseAfter) == OutcomeRecorded(db1, o, now, pauseAfter);
      hide *;
      OutcomeKeepsDue(db1, o, now, pauseAfter, s, lastClaim);
    }
  }

  lemma OutcomeKeepsDue(db: Db, o: Outcome, now: Time, pauseAfter: Time, s: SubId, lastClaim: map<SubId, Time>)
    requires s in db.subs && DueSoon(db.subs[s], s, lastClaim)
    requires o.claim.sub == s
        ==> s in lastClaim && (o.claim.previousRetryAt.Some? ==> o.claim.previousRetryAt.value <= lastClaim[s])
    ensures var db' := OutcomeRecorded(db, o, now, pauseAfter); s in db'.subs && DueSoon(db'.subs[s], s, lastClaim)
  {
  }

  lemma RecordKeepsRetryBound(w: World, st: Step, cfg: Settings)
    requires Enabled(w, st, cfg) && Fresh(w) && RetryBound(w) && st.Record?
    ensures RetryBound(Next(w, st, cfg))
  {
    hide OutcomesRecorded;
    var w' := Next(w, st, cfg);
    var run := w.runs[st.run];
    OutcomesKeepSubs(w.db, run.outcomes, w.now, cfg.pauseAfter);
    forall s | s in w.db.subs ensures DueSoon(w'.db.subs[s], s, w.lastClaim) {
      forall i | 0 <= i < |run.outcomes| && run.outcomes[i].claim.sub == s
        ensures s in w.lastClaim
            && (run.outcomes[i].claim.previousRetryAt.Some?
                ==> run.outcomes[i].claim.previousRetryAt.value <= w.lastClaim[s])
      {
        assert FreshRun(run, w.nextSub) && run.claims[i] in run.claims;
      }
      OutcomesKeepDue(w.db, run.outcomes, w.now, cfg.pauseAfter, s, w.lastClaim);
    }
  }

  lemma ClaimKeepsRetryBound(w: World, st: Step, cfg: Settings)
    requires Enabled(w, st, cfg) && RetryBound(w) && st.ClaimSome?
    ensures RetryBound(Next(w, st, cfg))
  {
    hide IsPendingList;
    var w' := Next(w, st, cfg);
    ClaimIsDue(w.db, st.locked, st.chosen, st.rows, w.now, cfg, w.lastClaim);
    hide IsSelection, DueSoon, AfterClaim, ClaimsOf, ClaimMarks;
    forall r | r in w.runs ensures ClaimsDue(w.runs[r], w'.lastClaim) {
      assert ClaimsDue(w.runs[r], w.lastClaim);
    }
    hide ClaimsDue;
  }

  lemma ClaimIsDue(
    db: Db, locked: set<SubId>, chosen: seq<SubId>, rows: seq<DeliveryKey>, now: Time, cfg: Settings,
    lastClaim: map<SubId, Time>)
    requires IsSelection(db, now, cfg.minInterval, cfg.limit, locked, chosen)
    requires forall s :: s in db.subs ==> DueSoon(db.subs[s], s, lastClaim)
    requires forall s :: s in lastClaim ==> lastClaim[s] <= now
    ensures var (db', marks) := (AfterClaim(db, chosen, rows, now), ClaimMarks(lastClaim, chosen, now));
            && (forall s :: s in db'.subs ==> DueSoon(db'.subs[s], s, marks))
            && ClaimsDue(Run(now, ClaimsOf(db, chosen, rows), []), marks)
            && (forall s :: s in lastClaim ==> s in marks && marks[s] >= lastClaim[s])
            && (forall s :: s in marks ==> marks[s] <= now)
  {
    forall s | s in chosen
      ensures Eligible(db, s, now, cfg.minInterval) && Backoff(db.subs[s].consecutiveFailures) <= BACKOFF_CAP
    {
      BackoffDoubles(db.subs[s].consecutiveFailures);
    }
    hide Backoff, IsSelection, HasPending, AttemptedAll;
  }

  lemma StepKeepsRetryBound(w: World, st: Step, cfg: Settings)
    requires Sound(w.db) && Enabled(w, st, cfg) && Fresh(w) && RetryBound(w)
    ensures RetryBound(Next(w, st, cfg))
  {
    hide Sound, GroupsApplied, OutcomesRecorded, LocksHeld, Fresh, IsSelection, IsPendingList;
    if st.Record? { RecordKeepsRetryBound(w, st, cfg); }
    else if st.ClaimSome? { ClaimKeepsRetryBound(w, st, cfg); }
    else if st.MatchCommit? { CommitKeepsSubs(w, st, cfg); }
  }

  lemma StartIsDue(cfg: Settings)
    ensures RetryBound(START) && Fresh(START)
  {
  }

  /** In every state of every run, a subscription is due again at most one hour
      after its last claim. Nothing is assumed of the timing. */
  lemma {:induction false} RunsRetryWithinAnHour(ws: seq<World>, steps: seq<Step>, cfg: Settings, i: nat)
    requires IsRun(ws, steps, cfg) && i < |ws|
    ensures RetryBound(ws[i]) && Fresh(ws[i])
  {
    hide Next, Enabled, Sound, RetryBound, Fresh;
    if i == 0 {
      StartIsDue(cfg);
    } else {
      RunsAreSound(ws, steps, cfg, i - 1);
      RunsRetryWithinAnHour(ws, steps, cfg, i - 1);
      StepOf(ws, steps, cfg, i - 1);
      StepKeepsRetryBound(ws[i - 1], steps[i - 1], cfg);
      FreshAlways(ws[i - 1], steps[i - 1], cfg);
    }
  }

  /** A claim the budget left untried can be claimed again at once. */
  lemma ReleasedIsClaimable(w: World, st: Step, cfg: Settings, i: nat)
    requires Sound(w.db) && Enabled(w, st, cfg) && Leases(w, cfg) && RetryBound(w) && st.Record?
    requires i < |w.runs[st.run].outcomes| && w.runs[st.run].outcomes[i].Skipped?
    ensures var (db', s) := (Next(w, st, cfg).db, w.runs[st.run].claims[i].sub);
            s in db'.subs && db'.subs[s].status == Active && HasPending(db', s) ==>
                Eligible(db', s, w.now, cfg.minInterval)
  {
    var run := w.runs[st.run];
    var os, s := run.outcomes, run.claims[i].sub;
    assert FreshRun(run, w.nextSub) && run.claims[i] in run.claims && ClaimsDue(run, w.lastClaim);
    assert InFlight(w, st.run, i) && ClaimAt(w, st.run, i).sub == s;
    forall j | 0 <= j < |os| && j != i ensures os[j].claim.sub != s {
      assert InFlight(w, st.run, j) && ClaimAt(w, st.run, j) == os[j].claim;
    }
    OutcomesKeepSubs(w.db, os, w.now, cfg.pauseAfter);
    hide Sound, Exclusive, HasPending;
    if s in w.db.subs {
      OnlyOneOutcome(w.db, os, w.now, cfg.pauseAfter, s, i);
    }
  }

  /** A subscription met once in a run gets exactly that outcome. */
  lemma {:induction false} OnlyOneOutcome(db: Db, os: seq<Outcome>, now: Time, pauseAfter: Time, s: SubId, i: nat)
    requires s in db.subs && i < |os| && os[i] == Skipped(os[i].claim) && os[i].claim.sub == s
    requires forall j :: 0 <= j < |os| && j != i ==> os[j].claim.sub != s
    ensures var db' := OutcomesRecorded(db, os, now, pauseAfter);
            s in db'.subs && db'.subs[s] == db.subs[s].(retryAt := os[i].claim.previousRetryAt)
    decreases |os|
  {
    var n := |os| - 1;
    if i < n {
      OnlyOneOutcome(db, os[..n], now, pauseAfter, s, i);
    } else {
      OutcomesSpareOthers(db, map[], os[..n], 0, now, pauseAfter, s);
    }
  }
}
