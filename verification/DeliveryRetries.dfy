/**
 What a claim writes, whom it takes, and how long a failing subscription waits for
 the next one (app/notifications/repos/delivery.py).
 */
module DeliveryRetries {
  import opened Common
  import opened NotificationTables
  import opened MatchBatch
  import opened MatchTransaction
  import opened DeliveryStatements
  import opened Deliver
  import opened NotificationRuns
  import opened SubscriptionHealth
  import opened DeliveryLeases

  /** 60 s, doubled for each consecutive failure, an hour at most. */
  function Wait(failures: nat): Time {
    var doubled := 60 * Pow2(failures);
    if doubled <= 3600 then doubled else 3600
  }

  // ----- One claim -----

  /** A claim puts retry_at of every subscription it takes to now plus its wait and
      counts one attempt of each of its pending rows; it writes nothing else. */
  lemma ClaimWrites(
    db: Db, now: Time, minInterval: Time, limit: nat, locked: set<SubId>, chosen: seq<SubId>, rows: seq<DeliveryKey>)
    requires IsSelection(db, now, minInterval, limit, locked, chosen) && IsPendingList(db, chosen, rows)
    ensures var db' := AfterClaim(db, chosen, rows, now);
            && db' == db.(subs := db'.subs, deliveries := db'.deliveries)
            && db'.subs.Keys == db.subs.Keys && db'.deliveries.Keys == db.deliveries.Keys
            && (forall s :: s in db.subs ==>
                  db'.subs[s]
                  == if s in chosen then db.subs[s].(retryAt := Some(now + Wait(db.subs[s].consecutiveFailures)))
                     else db.subs[s])
            && (forall k :: k in db.deliveries ==>
                  var d := db.deliveries[k];
                  db'.deliveries[k]
                  == if d.status == Pending && d.sub in chosen then d.(attempts := d.attempts + 1) else d)
  {
    hide IsSelection, Pow2;
  }

  /** The subscription can be delivered to now: active, past its wait, past the
      minimum interval since its last message, and with something pending. */
  ghost predicate Deliverable(db: Db, s: SubId, now: Time, minInterval: Time) {
    && s in db.subs && db.subs[s].status == Active
    && (db.subs[s].retryAt == None || db.subs[s].retryAt.value <= now)
    && (db.subs[s].lastSentAt == None || db.subs[s].lastSentAt.value + minInterval <= now)
    && exists k :: k in db.deliveries && db.deliveries[k].status == Pending && db.deliveries[k].sub == s
  }

  /** A claim takes only deliverable subscriptions, those that wait longest for a
      message first, and leaves one out only if it is locked or the limit is reached;
      the rows of each come worst first, and the older first among equals. */
  lemma ClaimIsFair(
    db: Db, now: Time, minInterval: Time, limit: nat, locked: set<SubId>, chosen: seq<SubId>, rows: seq<DeliveryKey>)
    requires IsSelection(db, now, minInterval, limit, locked, chosen) && IsPendingList(db, chosen, rows)
    ensures |chosen| <= limit && forall s :: s in chosen ==> Deliverable(db, s, now, minInterval) && s !in locked
    ensures forall s, c :: Deliverable(db, s, now, minInterval) && s !in locked && s !in chosen && c in chosen ==>
              db.subs[c].lastSentAt.None?
              || (db.subs[s].lastSentAt.Some? && db.subs[c].lastSentAt.value <= db.subs[s].lastSentAt.value)
    ensures forall s :: Deliverable(db, s, now, minInterval) && s !in locked && s !in chosen ==> |chosen| == limit
    ensures forall i, j :: 0 <= i < j < |rows| ==>
              || rows[i].severity > rows[j].severity
              || (rows[i].severity == rows[j].severity
                  && db.deliveries[rows[i]].createdAt <= db.deliveries[rows[j]].createdAt)
  {
    forall s ensures Deliverable(db, s, now, minInterval) <==> Eligible(db, s, now, minInterval) {
      if k :| k in db.deliveries && db.deliveries[k].status == Pending && db.deliveries[k].sub == s {
        assert IsPending(db, k);
      }
    }
    assert forall i :: 0 <= i < |rows| ==> rows[i] in rows;
    hide Deliverable, HasPending;
  }

  // ----- Over runs -----

  /** The step lets the subscription be claimed before its wait is over. */
  ghost predicate Frees(w: World, st: Step, s: SubId) {
    || st == Resume(s)
    || (st.Record? && st.run in w.runs
        && exists i :: 0 <= i < |w.runs[st.run].outcomes| && ForSub(w.runs[st.run].outcomes[i], s))
  }

  /** The claim of `s` was released or its message recorded. */
  predicate ForSub(o: Outcome, s: SubId) { o.claim.sub == s && !o.FailedTo? }

  /** The subscription, if it is still there, waits until `until` at least. */
  predicate Waits(w: World, s: SubId, until: Time) {
    s < w.nextSub && (s in w.db.subs ==> w.db.subs[s].retryAt.Some? && w.db.subs[s].retryAt.value >= until)
  }

  lemma {:induction false} FailuresKeepWaiting(db: Db, os: seq<Outcome>, now: Time, pauseAfter: Time, s: SubId)
    requires forall i :: 0 <= i < |os| ==> !ForSub(os[i], s)
    ensures var db' := OutcomesRecorded(db, os, now, pauseAfter);
            (s in db'.subs <==> s in db.subs) && (s in db.subs ==> db'.subs[s].retryAt == db.subs[s].retryAt)
  {
    if os != [] {
      var (init, o) := (os[..|os| - 1], os[|os| - 1]);
      FailuresKeepWaiting(db, init, now, pauseAfter, s);
      var db1 := OutcomesRecorded(db, init, now, pauseAfter);
      assert OutcomesRecorded(db, os, now, pauseAfter) == OutcomeRecorded(db1, o, now, pauseAfter);
      assert !ForSub(o, s);
      hide OutcomesRecorded, OutcomeRecorded;
      FailureKeepsWaiting(db1, o, now, pauseAfter, s);
    }
  }

  lemma FailureKeepsWaiting(db: Db, o: Outcome, now: Time, pauseAfter: Time, s: SubId)
    requires !ForSub(o, s)
    ensures var db' := OutcomeRecorded(db, o, now, pauseAfter);
            (s in db'.subs <==> s in db.subs) && (s in db.subs ==> db'.subs[s].retryAt == db.subs[s].retryAt)
  {
  }

  lemma StepKeepsWaiting(w: World, st: Step, cfg: Settings, s: SubId, until: Time)
    requires Sound(w.db) && Enabled(w, st, cfg) && Waits(w, s, until) && !Frees(w, st, s)
    ensures Waits(Next(w, st, cfg), s, until)
  {
    match st
    case MatchCommit(_, _, _) =>
      CommitKeepsSubs(w, st, cfg);
      hide Sound, GroupsApplied, LocksHeld;
    case ClaimSome(locked, chosen, rows) =>
      ClaimWrites(w.db, w.now, cfg.minInterval, cfg.limit, locked, chosen, rows);
      if s in chosen { WaitIsPositive(w, cfg, locked, chosen, s); }
      hide IsSelection, IsPendingList, AfterClaim, Wait, Sound;
    case Record(r) =>
      assert forall i :: 0 <= i < |w.runs[r].outcomes| ==> !ForSub(w.runs[r].outcomes[i], s);
      FailuresKeepWaiting(w.db, w.runs[r].outcomes, w.now, cfg.pauseAfter, s);
      hide OutcomesRecorded, Sound, Frees;
    case _ =>
      hide Sound, Frees, IsSelection, IsPendingList;
  }

  lemma WaitIsPositive(w: World, cfg: Settings, locked: set<SubId>, chosen: seq<SubId>, s: SubId)
    requires IsSelection(w.db, w.now, cfg.minInterval, cfg.limit, locked, chosen) && s in chosen
    ensures s in w.db.subs && Wait(w.db.subs[s].consecutiveFailures) > 0
    ensures w.db.subs[s].retryAt.Some? ==> w.db.subs[s].retryAt.value <= w.now
  {
    assert Eligible(w.db, s, w.now, cfg.minInterval);
    Pow2Grows(w.db.subs[s].consecutiveFailures);
    hide IsSelection, HasPending;
  }

  lemma {:induction false} WaitLasts(
    ws: seq<World>, steps: seq<Step>, cfg: Settings, i: nat, j: nat, s: SubId, until: Time)
    requires IsRun(ws, steps, cfg) && i <= j < |ws| && Waits(ws[i], s, until)
    requires forall n | i <= n < j :: !Frees(ws[n], steps[n], s)
    ensures Waits(ws[j], s, until)
    decreases j
  {
    hide Next, Enabled, Sound, Waits, Frees;
    if i < j {
      WaitLasts(ws, steps, cfg, i, j - 1, s, until);
      RunsAreSound(ws, steps, cfg, j - 1);
      StepOf(ws, steps, cfg, j - 1);
      StepKeepsWaiting(ws[j - 1], steps[j - 1], cfg, s, until);
    }
  }

  lemma StreakIsUnique(log: seq<LogEntry>, i: nat, j: nat)
    requires StreakFrom(log, i) && StreakFrom(log, j)
    ensures i == j <= |log|
  {
  }

  /** A subscription whose log ends in n failures is not claimed again before its
      wait of min(60 * 2^n, 3600) seconds is over, unless the claim was released,
      its message recorded, or the subscription resumed. */
  lemma FailingWaitsItsTurn(
    ws: seq<World>, steps: seq<Step>, cfg: Settings, i: nat, j: nat, s: SubId, start: nat)
    requires IsRun(ws, steps, cfg) && i < j < |steps|
    requires steps[i].ClaimSome? && s in steps[i].chosen && steps[j].ClaimSome? && s in steps[j].chosen
    requires s in ws[i].log && StreakFrom(ws[i].log[s], start)
    requires forall n | i < n < j :: !Frees(ws[n], steps[n], s)
    ensures ws[j].now >= ws[i].now + Wait(|ws[i].log[s]| - start)
  {
    hide *;
    RunIsLong(ws, steps, cfg);
    StreakIsUnique(ws[i].log[s], start, start);
    RunsTellStreaks(ws, steps, cfg, i);
    RunsRetryWithinAnHour(ws, steps, cfg, i);
    StepOf(ws, steps, cfg, i);
    StepOf(ws, steps, cfg, j);
    ClaimStartsWait(ws[i], steps[i], cfg, s, start);
    WaitLasts(ws, steps, cfg, i + 1, j, s, ws[i].now + Wait(|ws[i].log[s]| - start));
    ClaimedIsDue(ws[j], steps[j], cfg, s, ws[i].now + Wait(|ws[i].log[s]| - start));
  }

  lemma RunIsLong(ws: seq<World>, steps: seq<Step>, cfg: Settings)
    requires IsRun(ws, steps, cfg)
    ensures |ws| == |steps| + 1
  {
  }

  lemma ClaimedIsDue(w: World, st: Step, cfg: Settings, s: SubId, until: Time)
    requires Enabled(w, st, cfg) && st.ClaimSome? && s in st.chosen && Waits(w, s, until)
    ensures w.now >= until
  {
    assert Eligible(w.db, s, w.now, cfg.minInterval);
    hide IsSelection, IsPendingList, HasPending;
  }

  lemma ClaimStartsWait(w: World, st: Step, cfg: Settings, s: SubId, start: nat)
    requires Enabled(w, st, cfg) && st.ClaimSome? && s in st.chosen && Fresh(w) && Healthy(w.db.subs, w.log)
    requires s in w.log && StreakFrom(w.log[s], start)
    ensures Waits(Next(w, st, cfg), s, w.now + Wait(|w.log[s]| - start))
  {
    ClaimWrites(w.db, w.now, cfg.minInterval, cfg.limit, st.locked, st.chosen, st.rows);
    WaitIsPositive(w, cfg, st.locked, st.chosen, s);
    assert TellsStreak(w.db.subs[s], w.log[s]);
    var i: nat :| StreakFrom(w.log[s], i) && w.db.subs[s].consecutiveFailures == |w.log[s]| - i;
    StreakIsUnique(w.log[s], i, start);
    hide Wait, AfterClaim, IsSelection, IsPendingList, StreakFrom;
  }
}
