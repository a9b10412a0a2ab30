/**
 How long rows are kept: over whole runs, what a purge takes and what it leaves
 (app/notifications/repos/delivery.py).
 */
module Retention {
  import opened Common
  import opened NotificationTables
  import opened MatchBatch
  import opened MatchTransaction
  import opened DeliveryStatements
  import opened Deliver
  import opened DeliveryEffects
  import opened NotificationRuns

  /** The episode was over before the cutoff: closed, or last matched if it never
      was, and its phenomenon past. */
  predicate PastEpisode(e: Episode, cutoff: Time) {
    && (if e.closedAt.Some? then e.closedAt.value else e.lastMatchedAt) < cutoff
    && (e.expiresAt.Some? ==> e.expiresAt.value < cutoff)
  }

  /** The step removes the subscription of the episode, or ends a delivery run more
      than the retention after the episode was over. */
  ghost predicate TakesEpisode(w: World, st: Step, cfg: Settings, id: EpisodeId)
    requires id in w.db.episodes
  {
    || st == Remove(w.db.episodes[id].sub)
    || (st.Record? && PastEpisode(w.db.episodes[id], w.now - cfg.retention))
  }

  /** The same of a delivery, sent or else created before the retention, or of a past
      episode. */
  ghost predicate TakesDelivery(w: World, st: Step, cfg: Settings, k: DeliveryKey)
    requires k in w.db.deliveries && k.episode in w.db.episodes
  {
    || st == Remove(w.db.deliveries[k].sub)
    || (st.Record? && SettledAt(w.db.deliveries[k]) < w.now - cfg.retention)
    || (st.Record? && PastEpisode(w.db.episodes[k.episode], w.now - cfg.retention))
  }

  /** The step keeps every episode and delivery that it does not take. */
  ghost predicate TakesOnlyPast(w: World, st: Step, cfg: Settings, db': Db) {
    && (forall id :: id in w.db.episodes && id !in db'.episodes ==> TakesEpisode(w, st, cfg, id))
    && (forall k :: k in w.db.deliveries && k !in db'.deliveries ==>
          k.episode in w.db.episodes && TakesDelivery(w, st, cfg, k))
  }

  // ----- One step -----

  lemma {:induction false} OutcomesKeepTimes(db: Db, os: seq<Outcome>, now: Time, pauseAfter: Time, k: DeliveryKey)
    requires k in db.deliveries
    ensures var db' := OutcomesRecorded(db, os, now, pauseAfter);
            && k in db'.deliveries && db'.deliveries[k].createdAt == db.deliveries[k].createdAt
            && (db'.deliveries[k].sentAt == db.deliveries[k].sentAt || db'.deliveries[k].sentAt == Some(now))
  {
    if os != [] {
      var (init, o) := (os[..|os| - 1], os[|os| - 1]);
      OutcomesKeepTimes(db, init, now, pauseAfter, k);
      var mid := OutcomesRecorded(db, init, now, pauseAfter);
      assert OutcomesRecorded(db, os, now, pauseAfter) == OutcomeRecorded(mid, o, now, pauseAfter);
      hide OutcomesRecorded, OutcomeRecorded;
      OutcomeKeepsTimes(mid, o, now, pauseAfter, k);
    }
  }

  lemma OutcomeKeepsTimes(db: Db, o: Outcome, now: Time, pauseAfter: Time, k: DeliveryKey)
    requires k in db.deliveries
    ensures var db' := OutcomeRecorded(db, o, now, pauseAfter);
            && k in db'.deliveries && db'.deliveries[k].createdAt == db.deliveries[k].createdAt
            && (db'.deliveries[k].sentAt == db.deliveries[k].sentAt || db'.deliveries[k].sentAt == Some(now))
  {
    hide StreakTooLong;
  }

  lemma LostIsPast(db: Db, db': Db, cutoff: Time)
    requires ForeignKeys(db) && Survivors(db, db', cutoff)
    ensures forall id :: id in db.episodes && id !in db'.episodes ==> PastEpisode(db.episodes[id], cutoff)
    ensures forall k :: k in db.deliveries && k !in db'.deliveries ==>
              k.episode in db.episodes
              && (SettledAt(db.deliveries[k]) < cutoff || PastEpisode(db.episodes[k.episode], cutoff))
  {
    hide SettledAt, IsPending;
  }

  lemma PurgeTakesOnlyPast(db: Db, now: Time, retention: Time)
    requires ForeignKeys(db)
    ensures var (db', cutoff) := (AfterPurge(db, now, retention), now - retention);
            && (forall id :: id in db.episodes && id !in db'.episodes ==> PastEpisode(db.episodes[id], cutoff))
            && (forall k :: k in db.deliveries && k !in db'.deliveries ==>
                  k.episode in db.episodes
                  && (SettledAt(db.deliveries[k]) < cutoff || PastEpisode(db.episodes[k.episode], cutoff)))
  {
    hide *;
    PurgeIsExact(db, now, retention);
    LostIsPast(db, AfterPurge(db, now, retention), now - retention);
  }

  /** What a record leaves before the purge. */
  ghost function BeforePurge(w: World, st: Step, cfg: Settings): Db
    requires st.Record? && st.run in w.runs
  {
    OutcomesRecorded(w.db, w.runs[st.run].outcomes, w.now, cfg.pauseAfter)
  }

  lemma RecordPurges(w: World, st: Step, cfg: Settings)
    requires Sound(w.db) && Enabled(w, st, cfg) && st.Record?
    ensures st.run in w.runs && ForeignKeys(BeforePurge(w, st, cfg))
    ensures BeforePurge(w, st, cfg).episodes == w.db.episodes
        && BeforePurge(w, st, cfg).deliveries.Keys == w.db.deliveries.Keys
    ensures Next(w, st, cfg).db == AfterPurge(BeforePurge(w, st, cfg), w.now, cfg.retention)
  {
    hide OutcomesRecorded, AfterPurge, Sound, ForeignKeys, Shrinks;
    OutcomesShrink(w.db, w.runs[st.run].outcomes, w.now, cfg.pauseAfter);
    SoundHasForeignKeys(BeforePurge(w, st, cfg));
  }

  lemma RecordTakesOnlyPast(w: World, st: Step, cfg: Settings)
    requires Sound(w.db) && Enabled(w, st, cfg) && st.Record? && cfg.retention >= 0
    ensures TakesOnlyPast(w, st, cfg, Next(w, st, cfg).db)
  {
    hide OutcomesRecorded, AfterPurge, Next, Enabled, PastEpisode, SettledAt, Sound, ForeignKeys;
    RecordPurges(w, st, cfg);
    OutcomesKeepSettled(w.db, w.runs[st.run].outcomes, w.now, cfg.pauseAfter, cfg.retention);
    PurgeTakesOnlyPast(BeforePurge(w, st, cfg), w.now, cfg.retention);
  }

  lemma OutcomesKeepSettled(db: Db, os: seq<Outcome>, now: Time, pauseAfter: Time, retention: Time)
    requires retention >= 0
    ensures var db' := OutcomesRecorded(db, os, now, pauseAfter);
            forall k :: k in db.deliveries && k in db'.deliveries && SettledAt(db'.deliveries[k]) < now - retention ==>
              SettledAt(db.deliveries[k]) < now - retention
  {
    hide OutcomesRecorded;
    forall k | k in db.deliveries
      ensures var db' := OutcomesRecorded(db, os, now, pauseAfter);
              && k in db'.deliveries
              && (SettledAt(db'.deliveries[k]) < now - retention ==> SettledAt(db.deliveries[k]) < now - retention)
    {
      OutcomesKeepTimes(db, os, now, pauseAfter, k);
    }
  }

  lemma CommitTakesNothing(w: World, st: Step, cfg: Settings)
    requires Sound(w.db) && Enabled(w, st, cfg) && st.MatchCommit?
    ensures RowsKept(w.db, Next(w, st, cfg).db)
  {
    LateCommitIsAtomic(w.db, st.seen, st.ms, st.b);
    MatchKeepsSound(w.db, st.ms, st.b, Matched(w.db, st.ms, st.b).value);
    hide Sound, GroupsApplied, Matched, LocksHeld, RowsKept;
  }

  lemma RemovalTakesItsOwn(w: World, st: Step, cfg: Settings)
    requires ForeignKeys(w.db) && Enabled(w, st, cfg) && st.Remove?
    ensures TakesOnlyPast(w, st, cfg, Next(w, st, cfg).db)
  {
  }

  lemma OthersTakeNothing(w: World, st: Step, cfg: Settings)
    requires Enabled(w, st, cfg) && !st.Record? && !st.MatchCommit? && !st.Remove?
    ensures Next(w, st, cfg).db.episodes == w.db.episodes
    ensures Next(w, st, cfg).db.deliveries.Keys == w.db.deliveries.Keys
  {
    hide IsSelection, IsPendingList, LeasedAll;
  }

  lemma StepTakesOnlyPast(w: World, st: Step, cfg: Settings)
    requires Sound(w.db) && Enabled(w, st, cfg) && cfg.retention >= 0
    ensures TakesOnlyPast(w, st, cfg, Next(w, st, cfg).db)
  {
    hide Next, Enabled, Sound, TakesEpisode, TakesDelivery;
    match st
    case Record(_) => RecordTakesOnlyPast(w, st, cfg);
    case MatchCommit(_, _, _) => CommitTakesNothing(w, st, cfg);
    case Remove(_) =>
      SoundHasForeignKeys(w.db);
      RemovalTakesItsOwn(w, st, cfg);
    case _ => OthersTakeNothing(w, st, cfg);
  }

  ghost predicate AllRecent(db: Db, cutoff: Time) {
    && (forall id :: id in db.episodes ==>
          !PastEpisode(db.episodes[id], cutoff) || exists k :: IsPending(db, k) && k.episode == id)
    && (forall k :: k in db.deliveries ==> IsPending(db, k) || SettledAt(db.deliveries[k]) >= cutoff)
  }

  /** What is left when a delivery run ends: every episode was matched, closed or in
      force within the retention or has something pending; every delivery is pending
      or was sent, or else created, within it. */
  lemma RecordLeavesRecent(w: World, st: Step, cfg: Settings)
    requires Sound(w.db) && Enabled(w, st, cfg) && st.Record?
    ensures AllRecent(Next(w, st, cfg).db, w.now - cfg.retention)
  {
    hide *;
    RecordPurges(w, st, cfg);
    PurgeLeavesRecent(BeforePurge(w, st, cfg), w.now, cfg.retention);
  }

  lemma PurgeLeavesRecent(db: Db, now: Time, retention: Time)
    requires ForeignKeys(db)
    ensures AllRecent(AfterPurge(db, now, retention), now - retention)
  {
    var (db', cutoff) := (AfterPurge(db, now, retention), now - retention);
    PurgeIsExact(db, now, retention);
    hide AfterPurge, ForeignKeys, SettledAt;
    forall id | id in db'.episodes && PastEpisode(db'.episodes[id], cutoff)
      ensures exists k :: IsPending(db', k) && k.episode == id
    {
      var k :| IsPending(db, k) && k.episode == id;
      assert IsPending(db', k);
    }
  }

  // ----- Over runs -----

  /** Over any stretch of any run, an episode that is gone was removed with its
      subscription, or taken more than the retention after it was over. */
  lemma {:induction false} GoneEpisodeWasPast(
    ws: seq<World>, steps: seq<Step>, cfg: Settings, i: nat, j: nat, id: EpisodeId)
    requires IsRun(ws, steps, cfg) && cfg.retention >= 0 && i <= j < |ws|
    requires id in ws[i].db.episodes && id !in ws[j].db.episodes
    ensures exists n :: i <= n < j && id in ws[n].db.episodes && TakesEpisode(ws[n], steps[n], cfg, id)
    decreases j
  {
    hide Next, Enabled, TakesEpisode, TakesDelivery, Sound;
    RunsAreSound(ws, steps, cfg, j - 1);
    StepOf(ws, steps, cfg, j - 1);
    StepTakesOnlyPast(ws[j - 1], steps[j - 1], cfg);
    if id !in ws[j - 1].db.episodes {
      GoneEpisodeWasPast(ws, steps, cfg, i, j - 1, id);
    }
  }

  /** The same of a delivery; `NothingIsLost` says how it left the queue before. */
  lemma {:induction false} GoneDeliveryWasPast(
    ws: seq<World>, steps: seq<Step>, cfg: Settings, i: nat, j: nat, k: DeliveryKey)
    requires IsRun(ws, steps, cfg) && cfg.retention >= 0 && i <= j < |ws|
    requires k in ws[i].db.deliveries && k !in ws[j].db.deliveries
    ensures exists n :: i <= n < j && k in ws[n].db.deliveries && k.episode in ws[n].db.episodes
                        && TakesDelivery(ws[n], steps[n], cfg, k)
    decreases j
  {
    hide Next, Enabled, TakesEpisode, TakesDelivery, Sound;
    RunsAreSound(ws, steps, cfg, j - 1);
    StepOf(ws, steps, cfg, j - 1);
    StepTakesOnlyPast(ws[j - 1], steps[j - 1], cfg);
    if k !in ws[j - 1].db.deliveries {
      GoneDeliveryWasPast(ws, steps, cfg, i, j - 1, k);
    }
  }
}
