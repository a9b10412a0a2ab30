/** Failure streaks, pauses, leases and the minimum interval, over whole runs. */
module SubscriptionHealth {
  import opened Common
  import opened NotificationTables
  import opened EpisodeRule
  import opened Matching
  import opened EpisodeStatements
  import opened MatchBatch
  import opened MatchSoundness
  import opened MatchTransaction
  import opened DeliveryStatements
  import opened Deliver
  import opened NotificationRuns

  // ----- Failure streaks -----

  /** The streak in course: the failures after the last success or resume. */
  ghost predicate StreakFrom(log: seq<LogEntry>, i: nat) {
    && i <= |log|
    && (forall j :: i <= j < |log| ==> log[j].FailedAt?)
    && (i > 0 ==> !log[i - 1].FailedAt?)
  }

  /** The counters of the row tell the streak of its log. */
  ghost predicate TellsStreak(s: Subscription, log: seq<LogEntry>) {
    exists i: nat :: StreakFrom(log, i)
      && s.consecutiveFailures == |log| - i
      && s.failingSince == if i < |log| then Some(log[i].at) else None
  }

  ghost predicate Healthy(subs: map<SubId, Subscription>, log: map<SubId, seq<LogEntry>>) {
    forall s :: s in subs ==> s in log && TellsStreak(subs[s], log[s])
  }

  lemma FailureExtends(s: Subscription, log: seq<LogEntry>, now: Time)
    requires TellsStreak(s, log)
    ensures TellsStreak(WithFailure(s, now), log + [FailedAt(now)])
  {
    var i: nat :|
      && StreakFrom(log, i) && s.consecutiveFailures == |log| - i
      && s.failingSince == if i < |log| then Some(log[i].at) else None;
    assert StreakFrom(log + [FailedAt(now)], i);
  }

  lemma ResetEndsStreak(s: Subscription, log: seq<LogEntry>, e: LogEntry)
    requires !e.FailedAt? && s.consecutiveFailures == 0 && s.failingSince.None?
    ensures TellsStreak(s, log + [e])
  {
    assert StreakFrom(log + [e], |log| + 1);
  }

  lemma OutcomeKeepsHealth(
    db: Db, log: map<SubId, seq<LogEntry>>, o: Outcome, claimedAt: Time, now: Time, pauseAfter: Time)
    requires Healthy(db.subs, log)
    ensures Healthy(OutcomeRecorded(db, o, now, pauseAfter).subs, OutcomeLogged(log, o, claimedAt, now))
  {
    var s := o.claim.sub;
    if s in db.subs {
      match o
      case Skipped(_) =>
        assert TellsStreak(AfterRelease(db, s, o.claim.previousRetryAt).subs[s], log[s]);
      case SentAs(_, m) => ResetEndsStreak(OutcomeRecorded(db, o, now, pauseAfter).subs[s], log[s],
          SentAt(claimedAt, now));
      case FailedTo(_) =>
        FailureExtends(db.subs[s], log[s], now);
        assert TellsStreak(WithFailure(db.subs[s], now).(status := Paused), log[s] + [FailedAt(now)]);
    }
    hide TellsStreak;
  }

  lemma {:induction false} OutcomesKeepHealth(
    db: Db, log: map<SubId, seq<LogEntry>>, os: seq<Outcome>, claimedAt: Time, now: Time, pauseAfter: Time)
    requires Healthy(db.subs, log)
    ensures Healthy(OutcomesRecorded(db, os, now, pauseAfter).subs, OutcomesLogged(log, os, claimedAt, now))
  {
    if os != [] {
      var init := os[..|os| - 1];
      OutcomesKeepHealth(db, log, init, claimedAt, now, pauseAfter);
      OutcomeKeepsHealth(OutcomesRecorded(db, init, now, pauseAfter), OutcomesLogged(log, init, claimedAt, now),
          os[|os| - 1], claimedAt, now, pauseAfter);
    }
  }

  /** Rows whose counters do not change keep telling the streak. */
  lemma SameCounters(subs: map<SubId, Subscription>, subs': map<SubId, Subscription>, log: map<SubId, seq<LogEntry>>)
    requires Healthy(subs, log)
    requires forall s :: s in subs' ==>
                           s in subs && subs'[s].consecutiveFailures == subs[s].consecutiveFailures
                               && subs'[s].failingSince == subs[s].failingSince
    ensures Healthy(subs', log)
  {
    forall s | s in subs' ensures s in log && TellsStreak(subs'[s], log[s]) {
      assert TellsStreak(subs[s], log[s]);
    }
  }

  lemma CommitKeepsSubs(w: World, st: Step, cfg: Settings)
    requires Sound(w.db) && Enabled(w, st, cfg) && st.MatchCommit?
    ensures Next(w, st, cfg).db.subs == w.db.subs
  {
    LateCommitIsAtomic(w.db, st.seen, st.ms, st.b);
    MatchKeepsSound(w.db, st.ms, st.b, Matched(w.db, st.ms, st.b).value);
  }

  lemma StepKeepsHealth(w: World, st: Step, cfg: Settings)
    requires Sound(w.db) && Enabled(w, st, cfg) && Healthy(w.db.subs, w.log)
    ensures Healthy(Next(w, st, cfg).db.subs, Next(w, st, cfg).log)
  {
    var w' := Next(w, st, cfg);
    match st
    case MatchCommit(_, _, _) =>
      CommitKeepsSubs(w, st, cfg);
      assert w'.db.subs == w.db.subs && w'.log == w.log;
      hide *;
    case Record(r) =>
      RecordKeepsHealth(w, r, cfg);
      hide *;
    case Add(_, _, _) =>
      assert w'.db.subs == w.db.subs[w.nextSub := w'.db.subs[w.nextSub]] && w'.log == w.log[w.nextSub := []];
      assert StreakFrom([], 0);
      assert TellsStreak(w'.db.subs[w.nextSub], []);
      hide *;
      OneRowHealthy(w.db.subs, w.log, w.nextSub, w'.db.subs[w.nextSub], []);
    case Resume(s) =>
      assert w'.db.subs == w.db.subs[s := w'.db.subs[s]] && w'.log == w.log[s := w.log[s] + [Resumed]];
      ResetEndsStreak(w'.db.subs[s], w.log[s], Resumed);
      hide *;
      OneRowHealthy(w.db.subs, w.log, s, w'.db.subs[s], w.log[s] + [Resumed]);
    case _ =>
      OthersKeepCounters(w, st, cfg);
      hide *;
      SameCounters(w.db.subs, w'.db.subs, w.log);
  }

  lemma OneRowHealthy(
    subs: map<SubId, Subscription>, log: map<SubId, seq<LogEntry>>, s: SubId, row: Subscription,
    entries: seq<LogEntry>)
    requires Healthy(subs, log) && TellsStreak(row, entries)
    ensures Healthy(subs[s := row], log[s := entries])
  {
    hide TellsStreak;
  }

  lemma RecordKeepsHealth(w: World, r: RunId, cfg: Settings)
    requires Enabled(w, Record(r), cfg) && Healthy(w.db.subs, w.log)
    ensures Healthy(Next(w, Record(r), cfg).db.subs, Next(w, Record(r), cfg).log)
  {
    hide Healthy;
    OutcomesKeepHealth(w.db, w.log, w.runs[r].outcomes, w.runs[r].claimedAt, w.now, cfg.pauseAfter);
  }

  lemma OthersKeepCounters(w: World, st: Step, cfg: Settings)
    requires Enabled(w, st, cfg) && !st.MatchCommit? && !st.Record? && !st.Add? && !st.Resume?
    ensures Next(w, st, cfg).log == w.log
    ensures var subs' := Next(w, st, cfg).db.subs;
            forall s :: s in subs' ==>
              s in w.db.subs && subs'[s].consecutiveFailures == w.db.subs[s].consecutiveFailures
                  && subs'[s].failingSince == w.db.subs[s].failingSince
  {
    hide IsSelection, IsPendingList, GroupsApplied, OneOpen;
  }

  /** In every state of every run, consecutive_failures counts the failures since
      the last success or resume, and failing_since is the time of the first of
      them: one is positive exactly when the other is set. */
  lemma {:induction false} RunsTellStreaks(ws: seq<World>, steps: seq<Step>, cfg: Settings, i: nat)
    requires IsRun(ws, steps, cfg) && i < |ws|
    ensures Healthy(ws[i].db.subs, ws[i].log)
    ensures forall s ::
        s in ws[i].db.subs ==> (ws[i].db.subs[s].consecutiveFailures > 0 <==> ws[i].db.subs[s].failingSince.Some?)
  {
    hide Next, Enabled, Sound;
    if i > 0 {
      RunsAreSound(ws, steps, cfg, i - 1);
      RunsTellStreaks(ws, steps, cfg, i - 1);
      StepOf(ws, steps, cfg, i - 1);
      StepKeepsHealth(ws[i - 1], steps[i - 1], cfg);
    }
    forall s | s in ws[i].db.subs
      ensures ws[i].db.subs[s].consecutiveFailures > 0 <==> ws[i].db.subs[s].failingSince.Some?
    {
      assert TellsStreak(ws[i].db.subs[s], ws[i].log[s]);
    }
  }

  /** A recorded failure pauses the subscription exactly when the streak it prolongs
      or starts has lasted `pauseAfter`, and then nothing stays pending; otherwise
      the status stays, also that of a subscription paused meanwhile. */
  lemma AutoPauseIsExact(db: Db, log: seq<LogEntry>, s: SubId, now: Time, pauseAfter: Time)
    requires s in db.subs && TellsStreak(db.subs[s], log)
    ensures var db' := AfterFailure(db, s, now, pauseAfter);
            exists i: nat ::
              && StreakFrom(log + [FailedAt(now)], i) && i <= |log|
              && var lasted := now - (log + [FailedAt(now)])[i].at >= pauseAfter;
                 && db'.subs[s].status == (if lasted then Paused else db.subs[s].status)
                 && (lasted ==> !HasPending(db', s))
                 && (!lasted ==> db'.deliveries == db.deliveries)
  {
    var i: nat :| StreakFrom(log, i) && db.subs[s].consecutiveFailures == |log| - i
                  && db.subs[s].failingSince == if i < |log| then Some(log[i].at) else None;
    assert StreakFrom(log + [FailedAt(now)], i);
  }

  // ----- A paused subscription holds nothing pending -----

  ghost predicate PausedHoldNothing(db: Db) {
    forall k :: IsPending(db, k) && db.deliveries[k].sub in db.subs ==> db.subs[db.deliveries[k].sub].status == Active
  }

  /** No group of this batch notifies a subscription that is paused at commit. */
  ghost predicate NotifiesActive(db: Db, ms: seq<Match>, b: Batch)
    requires OneOpen(db)
  {
    forall k :: k in FirstSeen(ms) && k.sub in db.subs
        && Decide(Current(db, k), Groups(ms)[k].severity, b.at, b.grace) != Touch
      ==> db.subs[k.sub].status == Active
  }

  lemma {:induction false} OutcomesKeepPausedEmpty(db: Db, os: seq<Outcome>, now: Time, pauseAfter: Time)
    requires PausedHoldNothing(db)
    ensures PausedHoldNothing(OutcomesRecorded(db, os, now, pauseAfter))
  {
    if os != [] {
      OutcomesKeepPausedEmpty(db, os[..|os| - 1], now, pauseAfter);
      OutcomeKeepsPausedEmpty(OutcomesRecorded(db, os[..|os| - 1], now, pauseAfter), os[|os| - 1], now, pauseAfter);
    }
  }

  lemma OutcomeKeepsPausedEmpty(db: Db, o: Outcome, now: Time, pauseAfter: Time)
    requires PausedHoldNothing(db)
    ensures PausedHoldNothing(OutcomeRecorded(db, o, now, pauseAfter))
  {
  }

  lemma OrdersKeepPausedEmpty(db: Db, s: SubId)
    requires PausedHoldNothing(db)
    ensures s in db.subs ==> PausedHoldNothing(AfterPause(db, s)) && PausedHoldNothing(AfterResume(db, s))
    ensures PausedHoldNothing(AfterRemove(db, s))
  {
  }

  lemma ClaimKeepsPausedEmpty(db: Db, chosen: seq<SubId>, rows: seq<DeliveryKey>, now: Time)
    requires PausedHoldNothing(db)
    ensures PausedHoldNothing(AfterClaim(db, chosen, rows, now))
  {
    hide Backoff;
  }

  /** Delivery and admin steps never leave a paused subscription with something
      pending. */
  lemma StepKeepsPausedEmpty(w: World, st: Step, cfg: Settings)
    requires Sound(w.db) && Enabled(w, st, cfg) && PausedHoldNothing(w.db) && !st.MatchCommit?
    ensures PausedHoldNothing(Next(w, st, cfg).db)
  {
    if st.Record? {
      OutcomesKeepPausedEmpty(w.db, w.runs[st.run].outcomes, w.now, cfg.pauseAfter);
      hide Sound, PausedHoldNothing, OutcomesRecorded;
      var mid := OutcomesRecorded(w.db, w.runs[st.run].outcomes, w.now, cfg.pauseAfter);
      PurgeKeepsPausedEmpty(mid, w.now, cfg.retention);
    } else {
      hide OneOpen, Expiry, Ledger, Recorded, IsSelection, IsPendingList, OutcomesRecorded, GroupsApplied;
      match st
      case Remove(s) => hide PausedHoldNothing; OrdersKeepPausedEmpty(w.db, s);
      case Pause(s) => hide PausedHoldNothing; OrdersKeepPausedEmpty(w.db, s);
      case Resume(s) => hide PausedHoldNothing; OrdersKeepPausedEmpty(w.db, s);
      case ClaimSome(_, chosen, rows) => hide PausedHoldNothing; ClaimKeepsPausedEmpty(w.db, chosen, rows, w.now);
      case _ => hide AfterPause, AfterResume, AfterRemove, AfterClaim;
    }
  }

  lemma PurgeKeepsPausedEmpty(db: Db, now: Time, retention: Time)
    requires PausedHoldNothing(db)
    ensures PausedHoldNothing(AfterPurge(db, now, retention))
  {
  }

  /** The groups that open or escalate, told from the tables before. */
  predicate Notifies(db: Db, k: GroupKey, groups: map<GroupKey, Group>, b: Batch)
    requires OneOpen(db)
  {
    k in groups && Decide(Current(db, k), groups[k].severity, b.at, b.grace) != Touch
  }

  /** `d` is a row that the transaction added for the subscription of `k`. */
  predicate AddedFor(db: Db, db': Db, d: DeliveryKey, k: GroupKey) {
    d in db'.deliveries && d !in db.deliveries && db'.deliveries[d].sub == k.sub && db'.deliveries[d].status == Pending
  }

  /** The rows added since `db` are one per notifying key of `done`, for its subscription. */
  ghost predicate AddedBy(db: Db, db': Db, done: seq<GroupKey>, groups: map<GroupKey, Group>, b: Batch)
    requires OneOpen(db)
  {
    && (forall d :: d in db'.deliveries && d !in db.deliveries ==>
          exists k :: k in done && Notifies(db, k, groups, b) && AddedFor(db, db', d, k))
    && (forall k :: k in done && Notifies(db, k, groups, b) ==> exists d :: AddedFor(db, db', d, k))
  }

  lemma {:induction false} AddedExactly(
    db: Db, seen: map<GroupKey, OpenEpisode>, order: seq<GroupKey>, groups: map<GroupKey, Group>, b: Batch, i: nat)
    requires Sound(db) && LocksHeld(db, seen) && GroupsOk(order, groups, b.at) && i <= |order|
    requires GroupsApplied(db, seen, order, groups, b).Ok?
    ensures GroupsApplied(db, seen, order[..i], groups, b).Ok?
    ensures AddedBy(db, GroupsApplied(db, seen, order[..i], groups, b).value.db, order[..i], groups, b)
  {
    hide *;
    PrefixInGroups(db, order, groups, b, i);
    if i > 0 {
      AddedExactly(db, seen, order, groups, b, i - 1);
      var before, after := TurnOf(db, seen, order, groups, b, i - 1);
      assert order[..i] == order[..i - 1] + [order[i - 1]];
      AddedTurn(db, before, after, order[..i - 1], order[i - 1], groups, b);
    } else {
      assert order[..0] == [];
      NothingAdded(db, seen, groups, b);
    }
  }

  lemma PrefixInGroups(db: Db, order: seq<GroupKey>, groups: map<GroupKey, Group>, b: Batch, i: nat)
    requires Sound(db) && GroupsOk(order, groups, b.at) && i <= |order|
    ensures OneOpen(db) && forall k :: k in order ==> k in groups
    ensures i > 0 ==> order[i - 1] !in order[..i - 1] && order[i - 1] in groups
  {
    hide OneOpen, ForeignKeys, Expiry, Ledger, Recorded, GroupOk;
  }

  lemma NothingAdded(db: Db, seen: map<GroupKey, OpenEpisode>, groups: map<GroupKey, Group>, b: Batch)
    requires OneOpen(db)
    ensures GroupsApplied(db, seen, [], groups, b) == Ok(Applied(db, 0))
    ensures AddedBy(db, db, [], groups, b)
  {
  }

  lemma AddedTurn(
    db: Db, before: Applied, after: Applied, done: seq<GroupKey>, k: GroupKey, groups: map<GroupKey, Group>,
    b: Batch)
    requires OneOpen(db) && OneOpen(before.db) && OneOpen(after.db) && before.created <= after.created
    requires k !in done && k in groups && AddedBy(db, before.db, done, groups, b)
    requires Current(before.db, k) == Current(db, k) && RowsKept(db, before.db)
    requires Announces(before.db, Applied(after.db, after.created - before.created), k, groups[k], b)
    ensures AddedBy(db, after.db, done + [k], groups, b)
  {
    assert forall d :: d in db.deliveries ==> d in before.db.deliveries && before.db.deliveries[d] == db.deliveries[d];
    assert Notifies(db, k, groups, b) <==> Decide(Current(before.db, k), groups[k].severity, b.at, b.grace) != Touch;
    hide *;
    GroupAdds(before.db, k, groups[k], b, Applied(after.db, after.created - before.created));
    AddedStep(db, before.db, after.db, done, k, groups, b);
  }

  /** One group adds nothing, or exactly one pending row of its subscription. */
  lemma GroupAdds(db: Db, k: GroupKey, g: Group, b: Batch, after: Applied)
    requires OneOpen(db) && OneOpen(after.db) && Announces(db, after, k, g, b)
    ensures if Decide(Current(db, k), g.severity, b.at, b.grace) == Touch then after.db.deliveries == db.deliveries
            else exists d :: AddedFor(db, after.db, d, k) && after.db.deliveries.Keys == db.deliveries.Keys + {d}
    ensures forall d :: d in db.deliveries ==> d in after.db.deliveries && after.db.deliveries[d] == db.deliveries[d]
  {
    hide OneOpen;
    if Decide(Current(db, k), g.severity, b.at, b.grace) != Touch {
      var d := DeliveryKey(Current(after.db, k).value.id, g.severity);
      hide Current;
      assert AddedFor(db, after.db, d, k) && after.db.deliveries.Keys == db.deliveries.Keys + {d};
    }
  }

  lemma AddedStep(db: Db, db1: Db, db2: Db, done: seq<GroupKey>, k: GroupKey, groups: map<GroupKey, Group>, b: Batch)
    requires OneOpen(db) && k !in done && k in groups && AddedBy(db, db1, done, groups, b)
    requires forall d :: d in db.deliveries ==> d in db1.deliveries && db1.deliveries[d] == db.deliveries[d]
    requires forall d :: d in db1.deliveries ==> d in db2.deliveries && db2.deliveries[d] == db1.deliveries[d]
    requires if !Notifies(db, k, groups, b) then db2.deliveries == db1.deliveries
             else exists d :: AddedFor(db1, db2, d, k) && db2.deliveries.Keys == db1.deliveries.Keys + {d}
    ensures AddedBy(db, db2, done + [k], groups, b)
  {
    hide Notifies, OneOpen;
    assert forall d, x :: AddedFor(db, db1, d, x) ==> AddedFor(db, db2, d, x);
    assert forall d :: AddedFor(db1, db2, d, k) ==> AddedFor(db, db2, d, k);
    assert forall x :: x in done + [k] <==> x in done || x == k;
    assert forall d ::
        d in db2.deliveries && d !in db1.deliveries ==> Notifies(db, k, groups, b) && AddedFor(db1, db2, d, k);
    hide AddedFor;
    forall d | d in db2.deliveries && d !in db.deliveries
      ensures exists x :: x in done + [k] && Notifies(db, x, groups, b) && AddedFor(db, db2, d, x)
    {
      if d in db1.deliveries {
        var x :| x in done && Notifies(db, x, groups, b) && AddedFor(db, db1, d, x);
        assert AddedFor(db, db2, d, x);
      } else {
        assert AddedFor(db, db2, d, k);
      }
    }
    forall x | x in done + [k] && Notifies(db, x, groups, b) ensures exists d :: AddedFor(db, db2, d, x) {
      if x in done {
        var d :| AddedFor(db, db1, d, x);
        assert AddedFor(db, db2, d, x);
      } else {
        var d :| AddedFor(db1, db2, d, k);
        assert AddedFor(db, db2, d, x);
      }
    }
  }

  /** A matcher's commit keeps paused subscriptions empty exactly when no group
      that opens or escalates belongs to a subscription that is paused by then:
      the query only filtered the subscriptions that were active when it read. */
  lemma CommitKeepsPausedEmptyIff(db: Db, ms: seq<Match>, seen: map<GroupKey, OpenEpisode>, b: Batch)
    requires Sound(db) && Grounded(ms, b.at) && PausedHoldNothing(db) && LocksHeld(db, seen)
    requires forall k :: k in seen ==> k in FirstSeen(ms)
    requires GroupsApplied(db, seen, FirstSeen(ms), Groups(ms), b).Ok?
    ensures PausedHoldNothing(GroupsApplied(db, seen, FirstSeen(ms), Groups(ms), b).value.db)
        <==> NotifiesActive(db, ms, b)
  {
    var order, groups := FirstSeen(ms), Groups(ms);
    MatchListGroupsOk(ms, b.at);
    LateCommitIsAtomic(db, seen, ms, b);
    var after := Matched(db, ms, b).value;
    MatchKeepsSound(db, ms, b, after);
    AddedExactly(db, seen, order, groups, b, |order|);
    assert order[..|order|] == order;
    assert forall d :: d in after.db.deliveries ==> after.db.deliveries[d].sub in db.subs;
    hide Sound, OneOpen, GroupsApplied, Evolves, Covers, Current, Decide, GroupsOk, LocksHeld, RowsKept, Groups,
        Matched;
    PausedEmptyIff(db, after.db, ms, b);
  }

  lemma PausedEmptyIff(db: Db, db': Db, ms: seq<Match>, b: Batch)
    requires OneOpen(db) && AddedBy(db, db', FirstSeen(ms), Groups(ms), b) && PausedHoldNothing(db)
        && db'.subs == db.subs
    requires forall d :: d in db.deliveries ==> d in db'.deliveries && db'.deliveries[d] == db.deliveries[d]
    requires forall d :: d in db'.deliveries ==> db'.deliveries[d].sub in db.subs
    ensures PausedHoldNothing(db') <==> NotifiesActive(db, ms, b)
  {
    hide OneOpen, Current, Decide;
    var order, groups := FirstSeen(ms), Groups(ms);
    if PausedHoldNothing(db') {
      forall k | k in order && k.sub in db.subs && Decide(Current(db, k), groups[k].severity, b.at, b.grace) != Touch
        ensures db.subs[k.sub].status == Active
      {
        assert Notifies(db, k, groups, b);
        var d :| AddedFor(db, db', d, k);
        assert IsPending(db', d);
      }
    }
    if NotifiesActive(db, ms, b) {
      forall d | IsPending(db', d) && db'.deliveries[d].sub in db.subs
        ensures db.subs[db'.deliveries[d].sub].status == Active
      {
        if d !in db.deliveries {
          var k :| k in order && Notifies(db, k, groups, b) && AddedFor(db, db', d, k);
        } else {
          assert IsPending(db, d);
        }
      }
    }
  }

  /** A run in which no matcher notifies a subscription paused since its read. */
  ghost predicate NoPauseRace(ws: seq<World>, steps: seq<Step>) {
    |ws| == |steps| + 1 && forall i :: 0 <= i < |steps| && steps[i].MatchCommit? ==>
      OneOpen(ws[i].db) && NotifiesActive(ws[i].db, steps[i].ms, steps[i].b)
  }

  /** Then a paused subscription never holds a pending delivery. */
  lemma {:induction false} PausedStayEmpty(ws: seq<World>, steps: seq<Step>, cfg: Settings, i: nat)
    requires IsRun(ws, steps, cfg) && NoPauseRace(ws, steps) && i < |ws|
    ensures PausedHoldNothing(ws[i].db)
  {
    hide Next, Enabled, Sound, PausedHoldNothing, NotifiesActive;
    if i == 0 {
      StartIsEmpty();
    } else {
      RunsAreSound(ws, steps, cfg, i - 1);
      PausedStayEmpty(ws, steps, cfg, i - 1);
      StepOf(ws, steps, cfg, i - 1);
      if steps[i - 1].MatchCommit? {
        CommitStep(ws[i - 1], steps[i - 1], cfg);
      } else {
        StepKeepsPausedEmpty(ws[i - 1], steps[i - 1], cfg);
      }
    }
  }

  lemma StartIsEmpty()
    ensures PausedHoldNothing(START.db)
  {
  }

  lemma CommitStep(w: World, st: Step, cfg: Settings)
    requires Sound(w.db) && Enabled(w, st, cfg) && st.MatchCommit? && PausedHoldNothing(w.db)
    ensures PausedHoldNothing(Next(w, st, cfg).db) <==> NotifiesActive(w.db, st.ms, st.b)
  {
    hide Sound, PausedHoldNothing, NotifiesActive, GroupsApplied;
    CommitKeepsPausedEmptyIff(w.db, st.ms, st.seen, st.b);
  }

  // ----- Tied to what the matchers read -----

  /** The state in which a matcher asked its query, and what it asked. */
  datatype Read = Read(at: nat, scene: Scene, query: Query)

  /** The step from `db` to `db'` pauses the subscription, by hand or at a failure. */
  predicate PausedBetween(db: Db, db': Db, s: SubId) {
    s in db.subs && s in db'.subs && db.subs[s].status == Active && db'.subs[s].status == Paused
  }

  /** The matches answer the query asked in the state `r.at`, and none of their
      subscriptions is paused between that state and the state `i` of the commit. */
  ghost predicate ReadHolds(ws: seq<World>, ms: seq<Match>, r: Read, i: nat)
    requires i < |ws|
  {
    && r.at <= i && IsMatchList(ms, ws[r.at].db.subs, r.scene, r.query)
    && forall n, m | r.at <= n < i && m in ms :: !PausedBetween(ws[n].db, ws[n + 1].db, m.sub)
  }

  ghost predicate ReadsHold(ws: seq<World>, steps: seq<Step>, queries: seq<Read>) {
    && |ws| == |steps| + 1 && |queries| == |steps|
    && forall i: nat :: i < |steps| && steps[i].MatchCommit? ==> ReadHolds(ws, steps[i].ms, queries[i], i)
  }

  predicate ActiveIfThere(db: Db, s: SubId) { s in db.subs ==> db.subs[s].status == Active }

  /** A subscription is only ever created active. */
  lemma NewAreActive(w: World, st: Step, cfg: Settings, s: SubId)
    requires Sound(w.db) && Enabled(w, st, cfg) && ActiveIfThere(w.db, s)
    requires !PausedBetween(w.db, Next(w, st, cfg).db, s)
    ensures ActiveIfThere(Next(w, st, cfg).db, s)
  {
    hide Sound, IsSelection, IsPendingList, GroupsApplied, LocksHeld;
    if st.MatchCommit? { CommitKeepsSubs(w, st, cfg); }
    if st.Record? {
      SoundHasKeys(w.db);
      OutcomesShrink(w.db, w.runs[st.run].outcomes, w.now, cfg.pauseAfter);
    }
  }

  lemma SoundHasKeys(db: Db)
    requires Sound(db)
    ensures ForeignKeys(db)
  {
  }

  lemma {:induction false} ReadStaysActive(ws: seq<World>, steps: seq<Step>, cfg: Settings, from: nat, i: nat, s: SubId)
    requires IsRun(ws, steps, cfg) && from <= i < |ws| && ActiveIfThere(ws[from].db, s)
    requires forall n | from <= n < i :: !PausedBetween(ws[n].db, ws[n + 1].db, s)
    ensures ActiveIfThere(ws[i].db, s)
    decreases i
  {
    hide Next, Enabled, Sound, ActiveIfThere, PausedBetween;
    if from < i {
      ReadStaysActive(ws, steps, cfg, from, i - 1, s);
      RunsAreSound(ws, steps, cfg, i - 1);
      StepOf(ws, steps, cfg, i - 1);
      NewAreActive(ws[i - 1], steps[i - 1], cfg, s);
    }
  }

  lemma ReadNotifiesActive(ws: seq<World>, steps: seq<Step>, cfg: Settings, r: Read, i: nat)
    requires IsRun(ws, steps, cfg) && i < |steps| && steps[i].MatchCommit? && ReadHolds(ws, steps[i].ms, r, i)
    ensures OneOpen(ws[i].db) && NotifiesActive(ws[i].db, steps[i].ms, steps[i].b)
  {
    RunsAreSound(ws, steps, cfg, i);
    var (db, ms) := (ws[i].db, steps[i].ms);
    assert OneOpen(db);
    FirstSeenIsKeySet(ms);
    hide IsRun, Sound, OneOpen, FirstSeen, Groups, Decide, Current;
    forall k | k in FirstSeen(ms) ensures ActiveIfThere(db, k.sub) {
      var m :| m in ms && KeyOfMatch(m) == k;
      ReadStaysActive(ws, steps, cfg, r.at, i, m.sub);
    }
  }

  /** If every commit answers a query of an earlier state, and none of the
      subscriptions it matched is paused between the query and the commit, then a
      paused subscription never holds a pending delivery. */
  lemma FreshReadsKeepPausedEmpty(ws: seq<World>, steps: seq<Step>, cfg: Settings, queries: seq<Read>, i: nat)
    requires IsRun(ws, steps, cfg) && ReadsHold(ws, steps, queries) && i < |ws|
    ensures PausedHoldNothing(ws[i].db)
  {
    hide PausedHoldNothing, NotifiesActive, IsRun, OneOpen;
    assert |ws| == |steps| + 1;
    forall n: nat | n < |steps| && steps[n].MatchCommit?
      ensures OneOpen(ws[n].db) && NotifiesActive(ws[n].db, steps[n].ms, steps[n].b)
    {
      assert ReadHolds(ws, steps[n].ms, queries[n], n);
      ReadNotifiesActive(ws, steps, cfg, queries[n], n);
    }
    PausedStayEmpty(ws, steps, cfg, i);
  }
}
