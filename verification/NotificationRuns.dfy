/**
 Every run of the notification pipeline: matchers, delivery workers that may die
 at any point, and admin orders, interleaved in any way. One step is one
 committed transaction, one send, or a death.
 */
module NotificationRuns {
  import opened Common
  import opened NotificationTables
  import opened Matching
  import opened EpisodeRule
  import opened MatchBatch
  import opened MatchTransaction
  import opened DeliveryStatements
  import opened Deliver

  type RunId = nat

  /** A delivery run between its claim transaction and its record transaction. */
  datatype Run = Run(claimedAt: Time, claims: seq<ClaimedSubscription>, outcomes: seq<Outcome>)

  /** A message the sender accepted. */
  datatype Message = Message(sub: SubId, deliveries: seq<DeliveryKey>, claimedAt: Time)

  /** What was recorded of a subscription. */
  datatype LogEntry = SentAt(claimedAt: Time, at: Time) | FailedAt(at: Time) | Resumed

  /** `accepted`, `log` and `lastClaim` are history variables. */
  datatype World = World(
    db: Db, now: Time, nextSub: SubId,
    runs: map<RunId, Run>, nextRun: RunId,
    accepted: map<MessageId, Message>, nextMessage: MessageId,
    log: map<SubId, seq<LogEntry>>, lastClaim: map<SubId, Time>)

  datatype Settings = Settings(minInterval: Time, limit: nat, pauseAfter: Time, retention: Time)

  datatype Reply = Accepted | Refused | NotTried

  datatype Step =
    | Tick(to: Time)
    | MatchCommit(ms: seq<Match>, seen: map<GroupKey, OpenEpisode>, b: Batch)
    | ClaimSome(locked: set<SubId>, chosen: seq<SubId>, rows: seq<DeliveryKey>)
    | Send(run: RunId, reply: Reply)
    | Record(run: RunId)
    | Die(run: RunId)
    | Add(hazardTypes: set<HazardType>, severityMin: int, area: AreaId)
    | Pause(sub: SubId)
    | Resume(sub: SubId)
    | Remove(sub: SubId)

  ghost predicate Enabled(w: World, st: Step, cfg: Settings) {
    match st
    case Tick(to) => w.now <= to
    // A matcher commits what it decided on an earlier read; its locks held since.
    case MatchCommit(ms, seen, b) =>
      && OneOpen(w.db) && Grounded(ms, b.at) && LocksHeld(w.db, seen)
      && (forall k :: k in seen ==> k in FirstSeen(ms))
      && GroupsApplied(w.db, seen, FirstSeen(ms), Groups(ms), b).Ok?
    case ClaimSome(locked, chosen, rows) =>
      && IsSelection(w.db, w.now, cfg.minInterval, cfg.limit, locked, chosen)
      && IsPendingList(w.db, chosen, rows)
    case Send(r, reply) =>
      && r in w.runs && |w.runs[r].outcomes| < |w.runs[r].claims|
      && (reply == NotTried ==> w.runs[r].outcomes != [])
    case Record(r) => r in w.runs && |w.runs[r].outcomes| == |w.runs[r].claims|
    case Die(r) => r in w.runs
    case Add(_, _, _) => true
    case Pause(s) => s in w.db.subs
    case Resume(s) => s in w.db.subs
    case Remove(s) => s in w.db.subs
  }

  function Replied(w: World, r: RunId, reply: Reply): World
    requires r in w.runs && |w.runs[r].outcomes| < |w.runs[r].claims|
  {
    var run := w.runs[r];
    var c := run.claims[|run.outcomes|];
    var o := match reply
      case Accepted => SentAs(c, w.nextMessage)
      case Refused => FailedTo(c)
      case NotTried => Skipped(c);
    var w' := w.(runs := w.runs[r := run.(outcomes := run.outcomes + [o])]);
    if reply == Accepted then
      w'.(accepted := w.accepted[w.nextMessage := Message(c.sub, c.deliveries, run.claimedAt)],
          nextMessage := w.nextMessage + 1)
    else w'
  }

  function Logged(log: map<SubId, seq<LogEntry>>, s: SubId, e: LogEntry): map<SubId, seq<LogEntry>> {
    if s in log then log[s := log[s] + [e]] else log
  }

  function OutcomeLogged(
    log: map<SubId, seq<LogEntry>>, o: Outcome, claimedAt: Time, now: Time): map<SubId, seq<LogEntry>> {
    match o
    case Skipped(_) => log
    case SentAs(c, _) => Logged(log, c.sub, SentAt(claimedAt, now))
    case FailedTo(c) => Logged(log, c.sub, FailedAt(now))
  }

  function OutcomesLogged(
    log: map<SubId, seq<LogEntry>>, os: seq<Outcome>, claimedAt: Time, now: Time): map<SubId, seq<LogEntry>> {
    if os == [] then log
    else OutcomeLogged(OutcomesLogged(log, os[..|os| - 1], claimedAt, now), os[|os| - 1], claimedAt, now)
  }

  function ClaimMarks(m: map<SubId, Time>, chosen: seq<SubId>, now: Time): map<SubId, Time> {
    m + map s | s in chosen :: now
  }

  /** The world after an enabled step. */
  ghost function Next(w: World, st: Step, cfg: Settings): World
    requires Enabled(w, st, cfg)
  {
    match st
    case Tick(to) => w.(now := to)
    case MatchCommit(ms, seen, b) => w.(db := GroupsApplied(w.db, seen, FirstSeen(ms), Groups(ms), b).value.db)
    case ClaimSome(_, chosen, rows) =>
      w.(db := AfterClaim(w.db, chosen, rows, w.now),
         runs := w.runs[w.nextRun := Run(w.now, ClaimsOf(w.db, chosen, rows), [])],
         nextRun := w.nextRun + 1,
         lastClaim := ClaimMarks(w.lastClaim, chosen, w.now))
    case Send(r, reply) => Replied(w, r, reply)
    case Record(r) =>
      var run := w.runs[r];
      w.(db := AfterPurge(OutcomesRecorded(w.db, run.outcomes, w.now, cfg.pauseAfter), w.now, cfg.retention),
         runs := w.runs - {r},
         log := OutcomesLogged(w.log, run.outcomes, run.claimedAt, w.now))
    case Die(r) => w.(runs := w.runs - {r})
    case Add(hazardTypes, severityMin, area) =>
      w.(db := w.db.(subs := w.db.subs[w.nextSub := NewSubscription(hazardTypes, severityMin, area)]),
         nextSub := w.nextSub + 1, log := w.log[w.nextSub := []])
    case Pause(s) => w.(db := AfterPause(w.db, s))
    case Resume(s) => w.(db := AfterResume(w.db, s), log := Logged(w.log, s, Resumed))
    case Remove(s) => w.(db := AfterRemove(w.db, s))
  }

  const START := World(EMPTY_DB, 0, 0, map[], 0, map[], 0, map[], map[])

  ghost predicate IsStep(ws: seq<World>, steps: seq<Step>, cfg: Settings, i: nat)
    requires i < |steps| && |ws| == |steps| + 1
  {
    Enabled(ws[i], steps[i], cfg) && ws[i + 1] == Next(ws[i], steps[i], cfg)
  }

  /** `ws` is a run of the pipeline from an empty database. */
  ghost predicate IsRun(ws: seq<World>, steps: seq<Step>, cfg: Settings) {
    && |ws| == |steps| + 1 && ws[0] == START
    && forall i: nat :: i < |steps| ==> IsStep(ws, steps, cfg, i)
  }

  lemma StepOf(ws: seq<World>, steps: seq<Step>, cfg: Settings, i: nat)
    requires IsRun(ws, steps, cfg) && i < |steps|
    ensures Enabled(ws[i], steps[i], cfg) && ws[i + 1] == Next(ws[i], steps[i], cfg)
  {
    assert IsStep(ws, steps, cfg, i);
  }

  // ----- The tables stay sound -----

  /** No statement but the matcher's adds rows or touches episodes: rows stay or go. */
  ghost predicate Shrinks(db: Db, db': Db) {
    && db'.nextEpisode == db.nextEpisode && db'.ledger == db.ledger
    && (forall id :: id in db'.episodes ==>
          id in db.episodes && db'.episodes[id] == db.episodes[id] && db.episodes[id].sub in db'.subs)
    && (forall k :: k in db'.deliveries ==>
          k in db.deliveries && SameRow(db.deliveries[k], db'.deliveries[k]) && k.episode in db'.episodes)
  }

  predicate SameRow(d: Delivery, d': Delivery) {
    d' == d.(status := d'.status, attempts := d'.attempts, messageId := d'.messageId, sentAt := d'.sentAt)
  }

  lemma ShrinkKeepsSound(db: Db, db': Db)
    requires Sound(db) && Shrinks(db, db')
    ensures Sound(db') && Evolves(db, db')
  {
    hide Ladder;
    assert forall i :: IsOpen(db', i) ==> IsOpen(db, i);
  }

  lemma ShrinksTransitive(a: Db, b: Db, c: Db)
    requires Shrinks(a, b) && Shrinks(b, c)
    ensures Shrinks(a, c)
  {
  }

  lemma ShrinksReflexive(db: Db)
    requires ForeignKeys(db)
    ensures Shrinks(db, db)
  {
  }

  lemma OutcomeShrinks(db: Db, o: Outcome, now: Time, pauseAfter: Time)
    requires ForeignKeys(db)
    ensures Shrinks(db, OutcomeRecorded(db, o, now, pauseAfter))
    ensures OutcomeRecorded(db, o, now, pauseAfter).subs.Keys == db.subs.Keys
    ensures OutcomeRecorded(db, o, now, pauseAfter).episodes == db.episodes
    ensures OutcomeRecorded(db, o, now, pauseAfter).deliveries.Keys == db.deliveries.Keys
  {
    hide StreakTooLong;
    match o
    case Skipped(_) =>
    case SentAs(_, _) =>
    case FailedTo(_) =>
  }

  lemma {:induction false} OutcomesShrink(db: Db, os: seq<Outcome>, now: Time, pauseAfter: Time)
    requires Sound(db)
    ensures Shrinks(db, OutcomesRecorded(db, os, now, pauseAfter))
    ensures OutcomesRecorded(db, os, now, pauseAfter).subs.Keys == db.subs.Keys
    ensures OutcomesRecorded(db, os, now, pauseAfter).episodes == db.episodes
    ensures OutcomesRecorded(db, os, now, pauseAfter).deliveries.Keys == db.deliveries.Keys
    ensures Sound(OutcomesRecorded(db, os, now, pauseAfter))
  {
    if os == [] {
      ShrinksReflexive(db);
    } else {
      OutcomesShrink(db, os[..|os| - 1], now, pauseAfter);
      var mid := OutcomesRecorded(db, os[..|os| - 1], now, pauseAfter);
      hide OneOpen, Expiry, Ledger, Recorded, OutcomeRecorded, Shrinks, ForeignKeys;
      OutcomeShrinks(mid, os[|os| - 1], now, pauseAfter);
      ShrinksTransitive(db, mid, OutcomesRecorded(db, os, now, pauseAfter));
      ShrinkKeepsSound(db, OutcomesRecorded(db, os, now, pauseAfter));
    }
  }

  lemma PurgeShrinks(db: Db, now: Time, retention: Time)
    requires ForeignKeys(db)
    ensures Shrinks(db, AfterPurge(db, now, retention))
  {
  }

  lemma ClaimShrinks(db: Db, chosen: seq<SubId>, rows: seq<DeliveryKey>, now: Time)
    requires ForeignKeys(db)
    ensures Shrinks(db, AfterClaim(db, chosen, rows, now))
  {
    hide Backoff;
  }

  lemma OrdersShrink(db: Db, s: SubId)
    requires ForeignKeys(db)
    ensures s in db.subs ==> Shrinks(db, AfterPause(db, s))
    ensures Shrinks(db, AfterRemove(db, s))
  {
  }

  /** Every step but a matcher's commit only shrinks the tables. */
  lemma StepShrinks(w: World, st: Step, cfg: Settings)
    requires Sound(w.db) && Enabled(w, st, cfg) && !st.MatchCommit?
    ensures Shrinks(w.db, Next(w, st, cfg).db)
  {
    hide OneOpen, Expiry, Ledger, Recorded, IsSelection, IsPendingList;
    match st
    case Record(r) =>
      var mid := OutcomesRecorded(w.db, w.runs[r].outcomes, w.now, cfg.pauseAfter);
      OutcomesShrink(w.db, w.runs[r].outcomes, w.now, cfg.pauseAfter);
      PurgeShrinks(mid, w.now, cfg.retention);
      hide Shrinks, AfterPurge, OutcomesRecorded, ForeignKeys;
      ShrinksTransitive(w.db, mid, Next(w, st, cfg).db);
    case Remove(s) => hide Shrinks; OrdersShrink(w.db, s);
    case Pause(s) => hide Shrinks; OrdersShrink(w.db, s);
    case ClaimSome(_, chosen, rows) => hide Shrinks; ClaimShrinks(w.db, chosen, rows, w.now);
    case MatchCommit(_, _, _) =>
    case _ =>
      assert Next(w, st, cfg).db == w.db.(subs := Next(w, st, cfg).db.subs);
      assert w.db.subs.Keys <= Next(w, st, cfg).db.subs.Keys;
      hide Next, Enabled;
  }

  lemma StepKeepsSound(w: World, st: Step, cfg: Settings)
    requires Sound(w.db) && Enabled(w, st, cfg)
    ensures Sound(Next(w, st, cfg).db) && Evolves(w.db, Next(w, st, cfg).db)
  {
    match st
    case MatchCommit(ms, seen, b) =>
      LateCommitIsAtomic(w.db, seen, ms, b);
      MatchKeepsSound(w.db, ms, b, Matched(w.db, ms, b).value);
    case _ =>
      StepShrinks(w, st, cfg);
      ShrinkKeepsSound(w.db, Next(w, st, cfg).db);
  }

  /** In every state of every run: one open episode per subscription and key, and
      per episode one 'opened' delivery, then 'escalated' ones of strictly rising
      severity that end at notified_severity, four at most. */
  lemma {:induction false} RunsAreSound(ws: seq<World>, steps: seq<Step>, cfg: Settings, i: nat)
    requires IsRun(ws, steps, cfg) && i < |ws|
    ensures Sound(ws[i].db)
    ensures forall id :: id in ws[i].db.ledger ==> 1 <= |ws[i].db.ledger[id]| <= 4
  {
    if i > 0 {
      RunsAreSound(ws, steps, cfg, i - 1);
      StepOf(ws, steps, cfg, i - 1);
      StepKeepsSound(ws[i - 1], steps[i - 1], cfg);
    }
    forall id | id in ws[i].db.ledger ensures 1 <= |ws[i].db.ledger[id]| <= 4 {
      LadderIsShort(ws[i].db.ledger[id]);
    }
  }

  lemma {:induction false} RunsEvolve(ws: seq<World>, steps: seq<Step>, cfg: Settings, i: nat, j: nat)
    requires IsRun(ws, steps, cfg) && i <= j < |ws|
    ensures Evolves(ws[i].db, ws[j].db)
    decreases j
  {
    hide Next, Enabled, Sound;
    if i < j {
      RunsEvolve(ws, steps, cfg, i, j - 1);
      RunsAreSound(ws, steps, cfg, j - 1);
      StepOf(ws, steps, cfg, j - 1);
      StepKeepsSound(ws[j - 1], steps[j - 1], cfg);
      hide *;
      EvolvesTransitive(ws[i].db, ws[j - 1].db, ws[j].db);
    }
  }

  /** A batch committed at step `i` and retried at any later state of the run is a
      no-op, as long as the episodes it matched are still open. */
  lemma LateRetryIsNoOp(ws: seq<World>, steps: seq<Step>, cfg: Settings, i: nat, j: nat, again: seq<Match>, now: Time)
    requires IsRun(ws, steps, cfg) && i < j < |ws| && steps[i].MatchCommit?
    requires steps[i].b.grace >= 0 && forall m :: m in again ==> m in steps[i].ms
    requires StillOpen(ws[i + 1].db, ws[j].db, steps[i].ms)
    ensures OneOpen(ws[j].db) && Matched(ws[j].db, again, steps[i].b.(now := now)) == Ok(Applied(ws[j].db, 0))
  {
    RunsAreSound(ws, steps, cfg, i);
    RunsAreSound(ws, steps, cfg, j);
    RunsEvolve(ws, steps, cfg, i + 1, j);
    StepOf(ws, steps, cfg, i);
    hide IsRun, Sound;
    CommittedBatchRetried(ws[i], steps[i], cfg, ws[j].db, again, now);
  }

  lemma CommittedBatchRetried(w: World, st: Step, cfg: Settings, later: Db, again: seq<Match>, now: Time)
    requires Enabled(w, st, cfg) && st.MatchCommit? && Sound(w.db) && Sound(later)
    requires st.b.grace >= 0 && forall m :: m in again ==> m in st.ms
    requires Evolves(Next(w, st, cfg).db, later) && StillOpen(Next(w, st, cfg).db, later, st.ms)
    ensures OneOpen(later) && Matched(later, again, st.b.(now := now)) == Ok(Applied(later, 0))
  {
    var (ms, seen, b) := (st.ms, st.seen, st.b);
    assert OneOpen(later);
    assert Next(w, st, cfg).db == GroupsApplied(w.db, seen, FirstSeen(ms), Groups(ms), b).value.db;
    LateCommitIsAtomic(w.db, seen, ms, b);
    hide Next, Enabled, GroupsApplied, Sound, Matched, Evolves, StillOpen, FirstSeen, Groups;
    RerunIsNoOp(w.db, ms, b, Matched(w.db, ms, b).value, later, again, now);
  }
}
