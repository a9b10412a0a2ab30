/**
 A batch event and the matcher behind it: any sequence of failures, timeouts and
 crashes leaves the tables as a single clean matcher run would
 (app/core/events/worker.py, app/notifications/event_handlers/match_notifications.py).
 */
module RetryEquivalence {
  import opened Common
  import opened NotificationTables
  import opened Matching
  import opened EpisodeStatements
  import opened MatchBatch
  import opened MatchSoundness
  import opened MatchTransaction
  import Outbox

  const MATCHER := "match_notifications"

  /** One dispatch of the event. `raises` is what each handler reports, if called;
      `matched` tells whether the matcher's own transaction committed, if it was
      called; `died` that the worker died before committing the outbox row. The
      query of this attempt answered `ms`, in a transaction that began at `now`. */
  datatype Attempt = Attempt(
    names: seq<string>, raises: seq<bool>, matched: bool, died: bool, ms: seq<Match>, now: Time, at: Time, jitter: nat)

  /** A handler that returns has committed; one that raises or times out may have
      committed too, just before. An attempt that died may not have reached it. */
  ghost predicate Possible(a: Attempt) {
    && |a.raises| == |a.names| && Distinct(a.names) && MATCHER in a.names
    && (!a.died ==> forall i :: 0 <= i < |a.names| && a.names[i] == MATCHER && !a.raises[i] ==> a.matched)
  }

  predicate Calls(row: Outbox.Row) { MATCHER !in Outbox.Completed(row.state) }

  /** The matcher's commit happens in this attempt. */
  predicate Commits(row: Outbox.Row, a: Attempt) { row.status == Outbox.Pending && Calls(row) && a.matched }

  function DbAfter(db: Db, row: Outbox.Row, a: Attempt, b: Batch): Db
    requires OneOpen(db)
  {
    if Commits(row, a) && Matched(db, a.ms, b.(now := a.now)).Ok? then Matched(db, a.ms, b.(now := a.now)).value.db
        else db
  }

  function RowAfter(row: Outbox.Row, a: Attempt): Outbox.Row
    requires |a.raises| == |a.names|
  {
    if row.status != Outbox.Pending || a.died then row
    else Outbox.Handled(row, Outbox.Dispatched(a.names, Outbox.Completed(row.state), a.raises), a.at, a.jitter)
  }

  /** The tables and the event after the first `i` attempts. */
  ghost predicate IsHistory(dbs: seq<Db>, rows: seq<Outbox.Row>, attempts: seq<Attempt>, b: Batch) {
    && |dbs| == |rows| == |attempts| + 1
    && (forall i :: 0 <= i < |dbs| ==> OneOpen(dbs[i]))
    && forall i :: 0 <= i < |attempts| ==>
      && Possible(attempts[i])
      && dbs[i + 1] == DbAfter(dbs[i], rows[i], attempts[i], b)
      && rows[i + 1] == RowAfter(rows[i], attempts[i])
  }

  /** Every attempt queries the same events and subscriptions. */
  ghost predicate SameQuery(attempts: seq<Attempt>, db: Db, at: Time) {
    && (forall i, j, m :: 0 <= i < |attempts| && 0 <= j < |attempts| && m in attempts[i].ms ==> m in attempts[j].ms)
    && (forall i :: 0 <= i < |attempts| ==> Grounded(attempts[i].ms, at))
    && (forall i, m :: 0 <= i < |attempts| && m in attempts[i].ms ==> m.sub in db.subs)
  }

  // ----- A matcher alone never raises -----

  lemma GroupNeverRaises(db: Db, k: GroupKey, g: Group, b: Batch)
    requires OneOpen(db) && k.sub in db.subs
    ensures GroupApplied(db, Current(db, k), k, g, b).Ok?
  {
    CurrentRow(db, k);
    if Current(db, k).Some? {
      var id := Current(db, k).value.id;
      assert forall i :: IsOpenFor(db, i, k) ==> i == id;
      hide OneOpen, Current;
    }
  }

  lemma {:induction false} GroupsNeverRaise(
    db: Db, order: seq<GroupKey>, groups: map<GroupKey, Group>, b: Batch, i: nat)
    requires Sound(db) && GroupsOk(order, groups, b.at) && i <= |order|
    requires forall k :: k in order ==> k.sub in db.subs
    ensures GroupsApplied(db, Seen(db, order), order[..i], groups, b).Ok?
  {
    if i > 0 {
      GroupsNeverRaise(db, order, groups, b, i - 1);
      SeenIsLocked(db, order);
      PrefixProgresses(db, order, groups, b, i - 1);
      GroupsStep(db, Seen(db, order), order, groups, b, i - 1);
      var k := order[i - 1];
      var before := GroupsApplied(db, Seen(db, order), order[..i - 1], groups, b).value;
      assert k !in order[..i - 1] && k in order && before.db.subs == db.subs;
      assert Lookup(Seen(db, order), k) == Current(db, k) == Current(before.db, k);
      hide *;
      GroupNeverRaises(before.db, k, groups[k], b);
    } else {
      assert order[..0] == [];
      hide Sound, GroupsOk, Seen;
    }
  }

  /** Progress of a prefix that does not raise, whatever the rest does. */
  lemma PrefixProgresses(db: Db, order: seq<GroupKey>, groups: map<GroupKey, Group>, b: Batch, i: nat)
    requires Sound(db) && GroupsOk(order, groups, b.at) && i <= |order|
    requires GroupsApplied(db, Seen(db, order), order[..i], groups, b).Ok?
    ensures var db' := GroupsApplied(db, Seen(db, order), order[..i], groups, b).value.db;
            OneOpen(db') && db'.subs == db.subs && forall k :: k !in order[..i] ==> Current(db', k) == Current(db, k)
  {
    SeenIsLocked(db, order);
    assert order[..i][..i] == order[..i];
    assert GroupsOk(order[..i], groups, b.at) by { hide GroupOk; }
    hide GroupsOk, GroupsApplied, Seen;
    Progresses(db, Seen(db, order), order[..i], groups, b, i);
    hide Sound, Covers, Current;
  }

  /** With no other transaction in between, a matcher always commits. */
  lemma AloneNeverRaises(db: Db, ms: seq<Match>, b: Batch)
    requires Sound(db) && Grounded(ms, b.at) && forall m :: m in ms ==> m.sub in db.subs
    ensures Matched(db, ms, b).Ok?
  {
    var order := FirstSeen(ms);
    MatchListGroupsOk(ms, b.at);
    FirstSeenIsKeySet(ms);
    GroupsNeverRaise(db, order, Groups(ms), b, |order|);
    assert order[..|order|] == order;
  }

  // ----- Retries -----

  /** A second run of the matcher on what the first one left. */
  lemma SecondRunIsNoOp(db: Db, first: seq<Match>, b: Batch, after: Db, again: seq<Match>, now: Time)
    requires Sound(db) && Grounded(first, b.at) && b.grace >= 0
    requires Matched(db, first, b).Ok? && after == Matched(db, first, b).value.db
    requires forall m :: m in again ==> m in first
    ensures Sound(after) && Matched(after, again, b.(now := now)) == Ok(Applied(after, 0))
  {
    MatchKeepsSound(db, first, b, Matched(db, first, b).value);
    SubsetIsCovered(after, first, again, b.at);
    CoveredBatchIsNoOp(after, again, b.(now := now));
  }

  /** The attempt `n` is the first whose matcher transaction committed. */
  ghost predicate FirstMatch(rows: seq<Outbox.Row>, attempts: seq<Attempt>, n: nat)
    requires |rows| == |attempts| + 1
  {
    n < |attempts| && Commits(rows[n], attempts[n]) && forall i :: 0 <= i < n ==> !Commits(rows[i], attempts[i])
  }

  /** `db'` is what the matcher of this attempt leaves, run once and cleanly on `db`. */
  ghost predicate CleanRun(db: Db, a: Attempt, b: Batch, db': Db) {
    OneOpen(db) && Matched(db, a.ms, b.(now := a.now)).Ok? && db' == Matched(db, a.ms, b.(now := a.now)).value.db
  }

  ghost predicate OneCleanRun(dbs: seq<Db>, rows: seq<Outbox.Row>, attempts: seq<Attempt>, b: Batch, i: nat, n: nat)
    requires |dbs| == |rows| == |attempts| + 1 && i <= |attempts|
  {
    n < i && FirstMatch(rows, attempts, n) && CleanRun(dbs[0], attempts[n], b, dbs[i])
  }

  ghost predicate Untouched(dbs: seq<Db>, rows: seq<Outbox.Row>, attempts: seq<Attempt>, i: nat)
    requires |dbs| == |rows| == |attempts| + 1 && i <= |attempts|
  {
    dbs[i] == dbs[0] && forall n :: 0 <= n < i ==> !Commits(rows[n], attempts[n])
  }

  lemma FirstCommit(dbs: seq<Db>, rows: seq<Outbox.Row>, attempts: seq<Attempt>, b: Batch, i: nat)
    requires |dbs| == |rows| == |attempts| + 1 && 0 < i <= |attempts|
    requires Sound(dbs[0]) && SameQuery(attempts, dbs[0], b.at)
    requires OneOpen(dbs[i - 1]) && dbs[i] == DbAfter(dbs[i - 1], rows[i - 1], attempts[i - 1], b)
    requires Untouched(dbs, rows, attempts, i - 1)
    ensures Untouched(dbs, rows, attempts, i) || OneCleanRun(dbs, rows, attempts, b, i, i - 1)
  {
    var a := attempts[i - 1];
    hide Commits, Matched, OneOpen, Sound;
    if Commits(rows[i - 1], a) {
      AloneNeverRaises(dbs[0], a.ms, b.(now := a.now));
    }
  }

  lemma LaterCommit(dbs: seq<Db>, rows: seq<Outbox.Row>, attempts: seq<Attempt>, b: Batch, i: nat, n: nat)
    requires |dbs| == |rows| == |attempts| + 1 && 0 < i <= |attempts|
    requires Sound(dbs[0]) && SameQuery(attempts, dbs[0], b.at) && b.grace >= 0
    requires OneOpen(dbs[i - 1]) && dbs[i] == DbAfter(dbs[i - 1], rows[i - 1], attempts[i - 1], b)
    requires OneCleanRun(dbs, rows, attempts, b, i - 1, n)
    ensures OneCleanRun(dbs, rows, attempts, b, i, n)
  {
    var a := attempts[i - 1];
    hide Commits, Matched, OneOpen, Sound;
    assert forall m :: m in a.ms ==> m in attempts[n].ms;
    SecondRunIsNoOp(dbs[0], attempts[n].ms, b.(now := attempts[n].now), dbs[i - 1], a.ms, a.now);
    assert b.(now := attempts[n].now).(now := a.now) == b.(now := a.now);
  }

  /** For any sequence of failures, timeouts and crashes, before the matcher's
      commit or between it and the outbox's, the tables end as they began if no
      attempt committed the matcher, and otherwise exactly as the first attempt
      that did would leave them in a single clean run. */
  lemma {:induction false} RetriesEqualOneRun(
    dbs: seq<Db>, rows: seq<Outbox.Row>, attempts: seq<Attempt>, b: Batch, i: nat)
    requires IsHistory(dbs, rows, attempts, b) && Sound(dbs[0]) && SameQuery(attempts, dbs[0], b.at) && b.grace >= 0
    requires i <= |attempts|
    ensures Untouched(dbs, rows, attempts, i) || exists n: nat :: OneCleanRun(dbs, rows, attempts, b, i, n)
  {
    if i > 0 {
      RetriesEqualOneRun(dbs, rows, attempts, b, i - 1);
      assert OneOpen(dbs[i - 1]) && dbs[i] == DbAfter(dbs[i - 1], rows[i - 1], attempts[i - 1], b);
      hide *;
      if Untouched(dbs, rows, attempts, i - 1) {
        FirstCommit(dbs, rows, attempts, b, i);
      } else {
        var n: nat :| OneCleanRun(dbs, rows, attempts, b, i - 1, n);
        LaterCommit(dbs, rows, attempts, b, i, n);
      }
    }
  }

  /** The matcher is only recorded as done once its transaction committed. */
  lemma {:induction false} DoneMeansMatched(
    dbs: seq<Db>, rows: seq<Outbox.Row>, attempts: seq<Attempt>, b: Batch, i: nat)
    requires IsHistory(dbs, rows, attempts, b) && i <= |attempts|
    requires rows[0].status == Outbox.Pending && Calls(rows[0])
    ensures !Calls(rows[i]) || rows[i].status == Outbox.Processed ==>
              exists n :: 0 <= n < i && Commits(rows[n], attempts[n])
  {
    if i > 0 {
      DoneMeansMatched(dbs, rows, attempts, b, i - 1);
      var (row, a) := (rows[i - 1], attempts[i - 1]);
      assert Possible(a) && rows[i] == RowAfter(row, a);
      hide IsHistory;
      if row.status == Outbox.Pending && Calls(row) && !a.died {
        Outbox.DispatchGrows(row, a.names, a.raises, a.at, a.jitter);
        Outbox.MergedTells(row.state, a.names, Outbox.Completed(row.state), a.raises, a.at, MATCHER);
        assert MATCHER in a.names;
        assert !Calls(rows[i]) ==> a.matched;
        assert rows[i]
            == Outbox.Handled(row, Outbox.Dispatched(a.names, Outbox.Completed(row.state), a.raises), a.at, a.jitter);
        hide Outbox.Handled, Outbox.Dispatched, Outbox.Merged;
        if rows[i].status == Outbox.Processed {
          assert forall n :: n in a.names ==> n in Outbox.Completed(rows[i].state);
          assert MATCHER in Outbox.Completed(rows[i].state);
          assert !Calls(rows[i]);
        }
      }
    }
  }

  lemma DoneAttempt(db: Db, row: Outbox.Row, a: Attempt, b: Batch)
    requires OneOpen(db) && Possible(a) && MATCHER in Outbox.Completed(row.state)
    ensures DbAfter(db, row, a, b) == db && MATCHER in Outbox.Completed(RowAfter(row, a).state)
  {
    if row.status == Outbox.Pending && !a.died {
      Outbox.DispatchGrows(row, a.names, a.raises, a.at, a.jitter);
    }
    hide OneOpen, Matched, Outbox.Handled, Outbox.Dispatched, Outbox.Completed;
  }

  /** Once the matcher is recorded as done, no attempt changes the tables any more,
      whatever it queries. */
  lemma {:induction false} DoneNeverRunsAgain(
    dbs: seq<Db>, rows: seq<Outbox.Row>, attempts: seq<Attempt>, b: Batch, j: nat, i: nat)
    requires IsHistory(dbs, rows, attempts, b) && j <= i <= |attempts|
    requires MATCHER in Outbox.Completed(rows[j].state)
    ensures dbs[i] == dbs[j] && MATCHER in Outbox.Completed(rows[i].state)
    decreases i
  {
    if j < i {
      DoneNeverRunsAgain(dbs, rows, attempts, b, j, i - 1);
      assert OneOpen(dbs[i - 1]) && Possible(attempts[i - 1]);
      assert dbs[i] == DbAfter(dbs[i - 1], rows[i - 1], attempts[i - 1], b);
      assert rows[i] == RowAfter(rows[i - 1], attempts[i - 1]);
      hide *;
      DoneAttempt(dbs[i - 1], rows[i - 1], attempts[i - 1], b);
    }
  }

  /** A batch event becomes PROCESSED only if some attempt committed the matcher,
      and then the tables are those of a single clean run of it. */
  lemma ProcessedMeansOneCleanRun(dbs: seq<Db>, rows: seq<Outbox.Row>, attempts: seq<Attempt>, b: Batch)
    requires IsHistory(dbs, rows, attempts, b) && Sound(dbs[0]) && SameQuery(attempts, dbs[0], b.at) && b.grace >= 0
    requires rows[0].status == Outbox.Pending && Calls(rows[0])
    requires rows[|attempts|].status == Outbox.Processed
    ensures exists n: nat :: OneCleanRun(dbs, rows, attempts, b, |attempts|, n)
  {
    DoneMeansMatched(dbs, rows, attempts, b, |attempts|);
    RetriesEqualOneRun(dbs, rows, attempts, b, |attempts|);
  }
}
