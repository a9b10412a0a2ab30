/**
 Whole matcher transactions: soundness under concurrent commits, exact
 announcements, and reruns that change nothing.
 */
module MatchTransaction {
  import opened Common
  import opened EpisodeRule
  import opened NotificationTables
  import opened Matching
  import opened EpisodeStatements
  import opened MatchBatch
  import opened MatchSoundness

  ghost predicate GroupsOk(order: seq<GroupKey>, groups: map<GroupKey, Group>, at: Time) {
    Distinct(order) && forall k :: k in order ==> k in groups && GroupOk(k, groups[k], at)
  }

  /** The rows a matcher read are locked: whatever else committed meanwhile, they
      still hold what it saw. Rows it did not see are not protected. */
  ghost predicate LocksHeld(db: Db, seen: map<GroupKey, OpenEpisode>)
    requires OneOpen(db)
  {
    forall k :: k in seen ==> Current(db, k) == Some(seen[k])
  }

  lemma MatchListGroupsOk(ms: seq<Match>, at: Time)
    requires Grounded(ms, at)
    ensures GroupsOk(FirstSeen(ms), Groups(ms), at)
  {
    FirstSeenIsKeySet(ms);
    forall k | k in FirstSeen(ms) ensures GroupOk(k, Groups(ms)[k], at) {
      GroupsAreOk(ms, k, at);
    }
  }

  /** Whatever moves only the key `k` leaves every other key as it was. */
  lemma OtherKeysStay(db: Db, db': Db, k: GroupKey, other: GroupKey, g: Group, at: Time)
    requires OneOpen(db) && OneOpen(db') && Frame(db, db', k) && other != k
    ensures Current(db', other) == Current(db, other)
    ensures Covers(db, other, g, at) ==> Covers(db', other, g, at)
  {
    CurrentRow(db, other);
    CurrentRow(db', other);
    if Current(db, other).Some? {
      CurrentIs(db', other, Current(db, other).value.id);
    }
  }

  /** After the groups `order[..i]`: done keys are covered, the others untouched. */
  ghost predicate KeysDone(
    db: Db, seen: map<GroupKey, OpenEpisode>, order: seq<GroupKey>, groups: map<GroupKey, Group>, at: Time, i: nat,
    db': Db)
    requires i <= |order| && OneOpen(db) && OneOpen(db') && forall k :: k in order ==> k in groups
  {
    && (forall k :: k !in order[..i] ==> Current(db', k) == Current(db, k))
    && (forall k :: k in order[..i] ==> Lookup(seen, k) == Current(db, k))
    && (forall k :: k in order[..i] ==> Covers(db', k, groups[k], at))
  }

  /** No row disappears, deliveries already there are untouched. */
  ghost predicate RowsKept(db: Db, db': Db) {
    && db'.subs == db.subs
    && Evolves(db, db')
    && (forall id :: id in db.episodes ==> id in db'.episodes)
    && (forall d :: d in db.deliveries ==> d in db'.deliveries && db'.deliveries[d] == db.deliveries[d])
  }

  lemma RowsKeptTransitive(a: Db, b: Db, c: Db)
    requires RowsKept(a, b) && RowsKept(b, c)
    ensures RowsKept(a, c)
  {
  }

  /** Episode rows only grow: ids are never reused, keys never change, a closed
      episode stays closed, and severity, expiry and last match never go back.
      Rows may disappear. */
  ghost predicate Evolves(db: Db, db': Db) {
    && db.nextEpisode <= db'.nextEpisode
    && forall id ::
        id in db'.episodes && id < db.nextEpisode ==> id in db.episodes && RowGrew(db.episodes[id], db'.episodes[id])
  }

  predicate RowGrew(e: Episode, e': Episode) {
    && KeyOf(e') == KeyOf(e)
    && (e'.closedAt.None? ==> e.closedAt.None?)
    && e.notified <= e'.notified
    && NotEarlier(e.expiresAt, e'.expiresAt)
    && e.lastMatchedAt <= e'.lastMatchedAt
  }

  lemma EvolvesTransitive(a: Db, b: Db, c: Db)
    requires Evolves(a, b) && Evolves(b, c)
    ensures Evolves(a, c)
  {
  }

  lemma KeyStep(
    db: Db, seen: map<GroupKey, OpenEpisode>, order: seq<GroupKey>, groups: map<GroupKey, Group>, at: Time, i: nat,
        db': Db, after: Db)
    requires OneOpen(db) && OneOpen(db') && OneOpen(after) && GroupsOk(order, groups, at) && i < |order|
    requires KeysDone(db, seen, order, groups, at, i, db')
    requires Lookup(seen, order[i]) == Current(db', order[i])
    requires Frame(db', after, order[i]) && Covers(after, order[i], groups[order[i]], at)
    ensures KeysDone(db, seen, order, groups, at, i + 1, after)
  {
    var k := order[i];
    assert order[..i + 1] == order[..i] + [k] && k !in order[..i];
    forall x | x != k
      ensures Current(after, x) == Current(db', x)
      ensures x in order && Covers(db', x, groups[x], at) ==> Covers(after, x, groups[x], at)
    {
      OtherKeysStay(db', after, k, x, if x in order then groups[x] else EMPTY_GROUP, at);
    }
    hide Current, OneOpen, Covers, GroupOk, Frame, Lookup;
  }

  lemma RowStep(db: Db, k: GroupKey, g: Group, b: Batch, after: Applied)
    requires Ledger(db) && OneOpen(db) && Frame(db, after.db, k)
    requires GroupApplied(db, Current(db, k), k, g, b) == Ok(after)
    ensures RowsKept(db, after.db)
  {
    GroupGrows(db, k, g, b, after);
    hide GroupApplied, Evolves, Ledger, OneOpen, Current;
  }

  /** If the turn of a key did not raise, what the transaction read of it holds. */
  lemma ReadStillHolds(db: Db, seen: map<GroupKey, OpenEpisode>, k: GroupKey, g: Group, b: Batch)
    requires OneOpen(db)
    requires k in seen ==> Current(db, k) == Some(seen[k])
    requires GroupApplied(db, Lookup(seen, k), k, g, b).Ok?
    ensures Lookup(seen, k) == Current(db, k)
  {
    CurrentRow(db, k);
  }

  lemma RefreshGrows(db: Db, id: EpisodeId, severity: int, expiresAt: Option<Time>, at: Time)
    ensures Evolves(db, Refreshed(db, id, severity, expiresAt, at))
  {
  }

  lemma CloseGrows(db: Db, id: EpisodeId, at: Time)
    ensures Evolves(db, Closed(db, id, at))
  {
  }

  lemma InsertGrows(db: Db, k: GroupKey, severity: int, expiresAt: Option<Time>, at: Time)
    ensures var r := Inserted(db, k, severity, expiresAt, at); r.Ok? ==> Evolves(db, r.value)
  {
    hide TakenIn;
  }

  lemma GroupGrows(db: Db, k: GroupKey, g: Group, b: Batch, after: Applied)
    requires OneOpen(db)
    requires GroupApplied(db, Current(db, k), k, g, b) == Ok(after)
    ensures Evolves(db, after.db)
  {
    var id := if Current(db, k).Some? then Current(db, k).value.id else 0;
    match Decide(Current(db, k), g.severity, b.at, b.grace)
    case Touch => RefreshGrows(db, id, Current(db, k).value.notified, g.expiresAt, b.at);
    case Escalate =>
      var db1 := Refreshed(db, id, g.severity, g.expiresAt, b.at);
      assert after == Announced(db1, id, k.sub, g, Escalated, b);
      hide GroupApplied, Current, OneOpen, Decide, Refreshed;
      RefreshGrows(db, id, g.severity, g.expiresAt, b.at);
    case Open =>
      var db1 := if Current(db, k).Some? then Closed(db, id, b.at) else db;
      var db2 := Inserted(db1, k, g.severity, g.expiresAt, b.at).value;
      assert after == Announced(db2, db1.nextEpisode, k.sub, g, Opened, b);
      assert after.db.episodes == db2.episodes && after.db.nextEpisode == db2.nextEpisode;
      hide GroupApplied, Current, OneOpen, Decide, Announced, DeliveryAdded, Closed, Inserted;
      CloseGrows(db, id, b.at);
      InsertGrows(db1, k, g.severity, g.expiresAt, b.at);
      if db1 != db { EvolvesTransitive(db, db1, db2); }
  }

  lemma {:induction false} Progresses(
    db: Db, seen: map<GroupKey, OpenEpisode>, order: seq<GroupKey>, groups: map<GroupKey, Group>, b: Batch, i: nat)
    requires Sound(db) && LocksHeld(db, seen) && GroupsOk(order, groups, b.at) && i <= |order|
    requires GroupsApplied(db, seen, order, groups, b).Ok?
    ensures GroupsApplied(db, seen, order[..i], groups, b).Ok?
    ensures var db' := GroupsApplied(db, seen, order[..i], groups, b).value.db;
            Sound(db') && KeysDone(db, seen, order, groups, b.at, i, db') && RowsKept(db, db')
  {
    GroupsStopAtError(db, seen, order, groups, b, i);
    if i > 0 {
      Progresses(db, seen, order, groups, b, i - 1);
      GroupsStep(db, seen, order, groups, b, i - 1);
      var before := GroupsApplied(db, seen, order[..i - 1], groups, b).value;
      var k := order[i - 1];
      var turn := GroupApplied(before.db, Lookup(seen, k), k, groups[k], b);
      assert k !in order[..i - 1];
      hide Current, Covers, Frame, Evolves, GroupApplied, GroupOk;
      ReadStillHolds(before.db, seen, k, groups[k], b);
      GroupEffect(before.db, k, groups[k], b, turn.value);
      RowStep(before.db, k, groups[k], b, turn.value);
      hide *;
      KeyStep(db, seen, order, groups, b.at, i - 1, before.db, turn.value.db);
      RowsKeptTransitive(db, before.db, turn.value.db);
    }
  }

  // ----- Main results -----

  /** Serializability: a matcher that read the open episodes `seen`, and commits
      later on the tables `db` that other transactions left meanwhile, either
      raises or does exactly what it would do starting on `db`. Only the rows it
      saw are protected by its locks; the unique index catches the rest. */
  lemma LateCommitIsAtomic(db: Db, seen: map<GroupKey, OpenEpisode>, ms: seq<Match>, b: Batch)
    requires Sound(db) && Grounded(ms, b.at)
    requires LocksHeld(db, seen) && forall k :: k in seen ==> k in FirstSeen(ms)
    requires GroupsApplied(db, seen, FirstSeen(ms), Groups(ms), b).Ok?
    ensures GroupsApplied(db, seen, FirstSeen(ms), Groups(ms), b) == Matched(db, ms, b)
  {
    var order := FirstSeen(ms);
    MatchListGroupsOk(ms, b.at);
    Progresses(db, seen, order, Groups(ms), b, |order|);
    assert order[..|order|] == order;
    hide *;
    SameReads(db, seen, order, Groups(ms), b.at, GroupsApplied(db, seen, order, Groups(ms), b).value.db);
    MatchedIs(db, seen, ms, b);
  }

  lemma SameReads(
    db: Db, seen: map<GroupKey, OpenEpisode>, order: seq<GroupKey>, groups: map<GroupKey, Group>, at: Time, db': Db)
    requires OneOpen(db) && OneOpen(db') && forall k :: k in order ==> k in groups
    requires KeysDone(db, seen, order, groups, at, |order|, db')
    requires forall k :: k in seen ==> k in order
    ensures seen == Seen(db, order)
  {
    assert order[..|order|] == order;
    hide Current, Covers, OneOpen;
  }

  lemma MatchedIs(db: Db, seen: map<GroupKey, OpenEpisode>, ms: seq<Match>, b: Batch)
    requires OneOpen(db) && seen == Seen(db, FirstSeen(ms))
    ensures GroupsApplied(db, seen, FirstSeen(ms), Groups(ms), b) == Matched(db, ms, b)
  {
  }

  /** A committed matcher keeps every table invariant, removes no row, and leaves
      every group covered by the open episode of its key. */
  lemma MatchKeepsSound(db: Db, ms: seq<Match>, b: Batch, after: Applied)
    requires Sound(db) && Grounded(ms, b.at)
    requires Matched(db, ms, b) == Ok(after)
    ensures Sound(after.db) && RowsKept(db, after.db)
    ensures forall k :: k in FirstSeen(ms) ==> Covers(after.db, k, Groups(ms)[k], b.at)
  {
    var order := FirstSeen(ms);
    MatchListGroupsOk(ms, b.at);
    SeenIsLocked(db, order);
    Progresses(db, Seen(db, order), order, Groups(ms), b, |order|);
    assert order[..|order|] == order;
  }

  lemma SeenIsLocked(db: Db, order: seq<GroupKey>)
    requires OneOpen(db)
    ensures LocksHeld(db, Seen(db, order))
    ensures forall k :: k in order ==> Lookup(Seen(db, order), k) == Current(db, k)
  {
  }

  /** How many of the groups open or escalate, told from the tables before. */
  function Notifying(db: Db, order: seq<GroupKey>, groups: map<GroupKey, Group>, b: Batch): nat
    requires OneOpen(db) && forall k :: k in order ==> k in groups
  {
    if order == [] then 0
    else
      var k := order[|order| - 1];
      Notifying(db, order[..|order| - 1], groups, b)
      + if Decide(Current(db, k), groups[k].severity, b.at, b.grace) == Touch then 0 else 1
  }

  /** `matched` counts one new delivery per group without a current episode or
      with a higher severity: no insert is ever skipped by the unique index. */
  lemma CountsNotifyingGroups(db: Db, ms: seq<Match>, b: Batch)
    requires Sound(db) && Grounded(ms, b.at) && Matched(db, ms, b).Ok?
    ensures Matched(db, ms, b).value.created == Notifying(db, FirstSeen(ms), Groups(ms), b)
    ensures |Matched(db, ms, b).value.db.deliveries| == |db.deliveries| + Notifying(db, FirstSeen(ms), Groups(ms), b)
  {
    var order := FirstSeen(ms);
    MatchListGroupsOk(ms, b.at);
    SeenIsLocked(db, order);
    CountsUpTo(db, Seen(db, order), order, Groups(ms), b, |order|);
    assert order[..|order|] == order;
  }

  /** The turn of `order[i]`, told from the tables before the transaction. */
  lemma TurnOf(
    db: Db, seen: map<GroupKey, OpenEpisode>, order: seq<GroupKey>, groups: map<GroupKey, Group>, b: Batch, i: nat)
    returns (before: Applied, after: Applied)
    requires Sound(db) && LocksHeld(db, seen) && GroupsOk(order, groups, b.at) && i < |order|
    requires GroupsApplied(db, seen, order, groups, b).Ok?
    ensures GroupsApplied(db, seen, order[..i], groups, b) == Ok(before)
    ensures GroupsApplied(db, seen, order[..i + 1], groups, b) == Ok(after)
    ensures OneOpen(before.db) && OneOpen(after.db) && Current(before.db, order[i]) == Current(db, order[i])
    ensures before.created <= after.created
    ensures Announces(before.db, Applied(after.db, after.created - before.created), order[i], groups[order[i]], b)
    ensures RowsKept(db, before.db)
  {
    Progresses(db, seen, order, groups, b, i);
    Progresses(db, seen, order, groups, b, i + 1);
    GroupsStep(db, seen, order, groups, b, i);
    before := GroupsApplied(db, seen, order[..i], groups, b).value;
    after := GroupsApplied(db, seen, order[..i + 1], groups, b).value;
    var k := order[i];
    var turn := GroupApplied(before.db, Lookup(seen, k), k, groups[k], b).value;
    assert k !in order[..i] && turn == Applied(after.db, after.created - before.created);
    hide Current, Covers, Evolves, GroupApplied, GroupOk, OneOpen, ForeignKeys, Expiry, Ledger, Recorded,
        GroupsApplied, Decide, Announces, Frame, Distinct;
    assert Current(before.db, k) == Current(db, k);
    ReadStillHolds(before.db, seen, k, groups[k], b);
    GroupEffect(before.db, k, groups[k], b, turn);
  }

  lemma CountedOnce(db: Db, k: GroupKey, g: Group, b: Batch, after: Applied)
    requires OneOpen(db) && OneOpen(after.db) && Announces(db, after, k, g, b)
    ensures after.created == if Decide(Current(db, k), g.severity, b.at, b.grace) == Touch then 0 else 1
    ensures |after.db.deliveries| == |db.deliveries| + after.created
  {
    hide Current, OneOpen;
  }

  lemma {:induction false} CountsUpTo(
    db: Db, seen: map<GroupKey, OpenEpisode>, order: seq<GroupKey>, groups: map<GroupKey, Group>, b: Batch, i: nat)
    requires Sound(db) && LocksHeld(db, seen) && GroupsOk(order, groups, b.at) && i <= |order|
    requires GroupsApplied(db, seen, order, groups, b).Ok?
    ensures GroupsApplied(db, seen, order[..i], groups, b).Ok?
    ensures var r := GroupsApplied(db, seen, order[..i], groups, b).value;
            && r.created == Notifying(db, order[..i], groups, b)
            && |r.db.deliveries| == |db.deliveries| + r.created
  {
    if i > 0 {
      CountsUpTo(db, seen, order, groups, b, i - 1);
      var before, after := TurnOf(db, seen, order, groups, b, i - 1);
      assert order[..i][..i - 1] == order[..i - 1];
      hide Current, GroupsApplied, Announces, RowsKept, OneOpen, LocksHeld, GroupsOk, Sound;
      CountedOnce(before.db, order[i - 1], groups[order[i - 1]], b, Applied(after.db, after.created - before.created));
    }
  }

  // ----- Reruns -----

  /** Every group of `ms` is already covered by the open episode of its key. */
  ghost predicate AllCovered(db: Db, ms: seq<Match>, at: Time)
    requires OneOpen(db)
  {
    forall k :: k in FirstSeen(ms) ==> Covers(db, k, Groups(ms)[k], at)
  }

  lemma CoveredGroupIsNoOp(db: Db, k: GroupKey, g: Group, b: Batch)
    requires Sound(db) && GroupOk(k, g, b.at) && b.grace >= 0 && Covers(db, k, g, b.at)
    ensures GroupApplied(db, Current(db, k), k, g, b) == Ok(Applied(db, 0))
  {
    CurrentRow(db, k);
    var c := Current(db, k).value;
    var e := db.episodes[c.id];
    hide Current, OneOpen, ForeignKeys, Ledger, Recorded;
    assert g.expiresAt.Some? ==> Greatest(e.expiresAt, g.expiresAt) == e.expiresAt;
    assert db.episodes[c.id := e] == db.episodes;
    assert Decide(Some(c), g.severity, b.at, b.grace) == Touch;
    assert Refreshed(db, c.id, c.notified, g.expiresAt, b.at) == db;
  }

  lemma {:induction false} CoveredGroupsAreNoOp(
    db: Db, order: seq<GroupKey>, groups: map<GroupKey, Group>, b: Batch, i: nat)
    requires Sound(db) && GroupsOk(order, groups, b.at) && b.grace >= 0 && i <= |order|
    requires forall k :: k in order ==> Covers(db, k, groups[k], b.at)
    ensures GroupsApplied(db, Seen(db, order), order[..i], groups, b) == Ok(Applied(db, 0))
  {
    hide Current, OneOpen, ForeignKeys, Expiry, Ledger, Recorded, Distinct, Covers, GroupOk, GroupApplied, Seen,
        LocksHeld;
    if i > 0 {
      var k := order[i - 1];
      assert k in order && GroupOk(k, groups[k], b.at) && Covers(db, k, groups[k], b.at);
      CoveredGroupsAreNoOp(db, order, groups, b, i - 1);
      SeenIsLocked(db, order);
      assert Lookup(Seen(db, order), k) == Current(db, k);
      hide *;
      CoveredGroupIsNoOp(db, k, groups[k], b);
      GroupsStep(db, Seen(db, order), order, groups, b, i - 1);
    } else {
      assert order[..0] == [];
    }
  }

  /** A batch whose groups are covered changes nothing and announces nothing. */
  lemma CoveredBatchIsNoOp(db: Db, ms: seq<Match>, b: Batch)
    requires Sound(db) && Grounded(ms, b.at) && b.grace >= 0 && AllCovered(db, ms, b.at)
    ensures Matched(db, ms, b) == Ok(Applied(db, 0))
  {
    MatchListGroupsOk(ms, b.at);
    CoveredGroupsAreNoOp(db, FirstSeen(ms), Groups(ms), b, |FirstSeen(ms)|);
    assert FirstSeen(ms)[..|FirstSeen(ms)|] == FirstSeen(ms);
  }

  /** Fewer matches make weaker groups. */
  lemma SubsetIsCovered(db: Db, ms: seq<Match>, fewer: seq<Match>, at: Time)
    requires Sound(db) && Grounded(ms, at) && AllCovered(db, ms, at)
    requires forall m :: m in fewer ==> m in ms
    ensures AllCovered(db, fewer, at)
  {
    FirstSeenIsKeySet(ms);
    FirstSeenIsKeySet(fewer);
    forall k | k in FirstSeen(fewer) ensures Covers(db, k, Groups(fewer)[k], at) {
      var g, h := GroupOf(ms, k), GroupOf(fewer, k);
      GroupSeverityIsExact(ms, k);
      GroupSeverityIsExact(fewer, k);
      GroupExpiryIsExact(ms, k);
      GroupExpiryIsExact(fewer, k);
      assert k in FirstSeen(ms);
      hide Current, Sound;
      assert h.severity <= g.severity;
      assert NotEarlier(h.expiresAt, g.expiresAt);
    }
  }

  /** The episodes a batch left current are still open, whatever ran since. */
  ghost predicate StillOpen(after: Db, later: Db, ms: seq<Match>) {
    forall id, k | k in FirstSeen(ms) && IsOpenFor(after, id, k) :: IsOpen(later, id)
  }

  lemma CoverPersists(after: Db, later: Db, k: GroupKey, g: Group, at: Time)
    requires Sound(after) && Sound(later) && Evolves(after, later)
    requires Covers(after, k, g, at) && IsOpen(later, Current(after, k).value.id)
    ensures Covers(later, k, g, at)
  {
    CurrentRow(after, k);
    CurrentIs(later, k, Current(after, k).value.id);
    hide Current, OneOpen, ForeignKeys, Recorded;
  }

  /** Rerunning a matched batch changes nothing, even after any number of other
      transactions, as long as the episodes it matched are still open. `again` is
      what the rerun's query returns: the same matches, or fewer, in any order. */
  lemma RerunIsNoOp(db: Db, ms: seq<Match>, b: Batch, after: Applied, later: Db, again: seq<Match>, now: Time)
    requires Sound(db) && Grounded(ms, b.at) && b.grace >= 0 && Matched(db, ms, b) == Ok(after)
    requires Sound(later) && Evolves(after.db, later) && StillOpen(after.db, later, ms)
    requires forall m :: m in again ==> m in ms
    ensures Matched(later, again, b.(now := now)) == Ok(Applied(later, 0))
  {
    MatchKeepsSound(db, ms, b, after);
    forall k | k in FirstSeen(ms) ensures Covers(later, k, Groups(ms)[k], b.at) {
      CurrentRow(after.db, k);
      assert IsOpenFor(after.db, Current(after.db, k).value.id, k);
      CoverPersists(after.db, later, k, Groups(ms)[k], b.at);
    }
    SubsetIsCovered(later, ms, again, b.at);
    CoveredBatchIsNoOp(later, again, b.(now := now));
  }
}
