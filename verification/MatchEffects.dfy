/**
 What a matcher transaction does to the episodes and deliveries of each key, told
 from the stored rows and the matches alone
 (app/notifications/use_cases/match_batch.py, app/notifications/services/episodes.py).
 */
module MatchEffects {
  import opened Common
  import opened NotificationTables
  import opened Matching
  import opened EpisodeStatements
  import opened MatchBatch
  import opened MatchSoundness
  import opened MatchTransaction
  import EpisodeRule

  function RowsOfKey(db: Db, k: GroupKey): map<EpisodeId, Episode> {
    map id | id in db.episodes && KeyOf(db.episodes[id]) == k :: db.episodes[id]
  }

  function DeliveriesOfKey(db: Db, k: GroupKey): map<DeliveryKey, Delivery> {
    map d | d in db.deliveries && d.episode in db.episodes && KeyOf(db.episodes[d.episode]) == k :: db.deliveries[d]
  }

  /** The episode is open and, with the grace, still lasts at the mark of the batch. */
  predicate Lasts(e: Episode, b: Batch) {
    e.closedAt.None? && (e.expiresAt.None? || b.at < e.expiresAt.value + b.grace)
  }

  /** The row that announces a group: at most 20 of its matches, the first ones, and
      how many there are. */
  function Announcement(k: GroupKey, g: Group, reason: Reason, b: Batch): Delivery {
    var items := if |g.matches| <= 20 then g.matches else g.matches[..20];
    Delivery(k.sub, reason, items, |g.matches|, Pending, 0, None, b.now, None)
  }

  /** The rows and deliveries of one key, before and after. */
  datatype Key = Key(rows: map<EpisodeId, Episode>, deliveries: map<DeliveryKey, Delivery>)

  function At(db: Db, k: GroupKey): Key { Key(RowsOfKey(db, k), DeliveriesOfKey(db, k)) }

  /** The episode after it was matched again: nothing of it falls. */
  function Widened(e: Episode, g: Group, b: Batch): Episode {
    e.(
      notified := if g.severity > e.notified then g.severity else e.notified,
      lastMatchedAt := if b.at > e.lastMatchedAt then b.at else e.lastMatchedAt,
      expiresAt := if g.expiresAt.None? || (e.expiresAt.Some? && e.expiresAt.value >= g.expiresAt.value)
        then e.expiresAt else g.expiresAt)
  }

  /** The episode `id` goes on: it stays open, no other opens, and a delivery is
      added exactly if the group is more severe than what was notified. */
  ghost predicate GoesOn(before: Key, after: Key, id: EpisodeId, k: GroupKey, g: Group, b: Batch) {
    && id in before.rows && Lasts(before.rows[id], b)
    && var e := before.rows[id];
       && after.rows == before.rows[id := Widened(e, g, b)]
       && (g.severity <= e.notified ==> after.deliveries == before.deliveries)
       && (g.severity > e.notified ==>
             && DeliveryKey(id, g.severity) !in before.deliveries
             && after.deliveries
                == before.deliveries[DeliveryKey(id, g.severity) := Announcement(k, g, Escalated, b)])
  }

  /** No episode lasts: the open one, if any, is closed at the mark, and the new
      episode `id` opens with its delivery. */
  ghost predicate OpensAnew(before: Key, after: Key, id: EpisodeId, k: GroupKey, g: Group, b: Batch) {
    && (forall x :: x in before.rows ==> !Lasts(before.rows[x], b))
    && id !in before.rows
    && after.rows.Keys == before.rows.Keys + {id}
    && after.rows[id] == Episode(k.sub, k.key, g.severity, g.expiresAt, b.at, b.at, None)
    && (forall x :: x in before.rows ==>
          after.rows[x]
          == if before.rows[x].closedAt.None? then before.rows[x].(closedAt := Some(b.at)) else before.rows[x])
    && DeliveryKey(id, g.severity) !in before.deliveries
    && after.deliveries == before.deliveries[DeliveryKey(id, g.severity) := Announcement(k, g, Opened, b)]
  }

  ghost predicate Acts(before: Key, after: Key, k: GroupKey, g: Group, b: Batch, next: EpisodeId) {
    || (exists id :: GoesOn(before, after, id, k, g, b))
    || (exists id :: id >= next && OpensAnew(before, after, id, k, g, b))
  }

  // ----- One turn -----

  /** The deliveries gain the announcement of an episode, or nothing. */
  ghost predicate Announcing(db: Db, db': Db, id: EpisodeId, k: GroupKey, g: Group, reason: Reason, b: Batch) {
    && DeliveryKey(id, g.severity) !in db.deliveries
    && db'.deliveries == db.deliveries[DeliveryKey(id, g.severity) := Announcement(k, g, reason, b)]
  }

  lemma LastingTurn(db: Db, id: EpisodeId, k: GroupKey, g: Group, b: Batch, after: Applied)
    requires Sound(db) && GroupOk(k, g, b.at) && IsOpenFor(db, id, k) && Lasts(db.episodes[id], b)
    requires GroupApplied(db, Current(db, k), k, g, b) == Ok(after)
    ensures after.db.nextEpisode == db.nextEpisode
        && after.db.episodes == db.episodes[id := Widened(db.episodes[id], g, b)]
    ensures if g.severity <= db.episodes[id].notified then after.db.deliveries == db.deliveries
            else Announcing(db, after.db, id, k, g, Escalated, b)
  {
    hide Sound, Covers, Current, OneOpen, GroupOk, Frame, GroupApplied, Announces;
    assert OneOpen(db) by { SoundIsOneOpen(db); }
    GroupEffect(db, k, g, b, after);
    SoundIsOneOpen(after.db);
    LastingEpisodes(db, id, k, g, b, after);
    LastingDeliveries(db, id, k, g, b, after);
  }

  lemma SoundIsOneOpen(db: Db)
    requires Sound(db)
    ensures OneOpen(db)
  {
  }

  /** What the rule says of the episode that lasts. */
  lemma LastingRule(db: Db, id: EpisodeId, k: GroupKey, g: Group, b: Batch)
    requires OneOpen(db) && IsOpenFor(db, id, k) && Lasts(db.episodes[id], b)
    ensures Current(db, k) == Some(EpisodeRule.OpenEpisode(id, db.episodes[id].notified, db.episodes[id].expiresAt))
    ensures EpisodeRule.Decide(Current(db, k), g.severity, b.at, b.grace)
            == if g.severity > db.episodes[id].notified then EpisodeRule.Escalate else EpisodeRule.Touch
  {
    CurrentIs(db, k, id);
    var e := db.episodes[id];
    EpisodeRule.GraceIsExact(e.expiresAt, id, e.notified, g.severity, b.at, b.grace);
  }

  lemma LastingEpisodes(db: Db, id: EpisodeId, k: GroupKey, g: Group, b: Batch, after: Applied)
    requires OneOpen(db) && IsOpenFor(db, id, k) && Lasts(db.episodes[id], b)
    requires GroupApplied(db, Current(db, k), k, g, b) == Ok(after)
    ensures after.db.nextEpisode == db.nextEpisode
        && after.db.episodes == db.episodes[id := Widened(db.episodes[id], g, b)]
  {
    LastingRule(db, id, k, g, b);
    hide Current, OneOpen, EpisodeRule.Decide, DeliveryAdded;
    var e := db.episodes[id];
    if g.severity > e.notified {
      var db1 := Refreshed(db, id, g.severity, g.expiresAt, b.at);
      AddingTouchesNoEpisode(db1, DeliveryKey(id, g.severity), k.sub, Escalated, Photo(g), |g.matches|, b.now);
      assert after == Announced(db1, id, k.sub, g, Escalated, b);
    }
  }

  lemma LastingDeliveries(db: Db, id: EpisodeId, k: GroupKey, g: Group, b: Batch, after: Applied)
    requires OneOpen(db) && OneOpen(after.db) && IsOpenFor(db, id, k) && Lasts(db.episodes[id], b)
    requires after.db.episodes == db.episodes[id := Widened(db.episodes[id], g, b)]
    requires Announces(db, after, k, g, b)
    ensures if g.severity <= db.episodes[id].notified then after.db.deliveries == db.deliveries
            else Announcing(db, after.db, id, k, g, Escalated, b)
  {
    LastingRule(db, id, k, g, b);
    assert IsOpenFor(after.db, id, k);
    CurrentIs(after.db, k, id);
    hide Current, OneOpen, EpisodeRule.Decide;
  }

  lemma OpeningTurn(db: Db, k: GroupKey, g: Group, b: Batch, after: Applied)
    requires Sound(db) && GroupOk(k, g, b.at)
    requires forall id :: IsOpenFor(db, id, k) ==> !Lasts(db.episodes[id], b)
    requires GroupApplied(db, Current(db, k), k, g, b) == Ok(after)
    ensures var id := db.nextEpisode;
            && id !in db.episodes && id in after.db.episodes && after.db.nextEpisode == id + 1
            && after.db.episodes.Keys == db.episodes.Keys + {id}
            && after.db.episodes[id] == Episode(k.sub, k.key, g.severity, g.expiresAt, b.at, b.at, None)
            && (forall x :: x in db.episodes ==>
                  after.db.episodes[x]
                  == if IsOpenFor(db, x, k) then db.episodes[x].(closedAt := Some(b.at)) else db.episodes[x])
            && Announcing(db, after.db, id, k, g, Opened, b)
  {
    var id := db.nextEpisode;
    GroupEffect(db, k, g, b, after);
    CurrentRow(db, k);
    if Current(db, k).Some? {
      var c := Current(db, k).value;
      EpisodeRule.GraceIsExact(c.expiresAt, c.id, c.notified, g.severity, b.at, b.grace);
      assert forall x :: IsOpenFor(db, x, k) ==> x == c.id;
    }
    assert EpisodeRule.Decide(Current(db, k), g.severity, b.at, b.grace) == EpisodeRule.Open;
    assert id !in db.episodes by { assert Ledger(db); }
    OpeningEpisodes(db, k, g, b, after);
    assert IsOpenFor(after.db, id, k) && OneOpen(after.db);
    CurrentIs(after.db, k, id);
    hide Sound, Covers, Current, OneOpen, GroupOk, Frame, GroupApplied;
  }

  lemma OpeningEpisodes(db: Db, k: GroupKey, g: Group, b: Batch, after: Applied)
    requires OneOpen(db) && db.nextEpisode !in db.episodes
    requires EpisodeRule.Decide(Current(db, k), g.severity, b.at, b.grace) == EpisodeRule.Open
    requires GroupApplied(db, Current(db, k), k, g, b) == Ok(after)
    ensures var id := db.nextEpisode;
            && id in after.db.episodes && after.db.nextEpisode == id + 1
            && after.db.episodes.Keys == db.episodes.Keys + {id}
            && after.db.episodes[id] == Episode(k.sub, k.key, g.severity, g.expiresAt, b.at, b.at, None)
            && (forall x :: x in db.episodes ==>
                  after.db.episodes[x]
                  == if IsOpenFor(db, x, k) then db.episodes[x].(closedAt := Some(b.at)) else db.episodes[x])
  {
    CurrentRow(db, k);
    assert Current(db, k).Some? ==> forall x :: IsOpenFor(db, x, k) <==> x == Current(db, k).value.id;
    hide OneOpen, Current, DeliveryAdded;
    var db1 := if Current(db, k).Some? then Closed(db, Current(db, k).value.id, b.at) else db;
    var db2 := Inserted(db1, k, g.severity, g.expiresAt, b.at);
    assert db2.Ok? && after == Announced(db2.value, db1.nextEpisode, k.sub, g, Opened, b);
    assert after.db.episodes == db2.value.episodes && after.db.nextEpisode == db2.value.nextEpisode by {
      AddingTouchesNoEpisode(db2.value, DeliveryKey(db1.nextEpisode, g.severity), k.sub, Opened, Photo(g),
          |g.matches|, b.now);
    }
    hide Announced;
  }

  lemma AddingTouchesNoEpisode(
    db: Db, d: DeliveryKey, sub: SubId, reason: Reason, items: seq<Match>, itemCount: nat, at: Time)
    ensures DeliveryAdded(db, d, sub, reason, items, itemCount, at).episodes == db.episodes
    ensures DeliveryAdded(db, d, sub, reason, items, itemCount, at).nextEpisode == db.nextEpisode
  {
  }

  /** A turn acts on its own key as told, and on no other. */
  lemma TurnActs(db: Db, k: GroupKey, g: Group, b: Batch, after: Applied)
    requires Sound(db) && GroupOk(k, g, b.at)
    requires GroupApplied(db, Current(db, k), k, g, b) == Ok(after)
    ensures Acts(At(db, k), At(after.db, k), k, g, b, db.nextEpisode)
  {
    GroupEffect(db, k, g, b, after);
    assert ForeignKeys(db) && ForeignKeys(after.db);
    if id :| IsOpenFor(db, id, k) && Lasts(db.episodes[id], b) {
      LastingTurn(db, id, k, g, b, after);
      hide Sound, Covers, Current, OneOpen, GroupOk, GroupApplied, Announces;
      LastingKey(db, id, k, g, b, after.db);
      hide GoesOn;
    } else {
      OpeningTurn(db, k, g, b, after);
      hide Sound, Covers, Current, OneOpen, GroupOk, GroupApplied, Announces;
      OpeningKey(db, k, g, b, after.db);
      hide OpensAnew;
    }
  }

  lemma LastingKey(db: Db, id: EpisodeId, k: GroupKey, g: Group, b: Batch, db': Db)
    requires ForeignKeys(db) && IsOpenFor(db, id, k) && Lasts(db.episodes[id], b)
    requires db'.episodes == db.episodes[id := Widened(db.episodes[id], g, b)]
    requires if g.severity <= db.episodes[id].notified then db'.deliveries == db.deliveries
             else Announcing(db, db', id, k, g, Escalated, b)
    ensures GoesOn(At(db, k), At(db', k), id, k, g, b)
  {
    assert KeyOf(db.episodes[id]) == k && KeyOf(db'.episodes[id]) == k;
    LastingRows(db, id, k, g, b, db');
    hide RowsOfKey, DeliveriesOfKey, ForeignKeys, Lasts, Announcement, Widened;
    SameKeys(db, db', id);
    if g.severity <= db.episodes[id].notified {
      DeliveriesSame(db, db', k);
    } else {
      DeliveriesGain(db, db', k, DeliveryKey(id, g.severity), Announcement(k, g, Escalated, b));
    }
    assert Widened(db.episodes[id], g, b) == RowsOfKey(db', k)[id];
    LastingIsGoesOn(At(db, k), At(db', k), id, k, g, b);
  }

  lemma LastingIsGoesOn(before: Key, after: Key, id: EpisodeId, k: GroupKey, g: Group, b: Batch)
    requires id in before.rows && Lasts(before.rows[id], b)
    requires after.rows == before.rows[id := Widened(before.rows[id], g, b)]
    requires g.severity <= before.rows[id].notified ==> after.deliveries == before.deliveries
    requires g.severity > before.rows[id].notified ==>
               && DeliveryKey(id, g.severity) !in before.deliveries
               && after.deliveries == before.deliveries[DeliveryKey(id, g.severity) := Announcement(k, g, Escalated, b)]
    ensures GoesOn(before, after, id, k, g, b)
  {
    hide Announcement;
  }

  lemma LastingRows(db: Db, id: EpisodeId, k: GroupKey, g: Group, b: Batch, db': Db)
    requires id in db.episodes && KeyOf(db.episodes[id]) == k
    requires db'.episodes == db.episodes[id := Widened(db.episodes[id], g, b)]
    ensures RowsOfKey(db', k) == RowsOfKey(db, k)[id := Widened(db.episodes[id], g, b)]
    ensures id in RowsOfKey(db, k) && RowsOfKey(db, k)[id] == db.episodes[id]
  {
  }

  lemma SameKeys(db: Db, db': Db, id: EpisodeId)
    requires id in db.episodes && id in db'.episodes && db'.episodes == db.episodes[id := db'.episodes[id]]
    requires KeyOf(db'.episodes[id]) == KeyOf(db.episodes[id])
    ensures forall x :: x in db.episodes ==> x in db'.episodes && KeyOf(db'.episodes[x]) == KeyOf(db.episodes[x])
  {
  }

  lemma DeliveriesSame(db: Db, db': Db, k: GroupKey)
    requires ForeignKeys(db) && db'.deliveries == db.deliveries
    requires forall x :: x in db.episodes ==> x in db'.episodes && KeyOf(db'.episodes[x]) == KeyOf(db.episodes[x])
    ensures DeliveriesOfKey(db', k) == DeliveriesOfKey(db, k)
  {
  }

  /** One more delivery, of an episode of the key. */
  lemma DeliveriesGain(db: Db, db': Db, k: GroupKey, d: DeliveryKey, row: Delivery)
    requires ForeignKeys(db) && d !in db.deliveries && db'.deliveries == db.deliveries[d := row]
    requires forall x :: x in db.episodes ==> x in db'.episodes && KeyOf(db'.episodes[x]) == KeyOf(db.episodes[x])
    requires d.episode in db'.episodes && KeyOf(db'.episodes[d.episode]) == k
    ensures d !in DeliveriesOfKey(db, k) && DeliveriesOfKey(db', k) == DeliveriesOfKey(db, k)[d := row]
  {
  }

  lemma OpeningKey(db: Db, k: GroupKey, g: Group, b: Batch, db': Db)
    requires ForeignKeys(db) && db.nextEpisode !in db.episodes
    requires forall id :: IsOpenFor(db, id, k) ==> !Lasts(db.episodes[id], b)
    requires var id := db.nextEpisode;
             && db'.episodes.Keys == db.episodes.Keys + {id}
             && db'.episodes[id] == Episode(k.sub, k.key, g.severity, g.expiresAt, b.at, b.at, None)
             && (forall x :: x in db.episodes ==>
                   db'.episodes[x]
                   == if IsOpenFor(db, x, k) then db.episodes[x].(closedAt := Some(b.at)) else db.episodes[x])
             && Announcing(db, db', id, k, g, Opened, b)
    ensures OpensAnew(At(db, k), At(db', k), db.nextEpisode, k, g, b)
  {
    hide Announcement, DeliveriesOfKey, ForeignKeys;
    var (id, d) := (db.nextEpisode, DeliveryKey(db.nextEpisode, g.severity));
    assert forall x :: x in db.episodes ==> KeyOf(db'.episodes[x]) == KeyOf(db.episodes[x]);
    assert KeyOf(db'.episodes[id]) == k;
    DeliveriesGain(db, db', k, d, Announcement(k, g, Opened, b));
    assert RowsOfKey(db', k).Keys == RowsOfKey(db, k).Keys + {id};
    assert forall x :: x in RowsOfKey(db, k) ==> (IsOpenFor(db, x, k) <==> db.episodes[x].closedAt.None?);
  }

  /** A turn leaves the other keys alone. */
  lemma TurnSpares(db: Db, k: GroupKey, g: Group, b: Batch, after: Applied, other: GroupKey)
    requires Sound(db) && GroupOk(k, g, b.at) && other != k
    requires GroupApplied(db, Current(db, k), k, g, b) == Ok(after)
    ensures At(after.db, other) == At(db, other)
  {
    hide Sound, Covers, Current, OneOpen, GroupOk, GroupApplied, Announces, Frame, ForeignKeys;
    GroupEffect(db, k, g, b, after);
    SoundIsOneOpen(db);
    SoundIsOneOpen(after.db);
    NewDeliveriesAreOwn(db, k, g, b, after);
    SoundHasForeignKeys(db);
    SoundHasForeignKeys(after.db);
    FrameSpares(db, after.db, k, other);
  }

  lemma FrameSpares(db: Db, db': Db, k: GroupKey, other: GroupKey)
    requires ForeignKeys(db) && Frame(db, db', k) && other != k
    requires forall d :: d in db'.deliveries && d !in db.deliveries ==>
               d.episode in db'.episodes && KeyOf(db'.episodes[d.episode]) == k
    ensures At(db', other) == At(db, other)
  {
    assert RowsOfKey(db', other) == RowsOfKey(db, other);
    assert DeliveriesOfKey(db', other) == DeliveriesOfKey(db, other);
  }

  lemma NewDeliveriesAreOwn(db: Db, k: GroupKey, g: Group, b: Batch, after: Applied)
    requires OneOpen(db) && OneOpen(after.db) && Announces(db, after, k, g, b)
    ensures forall d :: d in after.db.deliveries && d !in db.deliveries ==>
              d.episode in after.db.episodes && KeyOf(after.db.episodes[d.episode]) == k
  {
    CurrentRow(after.db, k);
    hide OneOpen, Current, EpisodeRule.Decide, NewRow;
  }

  // ----- The whole transaction -----

  /** Turns of other keys leave a key alone. */
  lemma {:induction false} StretchSpares(
    db: Db, order: seq<GroupKey>, groups: map<GroupKey, Group>, b: Batch, i: nat, j: nat, k: GroupKey)
    requires Sound(db) && GroupsOk(order, groups, b.at) && i <= j <= |order|
    requires GroupsApplied(db, Seen(db, order), order, groups, b).Ok? && k !in order[i..j]
    ensures GroupsApplied(db, Seen(db, order), order[..i], groups, b).Ok?
    ensures GroupsApplied(db, Seen(db, order), order[..j], groups, b).Ok?
    ensures At(GroupsApplied(db, Seen(db, order), order[..j], groups, b).value.db, k)
            == At(GroupsApplied(db, Seen(db, order), order[..i], groups, b).value.db, k)
    decreases j
  {
    hide Sound, At, GroupsOk, GroupsApplied, Seen;
    PrefixHolds(db, order, groups, b, i);
    if i < j {
      assert order[i..j] == order[i..j - 1] + [order[j - 1]];
      StretchSpares(db, order, groups, b, i, j - 1, k);
      var before, after := ExactTurn(db, order, groups, b, j - 1);
      TurnSpares(before.db, order[j - 1], groups[order[j - 1]], b, after, k);
    }
  }

  lemma PrefixHolds(db: Db, order: seq<GroupKey>, groups: map<GroupKey, Group>, b: Batch, i: nat)
    requires Sound(db) && GroupsOk(order, groups, b.at) && i <= |order|
    requires GroupsApplied(db, Seen(db, order), order, groups, b).Ok?
    ensures GroupsApplied(db, Seen(db, order), order[..i], groups, b).Ok?
    ensures Sound(GroupsApplied(db, Seen(db, order), order[..i], groups, b).value.db)
    ensures GroupsApplied(db, Seen(db, order), order[..i], groups, b).value.db.nextEpisode >= db.nextEpisode
  {
    SeenIsLocked(db, order);
    Progresses(db, Seen(db, order), order, groups, b, i);
    hide Sound, KeysDone, GroupsApplied, GroupsOk, Seen;
  }

  /** The turn of `order[i]`, alone: `after.created` counts its own delivery. */
  lemma ExactTurn(db: Db, order: seq<GroupKey>, groups: map<GroupKey, Group>, b: Batch, i: nat)
    returns (before: Applied, after: Applied)
    requires Sound(db) && GroupsOk(order, groups, b.at) && i < |order|
    requires GroupsApplied(db, Seen(db, order), order, groups, b).Ok?
    ensures order[i] in groups && GroupOk(order[i], groups[order[i]], b.at)
    ensures GroupsApplied(db, Seen(db, order), order[..i], groups, b) == Ok(before) && Sound(before.db)
    ensures before.db.nextEpisode >= db.nextEpisode
    ensures GroupApplied(before.db, Current(before.db, order[i]), order[i], groups[order[i]], b) == Ok(after)
    ensures GroupsApplied(db, Seen(db, order), order[..i + 1], groups, b).Ok?
    ensures GroupsApplied(db, Seen(db, order), order[..i + 1], groups, b).value.db == after.db
  {
    var (seen, k) := (Seen(db, order), order[i]);
    SeenIsLocked(db, order);
    PrefixHolds(db, order, groups, b, i);
    PrefixHolds(db, order, groups, b, i + 1);
    assert k in order && GroupOk(k, groups[k], b.at);
    hide Sound, GroupsApplied, GroupsOk, Seen, GroupApplied, GroupOk, Current, LocksHeld;
    GroupsStep(db, seen, order, groups, b, i);
    before := GroupsApplied(db, seen, order[..i], groups, b).value;
    CurrentKept(db, order, groups, b, i);
    after := GroupApplied(before.db, Lookup(seen, k), k, groups[k], b).value;
  }

  lemma CurrentKept(db: Db, order: seq<GroupKey>, groups: map<GroupKey, Group>, b: Batch, i: nat)
    requires Sound(db) && GroupsOk(order, groups, b.at) && i < |order|
    requires GroupsApplied(db, Seen(db, order), order, groups, b).Ok?
    ensures GroupsApplied(db, Seen(db, order), order[..i], groups, b).Ok?
    ensures OneOpen(GroupsApplied(db, Seen(db, order), order[..i], groups, b).value.db)
    ensures Current(GroupsApplied(db, Seen(db, order), order[..i], groups, b).value.db, order[i])
            == Lookup(Seen(db, order), order[i])
  {
    SeenIsLocked(db, order);
    Progresses(db, Seen(db, order), order, groups, b, i);
    assert order[i] !in order[..i];
    hide Current, Covers, Evolves, GroupOk, GroupsApplied;
  }

  /** A committed matcher acts on the rows and deliveries of each key it matched as
      that key's group alone tells, and on no others: while an episode lasts, with
      its grace, it goes on and is announced only when the severity rises; otherwise
      it is closed and a new one opens. */
  lemma EachKeyByItself(db: Db, ms: seq<Match>, b: Batch, after: Applied, k: GroupKey)
    requires Sound(db) && Grounded(ms, b.at) && Matched(db, ms, b) == Ok(after)
    ensures k in FirstSeen(ms) ==> Acts(At(db, k), At(after.db, k), k, Groups(ms)[k], b, db.nextEpisode)
    ensures k !in FirstSeen(ms) ==> At(after.db, k) == At(db, k)
  {
    var (order, groups) := (FirstSeen(ms), Groups(ms));
    MatchListGroupsOk(ms, b.at);
    assert order[..|order|] == order && order[..0] == [] && order[0..|order|] == order;
    assert GroupsApplied(db, Seen(db, order), order[..0], groups, b) == Ok(Applied(db, 0));
    assert Distinct(order);
    assert Matched(db, ms, b) == GroupsApplied(db, Seen(db, order), order, groups, b);
    hide *;
    if k in order {
      var i: nat :| i < |order| && order[i] == k;
      NotElsewhere(order, i);
      StretchSpares(db, order, groups, b, 0, i, k);
      var before, turn := ExactTurn(db, order, groups, b, i);
      TurnActs(before.db, k, groups[k], b, turn);
      StretchSpares(db, order, groups, b, i + 1, |order|, k);
      LaterIds(At(db, k), At(turn.db, k), k, groups[k], b, before.db.nextEpisode, db.nextEpisode);
    } else {
      StretchSpares(db, order, groups, b, 0, |order|, k);
    }
  }

  lemma NotElsewhere(order: seq<GroupKey>, i: nat)
    requires Distinct(order) && i < |order|
    ensures order[i] !in order[0..i] && order[i] !in order[i + 1..|order|]
  {
  }

  lemma LaterIds(before: Key, after: Key, k: GroupKey, g: Group, b: Batch, next: EpisodeId, earlier: EpisodeId)
    requires Acts(before, after, k, g, b, next) && earlier <= next
    ensures Acts(before, after, k, g, b, earlier)
  {
    hide GoesOn, OpensAnew;
  }
}
