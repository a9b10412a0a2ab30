/** What a matcher transaction keeps and does, proved of every batch. */
module MatchSoundness {
  import opened Common
  import opened EpisodeRule
  import opened NotificationTables
  import opened Matching
  import opened EpisodeStatements
  import opened MatchBatch

  /** The groups a match list yields, as far as the transaction relies on them. */
  ghost predicate GroupOk(k: GroupKey, g: Group, at: Time) {
    && 1 <= g.severity <= 4
    && (IsAemetKey(k.key) <==> g.expiresAt.Some?)
    && (g.expiresAt.Some? ==> g.expiresAt.value > at)
  }

  // ----- Grouping -----

  lemma {:induction false} FirstSeenIsKeySet(ms: seq<Match>)
    ensures Distinct(FirstSeen(ms))
    ensures forall k :: k in FirstSeen(ms) <==> exists m :: m in ms && KeyOfMatch(m) == k
  {
    if ms != [] {
      var init, m := ms[..|ms| - 1], ms[|ms| - 1];
      FirstSeenIsKeySet(init);
      assert ms == init + [m];
      hide KeyOfMatch;
    }
  }

  /** A match of `k` at `i`, and none of `other` up to it. */
  ghost predicate ComesFirst(ms: seq<Match>, i: nat, k: GroupKey, other: GroupKey) {
    i < |ms| && KeyOfMatch(ms[i]) == k && forall j :: 0 <= j <= i ==> KeyOfMatch(ms[j]) != other
  }

  lemma ComesFirstStill(ms: seq<Match>, n: nat, i: nat, k: GroupKey, other: GroupKey)
    requires n <= |ms| && ComesFirst(ms[..n], i, k, other)
    ensures ComesFirst(ms, i, k, other)
  {
    hide KeyOfMatch;
    assert forall j :: 0 <= j < n ==> ms[..n][j] == ms[j];
  }

  lemma NewKeyComesLater(ms: seq<Match>, k: GroupKey, other: GroupKey) returns (i: nat)
    requires k in FirstSeen(ms) && other !in FirstSeen(ms)
    ensures ComesFirst(ms, i, k, other)
  {
    FirstSeenIsKeySet(ms);
    hide KeyOfMatch, FirstSeen;
    var m :| m in ms && KeyOfMatch(m) == k;
    i :| 0 <= i < |ms| && ms[i] == m;
    assert forall j :: 0 <= j < |ms| ==> ms[j] in ms;
  }

  /** The groups come in the order of their first matches. */
  lemma {:induction false} GroupsComeFirstSeen(ms: seq<Match>, a: nat, b: nat) returns (i: nat)
    requires a < b < |FirstSeen(ms)|
    ensures ComesFirst(ms, i, FirstSeen(ms)[a], FirstSeen(ms)[b])
  {
    FirstSeenIsKeySet(ms);
    hide KeyOfMatch, ComesFirst;
    var init := ms[..|ms| - 1];
    if b < |FirstSeen(init)| {
      i := GroupsComeFirstSeen(init, a, b);
    } else {
      i := NewKeyComesLater(init, FirstSeen(ms)[a], FirstSeen(ms)[b]);
    }
    ComesFirstStill(ms, |ms| - 1, i, FirstSeen(ms)[a], FirstSeen(ms)[b]);
  }

  /** A group's severity and matches: exactly the matches of its key, and their worst. */
  lemma {:induction false} GroupSeverityIsExact(ms: seq<Match>, k: GroupKey)
    requires forall m :: m in ms ==> m.severity >= 1
    ensures var g := GroupOf(ms, k);
            && (forall m :: m in g.matches <==> m in ms && KeyOfMatch(m) == k)
            && (forall m :: m in g.matches ==> m.severity <= g.severity)
            && (if g.matches == [] then g == EMPTY_GROUP else exists m :: m in g.matches && m.severity == g.severity)
  {
    hide KeyOfMatch;
    if ms != [] {
      var init, m := ms[..|ms| - 1], ms[|ms| - 1];
      assert ms == init + [m];
      GroupSeverityIsExact(init, k);
      var before, g := GroupOf(init, k), GroupOf(ms, k);
      if KeyOfMatch(m) == k {
        assert g.matches == before.matches + [m] && m in g.matches;
        if before.matches != [] {
          var top :| top in before.matches && top.severity == before.severity;
          assert top in g.matches;
        }
      }
    }
  }

  /** A group's expiry: the latest end of its AEMET matches. */
  lemma {:induction false} GroupExpiryIsExact(ms: seq<Match>, k: GroupKey)
    ensures var g := GroupOf(ms, k);
            && (forall m :: m in g.matches && m.source == Aemet ==> NotEarlier(m.endsAt, g.expiresAt))
            && (g.expiresAt.Some? ==> exists m :: m in g.matches && m.source == Aemet && m.endsAt == g.expiresAt)
  {
    hide KeyOfMatch;
    if ms != [] {
      var init, m := ms[..|ms| - 1], ms[|ms| - 1];
      GroupExpiryIsExact(init, k);
      var before, g := GroupOf(init, k), GroupOf(ms, k);
      if KeyOfMatch(m) == k {
        assert g.matches == before.matches + [m] && m in g.matches;
        assert NotEarlier(before.expiresAt, g.expiresAt);
        forall x | x in g.matches && x.source == Aemet ensures NotEarlier(x.endsAt, g.expiresAt) {
          assert x in before.matches ==> NotEarlier(x.endsAt, before.expiresAt);
        }
        if before.expiresAt.Some? {
          var late :| late in before.matches && late.source == Aemet && late.endsAt == before.expiresAt;
          assert late in g.matches;
        }
      }
    }
  }

  lemma GroupsAreOk(ms: seq<Match>, k: GroupKey, at: Time)
    requires Grounded(ms, at) && k in Groups(ms)
    ensures GroupOk(k, Groups(ms)[k], at)
  {
    FirstSeenIsKeySet(ms);
    GroupSeverityIsExact(ms, k);
    GroupExpiryIsExact(ms, k);
    var g := GroupOf(ms, k);
    var m :| m in ms && KeyOfMatch(m) == k;
    assert m in g.matches;
    KeyTellsSource(m.source, m.externalId, m.attrs, m.source, m.externalId, m.attrs);
    if g.expiresAt.Some? {
      var late :| late in g.matches && late.source == Aemet && late.endsAt == g.expiresAt;
      KeyTellsSource(late.source, late.externalId, late.attrs, m.source, m.externalId, m.attrs);
    }
    var top :| top in g.matches && top.severity == g.severity;
    assert top in ms;
  }

  /** The order the query asks for puts a worst event first in every group, so
      the photo kept in the delivery always shows one. */
  lemma {:induction false} PhotoShowsTheWorst(ms: seq<Match>, k: GroupKey, at: Time)
    requires Grounded(ms, at) && k in Groups(ms)
    requires forall i, j :: 0 <= i < j < |ms| ==> InOrder(ms[i], ms[j])
    ensures var g := Groups(ms)[k];
            && Photo(g) != [] && Photo(g)[0].severity == g.severity && Photo(g) <= g.matches
            && (forall m :: m in Photo(g) ==> m in ms && KeyOfMatch(m) == k)
  {
    var g := GroupOf(ms, k);
    GroupIsReal(ms, k, at);
    GroupKeepsOrder(ms, k);
    assert Groups(ms)[k] == g;
    hide *;
    TopComesFirst(g.matches, k.sub, g.severity);
  }

  lemma GroupIsReal(ms: seq<Match>, k: GroupKey, at: Time)
    requires Grounded(ms, at) && k in FirstSeen(ms)
    ensures forall m ::
        m in GroupOf(ms, k).matches ==>
            m in ms && KeyOfMatch(m) == k && m.sub == k.sub && m.severity <= GroupOf(ms, k).severity
    ensures exists m :: m in GroupOf(ms, k).matches && m.severity == GroupOf(ms, k).severity
  {
    FirstSeenIsKeySet(ms);
    GroupSeverityIsExact(ms, k);
    assert GroupOf(ms, k).matches != [] by {
      var m :| m in ms && KeyOfMatch(m) == k;
      assert m in GroupOf(ms, k).matches;
    }
  }

  lemma TopComesFirst(ms: seq<Match>, sub: SubId, top: int)
    requires forall m :: m in ms ==> m.sub == sub && m.severity <= top
    requires exists m :: m in ms && m.severity == top
    requires forall i, j :: 0 <= i < j < |ms| ==> InOrder(ms[i], ms[j])
    ensures ms != [] && ms[0].severity == top
  {
    var m :| m in ms && m.severity == top;
    var i :| 0 <= i < |ms| && ms[i] == m;
    assert ms[0] in ms;
    assert i > 0 ==> InOrder(ms[0], ms[i]);
  }

  lemma {:induction false} GroupKeepsOrder(ms: seq<Match>, k: GroupKey)
    requires forall i, j :: 0 <= i < j < |ms| ==> InOrder(ms[i], ms[j])
    ensures forall m :: m in GroupOf(ms, k).matches ==> m in ms
    ensures forall i, j :: 0 <= i < j < |GroupOf(ms, k).matches| ==>
              InOrder(GroupOf(ms, k).matches[i], GroupOf(ms, k).matches[j])
  {
    if ms != [] {
      var init, m := ms[..|ms| - 1], ms[|ms| - 1];
      GroupKeepsOrder(init, k);
      var before, g := GroupOf(init, k).matches, GroupOf(ms, k).matches;
      assert g == before || g == before + [m];
      forall i, j | 0 <= i < j < |g| ensures InOrder(g[i], g[j]) {
        assert g[i] == before[i] && before[i] in init;
        if g != before && j == |before| {
          var x :| 0 <= x < |init| && init[x] == before[i];
          assert InOrder(ms[x], ms[|ms| - 1]);
        } else {
          assert g[j] == before[j];
        }
      }
    }
  }

  // ----- One group -----

  /** Only rows of the key `k` change, and none disappears. */
  ghost predicate Frame(db: Db, db': Db, k: GroupKey) {
    && db'.subs == db.subs
    && db.nextEpisode <= db'.nextEpisode
    && (forall id :: id in db.episodes ==> id in db'.episodes && KeyOf(db'.episodes[id]) == KeyOf(db.episodes[id]))
    && (forall id :: id in db.episodes && KeyOf(db.episodes[id]) != k ==> db'.episodes[id] == db.episodes[id])
    && (forall id :: id in db'.episodes && id !in db.episodes ==> KeyOf(db'.episodes[id]) == k)
    && (forall d :: d in db.deliveries ==> d in db'.deliveries && db'.deliveries[d] == db.deliveries[d])
  }

  lemma FrameTransitive(a: Db, b: Db, c: Db, k: GroupKey)
    requires Frame(a, b, k) && Frame(b, c, k)
    ensures Frame(a, c, k)
  {
  }

  /** The key ends with an open episode that covers the group. */
  ghost predicate Covers(db: Db, k: GroupKey, g: Group, at: Time)
    requires OneOpen(db)
  {
    match Current(db, k)
    case None => false
    case Some(c) =>
      && c.notified >= g.severity
      && NotEarlier(g.expiresAt, c.expiresAt)
      && c.id in db.episodes && db.episodes[c.id].lastMatchedAt >= at
  }

  /** A delivery is created iff the key had no current episode or its severity
      rises, and it belongs to the episode the key ends with. */
  ghost predicate Announces(db: Db, after: Applied, k: GroupKey, g: Group, b: Batch)
    requires OneOpen(db) && OneOpen(after.db)
  {
    match Decide(Current(db, k), g.severity, b.at, b.grace)
    case Touch => after.created == 0 && after.db.deliveries == db.deliveries
    case action =>
      && after.created == 1
      && Current(after.db, k).Some?
      && var d := DeliveryKey(Current(after.db, k).value.id, g.severity);
         && d !in db.deliveries
         && after.db.deliveries == db.deliveries[d := NewRow(k, g, if action == Open then Opened else Escalated, b)]
  }

  function NewRow(k: GroupKey, g: Group, reason: Reason, b: Batch): Delivery {
    Delivery(k.sub, reason, Photo(g), |g.matches|, Pending, 0, None, b.now, None)
  }

  lemma CurrentIs(db: Db, k: GroupKey, id: EpisodeId)
    requires OneOpen(db) && IsOpen(db, id) && KeyOf(db.episodes[id]) == k
    ensures Current(db, k) == Some(Read(db, id))
  {
    assert IsOpenFor(db, id, k);
  }

  lemma CurrentRow(db: Db, k: GroupKey)
    requires OneOpen(db)
    ensures Current(db, k).Some? ==>
              var c := Current(db, k).value;
              IsOpen(db, c.id) && KeyOf(db.episodes[c.id]) == k && c == Read(db, c.id)
    ensures Current(db, k).Some? <==> TakenIn(db, k)
  {
    if TakenIn(db, k) {
      var id :| id in db.episodes && IsOpenFor(db, id, k);
      CurrentIs(db, k, id);
    }
  }

  /** Replacing the row of an open episode, without touching its key. */
  lemma RowReplaced(db: Db, db': Db, id: EpisodeId, e: Episode)
    requires OneOpen(db) && ForeignKeys(db) && Expiry(db)
    requires IsOpen(db, id) && KeyOf(e) == KeyOf(db.episodes[id])
    requires e.expiresAt.Some? <==> db.episodes[id].expiresAt.Some?
    requires db' == db.(episodes := db.episodes[id := e])
    ensures OneOpen(db') && ForeignKeys(db') && Expiry(db') && Frame(db, db', KeyOf(e))
    ensures e.closedAt.None? ==> Current(db', KeyOf(e)) == Some(Read(db', id))
    ensures e.closedAt.Some? ==> !TakenIn(db', KeyOf(e))
  {
    assert forall i :: i != id ==> (IsOpen(db', i) <==> IsOpen(db, i));
    if e.closedAt.None? { CurrentIs(db', KeyOf(e), id); }
  }

  lemma TouchEffect(db: Db, k: GroupKey, g: Group, b: Batch, after: Applied)
    requires Sound(db) && GroupOk(k, g, b.at)
    requires Decide(Current(db, k), g.severity, b.at, b.grace) == Touch
    requires GroupApplied(db, Current(db, k), k, g, b) == Ok(after)
    ensures Sound(after.db) && Frame(db, after.db, k) && Covers(after.db, k, g, b.at) && Announces(db, after, k, g, b)
  {
    CurrentRow(db, k);
    var id := Current(db, k).value.id;
    RowReplaced(db, after.db, id, after.db.episodes[id]);
  }

  /** The tables after the row `e` of the episode `id` is written together with
      the delivery that announces it: an OPEN (new id) or an ESCALATE (same id). */
  function Rung(db: Db, id: EpisodeId, e: Episode, row: Delivery): Db {
    db.(
    episodes := db.episodes[id := e],
    deliveries := db.deliveries[DeliveryKey(id, e.notified) := row],
    nextEpisode := if id == db.nextEpisode then id + 1 else db.nextEpisode,
    ledger := db.ledger[id := (if id in db.ledger then db.ledger[id] else []) + [Creation(e.notified, row.reason)]])
  }

  ghost predicate RungOk(db: Db, id: EpisodeId, e: Episode, row: Delivery) {
    && e.closedAt.None? && e.sub in db.subs && row.sub == e.sub && 1 <= e.notified <= 4
    && (e.expiresAt.Some? <==> IsAemetKey(e.key))
    && if row.reason == Opened then id == db.nextEpisode && !TakenIn(db, KeyOf(e))
       else IsOpen(db, id) && KeyOf(db.episodes[id]) == KeyOf(e) && db.episodes[id].notified < e.notified
  }

  lemma RungKeepsOneOpen(db: Db, id: EpisodeId, e: Episode, row: Delivery)
    requires OneOpen(db) && RungOk(db, id, e, row)
    ensures OneOpen(Rung(db, id, e, row))
        && Current(Rung(db, id, e, row), KeyOf(e)) == Some(OpenEpisode(id, e.notified, e.expiresAt))
  {
    var db' := Rung(db, id, e, row);
    assert forall i :: i != id ==> (IsOpen(db', i) <==> IsOpen(db, i));
    assert forall i :: i != id && IsOpen(db, i) && KeyOf(db.episodes[i]) == KeyOf(e) ==> IsOpenFor(db, i, KeyOf(e));
    CurrentIs(db', KeyOf(e), id);
  }

  /** The announcement is always new: a severity is announced once per episode. */
  lemma RungIsFresh(db: Db, id: EpisodeId, e: Episode, row: Delivery)
    requires Ledger(db) && Recorded(db) && RungOk(db, id, e, row)
    ensures DeliveryKey(id, e.notified) !in db.deliveries
  {
    if row.reason == Escalated { LadderIsShort(db.ledger[id]); }
  }

  lemma RungKeepsKeys(db: Db, id: EpisodeId, e: Episode, row: Delivery)
    requires ForeignKeys(db) && Expiry(db) && RungOk(db, id, e, row)
    requires id in db.episodes ==> db.episodes[id].sub == e.sub
    ensures ForeignKeys(Rung(db, id, e, row)) && Expiry(Rung(db, id, e, row))
  {
  }

  lemma RungKeepsLedger(db: Db, id: EpisodeId, e: Episode, row: Delivery)
    requires Ledger(db) && RungOk(db, id, e, row)
    ensures Ledger(Rung(db, id, e, row))
  {
    var past := if id in db.ledger then db.ledger[id] else [];
    if row.reason == Escalated { LadderIsShort(past); }
    hide Ladder;
    LadderExtended(past, e.notified);
  }

  lemma RungKeepsRecorded(db: Db, id: EpisodeId, e: Episode, row: Delivery)
    requires Recorded(db)
    ensures Recorded(Rung(db, id, e, row))
  {
  }

  lemma RungIsSound(db: Db, id: EpisodeId, e: Episode, row: Delivery)
    requires Sound(db) && RungOk(db, id, e, row)
    ensures Sound(Rung(db, id, e, row))
  {
    assert id in db.episodes ==> db.episodes[id].sub == e.sub;
    hide Rung, RungOk;
    RungKeepsOneOpen(db, id, e, row);
    RungKeepsKeys(db, id, e, row);
    RungKeepsLedger(db, id, e, row);
    RungKeepsRecorded(db, id, e, row);
  }

  lemma EscalateEffect(db: Db, k: GroupKey, g: Group, b: Batch, after: Applied)
    requires Sound(db) && GroupOk(k, g, b.at)
    requires Decide(Current(db, k), g.severity, b.at, b.grace) == Escalate
    requires GroupApplied(db, Current(db, k), k, g, b) == Ok(after)
    ensures Sound(after.db) && Frame(db, after.db, k) && Covers(after.db, k, g, b.at) && Announces(db, after, k, g, b)
  {
    CurrentRow(db, k);
    var id := Current(db, k).value.id;
    var e := Refreshed(db, id, g.severity, g.expiresAt, b.at).episodes[id];
    var row := NewRow(k, g, Escalated, b);
    RungEffect(db, db, id, e, row, k, g, b, after);
  }

  lemma OpenEffect(db: Db, k: GroupKey, g: Group, b: Batch, after: Applied)
    requires Sound(db) && GroupOk(k, g, b.at)
    requires Decide(Current(db, k), g.severity, b.at, b.grace) == Open
    requires GroupApplied(db, Current(db, k), k, g, b) == Ok(after)
    ensures Sound(after.db) && Frame(db, after.db, k) && Covers(after.db, k, g, b.at) && Announces(db, after, k, g, b)
  {
    StaleClosed(db, k, b.at);
    var db1 := WithoutStale(db, k, b.at);
    var e := Episode(k.sub, k.key, g.severity, g.expiresAt, b.at, b.at, None);
    var row := NewRow(k, g, Opened, b);
    assert db.nextEpisode !in db.ledger && row.reason == Opened;
    OpenShape(db, k, g, b, after);
    hide *;
    RungEffect(db, db1, db.nextEpisode, e, row, k, g, b, after);
  }

  lemma OpenShape(db: Db, k: GroupKey, g: Group, b: Batch, after: Applied)
    requires OneOpen(db) && db.nextEpisode !in db.ledger && GroupOk(k, g, b.at)
    requires !TakenIn(WithoutStale(db, k, b.at), k)
    requires Decide(Current(db, k), g.severity, b.at, b.grace) == Open
    requires GroupApplied(db, Current(db, k), k, g, b) == Ok(after)
    ensures var e := Episode(k.sub, k.key, g.severity, g.expiresAt, b.at, b.at, None);
            var (db1, row) := (WithoutStale(db, k, b.at), NewRow(k, g, Opened, b));
            && RungOk(db1, db.nextEpisode, e, row)
            && (DeliveryKey(db.nextEpisode, e.notified) !in db.deliveries
                ==> after == Applied(Rung(db1, db.nextEpisode, e, row), 1))
  {
    hide OneOpen, Current, TakenIn, Decide;
  }

  function WithoutStale(db: Db, k: GroupKey, at: Time): Db
    requires OneOpen(db)
  {
    if Current(db, k).Some? then Closed(db, Current(db, k).value.id, at) else db
  }

  lemma StaleClosed(db: Db, k: GroupKey, at: Time)
    requires Sound(db)
    ensures var db1 := WithoutStale(db, k, at);
            && Sound(db1) && Frame(db, db1, k) && db1 == db.(episodes := db1.episodes) && !TakenIn(db1, k)
  {
    CurrentRow(db, k);
    if Current(db, k).Some? {
      var id := Current(db, k).value.id;
      RowReplaced(db, WithoutStale(db, k, at), id, db.episodes[id].(closedAt := Some(at)));
    }
  }

  /** `db1` is `db` with at most the stale episode of `k` closed. */
  lemma RungEffect(
    db: Db, db1: Db, id: EpisodeId, e: Episode, row: Delivery, k: GroupKey, g: Group, b: Batch, after: Applied)
    requires Sound(db) && Sound(db1) && RungOk(db1, id, e, row) && Frame(db, db1, k) && db1.deliveries == db.deliveries
    requires KeyOf(e) == k && e.notified == g.severity && NotEarlier(g.expiresAt, e.expiresAt)
        && e.lastMatchedAt >= b.at
    requires row == NewRow(k, g, row.reason, b)
    requires DeliveryKey(id, e.notified) !in db.deliveries ==> after == Applied(Rung(db1, id, e, row), 1)
    requires Decide(Current(db, k), g.severity, b.at, b.grace) == if row.reason == Opened then Open else Escalate
    ensures Sound(after.db) && Frame(db, after.db, k) && Covers(after.db, k, g, b.at) && Announces(db, after, k, g, b)
  {
    RungIsFresh(db1, id, e, row);
    RungIsSound(db1, id, e, row);
    RungFrame(db1, id, e, row);
    assert OneOpen(db) && OneOpen(db1);
    hide Sound, OneOpen, RungOk, Current, Decide, Frame, Covers, Announces, Rung;
    FrameTransitive(db, db1, after.db, k);
    RungAnnounces(db, db1, id, e, row, k, g, b, after);
  }

  lemma RungAnnounces(
    db: Db, db1: Db, id: EpisodeId, e: Episode, row: Delivery, k: GroupKey, g: Group, b: Batch, after: Applied)
    requires OneOpen(db) && OneOpen(db1) && RungOk(db1, id, e, row) && db1.deliveries == db.deliveries
    requires KeyOf(e) == k && e.notified == g.severity && NotEarlier(g.expiresAt, e.expiresAt)
        && e.lastMatchedAt >= b.at
    requires row == NewRow(k, g, row.reason, b) && DeliveryKey(id, e.notified) !in db.deliveries
    requires after == Applied(Rung(db1, id, e, row), 1)
    requires Decide(Current(db, k), g.severity, b.at, b.grace) == if row.reason == Opened then Open else Escalate
    ensures OneOpen(after.db) && Covers(after.db, k, g, b.at) && Announces(db, after, k, g, b)
  {
    RungKeepsOneOpen(db1, id, e, row);
    hide OneOpen, RungOk, Decide, Current;
  }

  lemma RungFrame(db: Db, id: EpisodeId, e: Episode, row: Delivery)
    requires RungOk(db, id, e, row) && DeliveryKey(id, e.notified) !in db.deliveries
    requires row.reason == Opened ==> id !in db.episodes
    ensures Frame(db, Rung(db, id, e, row), KeyOf(e))
  {
  }

  /** One turn of the loop: the tables stay sound, only the group's own key moves,
      it ends covered, and a delivery row is inserted exactly when the rule says so. */
  lemma GroupEffect(db: Db, k: GroupKey, g: Group, b: Batch, after: Applied)
    requires Sound(db) && GroupOk(k, g, b.at)
    requires GroupApplied(db, Current(db, k), k, g, b) == Ok(after)
    ensures Sound(after.db) && Frame(db, after.db, k) && Covers(after.db, k, g, b.at) && Announces(db, after, k, g, b)
  {
    match Decide(Current(db, k), g.severity, b.at, b.grace)
    case Touch => TouchEffect(db, k, g, b, after);
    case Escalate => EscalateEffect(db, k, g, b, after);
    case Open => OpenEffect(db, k, g, b, after);
  }
}
