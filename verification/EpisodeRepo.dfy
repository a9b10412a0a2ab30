/** The statements a matcher transaction runs (app/notifications/repos/episode.py). */
module EpisodeStatements {
  import opened Common
  import opened EpisodeRule
  import opened NotificationTables

  datatype MatchError =
    | OpenedConcurrently(k: GroupKey)  // lost the race for the partial unique index
    | SubscriptionGone(sub: SubId)     // foreign key violation

  function Read(db: Db, id: EpisodeId): OpenEpisode
    requires id in db.episodes
  {
    OpenEpisode(id, db.episodes[id].notified, db.episodes[id].expiresAt)
  }

  predicate IsOpenFor(db: Db, id: EpisodeId, k: GroupKey) { IsOpen(db, id) && KeyOf(db.episodes[id]) == k }

  predicate TakenIn(db: Db, k: GroupKey) { exists id :: id in db.episodes && IsOpenFor(db, id, k) }

  /** The open episode of a key, if any: what the partial unique index finds. */
  function Current(db: Db, k: GroupKey): Option<OpenEpisode>
    requires OneOpen(db)
  {
    if TakenIn(db, k) then
      var id :| id in db.episodes && IsOpenFor(db, id, k);
      Some(Read(db, id))
    else None
  }

  function Closed(db: Db, id: EpisodeId, at: Time): Db {
    if IsOpen(db, id) then db.(episodes := db.episodes[id := db.episodes[id].(closedAt := Some(at))]) else db
  }

  /** The new row takes the id `db.nextEpisode`. */
  function Inserted(db: Db, k: GroupKey, severity: int, expiresAt: Option<Time>, at: Time): Result<Db, MatchError> {
    if k.sub !in db.subs then Err(SubscriptionGone(k.sub))
    else if TakenIn(db, k) then Err(OpenedConcurrently(k))
    else
      Ok(db.(episodes := db.episodes[db.nextEpisode := Episode(k.sub, k.key, severity, expiresAt, at, at, None)],
             nextEpisode := db.nextEpisode + 1,
             ledger := db.ledger[db.nextEpisode := []]))
  }

  function Refreshed(db: Db, id: EpisodeId, notified: int, expiresAt: Option<Time>, at: Time): Db {
    if id !in db.episodes then db
    else
      var e := db.episodes[id];
      db.(episodes := db.episodes[id := e.(
        notified := Max(e.notified, notified),
        lastMatchedAt := Max(e.lastMatchedAt, at),
        expiresAt := if expiresAt.Some? then Greatest(e.expiresAt, expiresAt) else e.expiresAt)])
  }

  /** `at` is the transaction's now(), the default of created_at. */
  function DeliveryAdded(
    db: Db, k: DeliveryKey, sub: SubId, reason: Reason, items: seq<Match>, itemCount: nat, at: Time): Db {
    if k in db.deliveries then db
    else
      var past := if k.episode in db.ledger then db.ledger[k.episode] else [];
      db.(deliveries := db.deliveries[k := Delivery(sub, reason, items, itemCount, Pending, 0, None, at, None)],
          ledger := db.ledger[k.episode := past + [Creation(k.severity, reason)]])
  }

  class EpisodeRepo {
    const session: Session

    constructor (session: Session)
      ensures this.session == session
    {
      this.session := session;
    }

    /** The rows read stay locked until the transaction ends. */
    method OpenEpisodes(keys: seq<GroupKey>) returns (r: map<GroupKey, OpenEpisode>)
      requires OneOpen(session.db)
      ensures forall k :: k in r <==> k in keys && Current(session.db, k).Some?
      ensures forall k :: k in r ==> r[k] == Current(session.db, k).value
    {
      r := map k | k in keys && TakenIn(session.db, k) :: Current(session.db, k).value;
    }

    method Close(id: EpisodeId, at: Time)
      modifies session
      ensures session.db == Closed(old(session.db), id, at)
    {
      if IsOpen(session.db, id) {
        var row := session.db.episodes[id].(closedAt := Some(at));
        session.db := session.db.(episodes := session.db.episodes[id := row]);
      }
    }

    method Open(
      k: GroupKey, severity: int, expiresAt: Option<Time>, at: Time) returns (r: Result<EpisodeId, MatchError>)
      modifies session
      ensures r.Ok?
          ==> Inserted(old(session.db), k, severity, expiresAt, at) == Ok(session.db)
              && r.value == old(session.db.nextEpisode)
      ensures r.Err?
          ==> Inserted(old(session.db), k, severity, expiresAt, at) == Err(r.error) && session.db == old(session.db)
      ensures r.Ok? <==> k.sub in old(session.db).subs && !TakenIn(old(session.db), k)
    {
      if k.sub !in session.db.subs { return Err(SubscriptionGone(k.sub)); }
      if TakenIn(session.db, k) { return Err(OpenedConcurrently(k)); }
      var id := session.db.nextEpisode;
      var row := Episode(k.sub, k.key, severity, expiresAt, at, at, None);
      session.db := session.db.(episodes := session.db.episodes[id := row], nextEpisode := id + 1,
      ledger := session.db.ledger[id := []]);
      return Ok(id);
    }

    method Refresh(id: EpisodeId, notified: int, expiresAt: Option<Time>, at: Time)
      modifies session
      ensures session.db == Refreshed(old(session.db), id, notified, expiresAt, at)
    {
      if id in session.db.episodes {
        var row := session.db.episodes[id];
        row := row.(notified := Max(row.notified, notified), lastMatchedAt := Max(row.lastMatchedAt, at));
        if expiresAt.Some? {
          row := row.(expiresAt := Greatest(row.expiresAt, expiresAt));
        }
        session.db := session.db.(episodes := session.db.episodes[id := row]);
      }
    }

    method AddDelivery(k: DeliveryKey, sub: SubId, reason: Reason, items: seq<Match>, itemCount: nat, at: Time)
      returns (created: bool)
      modifies session
      ensures session.db == DeliveryAdded(old(session.db), k, sub, reason, items, itemCount, at)
      ensures created == (k !in old(session.db.deliveries))
    {
      created := k !in session.db.deliveries;
      if created {
        var past := if k.episode in session.db.ledger then session.db.ledger[k.episode] else [];
        var row := Delivery(sub, reason, items, itemCount, Pending, 0, None, at, None);
        session.db := session.db.(deliveries := session.db.deliveries[k := row],
        ledger := session.db.ledger[k.episode := past + [Creation(k.severity, reason)]]);
      }
    }
  }
}
