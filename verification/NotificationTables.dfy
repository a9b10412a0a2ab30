/**
 The tables of the notification pipeline and what every transaction keeps true
 of them (app/notifications/models).
 */
module NotificationTables {
  import opened Common
  import opened EpisodeRule

  type SubId = nat
  type EpisodeId = nat
  type EventId = nat
  type AreaId = nat
  type MessageId = nat

  datatype HazardType = Wildfire | Earthquake | WeatherWarning

  datatype SubStatus = Active | Paused

  datatype Subscription = Subscription(
    status: SubStatus, hazardTypes: set<HazardType>, severityMin: int, area: AreaId,
    consecutiveFailures: nat, failingSince: Option<Time>, retryAt: Option<Time>, lastSentAt: Option<Time>)

  datatype Match = Match(
    sub: SubId, event: EventId, source: Source, hazardType: HazardType, externalId: string,
    severity: int, startsAt: Time, endsAt: Option<Time>, attrs: Attrs)

  datatype Episode = Episode(
    sub: SubId, key: string, notified: int, expiresAt: Option<Time>,
    openedAt: Time, lastMatchedAt: Time, closedAt: Option<Time>)

  datatype Reason = Opened | Escalated

  datatype DeliveryStatus = Pending | Sent | Failed

  /** The unique index of the table, which here identifies the row. */
  datatype DeliveryKey = DeliveryKey(episode: EpisodeId, severity: int)

  datatype Delivery = Delivery(
    sub: SubId, reason: Reason, items: seq<Match>, itemCount: nat, status: DeliveryStatus,
    attempts: nat, messageId: Option<MessageId>, createdAt: Time, sentAt: Option<Time>)

  datatype GroupKey = GroupKey(sub: SubId, key: string)

  /** A delivery row at the moment it was inserted. */
  datatype Creation = Creation(severity: int, reason: Reason)

  /** The tables. `ledger` is a history variable: per episode id ever used, the
      deliveries ever inserted for it. No operation reads it. */
  datatype Db = Db(
    subs: map<SubId, Subscription>,
    episodes: map<EpisodeId, Episode>,
    deliveries: map<DeliveryKey, Delivery>,
    nextEpisode: EpisodeId,
    ledger: map<EpisodeId, seq<Creation>>)

  /** A database session: the state the current transaction sees and writes. */
  class Session {
    var db: Db

    constructor (db: Db)
      ensures this.db == db
    {
      this.db := db;
    }
  }

  function KeyOf(e: Episode): GroupKey { GroupKey(e.sub, e.key) }

  predicate IsOpen(db: Db, id: EpisodeId) { id in db.episodes && db.episodes[id].closedAt.None? }

  /** The partial unique index: one open episode per subscription and key. */
  ghost predicate OneOpen(db: Db) {
    forall i, j | IsOpen(db, i) && IsOpen(db, j) && KeyOf(db.episodes[i]) == KeyOf(db.episodes[j]) :: i == j
  }

  ghost predicate ForeignKeys(db: Db) {
    && (forall id :: id in db.episodes ==> db.episodes[id].sub in db.subs)
    && (forall k :: k in db.deliveries ==>
          k.episode in db.episodes && db.deliveries[k].sub == db.episodes[k.episode].sub)
  }

  /** Only AEMET episodes expire. */
  ghost predicate Expiry(db: Db) {
    forall id :: id in db.episodes ==>
      (db.episodes[id].expiresAt.Some? <==> IsAemetKey(db.episodes[id].key))
  }

  /** One `opened`, then `escalated` of strictly increasing severity. */
  ghost predicate Ladder(s: seq<Creation>) {
    && |s| > 0 && s[0].reason == Opened
    && (forall i :: 0 < i < |s| ==> s[i].reason == Escalated)
    && (forall i :: 0 <= i < |s| ==> 1 <= s[i].severity <= 4)
    && (forall i, j :: 0 <= i < j < |s| ==> s[i].severity < s[j].severity)
  }

  function Top(s: seq<Creation>): int
    requires s != []
  {
    s[|s| - 1].severity
  }

  /** Every episode id ever used has its ladder, which ends at notified_severity. */
  ghost predicate Ledger(db: Db) {
    && (forall id :: id in db.ledger <==> 0 <= id < db.nextEpisode)
    && (forall id :: id in db.ledger ==> Ladder(db.ledger[id]))
    && (forall id :: id in db.episodes ==> id in db.ledger && db.episodes[id].notified == Top(db.ledger[id]))
  }

  /** Every delivery row is a rung of its episode's ladder. */
  ghost predicate Recorded(db: Db) {
    forall k :: k in db.deliveries ==>
      k.episode in db.ledger && Creation(k.severity, db.deliveries[k].reason) in db.ledger[k.episode]
  }

  /** What every committed transaction keeps. */
  ghost predicate Sound(db: Db) { OneOpen(db) && ForeignKeys(db) && Expiry(db) && Ledger(db) && Recorded(db) }

  lemma SoundHasForeignKeys(db: Db)
    requires Sound(db)
    ensures ForeignKeys(db)
  {
  }

  const EMPTY_DB := Db(map[], map[], map[], 0, map[])

  lemma {:induction false} LadderClimbs(s: seq<Creation>, i: nat)
    requires Ladder(s) && i < |s|
    ensures s[i].severity >= i + 1
  {
    if i > 0 { LadderClimbs(s, i - 1); }
  }

  /** Severities run from 1 to 4, so an episode is announced at most four times. */
  lemma LadderIsShort(s: seq<Creation>)
    requires Ladder(s)
    ensures 0 < |s| <= 4
    ensures forall i :: 0 <= i < |s| ==> s[i].severity <= s[|s| - 1].severity
  {
    LadderClimbs(s, |s| - 1);
  }

  lemma LadderExtended(s: seq<Creation>, severity: int)
    requires s != [] ==> Ladder(s) && Top(s) < severity
    requires 1 <= severity <= 4
    ensures Ladder(s + [Creation(severity, if s == [] then Opened else Escalated)])
  {
    if s != [] { LadderIsShort(s); }
  }
}
