/**
 The hazard_events and source_sync_state tables, and what each statement of the
 ingest does to them (app/hazards/models, app/hazards/repos/hazard_event.py).
 */
module HazardTables {
  import opened Common
  import opened EpisodeRule
  import NotificationTables

  type Geom = nat

  /** The hashed content of a record. content_hash is taken to be a function of it. */
  datatype Content =
    | WarningContent(polygon: string, attrs: Attrs, onset: Time, expires: Time)
    | FireContent(geometry: Geom, attrs: Attrs, areaHa: Option<real>, observedAt: Time)
    | OtherContent(id: nat)

  /** The unique index (source, external_id). */
  datatype Key = Key(source: Source, externalId: string)

  /** `areaHa` is the one number among the attrs. */
  datatype Body = Body(
    hazardType: NotificationTables.HazardType, geom: Geom, severity: int, startsAt: Time, attrs: Attrs,
        areaHa: Option<real>)

  /** A dict handed to upsert_batch. */
  datatype Record = Record(key: Key, body: Body, endsAt: Option<Time>, hash: Content)

  /** A row of hazard_events. */
  datatype Event = Event(body: Body, endsAt: Option<Time>, hash: Content, createdAt: Time, updatedAt: Option<Time>)

  type Events = map<Key, Event>

  // ----- Upsert -----

  function KeysOf(rs: seq<Record>): set<Key> { set r | r in rs :: r.key }

  /** The last record of a key. */
  function LastOf(rs: seq<Record>, k: Key): Option<Record> {
    if rs == [] then None
    else if rs[|rs| - 1].key == k then Some(rs[|rs| - 1])
    else LastOf(rs[..|rs| - 1], k)
  }

  lemma {:induction false} LastOfKey(rs: seq<Record>, k: Key)
    ensures LastOf(rs, k).Some? <==> k in KeysOf(rs)
    ensures LastOf(rs, k).Some? ==> LastOf(rs, k).value in rs && LastOf(rs, k).value.key == k
  {
    if rs != [] {
      LastOfKey(rs[..|rs| - 1], k);
      assert rs == rs[..|rs| - 1] + [rs[|rs| - 1]];
    }
  }

  predicate Differs(e: Event, r: Record) { e.hash != r.hash || e.endsAt != r.endsAt }

  function Written(before: Option<Event>, r: Record, now: Time): Event {
    match before
    case None => Event(r.body, r.endsAt, r.hash, now, None)
    case Some(e) => if Differs(e, r) then Event(r.body, r.endsAt, r.hash, e.createdAt, Some(now)) else e
  }

  function At(t: Events, k: Key): Option<Event> { if k in t then Some(t[k]) else None }

  /** One INSERT ... ON CONFLICT DO UPDATE: every record judged against the table
      as it was before. */
  function Upserted(t: Events, rs: seq<Record>, now: Time): Events {
    map k | k in t.Keys + KeysOf(rs) ::
      if LastOf(rs, k).Some? then Written(At(t, k), LastOf(rs, k).value, now)
      else LastOfKey(rs, k); t[k]
  }

  function NewKeys(t: Events, rs: seq<Record>): set<Key> { set k | k in KeysOf(rs) && k !in t }

  function ChangedKeys(t: Events, rs: seq<Record>): set<Key> {
    set k | k in KeysOf(rs) && k in t && LastOf(rs, k).Some? && Differs(t[k], LastOf(rs, k).value)
  }

  // ----- Close -----

  predicate OpenAt(e: Event, at: Time) { e.endsAt.None? || e.endsAt.value > at }

  /** The row with its window cut at `cut`, if that is earlier. */
  function Lowered(e: Event, cut: Option<Time>, now: Time): Event {
    if cut.Some? && OpenAt(e, cut.value) then e.(endsAt := cut, updatedAt := Some(now)) else e
  }

  predicate Closes(t: Events, k: Key, source: Source, ids: set<string>, at: Time) {
    k in t && k.source == source && k.externalId in ids && OpenAt(t[k], at)
  }

  function Closed(t: Events, source: Source, ids: set<string>, at: Time, now: Time): Events {
    map k | k in t :: if Closes(t, k, source, ids, at) then t[k].(endsAt := Some(at), updatedAt := Some(now)) else t[k]
  }

  function ClosedKeys(t: Events, source: Source, ids: set<string>, at: Time): set<Key> {
    set k | k in t && Closes(t, k, source, ids, at)
  }

  // ----- Sync state -----

  datatype SyncState = SyncState(
    lastRunAt: Time, lastSuccessAt: Option<Time>, cursor: set<string>, lastError: Option<string>, failures: nat)

  const SYNC_ERROR_CHARS: nat := 500

  /** The ids of the cursor; a source without state has none. */
  function CursorOf(states: map<Source, SyncState>, source: Source): set<string> {
    if source in states then states[source].cursor else {}
  }

  /** A cursor that is not given keeps the stored one. */
  function AfterSuccess(
    states: map<Source, SyncState>, source: Source, cursor: Option<set<string>>, now: Time): map<Source, SyncState> {
    var ids := if cursor.Some? then cursor.value else CursorOf(states, source);
    states[source := SyncState(now, Some(now), ids, None, 0)]
  }

  function AfterFailure(
    states: map<Source, SyncState>, source: Source, error: string, now: Time): map<Source, SyncState> {
    var summary := if |error| <= SYNC_ERROR_CHARS then error else error[..SYNC_ERROR_CHARS];
    if source in states
    then states[source :=
        states[source].(lastRunAt := now, lastError := Some(summary), failures := states[source].failures + 1)]
    else states[source := SyncState(now, None, {}, Some(summary), 1)]
  }

  /** The payload of hazards.batch_ingested. */
  datatype BatchEvent = BatchEvent(source: Source, inserted: nat, updated: nat, closed: nat, batchAt: Time)

  /** The event of a batch that inserted, updated and closed so many rows: none if it
      changed nothing. */
  function Published(source: Source, counts: (nat, nat, nat), at: Time): seq<BatchEvent> {
    if counts == (0, 0, 0) then [] else [BatchEvent(source, counts.0, counts.1, counts.2, at)]
  }

  /** The open transaction: its tables and its outbox. */
  class Session {
    var events: Events
    var states: map<Source, SyncState>
    var published: seq<BatchEvent>

    constructor (events: Events, states: map<Source, SyncState>)
      ensures this.events == events && this.states == states && published == []
    {
      this.events, this.states, published := events, states, [];
    }
  }

  class SourceSyncStateRepo {
    const session: Session

    constructor (session: Session)
      ensures this.session == session
    {
      this.session := session;
    }

    method RecordSuccess(source: Source, cursor: Option<set<string>>, now: Time)
      modifies session
      ensures session.states == AfterSuccess(old(session.states), source, cursor, now)
      ensures session.events == old(session.events) && session.published == old(session.published)
    {
      var state := if source in session.states then session.states[source] else SyncState(now, None, {}, None, 0);
      state := state.(lastRunAt := now, lastSuccessAt := Some(now), lastError := None, failures := 0);
      if cursor.Some? { state := state.(cursor := cursor.value); }
      session.states := session.states[source := state];
    }

    method RecordFailure(source: Source, error: string, now: Time)
      modifies session
      ensures session.states == AfterFailure(old(session.states), source, error, now)
      ensures session.events == old(session.events) && session.published == old(session.published)
    {
      var summary := if |error| <= SYNC_ERROR_CHARS then error else error[..SYNC_ERROR_CHARS];
      var state := if source in session.states then session.states[source] else SyncState(now, None, {}, None, 0);
      session.states :=
          session.states[source :=
              state.(lastRunAt := now, lastError := Some(summary), failures := state.failures + 1)];
    }
  }
}
