/**
 Reconciling the table with the EFFIS catalogue: burnt areas stay open while
 they are served (app/hazards/use_cases/sync_effis.py).
 */
module SyncEffis {
  import opened Common
  import opened EpisodeRule
  import opened HazardTables
  import opened HazardEvents
  import NotificationTables

  datatype Kind = Hotspot | BurntArea | OtherKind(name: string)

  function KindName(kind: Kind): string {
    match kind
    case Hotspot => "hotspot"
    case BurntArea => "burnt_area"
    case OtherKind(name) => name
  }

  /** `wkb` is what the geometry service makes of the geometry, None if it raises. */
  datatype Fire = Fire(externalId: string, kind: Kind, wkb: Option<Geom>, observedAt: Time, areaHa: Option<real>,
      attrs: Attrs)

  datatype SyncError = FetchFailed | BadGeometry(externalId: string) | UnknownKind(kind: string)

  function SeverityOf(kind: Kind, areaHa: Option<real>): Option<int> {
    match kind
    case Hotspot => Some(2)
    case BurntArea =>
      if areaHa.None? then Some(2)
      else if areaHa.value >= 5000.0 then Some(4)
      else if areaHa.value >= 500.0 then Some(3)
      else Some(2)
    case OtherKind(_) => None
  }

  function ToRow(f: Fire): Result<Record, SyncError> {
    if f.wkb.None? then Err(BadGeometry(f.externalId))
    else if SeverityOf(f.kind, f.areaHa).None? then Err(UnknownKind(KindName(f.kind)))
    else
      var attrs := f.attrs["kind" := KindName(f.kind)];
      Ok(Record(
           Key(Effis, f.externalId),
           Body(NotificationTables.Wildfire, f.wkb.value, SeverityOf(f.kind, f.areaHa).value, f.observedAt, attrs,
               f.areaHa),
           if f.kind == Hotspot then Some(f.observedAt) else None,
           FireContent(f.wkb.value, attrs, f.areaHa, f.observedAt)))
  }

  function IdsOf(fs: seq<Fire>): set<string> { set f | f in fs :: f.externalId }

  predicate Readable(fs: seq<Fire>) { forall f :: f in fs ==> ToRow(f).Ok? }

  function RowsOf(fs: seq<Fire>): seq<Record>
    requires Readable(fs)
  {
    seq(|fs|, i requires 0 <= i < |fs| => ToRow(fs[i]).value)
  }

  /** The table after the sync of a catalogue, from the cursor `previous`. */
  function Synced(t: Events, previous: set<string>, hotspots: seq<Fire>, burnt: seq<Fire>, at: Time): Events
    requires Readable(hotspots + burnt)
  {
    Closed(Upserted(t, RowsOf(hotspots + burnt), at), Effis, previous - IdsOf(burnt), at, at)
  }

  class SyncEffisUseCase {
    const session: Session
    const repo: HazardEventRepo
    const syncState: SourceSyncStateRepo

    constructor (session: Session, repo: HazardEventRepo, syncState: SourceSyncStateRepo)
      ensures this.session == session && this.repo == repo && this.syncState == syncState
    {
      this.session, this.repo, this.syncState := session, repo, syncState;
    }

    /** On Err the caller rolls back; nothing was written. */
    method Execute(
      fetched: Result<(seq<Fire>, seq<Fire>), SyncError>, at: Time, clock: Time)
      returns (r: Result<(nat, nat, nat), SyncError>)
      requires repo.session == session && syncState.session == session && 1 <= repo.columns <= MAX_ARGS
      modifies session
      ensures r.Ok? <==> fetched.Ok? && Readable(fetched.value.0 + fetched.value.1)
      ensures r.Ok? ==>
                var (t, hotspots, burnt) := (old(session.events), fetched.value.0, fetched.value.1);
                var (rows, vanished) := (RowsOf(hotspots + burnt), CursorOf(old(session.states), Effis) - IdsOf(burnt));
                && session.events == Synced(t, CursorOf(old(session.states), Effis), hotspots, burnt, at)
                && session.states == AfterSuccess(old(session.states), Effis, Some(IdsOf(burnt)), clock)
                && r.value
                    == (|NewKeys(t, rows)|, |ChangedKeys(t, rows)|,
                        |ClosedKeys(Upserted(t, rows, at), Effis, vanished, at)|)
                && session.published == old(session.published) + Published(Effis, r.value, at)
      ensures r.Err? ==>
                session.events == old(session.events) && session.states == old(session.states)
                    && session.published == old(session.published)
    {
      if fetched.Err? { return Err(fetched.error); }
      var (hotspots, burnt) := fetched.value;
      var rows := ToRows(hotspots + burnt);
      if rows.Err? { return Err(rows.error); }
      var inserted, updated := repo.UpsertBatch(rows.value, at);
      var closed := CloseVanished(burnt, at);
      syncState.RecordSuccess(Effis, Some(IdsOf(burnt)), clock);
      if inserted != 0 || updated != 0 || closed != 0 {
        session.published := session.published + [BatchEvent(Effis, inserted, updated, closed, at)];
      }
      return Ok((inserted, updated, closed));
    }

    method ToRows(fs: seq<Fire>) returns (r: Result<seq<Record>, SyncError>)
      ensures r.Ok? <==> Readable(fs)
      ensures r.Ok? ==> r.value == RowsOf(fs)
    {
      var rows := [];
      for i := 0 to |fs|
        invariant |rows| == i && forall j :: 0 <= j < i ==> ToRow(fs[j]) == Ok(rows[j])
      {
        var row := ToRow(fs[i]);
        if row.Err? {
          assert fs[i] in fs;
          return Err(row.error);
        }
        rows := rows + [row.value];
      }
      return Ok(rows);
    }

    method CloseVanished(burnt: seq<Fire>, batchAt: Time) returns (closed: nat)
      requires repo.session == session
      modifies session
      ensures var vanished := CursorOf(old(session.states), Effis) - IdsOf(burnt);
              && session.events == Closed(old(session.events), Effis, vanished, batchAt, batchAt)
              && closed == |ClosedKeys(old(session.events), Effis, vanished, batchAt)|
      ensures session.states == old(session.states) && session.published == old(session.published)
    {
      var vanished := CursorOf(session.states, Effis) - IdsOf(burnt);
      if vanished == {} {
        assert ClosedKeys(session.events, Effis, vanished, batchAt) == {};
        assert session.events == Closed(session.events, Effis, vanished, batchAt, batchAt);
        return 0;
      }
      closed := repo.CloseEvents(Effis, vanished, batchAt, batchAt);
    }
  }

  /** The row of a record: a hotspot is over at its instant and of severity 2, a burnt
      area is open and as severe as it is large. It raises for an unusable geometry
      or an unknown kind. */
  lemma RowTellsTheFire(f: Fire)
    ensures ToRow(f).Ok? <==> f.wkb.Some? && (f.kind == Hotspot || f.kind == BurntArea)
    ensures ToRow(f).Ok? ==>
              && var r := ToRow(f).value;
                 && r.key.source == Effis && r.key.externalId == f.externalId
                 && r.body.hazardType == NotificationTables.Wildfire && Some(r.body.geom) == f.wkb
                 && r.body.startsAt == f.observedAt && r.body.areaHa == f.areaHa
                 && r.endsAt == (if f.kind == Hotspot then Some(f.observedAt) else None)
                 && r.body.attrs == f.attrs["kind" := if f.kind == Hotspot then "hotspot" else "burnt_area"]
                 && (r.body.severity == 4 <==> f.kind == BurntArea && f.areaHa.Some? && f.areaHa.value >= 5000.0)
                 && (r.body.severity == 3 <==>
                       f.kind == BurntArea && f.areaHa.Some? && 500.0 <= f.areaHa.value < 5000.0)
                 && 2 <= r.body.severity <= 4
  {
  }

  /** Served again, a record counts as changed in content exactly if its geometry,
      attributes, area or time of observation differ. */
  lemma SameFireIff(a: Fire, b: Fire)
    requires ToRow(a).Ok? && ToRow(b).Ok?
    ensures ToRow(a).value.hash == ToRow(b).value.hash <==>
              && a.wkb == b.wkb && ToRow(a).value.body.attrs == ToRow(b).value.body.attrs
              && a.areaHa == b.areaHa && a.observedAt == b.observedAt
  {
  }

  /** What the EFFIS driver promises of the two layers. */
  predicate Layered(hotspots: seq<Fire>, burnt: seq<Fire>) {
    (forall f :: f in hotspots ==> f.kind == Hotspot) && (forall f :: f in burnt ==> f.kind == BurntArea)
  }

  function OpenIds(t: Events): set<string> { set k | k in t && k.source == Effis && t[k].endsAt.None? :: k.externalId }

  lemma LayerRows(fs: seq<Fire>, kind: Kind, id: string)
    requires Readable(fs) && forall f :: f in fs ==> f.kind == kind
    ensures var r := LastOf(RowsOf(fs), Key(Effis, id));
            (r.Some? <==> id in IdsOf(fs)) && (r.Some? ==> (r.value.endsAt.None? <==> kind != Hotspot))
  {
    var rows := RowsOf(fs);
    var k := Key(Effis, id);
    LastOfKey(rows, k);
    if k in KeysOf(rows) {
      var r :| r in rows && r.key == k;
      var i :| 0 <= i < |rows| && rows[i] == r;
      assert fs[i].externalId == id && fs[i] in fs;
    }
    if id in IdsOf(fs) {
      var i :| 0 <= i < |fs| && fs[i].externalId == id;
      assert fs[i] in fs && rows[i] in rows && rows[i].key == k;
    }
  }

  /** The last record of an id: open iff the id is among the burnt areas. */
  lemma LastIsBurnt(hotspots: seq<Fire>, burnt: seq<Fire>, id: string)
    requires Readable(hotspots + burnt) && Layered(hotspots, burnt)
    ensures var r := LastOf(RowsOf(hotspots + burnt), Key(Effis, id));
            && (r.Some? <==> id in IdsOf(hotspots) + IdsOf(burnt))
            && (r.Some? ==> (r.value.endsAt.None? <==> id in IdsOf(burnt)))
  {
    assert Readable(hotspots) && Readable(burnt) by {
      assert forall f :: f in hotspots || f in burnt ==> f in hotspots + burnt;
      hide ToRow;
    }
    LayerRows(hotspots, Hotspot, id);
    LayerRows(burnt, BurntArea, id);
    assert RowsOf(hotspots + burnt) == RowsOf(hotspots) + RowsOf(burnt);
    hide *;
    LastOfConcat(RowsOf(hotspots), RowsOf(burnt), Key(Effis, id));
  }

  /** After a committed sync the open fires are exactly the burnt areas just
      served: vanished ones are closed, re-served ones reopen even with the same
      content, and hotspots are never open. */
  lemma OpenAreServed(t: Events, previous: set<string>, hotspots: seq<Fire>, burnt: seq<Fire>, at: Time)
    requires Readable(hotspots + burnt) && Layered(hotspots, burnt)
    requires OpenIds(t) <= previous
    ensures OpenIds(Synced(t, previous, hotspots, burnt, at)) == IdsOf(burnt)
  {
    var rows := RowsOf(hotspots + burnt);
    var t' := Synced(t, previous, hotspots, burnt, at);
    forall id ensures id in OpenIds(t') <==> id in IdsOf(burnt) {
      var k := Key(Effis, id);
      LastIsBurnt(hotspots, burnt, id);
      LastOfKey(rows, k);
      ServedIsStored(t, rows, at, k);
      assert k in t && t[k].endsAt.None? ==> id in previous;
      hide LastOf, RowsOf, Upserted, KeysOf, Layered, Readable, Written, IdsOf;
      assert id in OpenIds(t') <==> k in t' && t'[k].endsAt.None?;
    }
  }

  /** A closed fire served again with the same content is open again. */
  lemma ReservedFireReopens(t: Events, previous: set<string>, hotspots: seq<Fire>, burnt: seq<Fire>, at: Time, f: Fire)
    requires Readable(hotspots + burnt) && Layered(hotspots, burnt) && OpenIds(t) <= previous
    requires f in burnt && ToRow(f).Ok?
    ensures var (k, t') := (Key(Effis, f.externalId), Synced(t, previous, hotspots, burnt, at));
            k in t' && t'[k].endsAt.None? && (k in t && t[k].endsAt.Some? ==> t'[k].updatedAt == Some(at))
  {
    OpenAreServed(t, previous, hotspots, burnt, at);
    var (k, t') := (Key(Effis, f.externalId), Synced(t, previous, hotspots, burnt, at));
    assert f.externalId in IdsOf(burnt);
    assert k in t' && t'[k].endsAt.None?;
  }
}
