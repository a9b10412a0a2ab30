/**
 What reconciling promises: which bulletins abort the sync, when serving the
 same bulletin again is silent, and when the batch event is published
 (app/hazards/use_cases/sync_aemet.py, app/hazards/use_cases/sync_effis.py).
 */
module SyncGuarantees {
  import opened Common
  import opened EpisodeRule
  import opened HazardTables
  import opened HazardEvents
  import opened SyncAemet
  import SyncEffis
  import NotificationTables

  /** The bulletins a sync can digest, told from the warnings: every ingestible
      one needs a usable polygon and one of the three levels of risk. The guard
      that filters the warnings lets other levels through, the empty one among them. */
  lemma ReadableIff(ws: seq<Warning>)
    ensures Readable(ws) <==>
            forall w :: w in ws && IsIngestible(w)
                ==> w.wkb.Some? && Normal(w.level.value) in {"amarillo", "naranja", "rojo"}
  {
    forall w | w in ws && IsIngestible(w)
      ensures ToRow(w).Ok? <==> w.wkb.Some? && Normal(w.level.value) in {"amarillo", "naranja", "rojo"}
    {
      assert w.level.value == "" ==> Normal(w.level.value) == "";
    }
  }

  /** A single warning whose level is none of the four aborts the sync of the whole
      bulletin, whatever else it holds: the filter only asks that there is a level
      other than verde. */
  lemma UnknownLevelAborts(rest: seq<Warning>, w: Warning)
    requires (w.msgType == Alert || w.msgType == Update) && w.level.Some? && w.level.value != ""
    requires Normal(w.level.value) !in {"verde", "amarillo", "naranja", "rojo"}
    requires w.polygon != "" && w.onset.Some? && w.expires.Some?
    ensures IsIngestible(w) && ToRow(w).Err? && !Readable(rest + [w])
    ensures w.wkb.Some? ==> ToRow(w) == Err(UnknownLevel(w.level.value))
  {
    assert w in rest + [w];
  }

  // ----- Which warnings come in, and as what -----

  /** A warning in force: an alert or an update, of one of the three levels of risk,
      with an area and a window. */
  predicate InForce(w: Warning) {
    && (w.msgType == Alert || w.msgType == Update)
    && w.level.Some? && Normal(w.level.value) in {"amarillo", "naranja", "rojo"}
    && w.polygon != "" && w.onset.Some? && w.expires.Some?
  }

  ghost predicate Serves(ws: seq<Warning>, id: string) { exists w :: w in ws && InForce(w) && w.externalId == id }

  /** The cursor and the upserted keys of a sync are exactly those of the warnings in
      force; greens, cancellations and incomplete messages never get in. */
  lemma IngestedExactly(ws: seq<Warning>)
    requires Readable(ws)
    ensures forall w :: w in Ingested(ws) <==> w in ws && InForce(w)
    ensures forall id :: id in IdsOf(Ingested(ws)) <==> Serves(ws, id)
    ensures forall k :: k in KeysOf(BatchOf(ws)) <==> k.source == Aemet && Serves(ws, k.externalId)
  {
    IngestedAre(ws);
    ReadableIff(ws);
    assert forall w :: w in Ingested(ws) <==> w in ws && InForce(w);
    BatchKeys(ws);
    hide InForce, IsIngestible, KeysOf, BatchOf, Ingested, Readable;
    forall k | k in KeysOf(BatchOf(ws)) || k.source == Aemet
      ensures k in KeysOf(BatchOf(ws)) <==> k.source == Aemet && k.externalId in IdsOf(Ingested(ws))
    {
      assert k.source == Aemet ==> k == Key(Aemet, k.externalId);
    }
  }

  /** A sync inserts only warnings in force of its bulletin, and stores them all. */
  lemma StoredExactly(t: Events, previous: set<string>, ws: seq<Warning>, at: Time, k: Key)
    requires Readable(ws)
    ensures var t' := Synced(t, previous, ws, at);
            && (k in t' && k !in t ==> k.source == Aemet && Serves(ws, k.externalId))
            && (k.source == Aemet && Serves(ws, k.externalId) ==> k in t')
  {
    IngestedExactly(ws);
    RowAfterSync(t, previous, ws, at, k);
    hide Synced, Ingested, IdsOf, BatchOf, KeysOf, Serves, Readable;
  }

  /** The row of a warning in force: its window, its level on the common scale, and
      its attributes, which the raw ones of the source override. */
  lemma RowTellsTheWarning(w: Warning)
    requires InForce(w) && w.wkb.Some?
    ensures ToRow(w).Ok?
    ensures var (r, level) := (ToRow(w).value, Normal(w.level.value));
            && r.key.source == Aemet && r.key.externalId == w.externalId
            && r.body.hazardType == NotificationTables.WeatherWarning && r.body.geom == w.wkb.value
            && r.body.startsAt == w.onset.value && r.endsAt == w.expires
            && r.body.severity == (if level == "rojo" then 4 else if level == "naranja" then 3 else 2)
            && (forall x :: x in r.body.attrs <==> x in w.attrs || x in w.info || x == "level")
            && (forall x :: x in w.attrs ==> r.body.attrs[x] == w.attrs[x])
            && ("level" !in w.attrs ==> r.body.attrs["level"] == w.level.value)
            && (forall x :: x in w.info && x !in w.attrs && x != "level" ==> r.body.attrs[x] == w.info[x])
  {
  }

  /** Served again, a warning counts as changed exactly if its polygon, attributes or
      window differ. */
  lemma SameWarningIff(a: Warning, b: Warning)
    requires ToRow(a).Ok? && ToRow(b).Ok?
    ensures ToRow(a).value.hash == ToRow(b).value.hash <==>
              && a.polygon == b.polygon && ToRow(a).value.body.attrs == ToRow(b).value.body.attrs
              && a.onset == b.onset && a.expires == b.expires
  {
  }

  predicate AllSpaces(s: string) { forall c :: c in s ==> IsSpace(c) }

  /** What is left of a text without the white space around it. */
  ghost predicate IsCore(text: string, core: string) {
    && (exists a, b :: text == a + core + b && AllSpaces(a) && AllSpaces(b))
    && (core != "" ==> !IsSpace(core[0]) && !IsSpace(core[|core| - 1]))
  }

  lemma {:induction false} LeftStripped(s: string)
    ensures exists a :: s == a + StripLeft(s) && AllSpaces(a)
    ensures StripLeft(s) != "" ==> !IsSpace(StripLeft(s)[0])
  {
    if s != "" && IsSpace(s[0]) {
      LeftStripped(s[1..]);
      var a :| s[1..] == a + StripLeft(s[1..]) && AllSpaces(a);
      assert s == ([s[0]] + a) + StripLeft(s) && AllSpaces([s[0]] + a);
    } else {
      assert s == "" + StripLeft(s) && AllSpaces("");
    }
  }

  lemma {:induction false} RightStripped(s: string)
    ensures exists b :: s == StripRight(s) + b && AllSpaces(b)
    ensures StripRight(s) != "" ==> !IsSpace(StripRight(s)[|StripRight(s)| - 1]) && StripRight(s)[0] == s[0]
  {
    if s != "" && IsSpace(s[|s| - 1]) {
      var init := s[..|s| - 1];
      RightStripped(init);
      var b :| init == StripRight(init) + b && AllSpaces(b);
      assert s == StripRight(s) + (b + [s[|s| - 1]]) && AllSpaces(b + [s[|s| - 1]]);
    } else {
      assert s == StripRight(s) + "" && AllSpaces("");
    }
  }

  lemma {:induction false} LowerAt(s: string)
    ensures |Lower(s)| == |s|
    ensures forall i :: 0 <= i < |s| ==> Lower(s)[i] == if 'A' <= s[i] <= 'Z' then s[i] - 'A' + 'a' else s[i]
  {
    if s != "" { LowerAt(s[1..]); }
  }

  /** A level is read without the white space around it and letter by letter without
      regard to case. */
  lemma LevelIsRead(level: string)
    ensures exists core :: IsCore(level, core) && |Normal(level)| == |core|
                           && forall i :: 0 <= i < |core| ==>
                                Normal(level)[i] == if 'A' <= core[i] <= 'Z' then core[i] - 'A' + 'a' else core[i]
  {
    var core := StripRight(StripLeft(level));
    CoreIsLeft(level);
    LowerAt(core);
    hide IsCore, StripLeft, StripRight, Lower;
    assert Normal(level) == Lower(core);
  }

  lemma CoreIsLeft(level: string)
    ensures IsCore(level, StripRight(StripLeft(level)))
  {
    var left := StripLeft(level);
    var core := StripRight(left);
    LeftStripped(level);
    RightStripped(left);
    var a :| level == a + left && AllSpaces(a);
    var b :| left == core + b && AllSpaces(b);
    hide StripLeft, StripRight, AllSpaces;
    assert level == a + core + b;
  }

  // ----- The batch of a bulletin -----

  lemma BatchKeys(ws: seq<Warning>)
    requires Readable(ws)
    ensures forall id :: Key(Aemet, id) in KeysOf(BatchOf(ws)) <==> id in IdsOf(Ingested(ws))
    ensures forall k :: k in KeysOf(BatchOf(ws)) ==> k.source == Aemet
  {
    IngestedAre(ws);
    var (ing, rows) := (Ingested(ws), BatchOf(ws));
    forall w | w in ing ensures Key(Aemet, w.externalId) in KeysOf(rows) {
      var i :| 0 <= i < |ing| && ing[i] == w;
      assert rows[i] in rows;
    }
    forall r | r in rows ensures r.key.source == Aemet && r.key.externalId in IdsOf(ing) {
      var i :| 0 <= i < |rows| && rows[i] == r;
      assert ing[i] in ing;
    }
  }

  /** The row of a key after a sync: the minimum of the end it was served with
      (or had), the messages that supersede it and, if it vanished, the mark. */
  lemma RowAfterSync(t: Events, previous: set<string>, ws: seq<Warning>, at: Time, k: Key)
    requires Readable(ws)
    ensures var (rows, t', ids) := (BatchOf(ws), Synced(t, previous, ws, at), IdsOf(Ingested(ws)));
            && (k in t' <==> k in t || (k.source == Aemet && k.externalId in ids))
            && (k.source != Aemet ==> At(t', k) == At(t, k))
            && (k in t' && k.source == Aemet ==>
                  && (k.externalId in ids ==> LastOf(rows, k).Some?)
                  && t'[k].endsAt == Earliest(
                       if k.externalId in ids then LastOf(rows, k).value.endsAt else t[k].endsAt,
                       Earliest(CutOf(ws, k.externalId), VanishedCut(previous - ids, k.externalId, at))))
  {
    var rows := BatchOf(ws);
    BatchKeys(ws);
    ServedIsStored(t, rows, at, k);
    hide BatchOf, Upserted, LastOf, KeysOf, CutOf, Ingested, IdsOf, Readable, Earliest, Lowered, VanishedCut;
    var up := Upserted(t, rows, at);
    if k in up && k.source == Aemet {
      LoweredEnd(up[k],
          Earliest(CutOf(ws, k.externalId), VanishedCut(previous - IdsOf(Ingested(ws)), k.externalId, at)), at);
    }
  }

  lemma LoweredEnd(e: Event, cut: Option<Time>, now: Time)
    ensures Lowered(e, cut, now).endsAt == Earliest(e.endsAt, cut)
  {
  }

  /** A row named by an update or a cancellation of the bulletin ends by the time that
      message was sent, and one that vanished by the mark; a row only ends earlier
      than it was served (or stored) for one of these reasons. */
  lemma EndsAreExact(t: Events, previous: set<string>, ws: seq<Warning>, at: Time, k: Key)
    requires Readable(ws) && k.source == Aemet && k in Synced(t, previous, ws, at)
    ensures var (end, id) := (Synced(t, previous, ws, at)[k].endsAt, k.externalId);
            && (forall w :: w in ws && (w.msgType == Update || w.msgType == Cancel) && id in w.references ==>
                  end.Some? && end.value <= w.sent)
            && (id in previous && !Serves(ws, id) ==> end.Some? && end.value <= at)
            && (Serves(ws, id) ==> LastOf(BatchOf(ws), k).Some?)
            && (|| (Serves(ws, id) && end == LastOf(BatchOf(ws), k).value.endsAt)
                || (!Serves(ws, id) && k in t && end == t[k].endsAt)
                || (end == Some(at) && id in previous && !Serves(ws, id))
                || exists w ::
                     && w in ws && (w.msgType == Update || w.msgType == Cancel)
                     && id in w.references && end == Some(w.sent))
  {
    var id := k.externalId;
    IngestedExactly(ws);
    RowAfterSync(t, previous, ws, at, k);
    CutTimesAre(ws, id);
    hide Synced, CutOf, Ingested, IdsOf, BatchOf, LastOf, KeysOf, Serves, Readable, CutTimes;
  }

  /** When the messages of the bulletin cut an id. */
  lemma CutTimesAre(ws: seq<Warning>, id: string)
    ensures forall w :: w in ws && (w.msgType == Update || w.msgType == Cancel) && id in w.references ==>
              CutOf(ws, id).Some? && CutOf(ws, id).value <= w.sent
    ensures CutOf(ws, id).Some? ==>
              exists w :: w in ws && (w.msgType == Update || w.msgType == Cancel)
                          && id in w.references && w.sent == CutOf(ws, id).value
  {
    CutIsEarliest(ws, id);
    forall w | w in ws && (w.msgType == Update || w.msgType == Cancel) && id in w.references
      ensures w.sent in CutTimes(ws, id)
    {
      assert Cuts(w, id);
    }
    hide CutOf;
  }

  // ----- Serving the same bulletin again -----

  /** No ingested warning is cut, by a message of this bulletin, before it expires. */
  ghost predicate SelfConsistent(ws: seq<Warning>)
    requires Readable(ws)
  {
    forall k | k in KeysOf(BatchOf(ws)) && LastOf(BatchOf(ws), k).Some? && CutOf(ws, k.externalId).Some? ::
      LastOf(BatchOf(ws), k).value.endsAt.Some?
          && LastOf(BatchOf(ws), k).value.endsAt.value <= CutOf(ws, k.externalId).value
  }

  /** What makes a sync return (0, 0, 0) and publish nothing. */
  ghost predicate Silent(t: Events, previous: set<string>, ws: seq<Warning>, at: Time)
    requires Readable(ws)
  {
    && NewKeys(t, BatchOf(ws)) == {} && ChangedKeys(t, BatchOf(ws)) == {}
    && Synced(t, previous, ws, at) == Upserted(t, BatchOf(ws), at)
  }

  /** Silent is what the counts say, although the count of closed rows depends on
      the order of the messages. */
  lemma SilentIsZero(t: Events, previous: set<string>, ws: seq<Warning>, at: Time)
    requires Readable(ws)
    ensures Silent(t, previous, ws, at) <==> SyncCounts(t, previous, ws, at) == (0, 0, 0)
  {
    ClosedCountZero(t, previous, ws, at);
    var rows := BatchOf(ws);
    hide BatchOf, Synced, Upserted, NewKeys, ChangedKeys, SupersededCount, ClosedKeys, Closings, Readable;
    assert |NewKeys(t, rows)| == 0 <==> NewKeys(t, rows) == {};
    assert |ChangedKeys(t, rows)| == 0 <==> ChangedKeys(t, rows) == {};
  }

  lemma LoweredStays(e: Event, cut: Option<Time>, more: Option<Time>, at: Time, at2: Time)
    ensures Lowered(Lowered(e, Earliest(cut, more), at), cut, at2) == Lowered(e, Earliest(cut, more), at)
  {
  }

  /** Closing again what a bulletin already closed changes nothing. */
  lemma ClosedAgain(t: Events, ws: seq<Warning>, vanished: set<string>, at: Time, at2: Time)
    ensures Closings(Closings(t, ws, vanished, at), ws, {}, at2) == Closings(t, ws, vanished, at)
  {
    var t1 := Closings(t, ws, vanished, at);
    forall k | k in t && k.source == Aemet ensures Lowered(t1[k], CutOf(ws, k.externalId), at2) == t1[k] {
      LoweredStays(t[k], CutOf(ws, k.externalId), VanishedCut(vanished, k.externalId, at), at, at2);
    }
    hide CutOf, Lowered;
  }

  /** Of the rows just served, exactly those the closing phase cut differ from
      what was served. */
  lemma OnlyCutRowsDiffer(t: Events, previous: set<string>, ws: seq<Warning>, at: Time)
    requires Readable(ws)
    ensures var t1 := Synced(t, previous, ws, at);
            NewKeys(t1, BatchOf(ws)) == {} && (ChangedKeys(t1, BatchOf(ws)) == {} <==> SelfConsistent(ws))
  {
    var rows := BatchOf(ws);
    var t1 := Synced(t, previous, ws, at);
    BatchKeys(ws);
    forall k | k in KeysOf(rows)
      ensures k in t1 && LastOf(rows, k).Some?
      ensures Differs(t1[k], LastOf(rows, k).value) <==>
                CutOf(ws, k.externalId).Some?
                    && !(LastOf(rows, k).value.endsAt.Some?
                        && LastOf(rows, k).value.endsAt.value <= CutOf(ws, k.externalId).value)
    {
      ServedIsStored(t, rows, at, k);
      hide BatchOf, Upserted, LastOf, KeysOf, CutOf, Ingested, IdsOf, Readable;
    }
    hide Synced, LastOf, KeysOf, BatchOf, CutOf, Readable, Differs;
    if ChangedKeys(t1, rows) == {} {
      forall k | k in KeysOf(rows) ensures k !in ChangedKeys(t1, rows) {}
    }
  }

  /** Serving the identical bulletin next is a (0, 0, 0) sync without event, that
      leaves the table alone, exactly when no warning it ingests is superseded by
      a message of the same bulletin before it expires. */
  lemma RepeatIsSilentIff(t: Events, previous: set<string>, ws: seq<Warning>, at: Time, at2: Time)
    requires Readable(ws)
    ensures var t1 := Synced(t, previous, ws, at);
            var ids := IdsOf(Ingested(ws));
            && (SyncCounts(t1, ids, ws, at2) == (0, 0, 0) <==> SelfConsistent(ws))
            && (SelfConsistent(ws) ==> Synced(t1, ids, ws, at2) == t1)
  {
    var t1 := Synced(t, previous, ws, at);
    var ids := IdsOf(Ingested(ws));
    SilentIsZero(t1, ids, ws, at2);
    OnlyCutRowsDiffer(t, previous, ws, at);
    UpsertStamps(t1, BatchOf(ws), at2);
    ClosedAgain(Upserted(t, BatchOf(ws), at), ws, previous - ids, at, at2);
    assert ids - ids == {};
    hide Upserted, Closings, BatchOf, SelfConsistent, NewKeys, ChangedKeys, IdsOf, Ingested, Readable, SyncCounts;
  }

  /** Such bulletins exist: an alert and the update that replaces it, both still
      served. Polled again, the alert is reopened and closed once more. */
  lemma ServedWithItsUpdate(alert: Warning, update: Warning)
    requires IsIngestible(alert) && IsIngestible(update) && ToRow(alert).Ok? && ToRow(update).Ok?
    requires update.msgType == Update && alert.externalId in update.references && alert.externalId != update.externalId
    requires update.sent < alert.expires.value
    ensures Readable([alert, update]) && !SelfConsistent([alert, update])
  {
    var ws := [alert, update];
    var k := Key(Aemet, alert.externalId);
    assert ws[..1] == [alert] && ws[..1][..0] == [] && [alert][..0] == [];
    assert Ingested([alert]) == [alert] && Ingested(ws) == ws;
    var rows := BatchOf(ws);
    assert rows[..1] == [ToRow(alert).value] && rows == [ToRow(alert).value, ToRow(update).value];
    assert rows[0] in rows && LastOf(rows[..1], k) == Some(rows[0]) && LastOf(rows, k) == Some(rows[0]);
    assert CutOf(ws, alert.externalId).Some? && CutOf(ws, alert.externalId).value <= update.sent;
  }

  // ----- The batch event -----

  lemma SyncStamps(t: Events, previous: set<string>, ws: seq<Warning>, at: Time)
    requires Readable(ws)
    ensures Stamps(t, Upserted(t, BatchOf(ws), at), at)
    ensures Stamps(Upserted(t, BatchOf(ws), at), Synced(t, previous, ws, at), at)
    ensures Stamps(t, Synced(t, previous, ws, at), at)
  {
    var up := Upserted(t, BatchOf(ws), at);
    UpsertStamps(t, BatchOf(ws), at);
    hide Upserted, BatchOf, CutOf, Ingested, IdsOf, Readable;
    StampsTransitive(t, up, Synced(t, previous, ws, at), at);
  }

  /** With a fresh mark, the rows that carry the mark of an AEMET batch are
      exactly those the sync inserted, updated or closed, and the event is
      published exactly when there is one. */
  lemma AemetEventIff(t: Events, previous: set<string>, ws: seq<Warning>, at: Time)
    requires Readable(ws) && forall k :: k in t ==> !Stamped(t[k], at)
    ensures var t' := Synced(t, previous, ws, at);
            && (forall k :: k in t' ==> (Stamped(t'[k], at) <==> k !in t || t'[k] != t[k]))
            && var counts := SyncCounts(t, previous, ws, at);
               Published(Aemet, counts, at)
               == if exists k :: k in t' && Stamped(t'[k], at)
                  then [BatchEvent(Aemet, counts.0, counts.1, counts.2, at)] else []
  {
    var (up, t') := (Upserted(t, BatchOf(ws), at), Synced(t, previous, ws, at));
    SyncStamps(t, previous, ws, at);
    UpsertStamps(t, BatchOf(ws), at);
    FreshMarkIsExact(t, t', at);
    SilentIsZero(t, previous, ws, at);
    hide Upserted, Synced, BatchOf, NewKeys, ChangedKeys, Readable, SyncCounts;
    TwoPhases(t, up, t', at);
  }

  /** Nothing bears the mark exactly when neither phase did anything. */
  lemma TwoPhases(t: Events, up: Events, t': Events, at: Time)
    requires Stamps(t, up, at) && Stamps(up, t', at) && forall k :: k in t ==> !Stamped(t[k], at)
    ensures (up == t && t' == up) <==> forall k :: k in t' ==> !Stamped(t'[k], at)
  {
    hide Stamped;
    if forall k :: k in t' ==> !Stamped(t'[k], at) {
      assert forall k :: k in t' ==> k in up && t'[k] == up[k];
      assert t'.Keys == up.Keys && t' == up;
      assert forall k :: k in up ==> k in t && up[k] == t[k];
      assert up.Keys == t.Keys && up == t;
    }
  }

  /** The same of an EFFIS batch. */
  lemma EffisEventIff(
    t: Events, previous: set<string>, hotspots: seq<SyncEffis.Fire>, burnt: seq<SyncEffis.Fire>, at: Time)
    requires SyncEffis.Readable(hotspots + burnt) && forall k :: k in t ==> !Stamped(t[k], at)
    ensures var t' := SyncEffis.Synced(t, previous, hotspots, burnt, at);
            var rows := SyncEffis.RowsOf(hotspots + burnt);
            && (forall k :: k in t' ==> (Stamped(t'[k], at) <==> k !in t || t'[k] != t[k]))
            && var counts :=
                 (|NewKeys(t, rows)|, |ChangedKeys(t, rows)|,
                  |ClosedKeys(Upserted(t, rows, at), Effis, previous - SyncEffis.IdsOf(burnt), at)|);
               Published(Effis, counts, at)
               == if exists k :: k in t' && Stamped(t'[k], at)
                  then [BatchEvent(Effis, counts.0, counts.1, counts.2, at)] else []
  {
    var rows := SyncEffis.RowsOf(hotspots + burnt);
    var (up, t', vanished) :=
        (Upserted(t, rows, at), SyncEffis.Synced(t, previous, hotspots, burnt, at), previous - SyncEffis.IdsOf(burnt));
    UpsertStamps(t, rows, at);
    CloseStamps(up, Effis, vanished, at, at);
    ClosedLowers(up, Effis, vanished, at, at);
    StampsTransitive(t, up, t', at);
    FreshMarkIsExact(t, t', at);
    TwoPhases(t, up, t', at);
    hide Upserted, Closed, ClosedKeys, NewKeys, ChangedKeys, SyncEffis.RowsOf, SyncEffis.Readable, SyncEffis.IdsOf;
    assert |NewKeys(t, rows)| == 0 <==> NewKeys(t, rows) == {};
    assert |ChangedKeys(t, rows)| == 0 <==> ChangedKeys(t, rows) == {};
  }
}
