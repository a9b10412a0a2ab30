/**
 Reconciling the table with a complete AEMET bulletin
 (app/hazards/use_cases/sync_aemet.py).
 */
module SyncAemet {
  import opened Common
  import opened EpisodeRule
  import opened HazardTables
  import opened HazardEvents
  import NotificationTables

  datatype MsgType = Alert | Update | Cancel | OtherType

  /** `wkb` is what the geometry service makes of the polygon, None if it raises;
      `info` are the other fields of the warning that go into attrs. */
  datatype Warning = Warning(
    externalId: string, msgType: MsgType, sent: Time, references: set<string>,
    level: Option<string>, onset: Option<Time>, expires: Option<Time>,
    polygon: string, wkb: Option<Geom>, info: Attrs, attrs: Attrs)

  datatype SyncError =
    | FetchFailed
    | NotIngestible(externalId: string)
    | BadGeometry(externalId: string)
    | UnknownLevel(level: string)

  /** str.lower(), on the letters the levels are made of. */
  function Lower(s: string): string {
    if s == "" then "" else [if 'A' <= s[0] <= 'Z' then s[0] - 'A' + 'a' else s[0]] + Lower(s[1..])
  }

  function Normal(level: string): string { Lower(StripRight(StripLeft(level))) }

  function SeverityOf(level: string): Option<int> {
    var l := Normal(level);
    if l == "verde" then Some(1)
    else if l == "amarillo" then Some(2)
    else if l == "naranja" then Some(3)
    else if l == "rojo" then Some(4)
    else None
  }

  predicate IsIngestible(w: Warning) {
    && (w.msgType == Alert || w.msgType == Update)
    && w.level.Some? && Normal(w.level.value) != "verde"
    && w.polygon != "" && w.onset.Some? && w.expires.Some?
  }

  function AttrsOf(w: Warning): Attrs
    requires w.level.Some?
  {
    w.info + map["level" := w.level.value] + w.attrs
  }

  function ToRow(w: Warning): Result<Record, SyncError> {
    if w.level.None? || w.level.value == "" || w.polygon == "" || w.onset.None? || w.expires.None?
        then Err(NotIngestible(w.externalId))
    else if w.wkb.None? then Err(BadGeometry(w.externalId))
    else if SeverityOf(w.level.value).None? then Err(UnknownLevel(w.level.value))
    else
      var attrs := AttrsOf(w);
      Ok(Record(
           Key(Aemet, w.externalId),
           Body(NotificationTables.WeatherWarning, w.wkb.value, SeverityOf(w.level.value).value, w.onset.value,
               attrs, None),
           w.expires, WarningContent(w.polygon, attrs, w.onset.value, w.expires.value)))
  }

  function Ingested(ws: seq<Warning>): seq<Warning> {
    if ws == [] then []
    else Ingested(ws[..|ws| - 1]) + if IsIngestible(ws[|ws| - 1]) then [ws[|ws| - 1]] else []
  }

  function IdsOf(ws: seq<Warning>): set<string> { set w | w in ws :: w.externalId }

  /** The bulletin does not make the sync raise. */
  predicate Readable(ws: seq<Warning>) { forall w :: w in ws && IsIngestible(w) ==> ToRow(w).Ok? }

  function RowsOf(ws: seq<Warning>): seq<Record>
    requires forall w :: w in ws ==> ToRow(w).Ok?
  {
    seq(|ws|, i requires 0 <= i < |ws| => ToRow(ws[i]).value)
  }

  // ----- Closings -----

  predicate Cuts(w: Warning, id: string) { (w.msgType == Update || w.msgType == Cancel) && id in w.references }

  /** When the messages of a bulletin supersede `id`. */
  function CutTimes(ws: seq<Warning>, id: string): set<Time> { set w | w in ws && Cuts(w, id) :: w.sent }

  function CutOf(ws: seq<Warning>, id: string): Option<Time> {
    if ws == [] then None
    else
      var w := ws[|ws| - 1];
      Earliest(CutOf(ws[..|ws| - 1], id), if Cuts(w, id) then Some(w.sent) else None)
  }

  function VanishedCut(vanished: set<string>, id: string, at: Time): Option<Time> {
    if id in vanished then Some(at) else None
  }

  /** Every row cut at the earliest of the messages that supersede it and, if it
      vanished, the mark of the batch. */
  function Closings(t: Events, ws: seq<Warning>, vanished: set<string>, at: Time): Events {
    map k | k in t ::
      if k.source == Aemet
          then Lowered(t[k], Earliest(CutOf(ws, k.externalId), VanishedCut(vanished, k.externalId, at)), at) else t[k]
  }

  /** The table after the sync of the bulletin `ws`, from the cursor `previous`. */
  function Synced(t: Events, previous: set<string>, ws: seq<Warning>, at: Time): Events
    requires Readable(ws)
  {
    Closings(Upserted(t, BatchOf(ws), at), ws, previous - IdsOf(Ingested(ws)), at)
  }

  /** The rows of the warnings of a bulletin that are ingested. */
  function BatchOf(ws: seq<Warning>): seq<Record>
    requires Readable(ws)
  {
    IngestedAre(ws); RowsOf(Ingested(ws))
  }

  lemma {:induction false} IngestedAre(ws: seq<Warning>)
    ensures forall w :: w in Ingested(ws) <==> w in ws && IsIngestible(w)
  {
    if ws != [] {
      IngestedAre(ws[..|ws| - 1]);
      assert ws == ws[..|ws| - 1] + [ws[|ws| - 1]];
    }
  }

  /** One statement per group of messages with the same `sent`, in this order. */
  function GroupsClosed(t: Events, order: seq<Time>, groups: map<Time, set<string>>, now: Time): Events
    requires forall s :: s in order ==> s in groups
  {
    if order == [] then t
    else
      var last := order[|order| - 1];
      Closed(GroupsClosed(t, order[..|order| - 1], groups, now), Aemet, groups[last], last, now)
  }

  function GroupsCount(t: Events, order: seq<Time>, groups: map<Time, set<string>>, now: Time): nat
    requires forall s :: s in order ==> s in groups
  {
    if order == [] then 0
    else
      var (init, last) := (order[..|order| - 1], order[|order| - 1]);
      GroupsCount(t, init, groups, now) + |ClosedKeys(GroupsClosed(t, init, groups, now), Aemet, groups[last], last)|
  }

  /** The groups hold exactly the references of the bulletin. */
  ghost predicate AreGroups(ws: seq<Warning>, order: seq<Time>, groups: map<Time, set<string>>) {
    && (forall s :: s in order <==> s in groups)
    && (forall id :: TimesIn(groups, id) == CutTimes(ws, id))
  }

  predicate Supersedes(w: Warning) { (w.msgType == Update || w.msgType == Cancel) && w.references != {} }

  /** The keys of the dict by_sent, in the order it keeps them. */
  function SentOrder(ws: seq<Warning>): seq<Time> {
    if ws == [] then []
    else
      var (order, w) := (SentOrder(ws[..|ws| - 1]), ws[|ws| - 1]);
      if Supersedes(w) && w.sent !in order then order + [w.sent] else order
  }

  function BySent(ws: seq<Warning>): map<Time, set<string>> {
    if ws == [] then map[]
    else
      var (groups, w) := (BySent(ws[..|ws| - 1]), ws[|ws| - 1]);
      if Supersedes(w) then groups[w.sent := (if w.sent in groups then groups[w.sent] else {}) + w.references]
          else groups
  }

  /** How many rows the statements of the groups report. */
  function SupersededCount(t: Events, ws: seq<Warning>, now: Time): nat {
    DictHoldsReferences(ws); GroupsCount(t, SentOrder(ws), BySent(ws), now)
  }

  function TimesIn(groups: map<Time, set<string>>, id: string): set<Time> { set s | s in groups && id in groups[s] }

  /** The dict holds exactly the references of the bulletin. */
  lemma {:induction false} DictHoldsReferences(ws: seq<Warning>)
    ensures AreGroups(ws, SentOrder(ws), BySent(ws))
  {
    if ws != [] {
      var (init, w) := (ws[..|ws| - 1], ws[|ws| - 1]);
      DictHoldsReferences(init);
      NextTimes(ws, |init|);
      assert ws[..|ws|] == ws;
      var groups := BySent(init);
      if Supersedes(w) {
        var wide := if w.sent in groups then groups else groups[w.sent := {}];
        if w.sent !in groups { NewGroupIsEmpty(groups, w.sent); }
        ReferencesJoin(wide, w);
        assert BySent(ws) == wide[w.sent := wide[w.sent] + w.references];
      }
      assert forall id :: Cuts(w, id) ==> Supersedes(w);
      forall id ensures TimesIn(BySent(ws), id) == CutTimes(ws, id) {
        assert CutTimes(ws, id) == CutTimes(init, id) + if Cuts(w, id) then {w.sent} else {};
      }
    }
  }

  /** The rows inserted, updated and reported as closed. */
  function SyncCounts(t: Events, previous: set<string>, ws: seq<Warning>, at: Time): (nat, nat, nat)
    requires Readable(ws)
  {
    var (rows, vanished) := (BatchOf(ws), previous - IdsOf(Ingested(ws)));
    var up := Upserted(t, rows, at);
    (|NewKeys(t, rows)|, |ChangedKeys(t, rows)|,
     SupersededCount(up, ws, at) + |ClosedKeys(Closings(up, ws, {}, at), Aemet, vanished, at)|)
  }

  class SyncAemetUseCase {
    const session: Session
    const repo: HazardEventRepo
    const syncState: SourceSyncStateRepo

    constructor (session: Session, repo: HazardEventRepo, syncState: SourceSyncStateRepo)
      ensures this.session == session && this.repo == repo && this.syncState == syncState
    {
      this.session, this.repo, this.syncState := session, repo, syncState;
    }

    ghost predicate Wired()
      reads repo, syncState
    {
      repo.session == session && syncState.session == session && 1 <= repo.columns <= MAX_ARGS
    }

    /** On Err the caller rolls back; nothing was written. `at` is the mark of the
        transaction, `clock` the reading that record_success stores. */
    method Execute(
      fetched: Result<seq<Warning>, SyncError>, at: Time, clock: Time)
      returns (r: Result<(nat, nat, nat), SyncError>)
      requires Wired()
      modifies session
      ensures r.Ok? <==> fetched.Ok? && Readable(fetched.value)
      ensures r.Ok?
          ==> session.events == Synced(old(session.events), CursorOf(old(session.states), Aemet), fetched.value, at)
      ensures r.Ok?
          ==> session.states == AfterSuccess(old(session.states), Aemet, Some(IdsOf(Ingested(fetched.value))), clock)
      ensures r.Ok?
          ==> r.value == SyncCounts(old(session.events), CursorOf(old(session.states), Aemet), fetched.value, at)
      ensures r.Ok? ==> session.published == old(session.published) + Published(Aemet, r.value, at)
      ensures r.Err? ==>
                session.events == old(session.events) && session.states == old(session.states)
                    && session.published == old(session.published)
    {
      if fetched.Err? { return Err(fetched.error); }
      var warnings := fetched.value;
      IngestedAre(warnings);
      var ingestible := Filter(warnings);
      assert Readable(warnings) <==> forall w :: w in ingestible ==> ToRow(w).Ok?;
      var rows := ToRows(ingestible);
      if rows.Err? { return Err(rows.error); }
      assert rows.value == BatchOf(warnings);
      hide *;
      var counts := Reconcile(warnings, ingestible, rows.value, at, clock);
      return Ok(counts);
    }

    /** What follows once every row is made. */
    method Reconcile(warnings: seq<Warning>, ingestible: seq<Warning>, rows: seq<Record>, at: Time, clock: Time)
      returns (counts: (nat, nat, nat))
      requires Wired() && Readable(warnings) && ingestible == Ingested(warnings) && rows == BatchOf(warnings)
      modifies session
      ensures session.events == Synced(old(session.events), CursorOf(old(session.states), Aemet), warnings, at)
      ensures session.states == AfterSuccess(old(session.states), Aemet, Some(IdsOf(ingestible)), clock)
      ensures counts == SyncCounts(old(session.events), CursorOf(old(session.states), Aemet), warnings, at)
      ensures session.published == old(session.published) + Published(Aemet, counts, at)
    {
      hide Upserted, Closings, BatchOf, Ingested, Readable, IdsOf, SupersededCount, Closed, ClosedKeys, NewKeys,
          ChangedKeys, AfterSuccess, CursorOf;
      ghost var vanishedIds := CursorOf(session.states, Aemet) - IdsOf(ingestible);
      ClosingPhase(Upserted(session.events, rows, at), warnings, vanishedIds, at);
      var inserted, updated := repo.UpsertBatch(rows, at);
      var superseded := CloseSuperseded(warnings, at);
      var vanished := CloseVanished(ingestible, at);
      var closed := superseded + vanished;
      syncState.RecordSuccess(Aemet, Some(IdsOf(ingestible)), clock);
      if inserted != 0 || updated != 0 || closed != 0 {
        session.published := session.published + [BatchEvent(Aemet, inserted, updated, closed, at)];
      }
      counts := (inserted, updated, closed);
    }

    method Filter(warnings: seq<Warning>) returns (ingestible: seq<Warning>)
      ensures ingestible == Ingested(warnings)
      ensures forall w :: w in ingestible <==>
                && w in warnings && (w.msgType == Alert || w.msgType == Update)
                && w.level.Some? && Normal(w.level.value) != "verde"
                && w.polygon != "" && w.onset.Some? && w.expires.Some?
    {
      IngestedAre(warnings);
      ingestible := [];
      for i := 0 to |warnings|
        invariant ingestible == Ingested(warnings[..i])
      {
        assert warnings[..i + 1][..i] == warnings[..i];
        if IsIngestible(warnings[i]) { ingestible := ingestible + [warnings[i]]; }
      }
      assert warnings[..|warnings|] == warnings;
    }

    method ToRows(ws: seq<Warning>) returns (r: Result<seq<Record>, SyncError>)
      ensures r.Ok? <==> forall w :: w in ws ==> ToRow(w).Ok?
      ensures r.Ok? ==> r.value == RowsOf(ws)
    {
      var rows := [];
      for i := 0 to |ws|
        invariant |rows| == i && forall j :: 0 <= j < i ==> ToRow(ws[j]) == Ok(rows[j])
      {
        var row := ToRow(ws[i]);
        if row.Err? {
          assert ws[i] in ws;
          return Err(row.error);
        }
        rows := rows + [row.value];
      }
      return Ok(rows);
    }

    method CloseSuperseded(warnings: seq<Warning>, now: Time) returns (closed: nat)
      requires Wired()
      modifies session
      ensures session.events == Closings(old(session.events), warnings, {}, now)
      ensures closed == SupersededCount(old(session.events), warnings, now)
      ensures closed == 0 <==> session.events == old(session.events)
      ensures session.states == old(session.states) && session.published == old(session.published)
    {
      var order, bySent := GroupBySent(warnings);
      DictHoldsReferences(warnings);
      closed := 0;
      ghost var t := session.events;
      for i := 0 to |order|
        invariant session.events == GroupsClosed(t, order[..i], bySent, now)
        invariant closed == GroupsCount(t, order[..i], bySent, now)
        invariant session.states == old(session.states) && session.published == old(session.published)
      {
        var sent := order[i];
        assert order[..i + 1][..i] == order[..i] && sent in order;
        var n := repo.CloseEvents(Aemet, bySent[sent], sent, now);
        closed := closed + n;
      }
      assert order[..|order|] == order;
      GroupsAreClosings(t, warnings, order, bySent, now);
      CountsWhatChanged(t, order, bySent, now);
    }

    method GroupBySent(warnings: seq<Warning>) returns (order: seq<Time>, bySent: map<Time, set<string>>)
      ensures order == SentOrder(warnings) && bySent == BySent(warnings)
    {
      order, bySent := [], map[];
      for i := 0 to |warnings|
        invariant order == SentOrder(warnings[..i]) && bySent == BySent(warnings[..i])
      {
        var w := warnings[i];
        assert warnings[..i + 1][..i] == warnings[..i];
        DictHoldsReferences(warnings[..i]);
        if (w.msgType == Update || w.msgType == Cancel) && w.references != {} {
          var sent, references := w.sent, w.references;
          if sent !in bySent {
            order, bySent := order + [sent], bySent[sent := {}];
          }
          bySent := bySent[sent := bySent[sent] + references];
        }
      }
      assert warnings[..|warnings|] == warnings;
    }

    method CloseVanished(ingestible: seq<Warning>, batchAt: Time) returns (closed: nat)
      requires Wired()
      modifies session
      ensures session.events
          == Closed(old(session.events), Aemet, CursorOf(old(session.states), Aemet) - IdsOf(ingestible), batchAt,
              batchAt)
      ensures closed
          == |ClosedKeys(old(session.events), Aemet, CursorOf(old(session.states), Aemet) - IdsOf(ingestible), batchAt)|
      ensures closed == 0 <==> session.events == old(session.events)
      ensures session.states == old(session.states) && session.published == old(session.published)
    {
      var previous := CursorOf(session.states, Aemet);
      var vanished := previous - IdsOf(ingestible);
      ClosedLowers(session.events, Aemet, vanished, batchAt, batchAt);
      if vanished == {} { return 0; }
      closed := repo.CloseEvents(Aemet, vanished, batchAt, batchAt);
    }
  }

  lemma NewGroupIsEmpty(groups: map<Time, set<string>>, s: Time)
    requires s !in groups
    ensures forall id :: TimesIn(groups[s := {}], id) == TimesIn(groups, id)
  {
  }

  lemma ReferencesJoin(groups: map<Time, set<string>>, w: Warning)
    requires w.sent in groups
    ensures forall id ::
              TimesIn(groups[w.sent := groups[w.sent] + w.references], id)
                  == TimesIn(groups, id) + if id in w.references then {w.sent} else {}
  {
  }

  lemma NextTimes(ws: seq<Warning>, i: nat)
    requires i < |ws|
    ensures forall id ::
        CutTimes(ws[..i + 1], id) == CutTimes(ws[..i], id) + if Cuts(ws[i], id) then {ws[i].sent} else {}
  {
    assert ws[..i + 1] == ws[..i] + [ws[i]];
  }

  // ----- The order of the groups does not matter -----

  ghost predicate IsEarliest(c: Option<Time>, times: set<Time>) {
    match c
    case None => times == {}
    case Some(x) => x in times && forall y :: y in times ==> x <= y
  }

  function GroupTimes(order: seq<Time>, groups: map<Time, set<string>>, id: string): set<Time> {
    set s | s in order && s in groups && id in groups[s]
  }

  lemma {:induction false} CutIsEarliest(ws: seq<Warning>, id: string)
    ensures IsEarliest(CutOf(ws, id), CutTimes(ws, id))
  {
    if ws != [] {
      CutIsEarliest(ws[..|ws| - 1], id);
      NextTimes(ws, |ws| - 1);
      assert ws[..|ws|] == ws;
    }
  }

  /** Closing group after group cuts every row at the earliest of its times. */
  lemma {:induction false} GroupsLower(
    t: Events, order: seq<Time>, groups: map<Time, set<string>>, now: Time, k: Key) returns (c: Option<Time>)
    requires k in t && forall s :: s in order ==> s in groups
    ensures IsEarliest(c, GroupTimes(order, groups, k.externalId))
    ensures var t' := GroupsClosed(t, order, groups, now);
            t'.Keys == t.Keys && t'[k] == if k.source == Aemet then Lowered(t[k], c, now) else t[k]
  {
    if order == [] {
      c := None;
    } else {
      var (init, last) := (order[..|order| - 1], order[|order| - 1]);
      assert order == init + [last];
      var c0 := GroupsLower(t, init, groups, now, k);
      var here := if k.externalId in groups[last] then Some(last) else None;
      ClosedLowers(GroupsClosed(t, init, groups, now), Aemet, groups[last], last, now);
      LoweredTwice(t[k], c0, here, now);
      c := Earliest(c0, here);
      assert GroupTimes(order, groups, k.externalId)
          == GroupTimes(init, groups, k.externalId) + if here.Some? then {last} else {};
    }
  }

  /** The groups of a bulletin, closed in any order, cut each row once, at the
      earliest message that supersedes it. */
  lemma GroupsAreClosings(t: Events, ws: seq<Warning>, order: seq<Time>, groups: map<Time, set<string>>, now: Time)
    requires AreGroups(ws, order, groups)
    ensures GroupsClosed(t, order, groups, now) == Closings(t, ws, {}, now)
  {
    var t' := GroupsClosed(t, order, groups, now);
    if t == map[] { GroupsKeepKeys(t, order, groups, now); }
    forall k | k in t ensures t'.Keys == t.Keys && t'[k] == Closings(t, ws, {}, now)[k] {
      var c := GroupsLower(t, order, groups, now, k);
      CutIsEarliest(ws, k.externalId);
      assert GroupTimes(order, groups, k.externalId) == TimesIn(groups, k.externalId);
      assert c == CutOf(ws, k.externalId);
    }
  }

  lemma {:induction false} GroupsKeepKeys(t: Events, order: seq<Time>, groups: map<Time, set<string>>, now: Time)
    requires forall s :: s in order ==> s in groups
    ensures GroupsClosed(t, order, groups, now).Keys == t.Keys
  {
    if order != [] { GroupsKeepKeys(t, order[..|order| - 1], groups, now); }
  }

  lemma OrderDoesNotMatter(
    t: Events, ws: seq<Warning>, p: seq<Time>, q: seq<Time>, groups: map<Time, set<string>>, now: Time)
    requires AreGroups(ws, p, groups) && AreGroups(ws, q, groups)
    ensures GroupsClosed(t, p, groups, now) == GroupsClosed(t, q, groups, now)
  {
    GroupsAreClosings(t, ws, p, groups, now);
    GroupsAreClosings(t, ws, q, groups, now);
  }

  /** The count is zero exactly when nothing changed. */
  lemma {:induction false} CountsWhatChanged(t: Events, order: seq<Time>, groups: map<Time, set<string>>, now: Time)
    requires forall s :: s in order ==> s in groups
    ensures GroupsCount(t, order, groups, now) == 0 <==> GroupsClosed(t, order, groups, now) == t
  {
    if order != [] {
      var (init, last) := (order[..|order| - 1], order[|order| - 1]);
      CountsWhatChanged(t, init, groups, now);
      var t1 := GroupsClosed(t, init, groups, now);
      ClosedLowers(t1, Aemet, groups[last], last, now);
      if t1 != t {
        GroupsKeepKeys(t, init, groups, now);
        var k :| k in t && t1[k] != t[k];
        var c := GroupsLower(t, init, groups, now, k);
        assert GroupsClosed(t, order, groups, now)[k].endsAt != t[k].endsAt;
      }
    }
  }

  lemma ClosingPhase(t: Events, ws: seq<Warning>, vanished: set<string>, at: Time)
    ensures var t1 := Closings(t, ws, {}, at);
            var t2 := Closed(t1, Aemet, vanished, at, at);
            t2 == Closings(t, ws, vanished, at) && (t2 == t <==> t1 == t && t2 == t1)
  {
    var t1 := Closings(t, ws, {}, at);
    ClosedLowers(t1, Aemet, vanished, at, at);
    forall k | k in t && k.source == Aemet
      ensures Lowered(t1[k], VanishedCut(vanished, k.externalId, at), at) == Closings(t, ws, vanished, at)[k]
    {
      LoweredTwice(t[k], CutOf(ws, k.externalId), VanishedCut(vanished, k.externalId, at), at);
    }
    hide CutOf;
    if t1 != t {
      var k :| k in t && t1[k] != t[k];
      assert Closed(t1, Aemet, vanished, at, at)[k].endsAt != t[k].endsAt;
    }
  }

  /** No row is reported as closed exactly when the closing phase changed none. */
  lemma ClosedCountZero(t: Events, previous: set<string>, ws: seq<Warning>, at: Time)
    requires Readable(ws)
    ensures SyncCounts(t, previous, ws, at).2 == 0 <==> Synced(t, previous, ws, at) == Upserted(t, BatchOf(ws), at)
  {
    hide Upserted, BatchOf, Ingested, IdsOf, Readable, NewKeys, ChangedKeys;
    var (up, vanished) := (Upserted(t, BatchOf(ws), at), previous - IdsOf(Ingested(ws)));
    SupersededWhatChanged(up, ws, at);
    ClosingPhase(up, ws, vanished, at);
    var t1 := Closings(up, ws, {}, at);
    ClosedLowers(t1, Aemet, vanished, at, at);
    hide Closings, ClosedKeys, Closed, SupersededCount;
    assert |ClosedKeys(t1, Aemet, vanished, at)| == 0 <==> ClosedKeys(t1, Aemet, vanished, at) == {};
  }

  lemma SupersededWhatChanged(t: Events, ws: seq<Warning>, now: Time)
    ensures SupersededCount(t, ws, now) == 0 <==> Closings(t, ws, {}, now) == t
  {
    DictHoldsReferences(ws);
    GroupsAreClosings(t, ws, SentOrder(ws), BySent(ws), now);
    CountsWhatChanged(t, SentOrder(ws), BySent(ws), now);
  }
}
