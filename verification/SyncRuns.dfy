/**
 Every run of the ingest jobs: syncs of all sources that commit, fail or die, in
 any order (app/core/jobs/handlers, app/hazards/use_cases).
 */
module SyncRuns {
  import opened Common
  import opened EpisodeRule
  import opened HazardTables
  import opened HazardEvents
  import SyncAemet
  import SyncEffis
  import opened SyncGuarantees

  /** A run of a sync that was recorded. */
  datatype Entry = Succeeded(at: Time) | Broke(at: Time, error: string)

  /** `aemetMark` and `log` are history variables: the mark of the last committed
      AEMET sync, and the recorded runs of each source. */
  datatype World = World(
    events: Events, states: map<Source, SyncState>, aemetMark: Option<Time>, log: map<Source, seq<Entry>>)

  datatype Step =
    | Aemet(bulletin: seq<SyncAemet.Warning>, at: Time, clock: Time)
    | Effis(hotspots: seq<SyncEffis.Fire>, burnt: seq<SyncEffis.Fire>, at: Time, clock: Time)
    | Ign(rows: seq<Record>, cursor: Option<set<string>>, at: Time, clock: Time)
    // The driver failed: the batch is rolled back and the failure recorded.
    | Failed(source: Source, error: string, clock: Time)
    // Anything else that raised, or a crash: rolled back without a trace.
    | RolledBack

  ghost predicate Enabled(w: World, st: Step) {
    match st
    case Aemet(bulletin, at, _) => SyncAemet.Readable(bulletin) && (w.aemetMark.Some? ==> w.aemetMark.value <= at)
    case Effis(hotspots, burnt, _, _) => SyncEffis.Readable(hotspots + burnt) && SyncEffis.Layered(hotspots, burnt)
    case Ign(rows, _, _, _) => forall r :: r in rows ==> r.key.source == Source.Ign
    case _ => true
  }

  function LogOf(log: map<Source, seq<Entry>>, s: Source): seq<Entry> { if s in log then log[s] else [] }

  function Logged(log: map<Source, seq<Entry>>, s: Source, e: Entry): map<Source, seq<Entry>> {
    log[s := LogOf(log, s) + [e]]
  }

  ghost function Next(w: World, st: Step): World
    requires Enabled(w, st)
  {
    match st
    case Aemet(bulletin, at, clock) =>
      World(
        SyncAemet.Synced(w.events, CursorOf(w.states, Source.Aemet), bulletin, at),
        AfterSuccess(w.states, Source.Aemet, Some(SyncAemet.IdsOf(SyncAemet.Ingested(bulletin))), clock),
        Some(at), Logged(w.log, Source.Aemet, Succeeded(clock)))
    case Effis(hotspots, burnt, at, clock) =>
      w.(events := SyncEffis.Synced(w.events, CursorOf(w.states, Source.Effis), hotspots, burnt, at),
         states := AfterSuccess(w.states, Source.Effis, Some(SyncEffis.IdsOf(burnt)), clock),
         log := Logged(w.log, Source.Effis, Succeeded(clock)))
    case Ign(rows, cursor, at, clock) =>
      w.(events := Upserted(w.events, rows, at),
         states := AfterSuccess(w.states, Source.Ign, cursor, clock),
         log := Logged(w.log, Source.Ign, Succeeded(clock)))
    case Failed(source, error, clock) =>
      w.(states := AfterFailure(w.states, source, error, clock),
         log := Logged(w.log, source, Broke(clock, error)))
    case RolledBack => w
  }

  const START := World(map[], map[], None, map[])

  ghost predicate IsRun(ws: seq<World>, steps: seq<Step>) {
    && |ws| == |steps| + 1 && ws[0] == START
    && forall i :: 0 <= i < |steps| ==> Enabled(ws[i], steps[i]) && ws[i + 1] == Next(ws[i], steps[i])
  }

  /** The row ends after the mark of the last committed AEMET sync. */
  predicate LooksAlive(w: World, k: Key)
    requires k in w.events
  {
    w.aemetMark.Some? ==> OpenAt(w.events[k], w.aemetMark.value)
  }

  /** Nothing outside the last bulletin looks alive at its mark. */
  ghost predicate AemetReconciled(w: World) {
    forall k | k in w.events && k.source == Source.Aemet && LooksAlive(w, k) ::
      k.externalId in CursorOf(w.states, Source.Aemet)
  }

  /** The open fires are exactly those of the cursor. */
  ghost predicate EffisReconciled(w: World) { SyncEffis.OpenIds(w.events) == CursorOf(w.states, Source.Effis) }

  function LastSuccess(log: seq<Entry>): Option<Time> {
    if log == [] then None
    else if log[|log| - 1].Succeeded? then Some(log[|log| - 1].at)
    else LastSuccess(log[..|log| - 1])
  }

  /** How many failures the log ends with. */
  function Failures(log: seq<Entry>): nat {
    if log == [] || log[|log| - 1].Succeeded? then 0 else 1 + Failures(log[..|log| - 1])
  }

  /** The row tells of its log the last run, the last success, how many failures came
      since, and the first 500 characters of the last error, if the last run failed. */
  predicate TellsLog(st: SyncState, log: seq<Entry>) {
    && log != [] && st.lastRunAt == log[|log| - 1].at
    && st.lastSuccessAt == LastSuccess(log) && st.failures == Failures(log)
    && match log[|log| - 1]
       case Succeeded(_) => st.lastError == None
       case Broke(_, error) => st.lastError == Some(if |error| <= 500 then error else error[..500])
  }

  ghost predicate StatesTell(w: World) {
    && (forall s :: s in w.states <==> s in w.log)
    && (forall s :: s in w.states ==> TellsLog(w.states[s], w.log[s]))
  }

  /** The rows of other sources stay as they are. */
  ghost predicate OnlySource(t: Events, t': Events, source: Source) {
    forall k: Key | k.source != source :: At(t', k) == At(t, k)
  }

  lemma AemetSyncReconciles(w: World, st: Step)
    requires Enabled(w, st) && st.Aemet? && AemetReconciled(w)
    ensures AemetReconciled(Next(w, st)) && OnlySource(w.events, Next(w, st).events, Source.Aemet)
  {
    var previous := CursorOf(w.states, Source.Aemet);
    var w' := Next(w, st);
    forall k: Key
      ensures k.source != Source.Aemet ==> At(w'.events, k) == At(w.events, k)
      ensures k in w'.events && k.source == Source.Aemet && OpenAt(w'.events[k], st.at)
          ==> k.externalId in SyncAemet.IdsOf(SyncAemet.Ingested(st.bulletin))
    {
      RowAfterSync(w.events, previous, st.bulletin, st.at, k);
      hide SyncAemet.Synced, SyncAemet.CutOf, SyncAemet.BatchOf, SyncAemet.IdsOf, SyncAemet.Ingested, LastOf;
    }
  }

  lemma EffisSyncReconciles(w: World, st: Step)
    requires Enabled(w, st) && st.Effis? && EffisReconciled(w)
    ensures EffisReconciled(Next(w, st)) && OnlySource(w.events, Next(w, st).events, Source.Effis)
  {
    SyncEffis.OpenAreServed(w.events, CursorOf(w.states, Source.Effis), st.hotspots, st.burnt, st.at);
    var rows := SyncEffis.RowsOf(st.hotspots + st.burnt);
    assert forall r :: r in rows ==> r.key.source == Source.Effis;
    forall k: Key | k.source != Source.Effis ensures At(Next(w, st).events, k) == At(w.events, k) {
      ServedIsStored(w.events, rows, st.at, k);
      assert k !in KeysOf(rows);
      hide SyncEffis.RowsOf, Upserted;
    }
    hide SyncEffis.RowsOf, Upserted, Closed, SyncEffis.OpenIds;
  }

  lemma IgnSyncSpares(w: World, st: Step)
    requires Enabled(w, st) && st.Ign?
    ensures OnlySource(w.events, Next(w, st).events, Source.Ign)
  {
    forall k: Key | k.source != Source.Ign ensures At(Next(w, st).events, k) == At(w.events, k) {
      ServedIsStored(w.events, st.rows, st.at, k);
    }
  }

  /** What a source holds does not depend on the syncs of the others. */
  lemma OthersSpare(w: World, w': World, source: Source)
    requires OnlySource(w.events, w'.events, source)
    requires forall s :: s != source ==> CursorOf(w'.states, s) == CursorOf(w.states, s)
    ensures source != Source.Aemet && w'.aemetMark == w.aemetMark && AemetReconciled(w) ==> AemetReconciled(w')
    ensures source != Source.Effis && EffisReconciled(w) ==> EffisReconciled(w')
  {
    if source != Source.Aemet {
      assert forall k: Key | k.source == Source.Aemet :: At(w'.events, k) == At(w.events, k);
    }
    if source != Source.Effis {
      forall id ensures id in SyncEffis.OpenIds(w'.events) <==> id in SyncEffis.OpenIds(w.events) {
        var k := Key(Source.Effis, id);
        assert At(w'.events, k) == At(w.events, k);
        assert id in SyncEffis.OpenIds(w.events) <==> k in w.events && w.events[k].endsAt.None?;
        assert id in SyncEffis.OpenIds(w'.events) <==> k in w'.events && w'.events[k].endsAt.None?;
      }
    }
  }

  lemma StepKeepsReconciled(w: World, st: Step)
    requires Enabled(w, st) && AemetReconciled(w) && EffisReconciled(w)
    ensures AemetReconciled(Next(w, st)) && EffisReconciled(Next(w, st))
  {
    var w' := Next(w, st);
    match st
    case Aemet(_, _, _) =>
      AemetSyncReconciles(w, st);
      OthersSpare(w, w', Source.Aemet);
      hide AemetReconciled, EffisReconciled;
    case Effis(_, _, _, _) =>
      EffisSyncReconciles(w, st);
      OthersSpare(w, w', Source.Effis);
      hide AemetReconciled, EffisReconciled;
    case Ign(_, _, _, _) =>
      IgnSyncSpares(w, st);
      OthersSpare(w, w', Source.Ign);
      hide AemetReconciled, EffisReconciled;
    case _ =>
      assert w'.events == w.events && w'.aemetMark == w.aemetMark && forall s ::
          CursorOf(w'.states, s) == CursorOf(w.states, s);
      hide SyncEffis.OpenIds;
  }

  lemma LogGrows(log: seq<Entry>, e: Entry)
    ensures LastSuccess(log + [e]) == if e.Succeeded? then Some(e.at) else LastSuccess(log)
    ensures Failures(log + [e]) == if e.Succeeded? then 0 else 1 + Failures(log)
  {
    assert (log + [e])[..|log|] == log;
  }

  lemma StepTellsLog(w: World, st: Step)
    requires Enabled(w, st) && StatesTell(w)
    ensures StatesTell(Next(w, st))
  {
    hide SyncAemet.Synced, SyncEffis.Synced, SyncAemet.Readable, SyncEffis.Readable, Upserted, LastSuccess, Failures;
    match st
    case Aemet(_, _, clock) => LogGrows(LogOf(w.log, Source.Aemet), Succeeded(clock));
    case Effis(_, _, _, clock) => LogGrows(LogOf(w.log, Source.Effis), Succeeded(clock));
    case Ign(_, _, _, clock) => LogGrows(LogOf(w.log, Source.Ign), Succeeded(clock));
    case Failed(source, error, clock) =>
      LogGrows(LogOf(w.log, source), Broke(clock, error));
      NoRuns();
    case RolledBack =>
  }

  lemma NoRuns()
    ensures LastSuccess([]) == None && Failures([]) == 0
  {
  }

  /** In every state of every run: only warnings of the last bulletin end after
      its mark, the open fires are those of the last catalogue, and the state of each
      source tells its recorded runs. */
  lemma {:induction false} RunsStayReconciled(ws: seq<World>, steps: seq<Step>, i: nat)
    requires IsRun(ws, steps) && i < |ws|
    ensures AemetReconciled(ws[i]) && EffisReconciled(ws[i]) && StatesTell(ws[i])
  {
    hide Next, Enabled;
    if i > 0 {
      RunsStayReconciled(ws, steps, i - 1);
      assert ws[i] == Next(ws[i - 1], steps[i - 1]);
      hide AemetReconciled, EffisReconciled, StatesTell;
      StepKeepsReconciled(ws[i - 1], steps[i - 1]);
      StepTellsLog(ws[i - 1], steps[i - 1]);
    }
  }

  /** A committed sync of `source` that stores a cursor: AEMET and EFFIS always do. */
  predicate CommitsOf(st: Step, source: Source) {
    match st
    case Aemet(_, _, _) => source == Source.Aemet
    case Effis(_, _, _, _) => source == Source.Effis
    case Ign(_, cursor, _, _) => source == Source.Ign && cursor.Some?
    case _ => false
  }

  lemma StepKeepsCursor(w: World, st: Step, source: Source)
    requires Enabled(w, st) && !CommitsOf(st, source)
    ensures CursorOf(Next(w, st).states, source) == CursorOf(w.states, source)
    ensures source == Source.Aemet ==> Next(w, st).aemetMark == w.aemetMark
  {
    hide SyncAemet.Synced, SyncEffis.Synced, SyncAemet.IdsOf, SyncEffis.IdsOf, Upserted;
  }

  /** The cursor of `source` stays until its next committed sync that gives one:
      failures, rollbacks, other sources and syncs without a cursor do not touch it. */
  lemma {:induction false} CursorWaits(ws: seq<World>, steps: seq<Step>, source: Source, i: nat, j: nat)
    requires IsRun(ws, steps) && i <= j < |ws|
    requires forall n :: i <= n < j ==> !CommitsOf(steps[n], source)
    ensures CursorOf(ws[j].states, source) == CursorOf(ws[i].states, source)
    ensures source == Source.Aemet ==> ws[j].aemetMark == ws[i].aemetMark
    decreases j
  {
    if i < j {
      CursorWaits(ws, steps, source, i, j - 1);
      assert Enabled(ws[j - 1], steps[j - 1]) && ws[j] == Next(ws[j - 1], steps[j - 1]);
      hide IsRun, Enabled, Next;
      StepKeepsCursor(ws[j - 1], steps[j - 1], source);
    }
  }

  /** After a committed AEMET sync, and until the next one, every stored warning
      that ends after its mark is one the bulletin served. */
  lemma NothingOutsideTheBulletinIsAlive(ws: seq<World>, steps: seq<Step>, i: nat, j: nat, k: Key)
    requires IsRun(ws, steps) && i < j < |ws| && steps[i].Aemet?
    requires forall n :: i < n < j ==> !CommitsOf(steps[n], Source.Aemet)
    requires k in ws[j].events && k.source == Source.Aemet && OpenAt(ws[j].events[k], steps[i].at)
    ensures exists w :: w in steps[i].bulletin && InForce(w) && w.externalId == k.externalId
  {
    RunsStayReconciled(ws, steps, j);
    CursorWaits(ws, steps, Source.Aemet, i + 1, j);
    assert ws[i + 1] == Next(ws[i], steps[i]);
    hide SyncAemet.Synced;
    assert SyncAemet.Readable(steps[i].bulletin)
        && k.externalId in SyncAemet.IdsOf(SyncAemet.Ingested(steps[i].bulletin));
    IngestedExactly(steps[i].bulletin);
    assert Serves(steps[i].bulletin, k.externalId);
  }

  /** After a committed EFFIS sync, and until the next one, a fire is open exactly
      when the catalogue served it as a burnt area. */
  lemma OpenFiresAreTheCatalogue(ws: seq<World>, steps: seq<Step>, i: nat, j: nat)
    requires IsRun(ws, steps) && i < j < |ws| && steps[i].Effis?
    requires forall n :: i < n < j ==> !CommitsOf(steps[n], Source.Effis)
    ensures SyncEffis.OpenIds(ws[j].events) == SyncEffis.IdsOf(steps[i].burnt)
  {
    RunsStayReconciled(ws, steps, j);
    CursorWaits(ws, steps, Source.Effis, i + 1, j);
    assert ws[i + 1] == Next(ws[i], steps[i]);
    hide SyncEffis.Synced, SyncEffis.OpenIds, SyncEffis.IdsOf;
  }
}
