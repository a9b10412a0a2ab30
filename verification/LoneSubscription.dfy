/**
 A single subscription and a single earthquake: the smallest runs, out of which
 the counterexamples are built.
 */
module LoneSubscription {
  import opened Common
  import opened EpisodeRule
  import opened NotificationTables
  import opened Matching
  import opened EpisodeStatements
  import opened MatchBatch
  import opened DeliveryStatements
  import opened Deliver
  import opened NotificationRuns

  /** An earthquake ingested at time 0, with the window IGN events have. */
  const QUAKE := Event(Ign, Earthquake, "q", 3, 0, Some(0), map[], 0, None)

  const QUAKE_MATCH: Match := MatchOf(0, 0, QUAKE)

  const QUAKE_BATCH := Batch(0, 0, 0)

  const QUAKE_QUERY := Query(Ign, 0, 0)

  /** The delivery that the earthquake opens. */
  const QUAKE_ROW := DeliveryKey(0, 3)

  function QuakeScene(): Scene { Scene(map[0 := QUAKE], (e, a) => true) }

  const SUBSCRIBE := Add({Earthquake}, 1, 0)

  const COMMIT := MatchCommit([QUAKE_MATCH], map[], QUAKE_BATCH)

  /** The earthquake is what the matcher's query answers for an active subscription. */
  lemma QuakeIsRead(subs: map<SubId, Subscription>)
    requires subs == map[0 := NewSubscription({Earthquake}, 1, 0)]
    ensures IsMatchList([QUAKE_MATCH], subs, QuakeScene(), QUAKE_QUERY)
  {
    assert Selected(QUAKE, subs[0], QUAKE_QUERY, QuakeScene().contains);
  }

  /** A match for a key without an open episode opens one and adds its delivery. */
  lemma LoneMatchOpens(db: Db, m: Match, b: Batch)
    requires m.source == Ign && m.severity >= 0 && m.sub in db.subs
    requires !TakenIn(db, KeyOfMatch(m)) && db.deliveries == map[]
    ensures FirstSeen([m]) == [KeyOfMatch(m)] && GroupsApplied(db, map[], FirstSeen([m]), Groups([m]), b).Ok?
    ensures var (db', d) :=
        (GroupsApplied(db, map[], FirstSeen([m]), Groups([m]), b).value.db, DeliveryKey(db.nextEpisode, m.severity));
            && db'.subs == db.subs && db'.deliveries.Keys == {d} && db'.episodes.Keys == db.episodes.Keys + {d.episode}
            && db'.episodes[d.episode].closedAt.None? && db'.episodes[d.episode].lastMatchedAt == b.at
            && db'.deliveries[d].sub == m.sub && db'.deliveries[d].status == Pending
  {
    var k := KeyOfMatch(m);
    assert [m][..0] == [] && FirstSeen([m]) == [k];
    assert GroupOf([m], k) == Group(m.severity, None, [m]);
    assert [k][..0] == [] && [k][..1] == [k];
    GroupsStep(db, map[], [k], Groups([m]), b, 0);
  }

  /** The one episode is open and was matched at time 0. */
  predicate FreshEpisode(db: Db) {
    db.episodes.Keys == {0} && db.episodes[0].closedAt.None? && db.episodes[0].lastMatchedAt == 0
  }

  /** The commit of the earthquake on tables without episodes, for a subscription
      that may be paused by now. */
  lemma QuakeCommits(w: World, cfg: Settings)
    requires w.db.subs.Keys == {0} && w.db.episodes == map[] && w.db.deliveries == map[] && w.db.nextEpisode == 0
    ensures Enabled(w, COMMIT, cfg)
    ensures var w' := Next(w, COMMIT, cfg);
            && w' == w.(db := w'.db) && w'.db.subs == w.db.subs && w'.db.deliveries.Keys == {QUAKE_ROW}
            && w'.db.deliveries[QUAKE_ROW].status == Pending && w'.db.deliveries[QUAKE_ROW].sub == 0
            && FreshEpisode(w'.db)
  {
    LoneMatchOpens(w.db, QUAKE_MATCH, QUAKE_BATCH);
    assert Grounded([QUAKE_MATCH], QUAKE_BATCH.at);
    hide GroupsApplied, FirstSeen, Groups, KeyOfMatch;
  }

  // ----- Building runs step by step -----

  lemma StartIsRun(cfg: Settings)
    ensures IsRun([START], [], cfg)
  {
  }

  lemma RunGrows(ws: seq<World>, steps: seq<Step>, cfg: Settings, st: Step)
    requires IsRun(ws, steps, cfg) && Enabled(ws[|steps|], st, cfg)
    ensures IsRun(ws + [Next(ws[|steps|], st, cfg)], steps + [st], cfg)
  {
    hide Next, Enabled;
    var (ws', steps') := (ws + [Next(ws[|steps|], st, cfg)], steps + [st]);
    forall i: nat | i < |steps'| ensures IsStep(ws', steps', cfg, i) {
      if i < |steps| { StepOf(ws, steps, cfg, i); }
    }
  }

  /** The only subscription, free to be claimed, holds one pending row. */
  predicate Lone(w: World) {
    && w.db.subs.Keys == {0} && w.db.deliveries.Keys == {QUAKE_ROW} && FreshEpisode(w.db)
    && w.db.deliveries[QUAKE_ROW].status == Pending && w.db.deliveries[QUAKE_ROW].sub == 0
    && w.db.subs[0].status == Active && w.db.subs[0].lastSentAt.None? && w.db.subs[0].consecutiveFailures == 0
    && (w.db.subs[0].retryAt.Some? ==> w.db.subs[0].retryAt.value <= w.now)
  }

  const CLAIM := ClaimSome({}, [0], [QUAKE_ROW])

  lemma LoneClaim(w: World, cfg: Settings)
    requires Lone(w) && cfg.limit >= 1
    ensures Enabled(w, CLAIM, cfg)
    ensures var w' := Next(w, CLAIM, cfg);
            && w'.now == w.now && w'.nextRun == w.nextRun + 1 && w'.runs == w.runs[w.nextRun := w'.runs[w.nextRun]]
            && w'.runs[w.nextRun].claimedAt == w.now && w'.runs[w.nextRun].outcomes == []
            && |w'.runs[w.nextRun].claims| == 1 && w'.runs[w.nextRun].claims[0].sub == 0
            && w'.runs[w.nextRun].claims[0].deliveries == [QUAKE_ROW]
            && w'.db.subs.Keys == {0} && w'.db.subs[0].retryAt == Some(w.now + 60)
            && Lone(w'.(now := w.now + 60)) && Lone(w'.(db := AfterResume(w'.db, 0)))
  {
    hide IsSelection, IsPendingList, Backoff, RowsOf;
    LoneIsSelected(w, cfg);
    BackoffDoubles(0);
  }

  lemma LoneIsSelected(w: World, cfg: Settings)
    requires Lone(w) && cfg.limit >= 1
    ensures IsSelection(w.db, w.now, cfg.minInterval, cfg.limit, {}, [0]) && IsPendingList(w.db, [0], [QUAKE_ROW])
    ensures RowsOf(w.db, 0, [QUAKE_ROW]) == [QUAKE_ROW]
  {
    assert IsPending(w.db, QUAKE_ROW) && HasPending(w.db, 0);
    assert [QUAKE_ROW][..0] == [];
  }

  /** The subscription, its earthquake matched as its query answered. */
  lemma OneDelivery(cfg: Settings) returns (ws: seq<World>, steps: seq<Step>)
    ensures steps == [SUBSCRIBE, COMMIT] && |ws| == 3 && IsRun(ws, steps, cfg)
    ensures forall i: nat :: i < |steps| ==> !steps[i].Resume?
    ensures IsMatchList([QUAKE_MATCH], ws[1].db.subs, QuakeScene(), QUAKE_QUERY)
    ensures Lone(ws[2]) && ws[2].nextRun == 0 && forall i: nat :: i < |ws| ==> ws[i].runs == map[] && ws[i].now == 0
  {
    StartIsRun(cfg);
    var w1 := Next(START, SUBSCRIBE, cfg);
    assert w1.db.subs == map[0 := NewSubscription({Earthquake}, 1, 0)];
    QuakeIsRead(w1.db.subs);
    RunGrows([START], [], cfg, SUBSCRIBE);
    QuakeCommits(w1, cfg);
    assert w1.db.episodes == map[] && w1.runs == map[] && w1.now == 0 && w1.nextRun == 0;
    var w2 := Next(w1, COMMIT, cfg);
    hide Next, Enabled, IsRun, IsMatchList;
    RunGrows([START] + [w1], [] + [SUBSCRIBE], cfg, COMMIT);
    ws, steps := [START] + [w1] + [w2], [] + [SUBSCRIBE] + [COMMIT];
  }
}
