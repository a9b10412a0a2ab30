/**
 What the statements of the delivery job and the admin orders leave for the next
 claim, purge or record (app/notifications/repos/delivery.py,
 app/notifications/use_cases/manage.py).
 */
module DeliveryEffects {
  import opened Common
  import opened NotificationTables
  import opened DeliveryStatements
  import opened Deliver

  /** A recorded message takes exactly its rows out of the queue, and lets the
      subscription rest: it cannot be claimed before the minimum interval, and then
      exactly if it is active and rows outside the message are pending. */
  lemma SentRests(
    db: Db, s: SubId, keys: seq<DeliveryKey>, message: MessageId, now: Time, minInterval: Time, t: Time, k: DeliveryKey)
    requires minInterval >= 0
    ensures var db' := AfterSent(db, s, keys, message, now);
            && (IsPending(db', k) <==> IsPending(db, k) && k !in keys)
            && (k in db.deliveries && k in keys ==>
                  db'.deliveries[k]
                      == db.deliveries[k].(status := Sent, sentAt := Some(now), messageId := Some(message)))
            && (k in db.deliveries && k !in keys ==> k in db'.deliveries && db'.deliveries[k] == db.deliveries[k])
            && (t < now + minInterval ==> !Eligible(db', s, t, minInterval))
            && (t >= now + minInterval ==>
                  (Eligible(db', s, t, minInterval) <==>
                     && s in db.subs && db.subs[s].status == Active
                     && exists x :: IsPending(db, x) && x !in keys && db.deliveries[x].sub == s))
  {
    var db' := AfterSent(db, s, keys, message, now);
    assert forall x :: IsPending(db', x) <==> IsPending(db, x) && x !in keys;
    assert forall x :: IsPending(db', x) ==> db'.deliveries[x] == db.deliveries[x];
    if x :| IsPending(db, x) && x !in keys && db.deliveries[x].sub == s {
      assert IsPending(db', x);
    }
  }

  /** Nothing of the subscription stays pending, so no claim takes it before a new
      row appears, whatever the time; other subscriptions keep their queue. */
  lemma FailPendingEmptiesTheQueue(db: Db, s: SubId, other: SubId, t: Time, minInterval: Time)
    ensures var db' := PendingFailed(db, s);
            && !HasPending(db', s) && !Eligible(db', s, t, minInterval)
            && (other != s ==> (Eligible(db', other, t, minInterval) <==> Eligible(db, other, t, minInterval)))
            && (forall k :: IsPending(db', k) <==> IsPending(db, k) && db.deliveries[k].sub != s)
            && (forall k :: k in db.deliveries ==>
                  db'.deliveries[k]
                  == if db.deliveries[k].sub == s && IsPending(db, k) then db.deliveries[k].(status := Failed)
                     else db.deliveries[k])
            && PendingFailed(db', s) == db'
  {
    var db' := PendingFailed(db, s);
    assert forall k :: IsPending(db', k) <==> IsPending(db, k) && db.deliveries[k].sub != s;
    if HasPending(db, other) && other != s {
      var k :| k in db.deliveries && IsPending(db, k) && db.deliveries[k].sub == other;
      assert IsPending(db', k) && db'.deliveries[k].sub == other;
    }
  }

  /** A resumed subscription is active with a clean record: it can be claimed at any
      time once it is past the minimum interval and has something pending. */
  lemma ResumeFrees(db: Db, s: SubId, t: Time, minInterval: Time)
    requires s in db.subs
    ensures var db' := AfterResume(db, s);
            && db'.subs[s].status == Active && db'.subs[s].consecutiveFailures == 0 && db'.subs[s].failingSince == None
            && (Eligible(db', s, t, minInterval) <==>
                  && (db.subs[s].lastSentAt == None || db.subs[s].lastSentAt.value + minInterval <= t)
                  && HasPending(db, s))
            && db' == db.(subs := db'.subs) && db'.subs.Keys == db.subs.Keys
            && (forall x :: x in db.subs && x != s ==> db'.subs[x] == db.subs[x])
  {
    assert HasPending(AfterResume(db, s), s) <==> HasPending(db, s);
  }

  /** A paused subscription can never be claimed, and everything else about it stays. */
  lemma PauseStops(db: Db, s: SubId, t: Time, minInterval: Time)
    requires s in db.subs
    ensures var db' := AfterPause(db, s);
            && db'.subs == db.subs[s := db.subs[s].(status := Paused)] && !Eligible(db', s, t, minInterval)
            && (forall k :: IsPending(db', k) <==> IsPending(db, k) && db.deliveries[k].sub != s)
  {
  }

  /** A claim is sent exactly if it was tried and accepted and failed exactly if it
      was tried and refused; no two messages share an id. */
  lemma OutcomesTell(claims: seq<ClaimedSubscription>, ch: Channel, i: nat, j: nat)
    requires |ch.clock| == |ch.accepts| == |claims| && i < |claims| && j < |claims|
    ensures var (o, tried) := (OutcomeOf(claims[i], i, ch), i == 0 || ch.clock[i] < ch.deadline);
            && o.claim == claims[i]
            && (o.SentAs? <==> tried && ch.accepts[i]) && (o.FailedTo? <==> tried && !ch.accepts[i])
    ensures var (o, x) := (OutcomeOf(claims[i], i, ch), OutcomeOf(claims[j], j, ch));
            o.SentAs? && x.SentAs? && o.message == x.message ==> i == j
  {
  }

  /** Every claim of a run, skipped. */
  function AllSkipped(claims: seq<ClaimedSubscription>): seq<Outcome> {
    seq(|claims|, i requires 0 <= i < |claims| => Skipped(claims[i]))
  }

  /** Releasing undoes claiming: once the first `n` claims are recorded as skipped,
      their subscriptions are as before the claim, and the others still leased. */
  lemma {:induction false} ReleasedUpTo(
    db: Db, chosen: seq<SubId>, rows: seq<DeliveryKey>, now: Time, later: Time, pauseAfter: Time, n: nat)
    requires Distinct(chosen) && (forall s :: s in chosen ==> s in db.subs) && n <= |chosen|
    ensures var db' := OutcomesRecorded(
              AfterClaim(db, chosen, rows, now), AllSkipped(ClaimsOf(db, chosen, rows)[..n]), later, pauseAfter);
            && db' == AfterClaim(db, chosen, rows, now).(subs := db'.subs) && db'.subs.Keys == db.subs.Keys
            && forall s :: s in db.subs ==>
                 db'.subs[s] == if s in chosen[n..] then Leased(db.subs[s], now) else db.subs[s]
  {
    var claims := ClaimsOf(db, chosen, rows);
    if n > 0 {
      ReleasedUpTo(db, chosen, rows, now, later, pauseAfter, n - 1);
      var os := AllSkipped(claims[..n]);
      assert os[..n - 1] == AllSkipped(claims[..n - 1]) && os[n - 1] == Skipped(claims[n - 1]);
      assert claims[n - 1].sub == chosen[n - 1] && claims[n - 1].previousRetryAt == db.subs[chosen[n - 1]].retryAt;
      var before := OutcomesRecorded(AfterClaim(db, chosen, rows, now), os[..n - 1], later, pauseAfter);
      assert OutcomesRecorded(AfterClaim(db, chosen, rows, now), os, later, pauseAfter)
          == AfterRelease(before, chosen[n - 1], db.subs[chosen[n - 1]].retryAt);
      hide *;
      OneReleased(db, before, chosen, now, n);
    } else {
      assert AllSkipped(claims[..0]) == [] && chosen[0..] == chosen;
    }
  }

  lemma OneReleased(db: Db, before: Db, chosen: seq<SubId>, now: Time, n: nat)
    requires Distinct(chosen) && (forall s :: s in chosen ==> s in db.subs) && 0 < n <= |chosen|
    requires before.subs.Keys == db.subs.Keys
    requires forall s :: s in db.subs ==>
               before.subs[s] == if s in chosen[n - 1..] then Leased(db.subs[s], now) else db.subs[s]
    ensures var db' := AfterRelease(before, chosen[n - 1], db.subs[chosen[n - 1]].retryAt);
            && db' == before.(subs := db'.subs) && db'.subs.Keys == db.subs.Keys
            && forall s ::
                s in db.subs ==> db'.subs[s] == if s in chosen[n..] then Leased(db.subs[s], now) else db.subs[s]
  {
    hide Backoff;
    assert chosen[n - 1..] == [chosen[n - 1]] + chosen[n..] && chosen[n - 1] in chosen;
    assert chosen[n - 1] !in chosen[n..];
  }

  /** A run whose claims are all released leaves the subscriptions exactly as it
      found them; only the attempts of the rows are counted. */
  lemma ReleaseUndoesClaim(db: Db, chosen: seq<SubId>, rows: seq<DeliveryKey>, now: Time, later: Time, pauseAfter: Time)
    requires Distinct(chosen) && forall s :: s in chosen ==> s in db.subs
    ensures OutcomesRecorded(AfterClaim(db, chosen, rows, now), AllSkipped(ClaimsOf(db, chosen, rows)), later,
        pauseAfter)
            == db.(deliveries := AttemptedAll(db.deliveries, rows))
  {
    var claims := ClaimsOf(db, chosen, rows);
    ReleasedUpTo(db, chosen, rows, now, later, pauseAfter, |chosen|);
    assert claims[..|chosen|] == claims && chosen[|chosen|..] == [];
    hide OutcomesRecorded, AttemptedAll, ClaimsOf;
    var db' := OutcomesRecorded(AfterClaim(db, chosen, rows, now), AllSkipped(claims), later, pauseAfter);
    assert db'.subs == db.subs;
  }

  // ----- Retention -----

  /** The time retention counts from. */
  function SettledAt(d: Delivery): Time { if d.sentAt.Some? then d.sentAt.value else d.createdAt }

  ghost predicate KeepsEpisode(db: Db, id: EpisodeId, cutoff: Time)
    requires id in db.episodes
  {
    var e := db.episodes[id];
    || (if e.closedAt.Some? then e.closedAt.value else e.lastMatchedAt) >= cutoff
    || (e.expiresAt.Some? && e.expiresAt.value >= cutoff)
    || exists k :: IsPending(db, k) && k.episode == id
  }

  /** An episode survives exactly if it was matched, closed or in force since the
      cutoff or has something pending; a delivery exactly if it is pending or as
      recent, and its episode survives. Survivors are untouched. */
  ghost predicate Survivors(db: Db, db': Db, cutoff: Time)
    requires ForeignKeys(db)
  {
    && (forall id :: id in db'.episodes <==> id in db.episodes && KeepsEpisode(db, id, cutoff))
    && (forall k :: k in db'.deliveries <==>
          && k in db.deliveries && (IsPending(db, k) || SettledAt(db.deliveries[k]) >= cutoff)
          && KeepsEpisode(db, k.episode, cutoff))
    && (forall id :: id in db'.episodes ==> db'.episodes[id] == db.episodes[id])
    && (forall k :: k in db'.deliveries ==> db'.deliveries[k] == db.deliveries[k])
    && db'.subs == db.subs
  }

  /** A purge leaves exactly the survivors, and purging again takes nothing more. */
  lemma PurgeIsExact(db: Db, now: Time, retention: Time)
    requires ForeignKeys(db)
    ensures Survivors(db, AfterPurge(db, now, retention), now - retention)
    ensures AfterPurge(AfterPurge(db, now, retention), now, retention) == AfterPurge(db, now, retention)
  {
    hide Survivors, EpisodesPurged, DeliveriesPurged;
    PurgeSurvivors(db, now, retention);
    PurgedStays(db, AfterPurge(db, now, retention), now - retention);
  }

  lemma PurgeSurvivors(db: Db, now: Time, retention: Time)
    requires ForeignKeys(db)
    ensures Survivors(db, AfterPurge(db, now, retention), now - retention)
  {
    hide StaleEpisode, KeepsEpisode, Survivors, IsPending, ForeignKeys, SettledAt, EpisodesPurged, DeliveriesPurged;
    var cutoff := now - retention;
    var mid := DeliveriesPurged(db, cutoff);
    DeliveriesLeft(db, cutoff);
    forall id | id in db.episodes ensures StaleEpisode(mid, id, cutoff) <==> !KeepsEpisode(db, id, cutoff) {
      StaleIsNotKept(db, id, cutoff);
    }
    EpisodesLeft(db, mid, cutoff);
  }

  lemma EpisodesLeft(db: Db, mid: Db, cutoff: Time)
    requires ForeignKeys(db) && mid == db.(deliveries := mid.deliveries)
    requires forall k :: k in mid.deliveries <==>
               k in db.deliveries && (IsPending(db, k) || SettledAt(db.deliveries[k]) >= cutoff)
    requires forall k :: k in mid.deliveries ==> mid.deliveries[k] == db.deliveries[k]
    requires forall id :: id in db.episodes ==> (StaleEpisode(mid, id, cutoff) <==> !KeepsEpisode(db, id, cutoff))
    ensures Survivors(db, EpisodesPurged(mid, cutoff), cutoff)
  {
    assert forall k :: k in db.deliveries ==> k.episode in db.episodes;
    hide StaleEpisode, KeepsEpisode, SettledAt, IsPending, ForeignKeys;
  }

  lemma DeliveriesLeft(db: Db, cutoff: Time)
    ensures var mid := DeliveriesPurged(db, cutoff);
            && mid == db.(deliveries := mid.deliveries)
            && (forall k :: k in mid.deliveries <==>
                  k in db.deliveries && (IsPending(db, k) || SettledAt(db.deliveries[k]) >= cutoff))
            && forall k :: k in mid.deliveries ==> mid.deliveries[k] == db.deliveries[k]
  {
  }

  lemma StaleIsNotKept(db: Db, id: EpisodeId, cutoff: Time)
    requires id in db.episodes
    ensures StaleEpisode(DeliveriesPurged(db, cutoff), id, cutoff) <==> !KeepsEpisode(db, id, cutoff)
  {
    var mid := DeliveriesPurged(db, cutoff);
    assert forall k :: IsPending(mid, k) <==> IsPending(db, k);
    if k :| IsPending(db, k) && k.episode == id { assert IsPending(mid, k); }
  }

  lemma PurgedStays(db: Db, db': Db, cutoff: Time)
    requires ForeignKeys(db) && Survivors(db, db', cutoff)
    ensures EpisodesPurged(DeliveriesPurged(db', cutoff), cutoff) == db'
  {
    var mid := DeliveriesPurged(db', cutoff);
    assert mid.deliveries == db'.deliveries && mid == db';
    forall id | id in db'.episodes ensures !StaleEpisode(db', id, cutoff) {
      if k :| IsPending(db, k) && k.episode == id { assert IsPending(db', k); }
    }
  }

  // ----- Removal -----

  /** Nothing of a removed subscription is left, nothing of another is touched, and
      a worker that still holds a claim of it changes nothing when it records. */
  lemma RemovalIsFinal(db: Db, s: SubId, o: Outcome, later: Time, pauseAfter: Time)
    requires ForeignKeys(db)
    requires o.claim.sub == s && forall k :: k in o.claim.deliveries && k in db.deliveries ==> db.deliveries[k].sub == s
    ensures var db' := AfterRemove(db, s);
            && (forall x :: x in db'.subs <==> x in db.subs && x != s)
            && (forall id :: id in db'.episodes <==> id in db.episodes && db.episodes[id].sub != s)
            && (forall k :: k in db'.deliveries <==> k in db.deliveries && db.deliveries[k].sub != s)
            && (forall x :: x in db'.subs ==> db'.subs[x] == db.subs[x])
            && (forall id :: id in db'.episodes ==> db'.episodes[id] == db.episodes[id])
            && (forall k :: k in db'.deliveries ==> db'.deliveries[k] == db.deliveries[k] && k.episode in db'.episodes)
            && OutcomeRecorded(db', o, later, pauseAfter) == db'
  {
    var db' := AfterRemove(db, s);
    assert forall k :: k in o.claim.deliveries ==> k !in db'.deliveries;
    hide StreakTooLong;
  }
}
