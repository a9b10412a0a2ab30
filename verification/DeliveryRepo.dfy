/** Persistence of the delivery job (app/notifications/repos/delivery.py). */
module DeliveryStatements {
  import opened Common
  import opened NotificationTables

  const BACKOFF_BASE: Time := 60
  const BACKOFF_CAP: Time := 3600

  function Backoff(consecutiveFailures: nat): Time {
    Min(BACKOFF_BASE * Pow2(consecutiveFailures), BACKOFF_CAP)
  }

  /** A subscription taken for one run, with its pending deliveries. */
  datatype ClaimedSubscription = ClaimedSubscription(sub: SubId, previousRetryAt: Option<Time>,
      deliveries: seq<DeliveryKey>)

  predicate IsPending(db: Db, k: DeliveryKey) { k in db.deliveries && db.deliveries[k].status == Pending }

  predicate HasPending(db: Db, s: SubId) {
    exists k :: k in db.deliveries && IsPending(db, k) && db.deliveries[k].sub == s
  }

  predicate Eligible(db: Db, s: SubId, now: Time, minInterval: Time) {
    && s in db.subs && db.subs[s].status == Active
    && (db.subs[s].retryAt.Some? ==> db.subs[s].retryAt.value <= now)
    && (db.subs[s].lastSentAt.Some? ==> db.subs[s].lastSentAt.value <= now - minInterval)
    && HasPending(db, s)
  }

  /** ORDER BY last_sent_at ASC NULLS FIRST. */
  predicate LastSentOrder(db: Db, a: SubId, b: SubId) {
    a in db.subs && b in db.subs
        && (db.subs[a].lastSentAt.Some? ==> NotEarlier(db.subs[a].lastSentAt, db.subs[b].lastSentAt))
  }

  /** ORDER BY severity DESC, created_at. */
  predicate RowOrder(db: Db, a: DeliveryKey, b: DeliveryKey) {
    && a in db.deliveries && b in db.deliveries
    && (a.severity > b.severity
        || (a.severity == b.severity && db.deliveries[a].createdAt <= db.deliveries[b].createdAt))
  }

  /** `chosen` is an answer the database may give to the claim query: the first
      `limit` eligible subscriptions that no other transaction holds locked. */
  ghost predicate IsSelection(
    db: Db, now: Time, minInterval: Time, limit: nat, locked: set<SubId>, chosen: seq<SubId>) {
    && Distinct(chosen) && |chosen| <= limit
    && (forall s :: s in chosen ==> Eligible(db, s, now, minInterval) && s !in locked)
    && (forall i, j :: 0 <= i < j < |chosen| ==> LastSentOrder(db, chosen[i], chosen[j]))
    && (forall s, c ::
        Eligible(db, s, now, minInterval) && s !in locked && s !in chosen && c in chosen ==> LastSentOrder(db, c, s))
    && (forall s :: Eligible(db, s, now, minInterval) && s !in locked && s !in chosen ==> |chosen| == limit)
  }

  /** `rows` lists the pending deliveries of `chosen`. */
  ghost predicate IsPendingList(db: Db, chosen: seq<SubId>, rows: seq<DeliveryKey>) {
    && Distinct(rows)
    && (forall k :: k in rows <==> IsPending(db, k) && db.deliveries[k].sub in chosen)
    && (forall i, j :: 0 <= i < j < |rows| ==> RowOrder(db, rows[i], rows[j]))
  }

  /** The rows of one subscription, in the same order. */
  function RowsOf(db: Db, s: SubId, rows: seq<DeliveryKey>): seq<DeliveryKey> {
    if rows == [] then []
    else
      var k := rows[|rows| - 1];
      RowsOf(db, s, rows[..|rows| - 1]) + if k in db.deliveries && db.deliveries[k].sub == s then [k] else []
  }

  function Leased(s: Subscription, now: Time): Subscription {
    s.(retryAt := Some(now + Backoff(s.consecutiveFailures)))
  }

  function LeasedAll(subs: map<SubId, Subscription>, chosen: seq<SubId>, now: Time): map<SubId, Subscription> {
    map s | s in subs :: if s in chosen then Leased(subs[s], now) else subs[s]
  }

  function AttemptedAll(deliveries: map<DeliveryKey, Delivery>, rows: seq<DeliveryKey>): map<DeliveryKey, Delivery> {
    map k | k in deliveries :: if k in rows then Attempted(deliveries[k]) else deliveries[k]
  }

  /** retry_at moves to the next backoff at once: it is the lease, and the retry
      if the run dies. */
  function AfterClaim(db: Db, chosen: seq<SubId>, rows: seq<DeliveryKey>, now: Time): Db {
    db.(subs := LeasedAll(db.subs, chosen, now), deliveries := AttemptedAll(db.deliveries, rows))
  }

  function Attempted(d: Delivery): Delivery { d.(attempts := d.attempts + 1) }

  function AfterSent(db: Db, s: SubId, keys: seq<DeliveryKey>, message: MessageId, now: Time): Db {
    db.(
    deliveries := map k | k in db.deliveries ::
      if k in keys then db.deliveries[k].(status := Sent, sentAt := Some(now), messageId := Some(message))
          else db.deliveries[k],
    subs := if s in db.subs
      then db.subs[s :=
          db.subs[s].(lastSentAt := Some(now), consecutiveFailures := 0, failingSince := None, retryAt := None)]
      else db.subs)
  }

  function PendingFailed(db: Db, s: SubId): Db {
    db.(deliveries := map k | k in db.deliveries ::
      if db.deliveries[k].sub == s && db.deliveries[k].status == Pending
      then db.deliveries[k].(status := Failed) else db.deliveries[k])
  }

  function WithFailure(s: Subscription, now: Time): Subscription {
    s.(consecutiveFailures := s.consecutiveFailures + 1,
       failingSince := if s.failingSince.Some? then s.failingSince else Some(now))
  }

  /** The failure streak of `s`, counting a failure at `now`, has lasted `pauseAfter`. */
  predicate StreakTooLong(s: Subscription, now: Time, pauseAfter: Time) {
    WithFailure(s, now).failingSince.value <= now - pauseAfter
  }

  function AfterFailure(db: Db, s: SubId, now: Time, pauseAfter: Time): Db {
    if s !in db.subs then db
    else if StreakTooLong(db.subs[s], now, pauseAfter) then
      PendingFailed(db.(subs := db.subs[s := WithFailure(db.subs[s], now).(status := Paused)]), s)
    else db.(subs := db.subs[s := WithFailure(db.subs[s], now)])
  }

  function AfterRelease(db: Db, s: SubId, retryAt: Option<Time>): Db {
    if s in db.subs then db.(subs := db.subs[s := db.subs[s].(retryAt := retryAt)]) else db
  }

  predicate StaleDelivery(d: Delivery, cutoff: Time) {
    d.status != Pending && (if d.sentAt.Some? then d.sentAt.value else d.createdAt) < cutoff
  }

  predicate StaleEpisode(db: Db, id: EpisodeId, cutoff: Time)
    requires id in db.episodes
  {
    var e := db.episodes[id];
    && (if e.closedAt.Some? then e.closedAt.value else e.lastMatchedAt) < cutoff
    && (e.expiresAt.Some? ==> e.expiresAt.value < cutoff)
    && !(exists k :: k in db.deliveries && k.episode == id && IsPending(db, k))
  }

  function DeliveriesPurged(db: Db, cutoff: Time): Db {
    db.(deliveries := map k | k in db.deliveries && !StaleDelivery(db.deliveries[k], cutoff) :: db.deliveries[k])
  }

  /** Deleting an episode cascades to its deliveries. */
  function EpisodesPurged(db: Db, cutoff: Time): Db {
    db.(
    episodes := map id | id in db.episodes && !StaleEpisode(db, id, cutoff) :: db.episodes[id],
    deliveries :=
        map k | k in db.deliveries && !(k.episode in db.episodes && StaleEpisode(db, k.episode, cutoff)) ::
            db.deliveries[k])
  }

  function AfterPurge(db: Db, now: Time, retention: Time): Db {
    EpisodesPurged(DeliveriesPurged(db, now - retention), now - retention)
  }

  class DeliveryRepo {
    const session: Session

    constructor (session: Session)
      ensures this.session == session
    {
      this.session := session;
    }

    /** `chosen` and `rows` are the database's answers to the two queries. */
    method Claim(
      now: Time, minInterval: Time, limit: nat, ghost locked: set<SubId>, chosen: seq<SubId>, rows: seq<DeliveryKey>)
      returns (claims: seq<ClaimedSubscription>)
      requires IsSelection(session.db, now, minInterval, limit, locked, chosen)
      requires IsPendingList(session.db, chosen, rows)
      modifies session
      ensures session.db == AfterClaim(old(session.db), chosen, rows, now)
      ensures claims == ClaimsOf(old(session.db), chosen, rows)
    {
      ghost var before := session.db;
      if chosen == [] {
        NothingPending(before, rows, now);
        return [];
      }
      var previous := map s | s in chosen :: session.db.subs[s].retryAt;
      TakeLeases(chosen, now);
      CountAttempts(rows);
      var bySubscription := GroupRows(rows, before);
      claims := [];
      for i := 0 to |chosen|
        invariant session.db == AfterClaim(before, chosen, rows, now)
        invariant |claims| == i
        invariant forall j :: 0 <= j < i ==> claims[j] == ClaimsOf(before, chosen, rows)[j]
      {
        hide IsSelection, IsPendingList;
        assert chosen[i] in chosen && Eligible(before, chosen[i], now, minInterval);
        SomeRow(before, chosen, rows, chosen[i]);
        claims := claims + [ClaimedSubscription(chosen[i], previous[chosen[i]], bySubscription[chosen[i]])];
      }
    }

    method TakeLeases(chosen: seq<SubId>, now: Time)
      requires Distinct(chosen) && forall s :: s in chosen ==> s in session.db.subs
      modifies session
      ensures session.db == old(session.db).(subs := LeasedAll(old(session.db).subs, chosen, now))
    {
      ghost var before := session.db;
      for i := 0 to |chosen|
        invariant session.db == before.(subs := session.db.subs) && session.db.subs.Keys == before.subs.Keys
        invariant forall s :: s in before.subs ==>
                                session.db.subs[s] == if s in chosen[..i] then Leased(before.subs[s], now)
                                    else before.subs[s]
      {
        assert chosen[i] in chosen && chosen[i] !in chosen[..i];
        assert chosen[..i + 1] == chosen[..i] + [chosen[i]];
        session.db := session.db.(subs := session.db.subs[chosen[i] := Leased(session.db.subs[chosen[i]], now)]);
      }
      assert chosen[..|chosen|] == chosen;
    }

    method CountAttempts(rows: seq<DeliveryKey>)
      requires Distinct(rows) && forall k :: k in rows ==> k in session.db.deliveries
      modifies session
      ensures session.db == old(session.db).(deliveries := AttemptedAll(old(session.db).deliveries, rows))
    {
      ghost var before := session.db;
      for i := 0 to |rows|
        invariant session.db == before.(deliveries := session.db.deliveries)
            && session.db.deliveries.Keys == before.deliveries.Keys
        invariant forall k :: k in before.deliveries ==>
                                session.db.deliveries[k] == if k in rows[..i] then Attempted(before.deliveries[k])
                                    else before.deliveries[k]
      {
        assert rows[i] in rows && rows[i] !in rows[..i];
        assert rows[..i + 1] == rows[..i] + [rows[i]];
        var row := session.db.deliveries[rows[i]];
        session.db := session.db.(deliveries := session.db.deliveries[rows[i] := row.(attempts := row.attempts + 1)]);
      }
      assert rows[..|rows|] == rows;
    }

    /** The dict by_subscription, with setdefault. */
    method GroupRows(rows: seq<DeliveryKey>, ghost before: Db) returns (r: map<SubId, seq<DeliveryKey>>)
      requires forall k :: k in rows ==>
                             k in session.db.deliveries && k in before.deliveries
                                 && before.deliveries[k].sub == session.db.deliveries[k].sub
      ensures forall s :: s in r <==> RowsOf(before, s, rows) != []
      ensures forall s :: s in r ==> r[s] == RowsOf(before, s, rows)
    {
      r := map[];
      for i := 0 to |rows|
        invariant forall s :: s in r <==> RowsOf(before, s, rows[..i]) != []
        invariant forall s :: s in r ==> r[s] == RowsOf(before, s, rows[..i])
      {
        assert rows[..i + 1][..i] == rows[..i];
        var s := session.db.deliveries[rows[i]].sub;
        r := r[s := (if s in r then r[s] else []) + [rows[i]]];
      }
      assert rows[..|rows|] == rows;
    }

    method MarkSent(s: SubId, keys: seq<DeliveryKey>, message: MessageId, now: Time)
      modifies session
      ensures session.db == AfterSent(old(session.db), s, keys, message, now)
    {
      var db := session.db;
      session.db := db.(deliveries := map k | k in db.deliveries ::
        if k in keys then db.deliveries[k].(status := Sent, sentAt := Some(now), messageId := Some(message))
            else db.deliveries[k]);
      if s in session.db.subs {
        var row := session.db.subs[s];
        row := row.(lastSentAt := Some(now), consecutiveFailures := 0, failingSince := None, retryAt := None);
        session.db := session.db.(subs := session.db.subs[s := row]);
      }
    }

    method MarkFailed(s: SubId, now: Time, pauseAfter: Time) returns (paused: bool)
      modifies session
      ensures session.db == AfterFailure(old(session.db), s, now, pauseAfter)
      ensures paused <==> s in old(session.db).subs && StreakTooLong(old(session.db).subs[s], now, pauseAfter)
    {
      if s !in session.db.subs { return false; }
      var row := session.db.subs[s];
      row := row.(consecutiveFailures := row.consecutiveFailures + 1);
      if row.failingSince.None? {
        row := row.(failingSince := Some(now));
      }
      if row.failingSince.value > now - pauseAfter {
        session.db := session.db.(subs := session.db.subs[s := row]);
        return false;
      }
      session.db := session.db.(subs := session.db.subs[s := row.(status := Paused)]);
      FailPending(s);
      return true;
    }

    method FailPending(s: SubId)
      modifies session
      ensures session.db == PendingFailed(old(session.db), s)
    {
      var db := session.db;
      session.db := db.(deliveries := map k | k in db.deliveries ::
        if db.deliveries[k].sub == s && db.deliveries[k].status == Pending
        then db.deliveries[k].(status := Failed) else db.deliveries[k]);
    }

    method Release(s: SubId, retryAt: Option<Time>)
      modifies session
      ensures session.db == AfterRelease(old(session.db), s, retryAt)
    {
      if s in session.db.subs {
        session.db := session.db.(subs := session.db.subs[s := session.db.subs[s].(retryAt := retryAt)]);
      }
    }

    method Purge(now: Time, retention: Time) returns (deliveries: nat, episodes: nat)
      modifies session
      ensures session.db == AfterPurge(old(session.db), now, retention)
      ensures deliveries
          == |old(session.db).deliveries| - |DeliveriesPurged(old(session.db), now - retention).deliveries|
      ensures episodes == |old(session.db).episodes| - |session.db.episodes|
    {
      var before := session.db;
      session.db := DeliveriesPurged(session.db, now - retention);
      SubsetSize(session.db.deliveries.Keys, before.deliveries.Keys);
      deliveries := |before.deliveries| - |session.db.deliveries|;
      session.db := EpisodesPurged(session.db, now - retention);
      SubsetSize(session.db.episodes.Keys, before.episodes.Keys);
      episodes := |before.episodes| - |session.db.episodes|;
    }
  }

  function ClaimsOf(db: Db, chosen: seq<SubId>, rows: seq<DeliveryKey>): seq<ClaimedSubscription>
    requires forall s :: s in chosen ==> s in db.subs
  {
    seq(|chosen|,
        i requires 0 <= i < |chosen| => ClaimedSubscription(chosen[i], db.subs[chosen[i]].retryAt,
            RowsOf(db, chosen[i], rows)))
  }

  lemma FirstIsMember<K>(s: seq<K>)
    ensures s != [] ==> s[0] in s
  {
  }

  lemma NothingPending(db: Db, rows: seq<DeliveryKey>, now: Time)
    requires IsPendingList(db, [], rows)
    ensures AfterClaim(db, [], rows, now) == db && rows == []
  {
    FirstIsMember(rows);
    assert rows == [];
    assert LeasedAll(db.subs, [], now) == db.subs;
    assert AttemptedAll(db.deliveries, rows) == db.deliveries;
  }

  lemma {:induction false} SubsetSize<K>(a: set<K>, b: set<K>)
    requires a <= b
    ensures |a| <= |b|
  {
    if a != {} {
      var k :| k in a;
      SubsetSize(a - {k}, b - {k});
    }
  }

  lemma {:induction false} RowsOfIsFilter(db: Db, s: SubId, rows: seq<DeliveryKey>)
    ensures forall k :: k in RowsOf(db, s, rows) <==> k in rows && k in db.deliveries && db.deliveries[k].sub == s
  {
    if rows != [] {
      RowsOfIsFilter(db, s, rows[..|rows| - 1]);
      assert rows == rows[..|rows| - 1] + [rows[|rows| - 1]];
    }
  }

  lemma SomeRow(db: Db, chosen: seq<SubId>, rows: seq<DeliveryKey>, s: SubId)
    requires IsPendingList(db, chosen, rows) && s in chosen && HasPending(db, s)
    ensures RowsOf(db, s, rows) != []
  {
    RowsOfIsFilter(db, s, rows);
    var k :| IsPending(db, k) && db.deliveries[k].sub == s;
    assert k in RowsOf(db, s, rows);
  }

  // ----- Backoff -----

  /** 60 s, doubled at each failure, never more than an hour: it doubles exactly
      while it stays under the cap, which the sixth failure reaches. */
  lemma BackoffDoubles(n: nat)
    ensures 60 <= Backoff(n) <= 3600
    ensures Backoff(0) == 60
    ensures Backoff(n + 1) == Min(2 * Backoff(n), 3600)
    ensures Backoff(n) == 3600 <==> n >= 6
  {
    Pow2Grows(n);
    if n < 6 {
      assert Pow2(1) == 2 && Pow2(2) == 4 && Pow2(3) == 8 && Pow2(4) == 16 && Pow2(5) == 32;
    }
  }

  /** A claim carries exactly the pending rows of its subscription, of which there
      is at least one. */
  lemma ClaimsAreExact(
    db: Db, now: Time, minInterval: Time, limit: nat, locked: set<SubId>, chosen: seq<SubId>, rows: seq<DeliveryKey>,
    i: nat)
    requires IsSelection(db, now, minInterval, limit, locked, chosen) && IsPendingList(db, chosen, rows)
    requires i < |chosen|
    ensures var c := ClaimsOf(db, chosen, rows)[i];
            && c.sub == chosen[i] && c.deliveries != []
            && (forall k :: k in c.deliveries <==> IsPending(db, k) && db.deliveries[k].sub == c.sub)
  {
    assert chosen[i] in chosen;
    RowsOfIsFilter(db, chosen[i], rows);
    SomeRow(db, chosen, rows, chosen[i]);
  }
}
