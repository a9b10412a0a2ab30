/**
 Crossing a batch with the subscriptions: episodes and deliveries
 (app/notifications/use_cases/match_batch.py).
 */
module MatchBatch {
  import opened Common
  import opened EpisodeRule
  import opened NotificationTables
  import opened Matching
  import opened EpisodeStatements

  const MAX_ITEMS_PER_DELIVERY: nat := 20

  datatype Group = Group(severity: int, expiresAt: Option<Time>, matches: seq<Match>)

  const EMPTY_GROUP := Group(0, None, [])

  /** The batch mark, the AEMET grace and the matcher transaction's now(). */
  datatype Batch = Batch(at: Time, grace: Time, now: Time)

  datatype Applied = Applied(db: Db, created: nat)

  function KeyOfMatch(m: Match): GroupKey { GroupKey(m.sub, EpisodeKey(m.source, m.externalId, m.attrs)) }

  function Extended(g: Group, m: Match): Group {
    Group(
      Max(g.severity, m.severity),
      if m.source == Aemet && m.endsAt.Some? then Greatest(g.expiresAt, m.endsAt) else g.expiresAt,
      g.matches + [m])
  }

  function GroupOf(ms: seq<Match>, k: GroupKey): Group {
    if ms == [] then EMPTY_GROUP
    else
      var g := GroupOf(ms[..|ms| - 1], k);
      var m := ms[|ms| - 1];
      if KeyOfMatch(m) == k then Extended(g, m) else g
  }

  /** The keys of a match list in the order a Python dict keeps them. */
  function FirstSeen(ms: seq<Match>): seq<GroupKey> {
    if ms == [] then []
    else
      var ks := FirstSeen(ms[..|ms| - 1]);
      var k := KeyOfMatch(ms[|ms| - 1]);
      if k in ks then ks else ks + [k]
  }

  function Groups(ms: seq<Match>): map<GroupKey, Group> {
    map k | k in FirstSeen(ms) :: GroupOf(ms, k)
  }

  function Photo(g: Group): seq<Match> {
    if |g.matches| <= MAX_ITEMS_PER_DELIVERY then g.matches else g.matches[..MAX_ITEMS_PER_DELIVERY]
  }

  function Announced(db: Db, id: EpisodeId, sub: SubId, g: Group, reason: Reason, b: Batch): Applied {
    var k := DeliveryKey(id, g.severity);
    Applied(DeliveryAdded(db, k, sub, reason, Photo(g), |g.matches|, b.now), if k in db.deliveries then 0 else 1)
  }

  /** One turn of the loop over groups. `current` is what the transaction read
      of the key before writing anything. */
  function GroupApplied(
    db: Db, current: Option<OpenEpisode>, k: GroupKey, g: Group, b: Batch): Result<Applied, MatchError> {
    match Decide(current, g.severity, b.at, b.grace)
    case Touch => Ok(Applied(Refreshed(db, current.value.id, current.value.notified, g.expiresAt, b.at), 0))
    case Escalate =>
      var db1 := Refreshed(db, current.value.id, g.severity, g.expiresAt, b.at);
      Ok(Announced(db1, current.value.id, k.sub, g, Escalated, b))
    case Open =>
      var db1 := if current.Some? then Closed(db, current.value.id, b.at) else db;
      var db2 :- Inserted(db1, k, g.severity, g.expiresAt, b.at);
      Ok(Announced(db2, db1.nextEpisode, k.sub, g, Opened, b))
  }

  function Lookup(seen: map<GroupKey, OpenEpisode>, k: GroupKey): Option<OpenEpisode> {
    if k in seen then Some(seen[k]) else None
  }

  /** The writes of a matcher transaction, which raise as a whole or not at all. */
  function GroupsApplied(
    db: Db, seen: map<GroupKey, OpenEpisode>, order: seq<GroupKey>, groups: map<GroupKey, Group>, b: Batch)
    : Result<Applied, MatchError>
    requires forall k :: k in order ==> k in groups
  {
    if order == [] then Ok(Applied(db, 0))
    else
      var last := order[|order| - 1];
      var before :- GroupsApplied(db, seen, order[..|order| - 1], groups, b);
      var after :- GroupApplied(before.db, Lookup(seen, last), last, groups[last], b);
      Ok(Applied(after.db, before.created + after.created))
  }

  /** What the transaction reads of the open episodes of its groups. */
  function Seen(db: Db, order: seq<GroupKey>): map<GroupKey, OpenEpisode>
    requires OneOpen(db)
  {
    map k | k in order && Current(db, k).Some? :: Current(db, k).value
  }

  /** A whole matcher transaction on the matches `ms`. */
  function Matched(db: Db, ms: seq<Match>, b: Batch): Result<Applied, MatchError>
    requires OneOpen(db)
  {
    GroupsApplied(db, Seen(db, FirstSeen(ms)), FirstSeen(ms), Groups(ms), b)
  }

  class MatchBatchUseCase {
    const session: Session

    constructor (session: Session)
      ensures this.session == session
    {
      this.session := session;
    }

    /** `matches` is the database's answer to the batch query. On Err the caller
        rolls back. */
    method Execute(matches: seq<Match>, b: Batch, q: Query, ghost sc: Scene) returns (r: Result<nat, MatchError>)
      requires Sound(session.db)
      requires q.batchAt == b.at
      requires IsMatchList(matches, session.db.subs, sc, q) && SeveritiesInRange(sc)
      modifies session
      ensures r.Ok? ==> Matched(old(session.db), matches, b) == Ok(Applied(session.db, r.value))
      ensures r.Err? ==> Matched(old(session.db), matches, b) == Err(r.error)
    {
      MatchListIsGrounded(matches, session.db.subs, sc, q);
      if !HasActiveSubscriptions(session.db.subs) { return Ok(0); }

      var order, groups := Collect(matches);
      var repo := new EpisodeRepo(session);
      var openEpisodes := repo.OpenEpisodes(order);
      assert openEpisodes == Seen(session.db, order);
      r := ApplyAll(repo, openEpisodes, order, groups, b);
    }

    /** The loop over groups. */
    method ApplyAll(
      repo: EpisodeRepo, openEpisodes: map<GroupKey, OpenEpisode>, order: seq<GroupKey>,
      groups: map<GroupKey, Group>, b: Batch)
      returns (r: Result<nat, MatchError>)
      requires repo.session == session
      requires forall k :: k in order ==> k in groups
      modifies session
      ensures r.Ok?
          ==> GroupsApplied(old(session.db), openEpisodes, order, groups, b) == Ok(Applied(session.db, r.value))
      ensures r.Err? ==> GroupsApplied(old(session.db), openEpisodes, order, groups, b) == Err(r.error)
    {
      hide GroupApplied;
      var created: nat := 0;
      for i := 0 to |order|
        invariant GroupsApplied(old(session.db), openEpisodes, order[..i], groups, b)
            == Ok(Applied(session.db, created))
      {
        GroupsStep(old(session.db), openEpisodes, order, groups, b, i);
        GroupsStopAtError(old(session.db), openEpisodes, order, groups, b, i + 1);
        var k := order[i];
        var one := ApplyOne(repo, Lookup(openEpisodes, k), k, groups[k], b);
        if one.Err? { return Err(one.error); }
        created := created + one.value;
      }
      assert order[..|order|] == order;
      return Ok(created);
    }

    /** The body of the loop over groups. */
    method ApplyOne(repo: EpisodeRepo, current: Option<OpenEpisode>, k: GroupKey, g: Group, b: Batch)
      returns (r: Result<nat, MatchError>)
      requires repo.session == session
      modifies session
      ensures r.Ok? ==> GroupApplied(old(session.db), current, k, g, b) == Ok(Applied(session.db, r.value))
      ensures r.Err? ==> GroupApplied(old(session.db), current, k, g, b) == Err(r.error)
    {
      var action := Decide(current, g.severity, b.at, b.grace);
      if action == Touch && current.Some? {
        repo.Refresh(current.value.id, current.value.notified, g.expiresAt, b.at);
        return Ok(0);
      }
      var id;
      if action == Escalate && current.Some? {
        id := current.value.id;
        repo.Refresh(id, g.severity, g.expiresAt, b.at);
      } else {
        if current.Some? {
          repo.Close(current.value.id, b.at);
        }
        var inserted := repo.Open(k, g.severity, g.expiresAt, b.at);
        if inserted.Err? { return Err(inserted.error); }
        id := inserted.value;
      }
      var reason := if action == Escalate then Escalated else Opened;
      var created := repo.AddDelivery(DeliveryKey(id, g.severity), k.sub, reason, Photo(g), |g.matches|, b.now);
      return Ok(if created then 1 else 0);
    }

    /** The loop that fills the dict of groups. */
    method Collect(matches: seq<Match>) returns (order: seq<GroupKey>, groups: map<GroupKey, Group>)
      ensures order == FirstSeen(matches) && groups == Groups(matches)
    {
      order, groups := [], map[];
      for i := 0 to |matches|
        invariant order == FirstSeen(matches[..i]) && groups == Groups(matches[..i])
      {
        assert matches[..i + 1] == matches[..i] + [matches[i]];
        order, groups := AddToGroup(order, groups, matches[i], matches[..i]);
      }
      assert matches[..|matches|] == matches;
    }

    /** The body of that loop. */
    method AddToGroup(order: seq<GroupKey>, groups: map<GroupKey, Group>, m: Match, ghost done: seq<Match>)
      returns (order': seq<GroupKey>, groups': map<GroupKey, Group>)
      requires order == FirstSeen(done) && groups == Groups(done)
      ensures order' == FirstSeen(done + [m]) && groups' == Groups(done + [m])
    {
      GroupsGrow(done, m);
      var k := KeyOfMatch(m);
      assert (k in groups <==> k in order) && (k in groups ==> groups[k] == GroupOf(done, k));
      hide *;
      order' := if k in groups then order else order + [k];
      var g := if k in groups then groups[k] else EMPTY_GROUP;
      assert g == GroupOf(done, k);
      g := Widen(g, m);
      groups' := groups[k := g];
    }

    /** One match joins its group. */
    method Widen(g: Group, m: Match) returns (g': Group)
      ensures g' == Extended(g, m)
    {
      g' := g.(severity := Max(g.severity, m.severity));
      if m.source == Aemet && m.endsAt.Some? {
        g' := g'.(expiresAt := Greatest(g.expiresAt, m.endsAt));
      }
      g' := g'.(matches := g.matches + [m]);
    }
  }

  lemma {:induction false} AbsentGroupIsEmpty(ms: seq<Match>, k: GroupKey)
    ensures k !in FirstSeen(ms) ==> GroupOf(ms, k) == EMPTY_GROUP
  {
    if ms != [] { AbsentGroupIsEmpty(ms[..|ms| - 1], k); }
  }

  lemma GroupGrowsBy(ms: seq<Match>, m: Match, k: GroupKey)
    ensures GroupOf(ms + [m], k) == if k == KeyOfMatch(m) then Extended(GroupOf(ms, k), m) else GroupOf(ms, k)
  {
    assert (ms + [m])[..|ms|] == ms;
  }

  lemma FirstSeenGrows(ms: seq<Match>, m: Match)
    ensures FirstSeen(ms + [m]) ==
            if KeyOfMatch(m) in FirstSeen(ms) then FirstSeen(ms) else FirstSeen(ms) + [KeyOfMatch(m)]
  {
    assert (ms + [m])[..|ms|] == ms;
  }

  lemma GroupsGrow(ms: seq<Match>, m: Match)
    ensures FirstSeen(ms + [m]) ==
            if KeyOfMatch(m) in FirstSeen(ms) then FirstSeen(ms) else FirstSeen(ms) + [KeyOfMatch(m)]
    ensures Groups(ms + [m]) == Groups(ms)[KeyOfMatch(m) := Extended(GroupOf(ms, KeyOfMatch(m)), m)]
    ensures KeyOfMatch(m) !in Groups(ms) ==> GroupOf(ms, KeyOfMatch(m)) == EMPTY_GROUP
  {
    hide Extended, KeyOfMatch, GroupOf, FirstSeen;
    FirstSeenGrows(ms, m);
    AbsentGroupIsEmpty(ms, KeyOfMatch(m));
    forall x
      ensures GroupOf(ms + [m], x) == if x == KeyOfMatch(m) then Extended(GroupOf(ms, x), m) else GroupOf(ms, x)
    {
      GroupGrowsBy(ms, m, x);
    }
  }

  lemma GroupsStep(
    db: Db, seen: map<GroupKey, OpenEpisode>, order: seq<GroupKey>, groups: map<GroupKey, Group>, b: Batch, i: nat)
    requires forall k :: k in order ==> k in groups
    requires i < |order| && GroupsApplied(db, seen, order[..i], groups, b).Ok?
    ensures var before := GroupsApplied(db, seen, order[..i], groups, b).value;
            var turn := GroupApplied(before.db, Lookup(seen, order[i]), order[i], groups[order[i]], b);
            GroupsApplied(db, seen, order[..i + 1], groups, b) ==
            if turn.Err? then Err(turn.error) else Ok(Applied(turn.value.db, before.created + turn.value.created))
  {
    assert order[..i + 1][..i] == order[..i];
  }

  /** A group that raises makes the whole transaction raise the same error. */
  lemma {:induction false} GroupsStopAtError(
    db: Db, seen: map<GroupKey, OpenEpisode>, order: seq<GroupKey>, groups: map<GroupKey, Group>, b: Batch, i: nat)
    requires forall k :: k in order ==> k in groups
    requires i <= |order|
    ensures GroupsApplied(db, seen, order[..i], groups, b).Err? ==>
              GroupsApplied(db, seen, order, groups, b) == GroupsApplied(db, seen, order[..i], groups, b)
    decreases |order|
  {
    if i < |order| {
      GroupsStopAtError(db, seen, order[..|order| - 1], groups, b, i);
      assert order[..|order| - 1][..i] == order[..i];
    } else {
      assert order[..i] == order;
    }
  }
}
