/** Which rows of a batch match which subscriptions (app/notifications/repos/matching.py). */
module Matching {
  import opened Common
  import opened EpisodeRule
  import opened NotificationTables

  datatype Event = Event(
    source: Source, hazardType: HazardType, externalId: string, severity: int,
    startsAt: Time, endsAt: Option<Time>, attrs: Attrs, createdAt: Time, updatedAt: Option<Time>)

  /** What a matcher run reads: the events, and whether an event falls in an area. */
  datatype Scene = Scene(events: map<EventId, Event>, contains: (Event, AreaId) -> bool)

  datatype Query = Query(source: Source, batchAt: Time, quakeMaxAge: Time)

  predicate Notifiable(e: Event, q: Query) {
    match q.source
    case Aemet => e.endsAt.Some? && e.endsAt.value > q.batchAt
    case Effis => "kind" in e.attrs && e.attrs["kind"] == "burnt_area" && e.endsAt.None?
    case Ign => e.startsAt >= q.batchAt - q.quakeMaxAge
  }

  predicate Selected(e: Event, s: Subscription, q: Query, contains: (Event, AreaId) -> bool) {
    && s.status == Active && e.hazardType in s.hazardTypes && e.severity >= s.severityMin
    && e.source == q.source
    && (e.createdAt == q.batchAt || e.updatedAt == Some(q.batchAt))
    && Notifiable(e, q)
    && contains(e, s.area)
  }

  function MatchOf(sub: SubId, id: EventId, e: Event): Match {
    Match(sub, id, e.source, e.hazardType, e.externalId, e.severity, e.startsAt, e.endsAt, e.attrs)
  }

  /** ORDER BY subscription.id, severity DESC, starts_at. */
  predicate InOrder(a: Match, b: Match) {
    || a.sub < b.sub
    || (a.sub == b.sub && a.severity > b.severity)
    || (a.sub == b.sub && a.severity == b.severity && a.startsAt <= b.startsAt)
  }

  /** `ms` is an answer the database may give to `matches`: every selected pair
      once, in order; ties come in any order. */
  ghost predicate IsMatchList(ms: seq<Match>, subs: map<SubId, Subscription>, sc: Scene, q: Query) {
    && (forall s, id :: s in subs && id in sc.events && Selected(sc.events[id], subs[s], q, sc.contains)
          ==> MatchOf(s, id, sc.events[id]) in ms)
    && (forall m :: m in ms ==>
          && m.sub in subs && m.event in sc.events
          && Selected(sc.events[m.event], subs[m.sub], q, sc.contains)
          && m == MatchOf(m.sub, m.event, sc.events[m.event]))
    && Distinct(ms)
    && (forall i, j :: 0 <= i < j < |ms| ==> InOrder(ms[i], ms[j]))
  }

  predicate HasActiveSubscriptions(subs: map<SubId, Subscription>) {
    exists s :: s in subs && subs[s].status == Active
  }

  /** What a match list promises the matcher. */
  predicate Grounded(ms: seq<Match>, batchAt: Time) {
    forall m :: m in ms ==>
      && 1 <= m.severity <= 4
      && (m.source == Aemet ==> m.endsAt.Some? && m.endsAt.value > batchAt)
  }

  predicate SeveritiesInRange(sc: Scene) {
    forall id :: id in sc.events ==> 1 <= sc.events[id].severity <= 4
  }

  /** Closures, hotspots and old earthquakes never reach the matcher, and without
      an active subscription nothing does. */
  lemma MatchListIsGrounded(ms: seq<Match>, subs: map<SubId, Subscription>, sc: Scene, q: Query)
    requires IsMatchList(ms, subs, sc, q) && SeveritiesInRange(sc)
    ensures Grounded(ms, q.batchAt)
    ensures forall m :: m in ms ==> m.source == q.source
    ensures !HasActiveSubscriptions(subs) ==> ms == []
    ensures forall m :: m in ms && m.source == Effis ==>
              m.endsAt.None? && "kind" in m.attrs && m.attrs["kind"] == "burnt_area"
  {
    if ms != [] {
      assert ms[0] in ms;
      assert HasActiveSubscriptions(subs);
    }
  }

  /** Who is told of what: an active subscription that asks for the type, from the
      severity it asks for on and in its area, of an event of the source that this
      batch inserted or changed, and that, by source, has not ended, is an open burnt
      area, or is a recent enough earthquake. */
  lemma MatchedExactly(ms: seq<Match>, subs: map<SubId, Subscription>, sc: Scene, q: Query, s: SubId, id: EventId)
    requires IsMatchList(ms, subs, sc, q)
    ensures (exists m :: m in ms && m.sub == s && m.event == id) <==>
              && s in subs && id in sc.events
              && var (sub, e) := (subs[s], sc.events[id]);
                 && sub.status == Active && e.hazardType in sub.hazardTypes && sub.severityMin <= e.severity
                 && sc.contains(e, sub.area) && e.source == q.source
                 && (e.createdAt == q.batchAt || e.updatedAt == Some(q.batchAt))
                 && (q.source == Aemet ==> e.endsAt.Some? && q.batchAt < e.endsAt.value)
                 && (q.source == Effis ==>
                       e.endsAt == None && "kind" in e.attrs && e.attrs["kind"] == "burnt_area")
                 && (q.source == Ign ==> q.batchAt - e.startsAt <= q.quakeMaxAge)
    ensures forall m :: m in ms ==>
              && m.event in sc.events
              && var e := sc.events[m.event];
                 && m.source == e.source && m.hazardType == e.hazardType && m.externalId == e.externalId
                 && m.severity == e.severity && m.startsAt == e.startsAt && m.endsAt == e.endsAt && m.attrs == e.attrs
    ensures forall i, j :: 0 <= i < j < |ms| && ms[i].sub == ms[j].sub ==>
              ms[i].severity > ms[j].severity || (ms[i].severity == ms[j].severity && ms[i].startsAt <= ms[j].startsAt)
  {
    if s in subs && id in sc.events && Selected(sc.events[id], subs[s], q, sc.contains) {
      assert MatchOf(s, id, sc.events[id]) in ms;
    }
    assert forall i, j :: 0 <= i < j < |ms| ==> InOrder(ms[i], ms[j]);
  }

  /** Nobody is told of an event twice in one batch. */
  lemma MatchedOnce(ms: seq<Match>, subs: map<SubId, Subscription>, sc: Scene, q: Query, i: nat, j: nat)
    requires IsMatchList(ms, subs, sc, q) && i < j < |ms|
    ensures ms[i].sub != ms[j].sub || ms[i].event != ms[j].event
  {
    assert ms[i] in ms && ms[j] in ms && ms[i] != ms[j];
    hide Selected, InOrder;
  }

  /** The answer is unique up to ties: same query, same matches. */
  lemma SameMatches(a: seq<Match>, b: seq<Match>, subs: map<SubId, Subscription>, sc: Scene, q: Query)
    requires IsMatchList(a, subs, sc, q) && IsMatchList(b, subs, sc, q)
    ensures forall m :: m in a <==> m in b
  {
    forall m ensures m in a <==> m in b {
      if m in a { assert MatchOf(m.sub, m.event, sc.events[m.event]) in b; }
      if m in b { assert MatchOf(m.sub, m.event, sc.events[m.event]) in a; }
    }
  }
}
