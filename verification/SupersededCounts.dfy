/**
 How many rows an AEMET sync reports as closed, against how many it closes: the
 statements run group by group, and each reports the rows it lowers
 (app/hazards/use_cases/sync_aemet.py).
 */
module SupersededCounts {
  import opened Common
  import opened EpisodeRule
  import opened HazardTables
  import opened HazardEvents
  import opened SyncAemet

  predicate Names(groups: map<Time, set<string>>, s: Time, k: Key) {
    k.source == Aemet && s in groups && k.externalId in groups[s]
  }

  /** The first group, in the order of the statements, that is earlier than the
      stored end of the row. */
  function FirstCut(e: Event, k: Key, order: seq<Time>, groups: map<Time, set<string>>): Option<Time> {
    if order == [] then None
    else
      var (before, last) := (FirstCut(e, k, order[..|order| - 1], groups), order[|order| - 1]);
      if before.None? && Names(groups, last, k) && OpenAt(e, last) then Some(last) else before
  }

  /** The first group that cuts a row is also its earliest: known from the ids, the
      sent times and the stored ends, before anything is closed. */
  ghost predicate CutsOnce(e: Event, k: Key, order: seq<Time>, groups: map<Time, set<string>>) {
    FirstCut(e, k, order, groups).Some? ==>
      forall s :: s in order && Names(groups, s, k) ==> FirstCut(e, k, order, groups).value <= s
  }

  ghost predicate AllCutOnce(t: Events, order: seq<Time>, groups: map<Time, set<string>>) {
    forall k :: k in t ==> CutsOnce(t[k], k, order, groups)
  }

  /** The row of an AEMET key after the groups. */
  lemma {:induction false} RowCut(t: Events, order: seq<Time>, groups: map<Time, set<string>>, now: Time, k: Key)
    requires k in t && forall s :: s in order ==> s in groups
    ensures var (t', first) := (GroupsClosed(t, order, groups, now), FirstCut(t[k], k, order, groups));
            && k in t'
            && (first.None? ==> t'[k] == t[k])
            && (first.Some? ==>
                  && OpenAt(t[k], first.value) && t'[k].endsAt.Some? && t'[k].endsAt.value <= first.value
                  && t'[k].endsAt.value in order && Names(groups, t'[k].endsAt.value, k))
            && (forall s :: s in order && Names(groups, s, k) ==> !OpenAt(t'[k], s))
  {
    if order != [] {
      var (init, last) := (order[..|order| - 1], order[|order| - 1]);
      assert order == init + [last];
      RowCut(t, init, groups, now, k);
    }
  }

  /** A row is lowered twice by the end exactly if it was before, or the last group
      lowers a row that an earlier one has lowered. */
  lemma CutsOnceStep(t: Events, order: seq<Time>, groups: map<Time, set<string>>, now: Time, k: Key)
    requires k in t && order != [] && forall s :: s in order ==> s in groups
    ensures var (init, last) := (order[..|order| - 1], order[|order| - 1]);
            var t1 := GroupsClosed(t, init, groups, now);
            var again := k in ClosedKeys(t1, Aemet, groups[last], last) && k in ChangedIn(t, t1);
            CutsOnce(t[k], k, order, groups) <==> CutsOnce(t[k], k, init, groups) && !again
  {
    var (init, last) := (order[..|order| - 1], order[|order| - 1]);
    assert order == init + [last];
    RowCut(t, init, groups, now, k);
    var first := FirstCut(t[k], k, init, groups);
    assert forall s :: s in order <==> s in init || s == last;
    hide GroupsClosed;
    if first.None? && FirstCut(t[k], k, order, groups).Some? {
      assert forall s :: s in init && Names(groups, s, k) ==> last <= s;
    }
  }

  lemma ChangedAreCut(t: Events, order: seq<Time>, groups: map<Time, set<string>>, now: Time, k: Key)
    requires k in t && forall s :: s in order ==> s in groups
    ensures k in ChangedIn(t, GroupsClosed(t, order, groups, now)) <==> FirstCut(t[k], k, order, groups).Some?
  {
    RowCut(t, order, groups, now, k);
  }

  /** The rows the last group lowers join those changed before. */
  lemma ChangedGrow(t: Events, order: seq<Time>, groups: map<Time, set<string>>, now: Time)
    requires order != [] && forall s :: s in order ==> s in groups
    ensures var (init, last) := (order[..|order| - 1], order[|order| - 1]);
            var t1 := GroupsClosed(t, init, groups, now);
            ChangedIn(t, GroupsClosed(t, order, groups, now))
                == ChangedIn(t, t1) + ClosedKeys(t1, Aemet, groups[last], last)
  {
    var (init, last) := (order[..|order| - 1], order[|order| - 1]);
    assert order == init + [last];
    var t1 := GroupsClosed(t, init, groups, now);
    var (before, here, after) :=
      (ChangedIn(t, t1), ClosedKeys(t1, Aemet, groups[last], last), ChangedIn(t, GroupsClosed(t, order, groups, now)));
    GroupsKeepKeys(t, init, groups, now);
    forall k | k in t ensures k in after <==> k in before || k in here {
      ChangedAreCut(t, order, groups, now, k);
      ChangedAreCut(t, init, groups, now, k);
      RowCut(t, init, groups, now, k);
      hide GroupsClosed;
    }
    assert forall k :: k in before || k in here || k in after ==> k in t;
  }

  /** The statements report every row they change at least once, and exactly once
      each if and only if the first group that cuts a row is also its earliest. */
  lemma {:induction false} CountIsExactIff(t: Events, order: seq<Time>, groups: map<Time, set<string>>, now: Time)
    requires forall s :: s in order ==> s in groups
    ensures var (count, changed) :=
        (GroupsCount(t, order, groups, now), |ChangedIn(t, GroupsClosed(t, order, groups, now))|);
            count >= changed && (count == changed <==> AllCutOnce(t, order, groups))
  {
    if order == [] {
      assert ChangedIn(t, t) == {};
    } else {
      var (init, last) := (order[..|order| - 1], order[|order| - 1]);
      CountIsExactIff(t, init, groups, now);
      var t1 := GroupsClosed(t, init, groups, now);
      var (before, here) := (ChangedIn(t, t1), ClosedKeys(t1, Aemet, groups[last], last));
      GroupsKeepKeys(t, init, groups, now);
      ChangedGrow(t, order, groups, now);
      assert GroupsCount(t, order, groups, now) == GroupsCount(t, init, groups, now) + |here|;
      forall k | k in t
        ensures CutsOnce(t[k], k, order, groups) <==> CutsOnce(t[k], k, init, groups) && k !in before * here
      {
        CutsOnceStep(t, order, groups, now, k);
      }
      assert forall k :: k in here ==> k in t;
      hide GroupsClosed, GroupsCount, CutsOnce, ClosedKeys, ChangedIn;
      assert |before + here| == |before| + |here| - |before * here|;
      assert |before * here| == 0 <==> before * here == {};
    }
  }

  /** The same of a bulletin, whose groups run in the order of its messages. */
  lemma SupersededCountIsExactIff(t: Events, ws: seq<Warning>, now: Time)
    ensures var (count, changed) := (SupersededCount(t, ws, now), |ChangedIn(t, Closings(t, ws, {}, now))|);
            count >= changed && (count == changed <==> AllCutOnce(t, SentOrder(ws), BySent(ws)))
  {
    DictHoldsReferences(ws);
    GroupsAreClosings(t, ws, SentOrder(ws), BySent(ws), now);
    CountIsExactIff(t, SentOrder(ws), BySent(ws), now);
  }

  /** No row both superseded and vanished ends later than the mark when its turn as
      vanished comes. */
  ghost predicate VanishedOnce(t: Events, ws: seq<Warning>, vanished: set<string>, at: Time) {
    forall k | k in t && k.source == Aemet && k.externalId in vanished && CutOf(ws, k.externalId).Some? ::
      OpenAt(t[k], CutOf(ws, k.externalId).value) ==> CutOf(ws, k.externalId).value <= at
  }

  /** The number a sync reports as closed is the number of rows its closing phase
      changes exactly under both conditions; it is never less. */
  lemma ReportedIsExactIff(t: Events, previous: set<string>, ws: seq<Warning>, at: Time)
    requires Readable(ws)
    ensures var (up, vanished) := (Upserted(t, BatchOf(ws), at), previous - IdsOf(Ingested(ws)));
            var (closed, changed) := (SyncCounts(t, previous, ws, at).2, |ChangedIn(up, Synced(t, previous, ws, at))|);
            && closed >= changed
            && (closed == changed <==> AllCutOnce(up, SentOrder(ws), BySent(ws)) && VanishedOnce(up, ws, vanished, at))
  {
    hide Upserted, BatchOf, Ingested, IdsOf, Readable, NewKeys, ChangedKeys, AllCutOnce, SupersededCount;
    var (up, vanished) := (Upserted(t, BatchOf(ws), at), previous - IdsOf(Ingested(ws)));
    var t1 := Closings(up, ws, {}, at);
    var (before, here) := (ChangedIn(up, t1), ClosedKeys(t1, Aemet, vanished, at));
    SupersededCountIsExactIff(up, ws, at);
    ClosingPhase(up, ws, vanished, at);
    VanishedJoin(up, ws, vanished, at);
    hide Closings, ClosedKeys, ChangedIn, VanishedOnce, Closed;
    assert |before + here| == |before| + |here| - |before * here|;
    assert |before * here| == 0 <==> before * here == {};
  }

  lemma VanishedJoin(t: Events, ws: seq<Warning>, vanished: set<string>, at: Time)
    ensures var t1 := Closings(t, ws, {}, at);
            var (before, here) := (ChangedIn(t, t1), ClosedKeys(t1, Aemet, vanished, at));
            && ChangedIn(t, Closings(t, ws, vanished, at)) == before + here
            && (before * here == {} <==> VanishedOnce(t, ws, vanished, at))
  {
    hide CutOf;
    var t1 := Closings(t, ws, {}, at);
    var (before, here) := (ChangedIn(t, t1), ClosedKeys(t1, Aemet, vanished, at));
    forall k | k in t && k.source == Aemet
      ensures k in before <==> CutOf(ws, k.externalId).Some? && OpenAt(t[k], CutOf(ws, k.externalId).value)
      ensures k in before * here <==>
                && k.externalId in vanished && CutOf(ws, k.externalId).Some?
                && OpenAt(t[k], CutOf(ws, k.externalId).value) && CutOf(ws, k.externalId).value > at
    {
    }
    assert forall k :: k in before ==> k in t && k.source == Aemet;
    if before * here == {} {
      forall k | k in t && k.source == Aemet ensures k !in before * here {}
    }
  }

  /** Two bulletins with the same two messages about one stored warning: they leave
      the same table, but report two rows closed when the later message comes first
      and one when the earlier does. */
  lemma CountDependsOnOrder(e: Event, late: Warning, early: Warning, id: string, now: Time)
    requires late.msgType == Update && early.msgType == Update && late.references == {id} == early.references
    requires early.sent < late.sent && OpenAt(e, late.sent)
    ensures var t := map[Key(Aemet, id) := e];
            && SupersededCount(t, [late, early], now) == 2 && SupersededCount(t, [early, late], now) == 1
            && Closings(t, [late, early], {}, now) == Closings(t, [early, late], {}, now)
  {
    var (t, k) := (map[Key(Aemet, id) := e], Key(Aemet, id));
    TwoMessages(late, early, id);
    TwoMessages(early, late, id);
    var groups := map[late.sent := {id}, early.sent := {id}];
    assert groups == map[early.sent := {id}, late.sent := {id}];
    TwoGroups(t, k, groups, late.sent, early.sent, now);
    TwoGroups(t, k, groups, early.sent, late.sent, now);
    DictHoldsReferences([late, early]);
    DictHoldsReferences([early, late]);
    GroupsAreClosings(t, [late, early], [late.sent, early.sent], groups, now);
    GroupsAreClosings(t, [early, late], [early.sent, late.sent], groups, now);
    hide GroupsClosed, GroupsCount, Closings, SentOrder, BySent;
    OrderGivesOneTable(t, k, groups, late.sent, early.sent, now);
  }

  lemma TwoMessages(a: Warning, b: Warning, id: string)
    requires a.msgType == Update && b.msgType == Update && a.references == {id} == b.references && a.sent != b.sent
    ensures SentOrder([a, b]) == [a.sent, b.sent] && BySent([a, b]) == map[a.sent := {id}, b.sent := {id}]
  {
    assert [a, b][..1] == [a] && [a][..0] == [];
    assert id in a.references && id in b.references && {} + a.references == {id} && {} + b.references == {id};
    assert Supersedes(a) && Supersedes(b);
    assert SentOrder([a]) == [a.sent] && BySent([a]) == map[a.sent := {id}];
  }

  lemma TwoGroups(t: Events, k: Key, groups: map<Time, set<string>>, p: Time, q: Time, now: Time)
    requires t.Keys == {k} && k.source == Aemet && p != q && p in groups && q in groups
    requires groups[p] == {k.externalId} == groups[q] && OpenAt(t[k], p) && OpenAt(t[k], q)
    ensures GroupsCount(t, [p, q], groups, now) == if q < p then 2 else 1
  {
    assert [p, q][..1] == [p] && [p][..0] == [];
    var t1 := Closed(t, Aemet, groups[p], p, now);
    assert ClosedKeys(t, Aemet, groups[p], p) == {k};
    assert ClosedKeys(t1, Aemet, groups[q], q) == if q < p then {k} else {};
    assert GroupsClosed(t, [p], groups, now) == t1;
    assert GroupsCount(t, [p], groups, now) == 1;
  }

  lemma OrderGivesOneTable(t: Events, k: Key, groups: map<Time, set<string>>, p: Time, q: Time, now: Time)
    requires t.Keys == {k} && p in groups && q in groups
    ensures GroupsClosed(t, [p, q], groups, now) == GroupsClosed(t, [q, p], groups, now)
  {
    assert [p, q][..1] == [p] && [p][..0] == [] && [q, p][..1] == [q] && [q][..0] == [];
    assert GroupsClosed(t, [p], groups, now) == Closed(t, Aemet, groups[p], p, now);
    assert GroupsClosed(t, [q], groups, now) == Closed(t, Aemet, groups[q], q, now);
  }
}
