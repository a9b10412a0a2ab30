/**
 The repository of hazard events: chunked upsert and monotone close
 (app/hazards/repos/hazard_event.py).
 */
module HazardEvents {
  import opened Common
  import opened EpisodeRule
  import opened HazardTables

  /** asyncpg's bound on the arguments of one statement. */
  const MAX_ARGS: nat := 32767

  ghost predicate DistinctKeys(rs: seq<Record>) { forall i, j :: 0 <= i < j < |rs| ==> rs[i].key != rs[j].key }

  function IndexOf(rs: seq<Record>, k: Key): (i: nat)
    ensures i <= |rs|
    ensures i < |rs| ==> rs[i].key == k
    ensures forall j :: 0 <= j < i ==> rs[j].key != k
  {
    if rs == [] then 0
    else
      var i := IndexOf(rs[..|rs| - 1], k);
      if i < |rs| - 1 || rs[|rs| - 1].key == k then i else |rs|
  }

  /** `d[key] = r` on a Python dict: a known key keeps its place. */
  function DictSet(d: seq<Record>, r: Record): seq<Record> {
    var i := IndexOf(d, r.key);
    if i < |d| then d[i := r] else d + [r]
  }

  /** A dict filled from the rows, then its values. */
  function Deduped(rs: seq<Record>): seq<Record> {
    if rs == [] then [] else DictSet(Deduped(rs[..|rs| - 1]), rs[|rs| - 1])
  }

  class HazardEventRepo {
    const session: Session
    const columns: nat

    constructor (session: Session, columns: nat)
      ensures this.session == session && this.columns == columns
    {
      this.session, this.columns := session, columns;
    }

    /** The statement as the database takes it: the requires are its demands. */
    method Execute(chunk: seq<Record>, now: Time) returns (inserted: nat, updated: nat)
      requires |chunk| * columns <= MAX_ARGS
      requires DistinctKeys(chunk)
      modifies session
      ensures session.events == Upserted(old(session.events), chunk, now)
      ensures inserted == |NewKeys(old(session.events), chunk)| && updated == |ChangedKeys(old(session.events), chunk)|
      ensures session.states == old(session.states) && session.published == old(session.published)
    {
      inserted, updated := |NewKeys(session.events, chunk)|, |ChangedKeys(session.events, chunk)|;
      session.events := Upserted(session.events, chunk, now);
    }

    method Dedupe(rows: seq<Record>) returns (unique: seq<Record>)
      ensures unique == Deduped(rows)
    {
      unique := [];
      for n := 0 to |rows|
        invariant unique == Deduped(rows[..n])
      {
        assert rows[..n + 1][..n] == rows[..n];
        unique := DictSet(unique, rows[n]);
      }
      assert rows[..|rows|] == rows;
    }

    /** Every row judged at once against the table before, by its last occurrence. */
    method UpsertBatch(rows: seq<Record>, now: Time) returns (inserted: nat, updated: nat)
      requires 1 <= columns <= MAX_ARGS
      modifies session
      ensures session.events == Upserted(old(session.events), rows, now)
      ensures inserted == |NewKeys(old(session.events), rows)| && updated == |ChangedKeys(old(session.events), rows)|
      ensures session.states == old(session.states) && session.published == old(session.published)
    {
      if rows == [] {
        NoRows(session.events, now);
        return 0, 0;
      }
      var unique := Dedupe(rows);
      DedupeKeepsLast(rows);
      SameLastSameUpsert(session.events, rows, unique, now);
      var chunkRows := MAX_ARGS / columns;
      FitsInOneStatement(columns);
      inserted, updated := UpsertChunks(unique, chunkRows, now);
    }

    /** The loop over chunks. */
    method UpsertChunks(unique: seq<Record>, chunkRows: nat, now: Time) returns (inserted: nat, updated: nat)
      requires DistinctKeys(unique) && chunkRows >= 1 && chunkRows * columns <= MAX_ARGS
      modifies session
      ensures session.events == Upserted(old(session.events), unique, now)
      ensures inserted == |NewKeys(old(session.events), unique)|
          && updated == |ChangedKeys(old(session.events), unique)|
      ensures session.states == old(session.states) && session.published == old(session.published)
    {
      ghost var before := session.events;
      inserted, updated := 0, 0;
      var start := 0;
      assert unique[..0] == [];
      NoRows(before, now);
      hide *;
      while start < |unique|
        invariant 0 <= start <= |unique|
        invariant session.events == Upserted(before, unique[..start], now)
        invariant inserted == |NewKeys(before, unique[..start])| && updated == |ChangedKeys(before, unique[..start])|
        invariant session.states == old(session.states) && session.published == old(session.published)
      {
        var end := if start + chunkRows < |unique| then start + chunkRows else |unique|;
        var chunk := unique[start..end];
        FewerRowsFit(|chunk|, chunkRows, columns);
        assert unique[..end] == unique[..start] + chunk;
        PrefixDistinct(unique, end);
        NextChunk(before, unique[..start], chunk, now);
        var added, changed := Execute(chunk, now);
        inserted, updated := inserted + added, updated + changed;
        start := end;
      }
      assert unique[..start] == unique;
    }

    method CloseEvents(source: Source, ids: set<string>, endedAt: Time, now: Time) returns (closed: nat)
      modifies session
      ensures session.events == Closed(old(session.events), source, ids, endedAt, now)
      ensures closed == |ClosedKeys(old(session.events), source, ids, endedAt)|
          == |ChangedIn(old(session.events), session.events)|
      ensures forall k :: k in session.events && k.source == source && k.externalId in ids ==>
                            session.events[k].endsAt == Earliest(old(session.events)[k].endsAt, Some(endedAt))
      ensures session.states == old(session.states) && session.published == old(session.published)
    {
      ClosedLowers(session.events, source, ids, endedAt, now);
      if ids == {} {
        assert ClosedKeys(session.events, source, ids, endedAt) == {};
        assert session.events == Closed(session.events, source, ids, endedAt, now);
        return 0;
      }
      closed := |ClosedKeys(session.events, source, ids, endedAt)|;
      session.events := Closed(session.events, source, ids, endedAt, now);
    }
  }

  // ----- The chunks -----

  lemma PrefixDistinct(rs: seq<Record>, n: nat)
    requires DistinctKeys(rs) && n <= |rs|
    ensures DistinctKeys(rs[..n])
  {
  }

  lemma FitsInOneStatement(columns: nat)
    requires 1 <= columns <= MAX_ARGS
    ensures 1 <= MAX_ARGS / columns && (MAX_ARGS / columns) * columns <= MAX_ARGS
  {
  }

  lemma FewerRowsFit(rows: nat, chunkRows: nat, columns: nat)
    requires rows <= chunkRows && chunkRows * columns <= MAX_ARGS
    ensures rows * columns <= MAX_ARGS
  {
  }

  lemma NoRows(t: Events, now: Time)
    ensures Upserted(t, [], now) == t && NewKeys(t, []) == {} && ChangedKeys(t, []) == {}
  {
  }

  lemma {:induction false} LastOfConcat(a: seq<Record>, b: seq<Record>, k: Key)
    ensures LastOf(a + b, k) == if LastOf(b, k).Some? then LastOf(b, k) else LastOf(a, k)
  {
    if b == [] {
      assert a + b == a;
    } else {
      assert (a + b)[..|a + b| - 1] == a + b[..|b| - 1];
      LastOfConcat(a, b[..|b| - 1], k);
    }
  }

  /** Two chunks without a common key, one after the other, are one statement. */
  lemma NextChunk(t: Events, a: seq<Record>, b: seq<Record>, now: Time)
    requires DistinctKeys(a + b)
    ensures DistinctKeys(b)
    ensures Upserted(Upserted(t, a, now), b, now) == Upserted(t, a + b, now)
    ensures |NewKeys(t, a + b)| == |NewKeys(t, a)| + |NewKeys(Upserted(t, a, now), b)|
    ensures |ChangedKeys(t, a + b)| == |ChangedKeys(t, a)| + |ChangedKeys(Upserted(t, a, now), b)|
  {
    ConcatFacts(a, b);
    KeysDisjoint(a, b);
    hide *;
    ChunkCounts(t, a, b, now);
    ChunkRows(t, a, b, now);
  }

  lemma ConcatFacts(a: seq<Record>, b: seq<Record>)
    ensures KeysOf(a + b) == KeysOf(a) + KeysOf(b)
    ensures forall k :: LastOf(a + b, k) == if LastOf(b, k).Some? then LastOf(b, k) else LastOf(a, k)
    ensures forall k :: LastOf(a, k).Some? <==> k in KeysOf(a)
    ensures forall k :: LastOf(b, k).Some? <==> k in KeysOf(b)
  {
    forall k ensures LastOf(a + b, k) == if LastOf(b, k).Some? then LastOf(b, k) else LastOf(a, k) {
      LastOfConcat(a, b, k);
    }
    forall k ensures LastOf(a, k).Some? <==> k in KeysOf(a) { LastOfKey(a, k); }
    forall k ensures LastOf(b, k).Some? <==> k in KeysOf(b) { LastOfKey(b, k); }
  }

  lemma ChunkRows(t: Events, a: seq<Record>, b: seq<Record>, now: Time)
    requires KeysOf(a) !! KeysOf(b) && KeysOf(a + b) == KeysOf(a) + KeysOf(b)
    requires forall k :: LastOf(a + b, k) == if LastOf(b, k).Some? then LastOf(b, k) else LastOf(a, k)
    requires forall k :: LastOf(a, k).Some? <==> k in KeysOf(a)
    requires forall k :: LastOf(b, k).Some? <==> k in KeysOf(b)
    ensures Upserted(Upserted(t, a, now), b, now) == Upserted(t, a + b, now)
  {
    hide LastOf, KeysOf, Differs, Written;
  }

  lemma KeysDisjoint(a: seq<Record>, b: seq<Record>)
    requires DistinctKeys(a + b)
    ensures KeysOf(a) !! KeysOf(b) && DistinctKeys(b)
  {
    forall i, j | 0 <= i < |a| && 0 <= j < |b| ensures a[i].key != b[j].key {
      assert (a + b)[i] == a[i] && (a + b)[|a| + j] == b[j];
    }
    forall i, j | 0 <= i < j < |b| ensures b[i].key != b[j].key {
      assert (a + b)[|a| + i] == b[i] && (a + b)[|a| + j] == b[j];
    }
  }

  lemma ChunkCounts(t: Events, a: seq<Record>, b: seq<Record>, now: Time)
    requires KeysOf(a) !! KeysOf(b) && KeysOf(a + b) == KeysOf(a) + KeysOf(b)
    requires forall k :: LastOf(a + b, k) == if LastOf(b, k).Some? then LastOf(b, k) else LastOf(a, k)
    requires forall k :: LastOf(a, k).Some? <==> k in KeysOf(a)
    requires forall k :: LastOf(b, k).Some? <==> k in KeysOf(b)
    ensures |NewKeys(t, a + b)| == |NewKeys(t, a)| + |NewKeys(Upserted(t, a, now), b)|
    ensures |ChangedKeys(t, a + b)| == |ChangedKeys(t, a)| + |ChangedKeys(Upserted(t, a, now), b)|
  {
    var t1 := Upserted(t, a, now);
    hide LastOf, KeysOf, Differs, Written;
    assert forall k :: k in KeysOf(b) ==> (k in t1 <==> k in t) && (k in t ==> t1[k] == t[k]);
    hide Upserted;
    forall k ensures k in ChangedKeys(t, a + b) <==> k in ChangedKeys(t, a) || k in ChangedKeys(t1, b) {}
    assert NewKeys(t, a + b) == NewKeys(t, a) + NewKeys(t1, b) && NewKeys(t, a) !! NewKeys(t1, b);
    assert ChangedKeys(t, a) !! ChangedKeys(t1, b);
    hide NewKeys, ChangedKeys;
    assert ChangedKeys(t, a + b) == ChangedKeys(t, a) + ChangedKeys(t1, b);
  }

  // ----- The dict -----

  /** Deduplication keeps exactly the last record of every key, once. */
  lemma {:induction false} DedupeKeepsLast(rs: seq<Record>)
    ensures DistinctKeys(Deduped(rs)) && KeysOf(Deduped(rs)) == KeysOf(rs)
    ensures forall k :: LastOf(Deduped(rs), k) == LastOf(rs, k)
    ensures |Deduped(rs)| == |KeysOf(rs)|
  {
    if rs != [] {
      var (init, r) := (rs[..|rs| - 1], rs[|rs| - 1]);
      DedupeKeepsLast(init);
      assert rs == init + [r];
      assert KeysOf(rs) == KeysOf(init) + {r.key};
      DictWrite(Deduped(init), r);
      hide KeysOf, DistinctKeys, DictSet;
    }
  }

  lemma DictWrite(d: seq<Record>, r: Record)
    requires DistinctKeys(d)
    ensures DistinctKeys(DictSet(d, r)) && KeysOf(DictSet(d, r)) == KeysOf(d) + {r.key}
    ensures forall k :: LastOf(DictSet(d, r), k) == if k == r.key then Some(r) else LastOf(d, k)
    ensures |DictSet(d, r)| == if r.key in KeysOf(d) then |d| else |d| + 1
  {
    var i := IndexOf(d, r.key);
    var d' := DictSet(d, r);
    if i < |d| {
      assert forall j :: 0 <= j < |d| && j != i ==> d'[j] == d[j];
      SameKeys(d, d');
      forall k ensures LastOf(d', k) == if k == r.key then Some(r) else LastOf(d, k) {
        LastOfKey(d, k);
        LastOfKey(d', k);
        var j := IndexOf(d, k);
        if j < |d| {
          OnlyOne(d, j);
          OnlyOne(d', j);
        }
      }
    } else {
      assert d'[..|d|] == d;
    }
  }

  lemma SameKeys(d: seq<Record>, d': seq<Record>)
    requires |d| == |d'| && forall j :: 0 <= j < |d| ==> d'[j].key == d[j].key
    ensures KeysOf(d') == KeysOf(d)
  {
    forall r | r in d ensures r.key in KeysOf(d') {
      var j :| 0 <= j < |d| && d[j] == r;
      assert d'[j] in d';
    }
    forall r | r in d' ensures r.key in KeysOf(d) {
      var j :| 0 <= j < |d| && d'[j] == r;
      assert d[j] in d;
    }
  }

  lemma {:induction false} OnlyOne(rs: seq<Record>, i: nat)
    requires DistinctKeys(rs) && i < |rs|
    ensures LastOf(rs, rs[i].key) == Some(rs[i])
  {
    if i < |rs| - 1 { OnlyOne(rs[..|rs| - 1], i); }
  }

  lemma SameLastSameUpsert(t: Events, a: seq<Record>, b: seq<Record>, now: Time)
    requires KeysOf(a) == KeysOf(b) && forall k :: LastOf(a, k) == LastOf(b, k)
    ensures Upserted(t, a, now) == Upserted(t, b, now) && NewKeys(t, a) == NewKeys(t, b)
        && ChangedKeys(t, a) == ChangedKeys(t, b)
  {
    hide LastOf, KeysOf, Written, Differs;
  }

  // ----- One row at a time -----

  datatype Tally = Tally(events: Events, inserted: nat, updated: nat)

  /** The plain upsert of a single record. */
  function UpsertOne(s: Tally, r: Record, now: Time): Tally {
    if r.key !in s.events then
      Tally(s.events[r.key := Event(r.body, r.endsAt, r.hash, now, None)], s.inserted + 1, s.updated)
    else if s.events[r.key].hash != r.hash || s.events[r.key].endsAt != r.endsAt then
      Tally(s.events[r.key := Event(r.body, r.endsAt, r.hash, s.events[r.key].createdAt, Some(now))], s.inserted,
          s.updated + 1)
    else s
  }

  function OneByOne(t: Events, rs: seq<Record>, now: Time): Tally {
    if rs == [] then Tally(t, 0, 0) else UpsertOne(OneByOne(t, rs[..|rs| - 1], now), rs[|rs| - 1], now)
  }

  lemma OneIsAStatement(s: Tally, r: Record, now: Time)
    ensures UpsertOne(s, r, now) == Tally(
              Upserted(s.events, [r], now),
              s.inserted + |NewKeys(s.events, [r])|, s.updated + |ChangedKeys(s.events, [r])|)
  {
    SingletonFacts(s.events, r);
    UpsertedSingle(s.events, r, now);
    hide KeysOf, LastOf, NewKeys, ChangedKeys, Upserted;
    if r.key in s.events && !Differs(s.events[r.key], r) {
      assert s.events[r.key := s.events[r.key]] == s.events;
    }
  }

  lemma UpsertedSingle(t: Events, r: Record, now: Time)
    ensures Upserted(t, [r], now) == t[r.key := Written(At(t, r.key), r, now)]
  {
    SingletonFacts(t, r);
    hide KeysOf, LastOf, Written;
  }

  lemma SingletonFacts(t: Events, r: Record)
    ensures KeysOf([r]) == {r.key} && forall k :: LastOf([r], k) == if k == r.key then Some(r) else None
    ensures NewKeys(t, [r]) == if r.key in t then {} else {r.key}
    ensures ChangedKeys(t, [r]) == if r.key in t && Differs(t[r.key], r) then {r.key} else {}
  {
  }

  lemma {:induction false} DistinctOneByOne(t: Events, rs: seq<Record>, now: Time)
    requires DistinctKeys(rs)
    ensures OneByOne(t, rs, now) == Tally(Upserted(t, rs, now), |NewKeys(t, rs)|, |ChangedKeys(t, rs)|)
  {
    if rs == [] {
      NoRows(t, now);
    } else {
      var (init, r) := (rs[..|rs| - 1], rs[|rs| - 1]);
      assert rs == init + [r];
      PrefixDistinct(rs, |init|);
      DistinctOneByOne(t, init, now);
      OneIsAStatement(OneByOne(t, init, now), r, now);
      NextChunk(t, init, [r], now);
    }
  }

  /** The deduplicated, chunked upsert is the upsert, one at a time, of the last
      occurrence of each key, in rows and in counts. */
  lemma BatchIsOneByOne(t: Events, rs: seq<Record>, now: Time)
    ensures OneByOne(t, Deduped(rs), now) == Tally(Upserted(t, rs, now), |NewKeys(t, rs)|, |ChangedKeys(t, rs)|)
  {
    DedupeKeepsLast(rs);
    DistinctOneByOne(t, Deduped(rs), now);
    SameLastSameUpsert(t, rs, Deduped(rs), now);
  }

  /** A batch served again changes nothing and counts (0, 0). */
  lemma RepeatIsNoOp(t: Events, rs: seq<Record>, now: Time, later: Time)
    ensures var t1 := Upserted(t, rs, now);
            Upserted(t1, rs, later) == t1 && NewKeys(t1, rs) == {} && ChangedKeys(t1, rs) == {}
  {
    forall k ensures LastOf(rs, k).Some? <==> k in KeysOf(rs) { LastOfKey(rs, k); }
    hide LastOf, KeysOf;
  }

  /** A served record is in the table with the served window and content, reopened
      if need be; nothing else moves. */
  lemma ServedIsStored(t: Events, rs: seq<Record>, now: Time, k: Key)
    ensures var t' := Upserted(t, rs, now);
            if k in KeysOf(rs) then
              && LastOf(rs, k).Some? && k in t'
              && t'[k].endsAt == LastOf(rs, k).value.endsAt && t'[k].hash == LastOf(rs, k).value.hash
              && (k in t ==> t'[k].createdAt == t[k].createdAt)
            else At(t', k) == At(t, k)
  {
    LastOfKey(rs, k);
  }

  // ----- Closing -----

  function Earliest(a: Option<Time>, b: Option<Time>): Option<Time> {
    match (a, b)
    case (None, _) => b
    case (_, None) => a
    case (Some(x), Some(y)) => Some(Min(x, y))
  }

  /** Closings commute and add up to the earliest. */
  lemma LoweredTwice(e: Event, a: Option<Time>, b: Option<Time>, now: Time)
    ensures Lowered(Lowered(e, a, now), b, now) == Lowered(e, Earliest(a, b), now)
    ensures Lowered(Lowered(e, a, now), b, now) == Lowered(Lowered(e, b, now), a, now)
  {
  }

  /** The rows that a statement which adds and removes none has changed. */
  function ChangedIn(t: Events, t': Events): set<Key> { set k | k in t && k in t' && t'[k] != t[k] }

  lemma ClosedLowers(t: Events, source: Source, ids: set<string>, at: Time, now: Time)
    ensures Closed(t, source, ids, at, now) ==
            map k | k in t :: Lowered(t[k], if k.source == source && k.externalId in ids then Some(at) else None, now)
    ensures ClosedKeys(t, source, ids, at) == ChangedIn(t, Closed(t, source, ids, at, now))
    ensures ClosedKeys(t, source, ids, at) == {} <==> Closed(t, source, ids, at, now) == t
  {
    var t' := Closed(t, source, ids, at, now);
    assert forall k :: k in ClosedKeys(t, source, ids, at) ==> t'[k].endsAt != t[k].endsAt;
    if ClosedKeys(t, source, ids, at) == {} {
      forall k | k in t ensures t'[k] == t[k] {
        assert k !in ClosedKeys(t, source, ids, at);
      }
    } else {
      var k :| k in ClosedKeys(t, source, ids, at);
      assert t'[k].endsAt != t[k].endsAt;
    }
  }

  // ----- The mark of a batch -----

  predicate Stamped(e: Event, mark: Time) { e.createdAt == mark || e.updatedAt == Some(mark) }

  /** Rows only appear or change, and those that do bear the mark. */
  ghost predicate Stamps(t: Events, t': Events, mark: Time) {
    && (forall k :: k in t ==> k in t')
    && (forall k :: k in t' ==> (k in t && t'[k] == t[k]) || Stamped(t'[k], mark))
  }

  lemma StampsTransitive(a: Events, b: Events, c: Events, mark: Time)
    requires Stamps(a, b, mark) && Stamps(b, c, mark)
    ensures Stamps(a, c, mark)
  {
  }

  lemma UpsertStamps(t: Events, rs: seq<Record>, mark: Time)
    ensures Stamps(t, Upserted(t, rs, mark), mark)
    ensures NewKeys(t, rs) == {} && ChangedKeys(t, rs) == {} <==> Upserted(t, rs, mark) == t
  {
    var t' := Upserted(t, rs, mark);
    forall k ensures LastOf(rs, k).Some? <==> k in KeysOf(rs) { LastOfKey(rs, k); }
    hide LastOf, KeysOf;
    if NewKeys(t, rs) == {} && ChangedKeys(t, rs) == {} {
      forall k | k in t' ensures k in t && t'[k] == t[k] {
        assert k !in NewKeys(t, rs) && k !in ChangedKeys(t, rs);
      }
    } else if k :| k in NewKeys(t, rs) {
      assert k in t' && k !in t;
    } else {
      var k :| k in ChangedKeys(t, rs);
      assert t'[k].hash != t[k].hash || t'[k].endsAt != t[k].endsAt;
    }
  }

  lemma CloseStamps(t: Events, source: Source, ids: set<string>, at: Time, mark: Time)
    ensures Stamps(t, Closed(t, source, ids, at, mark), mark)
  {
  }

  /** With a fresh mark, the rows that bear it are exactly those the batch
      inserted, updated or closed. */
  lemma FreshMarkIsExact(t: Events, t': Events, mark: Time)
    requires Stamps(t, t', mark) && forall k :: k in t ==> !Stamped(t[k], mark)
    ensures forall k :: k in t' ==> (Stamped(t'[k], mark) <==> k !in t || t'[k] != t[k])
  {
  }
}
