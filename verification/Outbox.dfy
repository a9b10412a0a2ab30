/**
 The transactional outbox: dispatch with per-handler state, retries and dead
 letters (app/core/events/dispatcher.py, app/core/events/worker.py).
 */
module Outbox {
  import opened Common

  datatype HandlerResult = HandlerResult(name: string, success: bool, skipped: bool)

  datatype Entry = Entry(ok: bool, at: Time)

  datatype EventStatus = Pending | Processed | Failed

  /** A row of outbox_events. */
  datatype Row = Row(
    eventType: string, status: EventStatus, retryCount: nat, maxRetries: int,
    scheduledAt: Time, processedAt: Option<Time>, state: map<string, Entry>)

  const MAX_BACKOFF_SECONDS: Time := 3600

  predicate AllSucceeded(rs: seq<HandlerResult>) { rs != [] && forall r :: r in rs ==> r.success }

  function ResultOf(name: string, completed: set<string>, raises: bool): HandlerResult {
    if name in completed then HandlerResult(name, true, true) else HandlerResult(name, !raises, false)
  }

  /** What a dispatch to the handlers `names` reports; `raises` tells which of the
      handlers actually called raise or time out. */
  function Dispatched(names: seq<string>, completed: set<string>, raises: seq<bool>): seq<HandlerResult>
    requires |raises| == |names|
  {
    seq(|names|, i requires 0 <= i < |names| => ResultOf(names[i], completed, raises[i]))
  }

  /** The handlers a dispatch calls: those not completed, in order. */
  function CalledOf(names: seq<string>, completed: set<string>): seq<string> {
    if names == [] then []
    else
      var last := names[|names| - 1];
      CalledOf(names[..|names| - 1], completed) + if last in completed then [] else [last]
  }

  function Completed(state: map<string, Entry>): set<string> { set n | n in state && state[n].ok }

  function Merged(state: map<string, Entry>, rs: seq<HandlerResult>, now: Time): map<string, Entry> {
    if rs == [] then state
    else
      var before := Merged(state, rs[..|rs| - 1], now);
      var r := rs[|rs| - 1];
      if r.skipped then before else before[r.name := Entry(r.success, now)]
  }

  function Handled(row: Row, rs: seq<HandlerResult>, now: Time, jitter: nat): Row {
    var row1 := row.(state := Merged(row.state, rs, now));
    if AllSucceeded(rs) then row1.(status := Processed, processedAt := Some(now))
    else
      var row2 := row1.(retryCount := row.retryCount + 1);
      if row2.retryCount >= row.maxRetries then row2.(status := Failed)
      else row2.(scheduledAt := now + Min(Pow2(row2.retryCount) + jitter, MAX_BACKOFF_SECONDS))
  }

  function HandlersOf(handlers: map<string, seq<string>>, eventType: string): seq<string> {
    if eventType in handlers then handlers[eventType] else []
  }

  class EventDispatcher {
    var handlers: map<string, seq<string>>

    constructor ()
      ensures handlers == map[]
    {
      handlers := map[];
    }

    method Register(eventType: string, name: string)
      modifies this
      ensures handlers.Keys == old(handlers).Keys + {eventType}
      ensures handlers[eventType] == HandlersOf(old(handlers), eventType) + [name]
      ensures forall t :: t in old(handlers) && t != eventType ==> handlers[t] == old(handlers)[t]
    {
      var before := if eventType in handlers then handlers[eventType] else [];
      handlers := handlers[eventType := before + [name]];
    }

    /** The handlers of an event, each in its own try: one that raises does not
        stop the next, one already completed is not called. */
    method Dispatch(eventType: string, completed: set<string>, raises: seq<bool>)
      returns (results: seq<HandlerResult>, called: seq<string>)
      requires |raises| == |HandlersOf(handlers, eventType)|
      ensures results == Dispatched(HandlersOf(handlers, eventType), completed, raises)
      ensures called == CalledOf(HandlersOf(handlers, eventType), completed)
    {
      results, called := [], [];
      var names := HandlersOf(handlers, eventType);
      if names == [] { return; }
      for i := 0 to |names|
        invariant |results| == i
        invariant forall j :: 0 <= j < i ==> results[j] == ResultOf(names[j], completed, raises[j])
        invariant called == CalledOf(names[..i], completed)
      {
        assert names[..i + 1][..i] == names[..i];
        if names[i] in completed {
          results := results + [HandlerResult(names[i], true, true)];
          continue;
        }
        called := called + [names[i]];
        results := results + [HandlerResult(names[i], !raises[i], false)];
      }
      assert names[..|names|] == names;
    }
  }

  /** An outbox event while a worker holds its row. */
  class OutboxEvent {
    var eventType: string
    var status: EventStatus
    var retryCount: nat
    var maxRetries: int
    var scheduledAt: Time
    var processedAt: Option<Time>
    var handlerState: map<string, Entry>

    constructor (row: Row)
      ensures AsRow() == row
    {
      eventType, status, retryCount, maxRetries := row.eventType, row.status, row.retryCount, row.maxRetries;
      scheduledAt, processedAt, handlerState := row.scheduledAt, row.processedAt, row.state;
    }

    function AsRow(): Row
      reads this
    {
      Row(eventType, status, retryCount, maxRetries, scheduledAt, processedAt, handlerState)
    }
  }

  class OutboxWorker {
    const dispatcher: EventDispatcher

    constructor (dispatcher: EventDispatcher)
      ensures this.dispatcher == dispatcher
    {
      this.dispatcher := dispatcher;
    }

    method HandleEvent(event: OutboxEvent, raises: seq<bool>, now: Time, jitter: nat) returns (called: seq<string>)
      requires |raises| == |HandlersOf(dispatcher.handlers, event.eventType)|
      modifies event
      ensures var names := HandlersOf(dispatcher.handlers, old(event.eventType));
              var completed := Completed(old(event.handlerState));
              && event.AsRow() == Handled(old(event.AsRow()), Dispatched(names, completed, raises), now, jitter)
              && called == CalledOf(names, completed)
    {
      var completed := Completed(event.handlerState);
      var results;
      results, called := dispatcher.Dispatch(event.eventType, completed, raises);
      var newState := event.handlerState;
      for i := 0 to |results|
        invariant newState == Merged(event.handlerState, results[..i], now)
        invariant event.AsRow() == old(event.AsRow())
      {
        assert results[..i + 1][..i] == results[..i];
        if results[i].skipped { continue; }
        newState := newState[results[i].name := Entry(results[i].success, now)];
      }
      assert results[..|results|] == results;
      assert newState == Merged(old(event.handlerState), results, now);
      hide Merged, Dispatched, Completed, Pow2;
      event.handlerState := newState;
      if AllSucceeded(results) {
        event.status := Processed;
        event.processedAt := Some(now);
      } else {
        event.retryCount := event.retryCount + 1;
        if event.retryCount >= event.maxRetries {
          event.status := Failed;
        } else {
          event.scheduledAt := now + Min(Pow2(event.retryCount) + jitter, MAX_BACKOFF_SECONDS);
        }
      }
    }
  }

  // ----- One dispatch -----

  /** Each handler not completed is called exactly once, no completed one is. */
  lemma {:induction false} CalledExactly(names: seq<string>, completed: set<string>, n: string)
    requires Distinct(names)
    ensures multiset(CalledOf(names, completed))[n] == if n in names && n !in completed then 1 else 0
  {
    if names != [] {
      var init := names[..|names| - 1];
      assert names == init + [names[|names| - 1]];
      CalledExactly(init, completed, n);
    }
  }

  /** The state of a handler after a dispatch: skipped ones keep theirs. */
  lemma {:induction false} MergedTells(
    state: map<string, Entry>, names: seq<string>, completed: set<string>, raises: seq<bool>, now: Time, n: string)
    requires |raises| == |names| && Distinct(names)
    ensures var s := Merged(state, Dispatched(names, completed, raises), now);
            if n in names && n !in completed
            then n in s && s[n].at == now && exists i :: 0 <= i < |names| && names[i] == n && s[n].ok == !raises[i]
            else (n in s <==> n in state) && (n in s ==> s[n] == state[n])
  {
    var rs := Dispatched(names, completed, raises);
    if rs != [] {
      var k := |names| - 1;
      assert rs[..k] == Dispatched(names[..k], completed, raises[..k]);
      MergedTells(state, names[..k], completed, raises[..k], now, n);
      assert names == names[..k] + [names[k]];
      var s0 := Merged(state, rs[..k], now);
      if n in names[..k] && n !in completed {
        var i :| 0 <= i < k && names[..k][i] == n && s0[n].ok == !raises[..k][i];
        assert names[i] == n && names[k] != n;
      }
    }
  }

  /** The handlers that are done only grow, no completed handler is called again,
      and the event is PROCESSED exactly when there is a handler and all are done. */
  lemma DispatchGrows(row: Row, names: seq<string>, raises: seq<bool>, now: Time, jitter: nat)
    requires |raises| == |names| && Distinct(names) && row.status == Pending
    ensures var row' := Handled(row, Dispatched(names, Completed(row.state), raises), now, jitter);
            && Completed(row.state) <= Completed(row'.state) <= Completed(row.state) + (set n | n in names)
            && (row'.status == Processed <==> names != [] && forall n :: n in names ==> n in Completed(row'.state))
            && (row'.status == Processed ==> row'.retryCount == row.retryCount)
            && (row'.status == Failed <==> row'.status != Processed && row.retryCount + 1 >= row.maxRetries)
  {
    var completed := Completed(row.state);
    var rs := Dispatched(names, completed, raises);
    var state' := Merged(row.state, rs, now);
    forall n
      ensures n in completed ==> n in Completed(state')
      ensures n in Completed(state') ==> n in completed || n in names
    {
      MergedTells(row.state, names, completed, raises, now, n);
    }
    forall i | 0 <= i < |names| ensures rs[i].success <==> names[i] in Completed(state') {
      MergedTells(row.state, names, completed, raises, now, names[i]);
      assert names[i] in names;
      if names[i] !in completed {
        var j :| 0 <= j < |names| && names[j] == names[i] && state'[names[i]].ok == !raises[j];
        assert j == i;
      }
    }
    hide Merged, Completed, Dispatched;
    assert AllSucceeded(rs) <==> names != [] && forall i :: 0 <= i < |names| ==> rs[i].success by {
      assert forall i :: 0 <= i < |rs| ==> rs[i] in rs;
    }
    assert forall n :: n in names <==> exists i :: 0 <= i < |names| && names[i] == n;
  }

  /** When a dispatch fails and retries are left, the next one is due after 2^k
      seconds and the jitter, k the new retry_count, or after an hour if that is
      less; otherwise the schedule stays, and a processed event bears its time. */
  lemma RetryIsScheduled(row: Row, names: seq<string>, raises: seq<bool>, now: Time, jitter: nat)
    requires |raises| == |names| && Distinct(names) && row.status == Pending
    ensures var row' := Handled(row, Dispatched(names, Completed(row.state), raises), now, jitter);
            && (row'.status == Pending ==>
                  && row'.retryCount == row.retryCount + 1 < row.maxRetries
                  && var wait := Pow2(row'.retryCount) + jitter;
                     row'.scheduledAt - now == if wait <= 3600 then wait else 3600)
            && (row'.status != Pending ==> row'.scheduledAt == row.scheduledAt)
            && (row'.status == Processed ==> row'.processedAt == Some(now))
            && (row'.status != Processed ==> row'.processedAt == row.processedAt)
            && row'.eventType == row.eventType && row'.maxRetries == row.maxRetries
  {
    hide Merged, Dispatched, Completed, AllSucceeded, Pow2;
  }

  // ----- Many workers, many events -----

  type EventId = nat
  type WorkerId = nat

  /** `held` are the rows locked by a worker's open transaction; `dispatches` is a
      history variable, the committed dispatches of each event. */
  datatype World = World(
    rows: map<EventId, Row>, held: map<WorkerId, EventId>, now: Time, dispatches: map<EventId, nat>)

  datatype Step =
    | Publish(id: EventId, eventType: string, maxRetries: int)
    | Grab(worker: WorkerId, id: EventId)
    | Commit(worker: WorkerId, names: seq<string>, raises: seq<bool>, jitter: nat)
    | Die(worker: WorkerId)
    | Tick(to: Time)

  ghost predicate Enabled(w: World, st: Step) {
    match st
    case Publish(id, _, _) => id !in w.rows
    // FOR UPDATE SKIP LOCKED: due, pending, not held by another transaction.
    case Grab(worker, id) =>
      && worker !in w.held && id in w.rows && id !in w.held.Values
      && w.rows[id].status == Pending && w.rows[id].scheduledAt <= w.now
      && (forall x ::
          x in w.rows && x !in w.held.Values && w.rows[x].status == Pending ==>
              w.rows[id].scheduledAt <= w.rows[x].scheduledAt)
    case Commit(worker, names, raises, _) => worker in w.held && w.held[worker] in w.rows && |raises| == |names|
        && Distinct(names)
    case Die(worker) => worker in w.held
    case Tick(to) => w.now <= to
  }

  ghost function Next(w: World, st: Step): World
    requires Enabled(w, st)
  {
    match st
    case Publish(id, eventType, maxRetries) =>
      w.(rows := w.rows[id := Row(eventType, Pending, 0, maxRetries, w.now, None, map[])],
         dispatches := w.dispatches[id := 0])
    case Grab(worker, id) => w.(held := w.held[worker := id])
    case Commit(worker, names, raises, jitter) =>
      var id := w.held[worker];
      var rs := Dispatched(names, Completed(w.rows[id].state), raises);
      w.(rows := w.rows[id := Handled(w.rows[id], rs, w.now, jitter)],
         held := w.held - {worker},
         dispatches := if id in w.dispatches then w.dispatches[id := w.dispatches[id] + 1] else w.dispatches)
    case Die(worker) => w.(held := w.held - {worker})
    case Tick(to) => w.(now := to)
  }

  ghost predicate RowLife(row: Row, dispatches: nat) {
    && (row.status == Pending ==> row.retryCount == dispatches && (dispatches == 0 || dispatches < row.maxRetries))
    && (row.status == Processed ==> dispatches == row.retryCount + 1)
    && (row.status == Failed ==> dispatches == row.retryCount)
    && dispatches <= Max(1, row.maxRetries)
  }

  ghost predicate Life(w: World) {
    && (forall id :: id in w.rows ==> id in w.dispatches && RowLife(w.rows[id], w.dispatches[id]))
    && (forall x :: x in w.held ==> w.held[x] in w.rows && w.rows[w.held[x]].status == Pending)
    && (forall x, y :: x in w.held && y in w.held && w.held[x] == w.held[y] ==> x == y)
  }

  lemma DispatchKeepsLife(row: Row, dispatches: nat, names: seq<string>, raises: seq<bool>, now: Time, jitter: nat)
    requires |raises| == |names| && Distinct(names) && row.status == Pending && RowLife(row, dispatches)
    ensures var row' := Handled(row, Dispatched(names, Completed(row.state), raises), now, jitter);
            RowLife(row', dispatches + 1) && Completed(row.state) <= Completed(row'.state)
  {
    DispatchGrows(row, names, raises, now, jitter);
    hide Completed, Merged, Dispatched, AllSucceeded;
  }

  lemma StepKeepsLife(w: World, st: Step)
    requires Enabled(w, st) && Life(w)
    ensures Life(Next(w, st))
    ensures forall id :: id in w.rows ==>
                           && id in Next(w, st).rows
                           && Completed(w.rows[id].state) <= Completed(Next(w, st).rows[id].state)
                           && (w.rows[id].status != Pending ==> Next(w, st).rows[id] == w.rows[id])
  {
    hide Completed, Merged, Dispatched, AllSucceeded, Handled, RowLife;
    match st
    case Commit(worker, names, raises, jitter) =>
      var id := w.held[worker];
      DispatchKeepsLife(w.rows[id], w.dispatches[id], names, raises, w.now, jitter);
    case Publish(id, eventType, maxRetries) =>
      NewRowLives(Row(eventType, Pending, 0, maxRetries, w.now, None, map[]));
    case _ =>
  }

  lemma NewRowLives(row: Row)
    requires row.status == Pending && row.retryCount == 0
    ensures RowLife(row, 0)
  {
  }

  const START := World(map[], map[], 0, map[])

  ghost predicate IsRun(ws: seq<World>, steps: seq<Step>) {
    && |ws| == |steps| + 1 && ws[0] == START
    && forall i :: 0 <= i < |steps| ==> Enabled(ws[i], steps[i]) && ws[i + 1] == Next(ws[i], steps[i])
  }

  /** In every state of every run: no event is dispatched by two workers at once,
      and an event is dispatched (to commit) at most max_retries times. */
  lemma {:induction false} RunsKeepLife(ws: seq<World>, steps: seq<Step>, i: nat)
    requires IsRun(ws, steps) && i < |ws|
    ensures Life(ws[i])
  {
    hide Next, Enabled;
    if i > 0 {
      RunsKeepLife(ws, steps, i - 1);
      assert ws[i] == Next(ws[i - 1], steps[i - 1]);
      hide Life;
      StepKeepsLife(ws[i - 1], steps[i - 1]);
    }
  }

  /** Over any stretch of a run, done handlers stay done, and PROCESSED and FAILED
      rows never change again. */
  lemma {:induction false} EventsOnlyProgress(ws: seq<World>, steps: seq<Step>, i: nat, j: nat, id: EventId)
    requires IsRun(ws, steps) && i <= j < |ws| && id in ws[i].rows
    ensures id in ws[j].rows && Completed(ws[i].rows[id].state) <= Completed(ws[j].rows[id].state)
    ensures ws[i].rows[id].status != Pending ==> ws[j].rows[id] == ws[i].rows[id]
    decreases j
  {
    hide Next, Enabled, Completed;
    if i < j {
      EventsOnlyProgress(ws, steps, i, j - 1, id);
      RunsKeepLife(ws, steps, j - 1);
      assert ws[j] == Next(ws[j - 1], steps[j - 1]);
      hide Life;
      StepKeepsLife(ws[j - 1], steps[j - 1]);
    }
  }

  // ----- Retries are spaced -----

  /** A worker only holds events that are due. */
  ghost predicate HeldAreDue(w: World) {
    forall x :: x in w.held ==> w.held[x] in w.rows && w.rows[w.held[x]].scheduledAt <= w.now
  }

  lemma StepKeepsDue(w: World, st: Step)
    requires Enabled(w, st) && Life(w) && HeldAreDue(w)
    ensures HeldAreDue(Next(w, st))
  {
    hide Handled, Dispatched, Completed, RowLife;
  }

  /** The step commits a dispatch of the event. */
  predicate Commits(w: World, st: Step, id: EventId) { st.Commit? && st.worker in w.held && w.held[st.worker] == id }

  lemma OthersKeepRow(w: World, st: Step, id: EventId)
    requires Enabled(w, st) && id in w.rows && !Commits(w, st, id)
    ensures id in Next(w, st).rows && Next(w, st).rows[id] == w.rows[id]
  {
    hide Handled, Dispatched, Completed;
  }

  lemma {:induction false} RowWaits(ws: seq<World>, steps: seq<Step>, i: nat, j: nat, id: EventId)
    requires IsRun(ws, steps) && i <= j < |ws| && id in ws[i].rows
    requires forall n | i <= n < j :: !Commits(ws[n], steps[n], id)
    ensures id in ws[j].rows && ws[j].rows[id] == ws[i].rows[id]
    decreases j
  {
    hide Next, Enabled, Commits;
    if i < j {
      RowWaits(ws, steps, i, j - 1, id);
      assert ws[j] == Next(ws[j - 1], steps[j - 1]) && Enabled(ws[j - 1], steps[j - 1]);
      OthersKeepRow(ws[j - 1], steps[j - 1], id);
    }
  }

  lemma {:induction false} HeldStayDue(ws: seq<World>, steps: seq<Step>, i: nat)
    requires IsRun(ws, steps) && i < |ws|
    ensures HeldAreDue(ws[i])
  {
    hide Next, Enabled;
    if i > 0 {
      HeldStayDue(ws, steps, i - 1);
      RunsKeepLife(ws, steps, i - 1);
      assert ws[i] == Next(ws[i - 1], steps[i - 1]) && Enabled(ws[i - 1], steps[i - 1]);
      hide Life, HeldAreDue;
      StepKeepsDue(ws[i - 1], steps[i - 1]);
    }
  }

  /** The k-th and the next committed dispatch of an event are at least
      min(2^k, 3600) seconds apart. */
  lemma DispatchesAreSpaced(ws: seq<World>, steps: seq<Step>, i: nat, j: nat, id: EventId)
    requires IsRun(ws, steps) && i < j < |steps|
    requires Commits(ws[i], steps[i], id) && Commits(ws[j], steps[j], id)
    requires forall n | i < n < j :: !Commits(ws[n], steps[n], id)
    ensures id in ws[i + 1].dispatches
    ensures var wait := Pow2(ws[i + 1].dispatches[id]); ws[j].now - ws[i].now >= if wait <= 3600 then wait else 3600
  {
    RunsKeepLife(ws, steps, i);
    RunsKeepLife(ws, steps, i + 1);
    RunsKeepLife(ws, steps, j);
    HeldStayDue(ws, steps, j);
    assert ws[i + 1] == Next(ws[i], steps[i]) && Enabled(ws[i], steps[i]);
    var row := ws[i].rows[id];
    RetryIsScheduled(row, steps[i].names, steps[i].raises, ws[i].now, steps[i].jitter);
    RowWaits(ws, steps, i + 1, j, id);
    assert ws[j].rows[id].status == Pending;
    hide Handled, Dispatched, Completed, Pow2, IsRun;
  }

  // ----- Nobody waits behind the same event twice -----

  /** The event, if it is still pending, is due only after `t`. */
  ghost predicate DueAfter(w: World, id: EventId, t: Time) {
    && t <= w.now && id in w.rows
    && (w.rows[id].status == Pending ==> t < w.rows[id].scheduledAt)
  }

  lemma CommitPutsOff(w: World, st: Step, id: EventId, t: Time)
    requires Enabled(w, st) && Life(w) && Commits(w, st, id) && t <= w.now
    ensures DueAfter(Next(w, st), id, t)
  {
    RetryIsScheduled(w.rows[id], st.names, st.raises, w.now, st.jitter);
    Pow2Grows(w.rows[id].retryCount + 1);
    hide Handled, Dispatched, Completed, Pow2, RowLife;
  }

  lemma {:induction false} StaysPutOff(ws: seq<World>, steps: seq<Step>, i: nat, j: nat, id: EventId, t: Time)
    requires IsRun(ws, steps) && i <= j < |ws| && DueAfter(ws[i], id, t)
    ensures DueAfter(ws[j], id, t)
    decreases j
  {
    hide Next, Enabled, Commits, DueAfter;
    if i < j {
      StaysPutOff(ws, steps, i, j - 1, id, t);
      RunsKeepLife(ws, steps, j - 1);
      assert ws[j] == Next(ws[j - 1], steps[j - 1]) && Enabled(ws[j - 1], steps[j - 1]);
      hide Life;
      StepPutsOff(ws[j - 1], steps[j - 1], id, t);
    }
  }

  lemma StepPutsOff(w: World, st: Step, id: EventId, t: Time)
    requires Enabled(w, st) && Life(w) && DueAfter(w, id, t)
    ensures DueAfter(Next(w, st), id, t)
  {
    if Commits(w, st, id) {
      CommitPutsOff(w, st, id, t);
    } else {
      OthersKeepRow(w, st, id);
    }
    hide Handled, Dispatched, Completed, Commits, Life;
  }

  /** While an event is due and no dispatch of it commits, another event gets at most
      one committed dispatch before it: when that one is grabbed again, the event
      itself is in the hands of a worker. */
  lemma OvertakenOnce(ws: seq<World>, steps: seq<Step>, i: nat, j: nat, k: nat, id: EventId, other: EventId)
    requires IsRun(ws, steps) && i <= j < k < |steps|
    requires id in ws[i].rows && ws[i].rows[id].status == Pending && ws[i].rows[id].scheduledAt <= ws[i].now
    requires forall n | i <= n < k :: !Commits(ws[n], steps[n], id)
    requires Commits(ws[j], steps[j], other) && steps[k].Grab? && steps[k].id == other
    ensures exists x :: x in ws[k].held && ws[k].held[x] == id
  {
    hide Commits, Next;
    RunsKeepLife(ws, steps, j);
    TimeGrows(ws, steps, i, j);
    assert Enabled(ws[j], steps[j]) && ws[j + 1] == Next(ws[j], steps[j]) && Enabled(ws[k], steps[k]);
    CommitPutsOff(ws[j], steps[j], other, ws[i].now);
    StaysPutOff(ws, steps, j + 1, k, other, ws[i].now);
    RowWaits(ws, steps, i, k, id);
    hide IsRun, Life;
    assert id in ws[k].held.Values;
  }

  /** Among events never dispatched, the one published earlier is taken first: a worker
      takes a later one only while another holds the earlier. */
  lemma FirstPublishedFirst(ws: seq<World>, steps: seq<Step>, i: nat, j: nat, k: nat)
    requires IsRun(ws, steps) && i < j < k < |steps| && ws[i].now < ws[j].now
    requires steps[i].Publish? && steps[j].Publish? && steps[k].Grab? && steps[k].id == steps[j].id
    requires forall n | i < n < k :: !Commits(ws[n], steps[n], steps[i].id)
    ensures exists x :: x in ws[k].held && ws[k].held[x] == steps[i].id
  {
    hide Commits;
    assert Enabled(ws[i], steps[i]) && ws[i + 1] == Next(ws[i], steps[i]);
    assert Enabled(ws[j], steps[j]) && ws[j + 1] == Next(ws[j], steps[j]) && Enabled(ws[k], steps[k]);
    var id := steps[i].id;
    assert ws[i + 1].rows[id].status == Pending && ws[i + 1].rows[id].scheduledAt == ws[i].now;
    assert DueAfter(ws[j + 1], steps[j].id, ws[i].now);
    StaysPutOff(ws, steps, j + 1, k, steps[j].id, ws[i].now);
    RowWaits(ws, steps, i + 1, k, id);
    hide IsRun, Next;
    assert id in ws[k].held.Values;
  }

  /** The event of a worker that died is as it was and free to be taken again. */
  lemma DeadWorkersEventIsFree(w: World, worker: WorkerId)
    requires Life(w) && worker in w.held
    ensures var w' := Next(w, Die(worker));
            && w'.rows == w.rows && worker !in w'.held && w.held[worker] !in w'.held.Values
            && forall x :: x in w.held && x != worker ==> x in w'.held && w'.held[x] == w.held[x]
  {
    hide RowLife;
  }

  lemma {:induction false} TimeGrows(ws: seq<World>, steps: seq<Step>, i: nat, j: nat)
    requires IsRun(ws, steps) && i <= j < |ws|
    ensures ws[i].now <= ws[j].now
    decreases j
  {
    if i < j {
      TimeGrows(ws, steps, i, j - 1);
      assert ws[j] == Next(ws[j - 1], steps[j - 1]) && Enabled(ws[j - 1], steps[j - 1]);
      hide Handled, Dispatched, Completed, IsRun;
    }
  }

  /** The bound is max(1, max_retries): with max_retries = 0 the first dispatch is
      still made, and fails the event. */
  lemma ZeroRetriesStillDispatch()
    returns (ws: seq<World>, steps: seq<Step>)
    ensures IsRun(ws, steps) && |ws| == 4 && 0 in ws[3].rows && 0 in ws[3].dispatches
    ensures ws[3].rows[0].maxRetries == 0 && ws[3].dispatches[0] == 1 && ws[3].rows[0].status == Failed
  {
    steps := [Publish(0, "e", 0), Grab(0, 0), Commit(0, [], [], 0)];
    var w1 := Next(START, steps[0]);
    var w2 := Next(w1, steps[1]);
    var w3 := Next(w2, steps[2]);
    ws := [START, w1, w2, w3];
  }
}
