/**
 The delivery job: claim, send outside any transaction, record
 (app/notifications/use_cases/deliver.py), and the admin orders that interleave
 with it (app/notifications/use_cases/manage.py).
 */
module Deliver {
  import opened Common
  import opened NotificationTables
  import opened DeliveryStatements

  datatype Outcome =
    | SentAs(claim: ClaimedSubscription, message: MessageId)
    | FailedTo(claim: ClaimedSubscription)
    | Skipped(claim: ClaimedSubscription)

  datatype Report = Report(sent: nat, failed: nat, paused: nat, skipped: nat)

  /** What the sending loop meets: the clock reading before each claim, whether
      each attempt is accepted, and the first fresh message id. */
  datatype Channel = Channel(deadline: Time, clock: seq<Time>, accepts: seq<bool>, firstMessage: MessageId)

  function OutcomeOf(c: ClaimedSubscription, i: nat, ch: Channel): Outcome
    requires i < |ch.clock| && i < |ch.accepts|
  {
    if i > 0 && ch.clock[i] >= ch.deadline then Skipped(c)
    else if ch.accepts[i] then SentAs(c, ch.firstMessage + i)
    else FailedTo(c)
  }

  function OutcomeRecorded(db: Db, o: Outcome, now: Time, pauseAfter: Time): Db {
    match o
    case Skipped(c) => AfterRelease(db, c.sub, c.previousRetryAt)
    case SentAs(c, message) => AfterSent(db, c.sub, c.deliveries, message, now)
    case FailedTo(c) => AfterFailure(db, c.sub, now, pauseAfter)
  }

  function OutcomesRecorded(db: Db, os: seq<Outcome>, now: Time, pauseAfter: Time): Db {
    if os == [] then db
    else OutcomeRecorded(OutcomesRecorded(db, os[..|os| - 1], now, pauseAfter), os[|os| - 1], now, pauseAfter)
  }

  function Count(os: seq<Outcome>, p: Outcome -> bool): nat {
    if os == [] then 0 else Count(os[..|os| - 1], p) + if p(os[|os| - 1]) then 1 else 0
  }

  /** Recording `o` pauses its subscription. */
  predicate Pauses(db: Db, o: Outcome, now: Time, pauseAfter: Time) {
    o.FailedTo? && o.claim.sub in db.subs && StreakTooLong(db.subs[o.claim.sub], now, pauseAfter)
  }

  function PauseCount(db: Db, os: seq<Outcome>, now: Time, pauseAfter: Time): nat {
    if os == [] then 0
    else
      var (init, o) := (os[..|os| - 1], os[|os| - 1]);
      PauseCount(db, init, now, pauseAfter)
          + if Pauses(OutcomesRecorded(db, init, now, pauseAfter), o, now, pauseAfter) then 1 else 0
  }

  class DeliverNotificationsUseCase {
    /** The sending loop. At least one claim is tried, whatever the budget. */
    method SendAll(claims: seq<ClaimedSubscription>, ch: Channel) returns (outcomes: seq<Outcome>)
      requires |ch.clock| == |ch.accepts| == |claims|
      ensures |outcomes| == |claims|
      ensures forall i :: 0 <= i < |claims| ==> outcomes[i] == OutcomeOf(claims[i], i, ch)
    {
      outcomes := [];
      for i := 0 to |claims|
        invariant |outcomes| == i
        invariant forall j :: 0 <= j < i ==> outcomes[j] == OutcomeOf(claims[j], j, ch)
      {
        if outcomes != [] && ch.clock[i] >= ch.deadline {
          outcomes := outcomes + [Skipped(claims[i])];
          continue;
        }
        if ch.accepts[i] {
          outcomes := outcomes + [SentAs(claims[i], ch.firstMessage + i)];
        } else {
          outcomes := outcomes + [FailedTo(claims[i])];
        }
      }
    }

    /** The recording loop, in the transaction of `repo`. */
    method Record(repo: DeliveryRepo, outcomes: seq<Outcome>, now: Time, pauseAfter: Time) returns (report: Report)
      modifies repo.session
      ensures repo.session.db == OutcomesRecorded(old(repo.session.db), outcomes, now, pauseAfter)
      ensures report.sent == Count(outcomes, (o: Outcome) => o.SentAs?)
      ensures report.failed == Count(outcomes, (o: Outcome) => o.FailedTo?)
      ensures report.skipped == Count(outcomes, (o: Outcome) => o.Skipped?)
      ensures report.paused == PauseCount(old(repo.session.db), outcomes, now, pauseAfter)
    {
      report := Report(0, 0, 0, 0);
      ghost var isSent, isFailed, isSkipped :=
          (o: Outcome) => o.SentAs?, (o: Outcome) => o.FailedTo?, (o: Outcome) => o.Skipped?;
      for i := 0 to |outcomes|
        invariant repo.session.db == OutcomesRecorded(old(repo.session.db), outcomes[..i], now, pauseAfter)
        invariant report.sent == Count(outcomes[..i], isSent)
        invariant report.failed == Count(outcomes[..i], isFailed)
        invariant report.skipped == Count(outcomes[..i], isSkipped)
        invariant report.paused == PauseCount(old(repo.session.db), outcomes[..i], now, pauseAfter)
      {
        assert outcomes[..i + 1][..i] == outcomes[..i];
        var one := RecordOne(repo, outcomes[i], now, pauseAfter);
        report := Report(
          report.sent + one.sent, report.failed + one.failed, report.paused + one.paused, report.skipped + one.skipped);
      }
      assert outcomes[..|outcomes|] == outcomes;
    }

    /** The body of that loop. */
    method RecordOne(repo: DeliveryRepo, o: Outcome, now: Time, pauseAfter: Time) returns (r: Report)
      modifies repo.session
      ensures repo.session.db == OutcomeRecorded(old(repo.session.db), o, now, pauseAfter)
      ensures r.sent == (if o.SentAs? then 1 else 0) && r.failed == (if o.FailedTo? then 1 else 0)
      ensures r.skipped == (if o.Skipped? then 1 else 0)
      ensures r.paused == if Pauses(old(repo.session.db), o, now, pauseAfter) then 1 else 0
    {
      match o
      case Skipped(c) =>
        repo.Release(c.sub, c.previousRetryAt);
        r := Report(0, 0, 0, 1);
      case SentAs(c, message) =>
        repo.MarkSent(c.sub, c.deliveries, message, now);
        r := Report(1, 0, 0, 0);
      case FailedTo(c) =>
        var paused := repo.MarkFailed(c.sub, now, pauseAfter);
        r := Report(0, 1, if paused then 1 else 0, 0);
    }
  }

  function NewSubscription(hazardTypes: set<HazardType>, severityMin: int, area: AreaId): Subscription {
    Subscription(Active, hazardTypes, severityMin, area, 0, None, None, None)
  }

  function AfterPause(db: Db, s: SubId): Db
    requires s in db.subs
  {
    PendingFailed(db.(subs := db.subs[s := db.subs[s].(status := Paused)]), s)
  }

  function AfterResume(db: Db, s: SubId): Db
    requires s in db.subs
  {
    var row := db.subs[s].(status := Active, consecutiveFailures := 0, failingSince := None, retryAt := None);
    db.(subs := db.subs[s := row])
  }

  /** Episodes and deliveries go with their subscription. */
  function AfterRemove(db: Db, s: SubId): Db {
    db.(
    subs := map x | x in db.subs && x != s :: db.subs[x],
    episodes := map id | id in db.episodes && db.episodes[id].sub != s :: db.episodes[id],
    deliveries := map k | k in db.deliveries && db.deliveries[k].sub != s :: db.deliveries[k])
  }

  datatype AdminError = NotFound(sub: SubId)

  class SubscriptionAdmin {
    const session: Session

    constructor (session: Session)
      ensures this.session == session
    {
      this.session := session;
    }

    method Pause(s: SubId) returns (r: Result<(), AdminError>)
      modifies session
      ensures r.Ok? <==> s in old(session.db).subs
      ensures r.Ok? ==> session.db == AfterPause(old(session.db), s)
      ensures r.Err? ==> session.db == old(session.db)
    {
      if s !in session.db.subs { return Err(NotFound(s)); }
      session.db := session.db.(subs := session.db.subs[s := session.db.subs[s].(status := Paused)]);
      var repo := new DeliveryRepo(session);
      repo.FailPending(s);
      return Ok(());
    }

    method Resume(s: SubId) returns (r: Result<(), AdminError>)
      modifies session
      ensures r.Ok? <==> s in old(session.db).subs
      ensures r.Ok? ==> session.db == AfterResume(old(session.db), s)
      ensures r.Err? ==> session.db == old(session.db)
    {
      if s !in session.db.subs { return Err(NotFound(s)); }
      var row := session.db.subs[s].(status := Active);
      row := row.(consecutiveFailures := 0, failingSince := None);
      row := row.(retryAt := None);
      session.db := session.db.(subs := session.db.subs[s := row]);
      return Ok(());
    }

    method Remove(s: SubId) returns (r: Result<(), AdminError>)
      modifies session
      ensures r.Ok? <==> s in old(session.db).subs
      ensures r.Ok? ==> session.db == AfterRemove(old(session.db), s)
      ensures r.Err? ==> session.db == old(session.db)
    {
      if s !in session.db.subs { return Err(NotFound(s)); }
      session.db := AfterRemove(session.db, s);
      return Ok(());
    }
  }

  // ----- The time budget -----

  /** The sending loop of a job that began at `jobStart`: the loop itself begins at
      `start`, after the claim transaction, and its clock does not go back. */
  ghost predicate IsSending(claims: seq<ClaimedSubscription>, ch: Channel, start: Time, budget: Time) {
    && |ch.clock| == |ch.accepts| == |claims| && ch.deadline == start + budget
    && (claims != [] ==> ch.clock[0] == start)
    && forall a, b :: 0 <= a <= b < |ch.clock| ==> ch.clock[a] <= ch.clock[b]
  }

  /** The claims left untried are the last ones, and the first is always tried. */
  lemma SkippedAreLast(claims: seq<ClaimedSubscription>, ch: Channel, start: Time, budget: Time, i: nat, j: nat)
    requires IsSending(claims, ch, start, budget) && i <= j < |claims|
    ensures OutcomeOf(claims[i], i, ch).Skipped? ==> OutcomeOf(claims[j], j, ch).Skipped?
    ensures !OutcomeOf(claims[0], 0, ch).Skipped?
  {
  }

  /** The claim `j` is tried. */
  ghost predicate IsAttempt(claims: seq<ClaimedSubscription>, ch: Channel, start: Time, budget: Time, j: nat) {
    IsSending(claims, ch, start, budget) && j < |claims| && !OutcomeOf(claims[j], j, ch).Skipped?
  }

  /** Whatever the claims and the clock: every attempt, which may last
      `sendTimeout`, ends within `jobTimeout` of the start of the job. */
  ghost predicate AttemptsFit(jobStart: Time, start: Time, budget: Time, sendTimeout: Time, jobTimeout: Time) {
    forall claims, ch, j: nat | IsAttempt(claims, ch, start, budget, j) ::
        ch.clock[j] + sendTimeout < jobStart + jobTimeout
  }

  /** Exactly when what precedes the loop, the budget and one last send together fit
      in the job's timeout. Times are whole seconds, and an attempt begins before
      the deadline. */
  lemma AttemptsFitIff(jobStart: Time, start: Time, budget: Time, sendTimeout: Time, jobTimeout: Time)
    requires budget >= 1
    ensures AttemptsFit(jobStart, start, budget, sendTimeout, jobTimeout)
            <==> (start - jobStart) + budget + sendTimeout <= jobTimeout
  {
    if AttemptsFit(jobStart, start, budget, sendTimeout, jobTimeout) {
      var c := ClaimedSubscription(0, None, []);
      var ch := Channel(start + budget, [start, start + budget - 1], [true, true], 0);
      assert IsAttempt([c, c], ch, start, budget, 1);
    }
  }

  /** The start-up check, budget + send < timeout, leaves room for a claim
      transaction exactly as long as the difference, and no longer. */
  lemma CheckedSettingsFit(jobStart: Time, start: Time, budget: Time, sendTimeout: Time, jobTimeout: Time)
    requires budget >= 1 && budget + sendTimeout < jobTimeout
    ensures AttemptsFit(jobStart, start, budget, sendTimeout, jobTimeout)
            <==> start - jobStart <= jobTimeout - (budget + sendTimeout)
  {
    AttemptsFitIff(jobStart, start, budget, sendTimeout, jobTimeout);
  }
}
