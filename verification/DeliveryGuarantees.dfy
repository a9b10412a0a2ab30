/** At-least-once delivery over whole runs: nothing pending is lost, and what is
    marked as sent was in a message. */
module DeliveryGuarantees {
  import opened Common
  import opened NotificationTables
  import opened EpisodeStatements
  import opened MatchBatch
  import opened MatchTransaction
  import opened DeliveryStatements
  import opened Deliver
  import opened NotificationRuns

  /** A sent row names a message the sender accepted, and that message carried it. */
  ghost predicate SentRow(d: Delivery, k: DeliveryKey, accepted: map<MessageId, Message>) {
    && d.messageId.Some? && d.messageId.value in accepted
    && accepted[d.messageId.value].sub == d.sub && k in accepted[d.messageId.value].deliveries
  }

  ghost predicate SentWasAccepted(db: Db, accepted: map<MessageId, Message>) {
    forall k :: k in db.deliveries && db.deliveries[k].status == Sent ==> SentRow(db.deliveries[k], k, accepted)
  }

  /** A claim only carries keys of its own subscription. */
  ghost predicate OwnRows(db: Db, c: ClaimedSubscription) {
    forall k :: k in c.deliveries ==>
      k.episode < db.nextEpisode && (k.episode in db.episodes ==> db.episodes[k.episode].sub == c.sub)
  }

  ghost predicate RunOk(run: Run, accepted: map<MessageId, Message>) {
    && |run.outcomes| <= |run.claims|
    && (forall i :: 0 <= i < |run.outcomes| ==> run.outcomes[i].claim == run.claims[i])
    && (forall i :: 0 <= i < |run.outcomes| && run.outcomes[i].SentAs? ==>
          && run.outcomes[i].message in accepted
          && accepted[run.outcomes[i].message] == Message(run.claims[i].sub, run.claims[i].deliveries, run.claimedAt))
  }

  ghost predicate Truthful(w: World) {
    && SentWasAccepted(w.db, w.accepted)
    && (forall r :: r in w.runs ==> RunOk(w.runs[r], w.accepted))
    && (forall r, i :: r in w.runs && 0 <= i < |w.runs[r].claims| ==> OwnRows(w.db, w.runs[r].claims[i]))
    && (forall m :: m in w.accepted ==> m < w.nextMessage)
  }

  /** What an accepted outcome says is on record. */
  ghost predicate OutcomeTrue(db: Db, o: Outcome, accepted: map<MessageId, Message>) {
    OwnRows(db, o.claim) &&
    (o.SentAs? ==>
       && o.message in accepted && accepted[o.message].sub == o.claim.sub
       && accepted[o.message].deliveries == o.claim.deliveries)
  }

  lemma OutcomeKeepsTruth(db: Db, o: Outcome, now: Time, pauseAfter: Time, accepted: map<MessageId, Message>)
    requires ForeignKeys(db) && SentWasAccepted(db, accepted) && OutcomeTrue(db, o, accepted)
    ensures SentWasAccepted(OutcomeRecorded(db, o, now, pauseAfter), accepted)
  {
  }

  lemma {:induction false} OutcomesKeepTruth(
    db: Db, os: seq<Outcome>, now: Time, pauseAfter: Time, accepted: map<MessageId, Message>)
    requires Sound(db) && SentWasAccepted(db, accepted)
    requires forall i :: 0 <= i < |os| ==> OutcomeTrue(db, os[i], accepted)
    ensures SentWasAccepted(OutcomesRecorded(db, os, now, pauseAfter), accepted)
  {
    if os != [] {
      var init, last := os[..|os| - 1], os[|os| - 1];
      OutcomesKeepTruth(db, init, now, pauseAfter, accepted);
      OutcomesShrink(db, init, now, pauseAfter);
      var mid := OutcomesRecorded(db, init, now, pauseAfter);
      assert OutcomeTrue(mid, last, accepted) by { hide Sound; assert OutcomeTrue(db, last, accepted); }
      OutcomeKeepsTruth(mid, last, now, pauseAfter, accepted);
    }
  }

  lemma OwnRowsLast(db: Db, db': Db, c: ClaimedSubscription)
    requires Evolves(db, db') && OwnRows(db, c)
    ensures OwnRows(db', c)
  {
  }

  /** Claims are drawn from the pending rows, so they own what they carry. */
  lemma NewClaimsOwnTheirRows(
    db: Db, now: Time, cfg: Settings, locked: set<SubId>, chosen: seq<SubId>, rows: seq<DeliveryKey>, i: nat)
    requires Sound(db) && IsSelection(db, now, cfg.minInterval, cfg.limit, locked, chosen)
        && IsPendingList(db, chosen, rows)
    requires i < |chosen|
    ensures OwnRows(db, ClaimsOf(db, chosen, rows)[i])
  {
    ClaimsAreExact(db, now, cfg.minInterval, cfg.limit, locked, chosen, rows, i);
    hide IsSelection, IsPendingList, OneOpen, Expiry, Recorded, Ladder;
  }

  lemma ShrinkKeepsSent(db: Db, db': Db, accepted: map<MessageId, Message>, accepted': map<MessageId, Message>)
    requires SentWasAccepted(db, accepted)
    requires forall m :: m in accepted ==> m in accepted' && accepted'[m] == accepted[m]
    requires forall k :: k in db'.deliveries && db'.deliveries[k].status == Sent ==>
                           k in db.deliveries && db.deliveries[k].status == Sent
                           && db'.deliveries[k].messageId == db.deliveries[k].messageId
                               && db'.deliveries[k].sub == db.deliveries[k].sub
    ensures SentWasAccepted(db', accepted')
  {
  }

  /** Only a recorded run marks rows as sent. */
  lemma SentOnlyGrowsAtRecord(w: World, st: Step, cfg: Settings)
    requires Sound(w.db) && Enabled(w, st, cfg) && !st.Record?
    ensures var db' := Next(w, st, cfg).db;
            forall k :: k in db'.deliveries && db'.deliveries[k].status == Sent ==>
                          k in w.db.deliveries && w.db.deliveries[k].status == Sent
                          && db'.deliveries[k].messageId == w.db.deliveries[k].messageId
                              && db'.deliveries[k].sub == w.db.deliveries[k].sub
  {
    hide OneOpen, Expiry, Ledger, Recorded, IsSelection, IsPendingList, ForeignKeys;
    if st.MatchCommit? {
      hide GroupsApplied;
      CommitAddsPending(w.db, st.ms, st.seen, st.b);
    }
  }

  /** The rows a matcher adds are pending; the others it leaves alone. */
  lemma {:induction false} MatchAddsPending(
    db: Db, seen: map<GroupKey, EpisodeRule.OpenEpisode>, order: seq<GroupKey>, groups: map<GroupKey, Group>,
        b: Batch, i: nat)
    requires forall k :: k in order ==> k in groups
    requires i <= |order| && GroupsApplied(db, seen, order[..i], groups, b).Ok?
    ensures var db' := GroupsApplied(db, seen, order[..i], groups, b).value.db;
            && (forall d :: d in db.deliveries ==> d in db'.deliveries && db'.deliveries[d] == db.deliveries[d])
            && (forall d :: d in db'.deliveries && d !in db.deliveries ==> db'.deliveries[d].status == Pending)
  {
    if i > 0 {
      assert order[..i][..i - 1] == order[..i - 1];
      MatchAddsPending(db, seen, order, groups, b, i - 1);
      var before := GroupsApplied(db, seen, order[..i - 1], groups, b).value;
      GroupAddsPending(before.db, Lookup(seen, order[i - 1]), order[i - 1], groups[order[i - 1]], b);
      hide GroupApplied;
    }
  }

  lemma GroupAddsPending(db: Db, current: Option<EpisodeRule.OpenEpisode>, k: GroupKey, g: Group, b: Batch)
    requires GroupApplied(db, current, k, g, b).Ok?
    ensures var db' := GroupApplied(db, current, k, g, b).value.db;
            && (forall d :: d in db.deliveries ==> d in db'.deliveries && db'.deliveries[d] == db.deliveries[d])
            && (forall d :: d in db'.deliveries && d !in db.deliveries ==> db'.deliveries[d].status == Pending)
  {
    hide Photo, TakenIn;
    match EpisodeRule.Decide(current, g.severity, b.at, b.grace)
    case Touch =>
    case Escalate =>
    case Open =>
  }

  lemma CommitAddsPending(db: Db, ms: seq<Match>, seen: map<GroupKey, EpisodeRule.OpenEpisode>, b: Batch)
    requires GroupsApplied(db, seen, FirstSeen(ms), Groups(ms), b).Ok?
    ensures var db' := GroupsApplied(db, seen, FirstSeen(ms), Groups(ms), b).value.db;
            && (forall d :: d in db.deliveries ==> d in db'.deliveries && db'.deliveries[d] == db.deliveries[d])
            && (forall d :: d in db'.deliveries && d !in db.deliveries ==> db'.deliveries[d].status == Pending)
  {
    assert FirstSeen(ms)[..|FirstSeen(ms)|] == FirstSeen(ms);
    MatchAddsPending(db, seen, FirstSeen(ms), Groups(ms), b, |FirstSeen(ms)|);
  }

  lemma RunsStayOk(w: World, st: Step, cfg: Settings)
    requires Sound(w.db) && Enabled(w, st, cfg) && Truthful(w)
    ensures var w' := Next(w, st, cfg);
            && (forall m :: m in w.accepted ==> m in w'.accepted && w'.accepted[m] == w.accepted[m])
            && (forall m :: m in w'.accepted ==> m < w'.nextMessage)
            && (forall r :: r in w'.runs ==> RunOk(w'.runs[r], w'.accepted))
  {
    hide Sound, SentWasAccepted, OwnRows, IsSelection, IsPendingList;
    if st.Send? {
      SendStaysOk(w, st.run, st.reply, cfg);
    } else {
      var w' := Next(w, st, cfg);
      assert w'.accepted == w.accepted && w'.nextMessage == w.nextMessage;
      assert forall r :: r in w'.runs ==> (r in w.runs && w'.runs[r] == w.runs[r]) || w'.runs[r].outcomes == [];
      hide Next, Enabled;
    }
  }

  lemma SendStaysOk(w: World, r: RunId, reply: Reply, cfg: Settings)
    requires Enabled(w, Send(r, reply), cfg)
    requires forall m :: m in w.accepted ==> m < w.nextMessage
    requires forall x :: x in w.runs ==> RunOk(w.runs[x], w.accepted)
    ensures var w' := Next(w, Send(r, reply), cfg);
            && (forall m :: m in w.accepted ==> m in w'.accepted && w'.accepted[m] == w.accepted[m])
            && (forall m :: m in w'.accepted ==> m < w'.nextMessage)
            && (forall x :: x in w'.runs ==> RunOk(w'.runs[x], w'.accepted))
  {
    var w' := Replied(w, r, reply);
    assert forall m :: m in w.accepted ==> m in w'.accepted && w'.accepted[m] == w.accepted[m];
    assert forall x :: x in w.runs ==> RunOk(w.runs[x], w'.accepted);
    assert RunOk(w'.runs[r], w'.accepted);
    assert forall x :: x in w'.runs && x != r ==> x in w.runs && w'.runs[x] == w.runs[x];
    hide RunOk;
  }

  lemma RunsStayOwned(w: World, st: Step, cfg: Settings)
    requires Sound(w.db) && Enabled(w, st, cfg) && Truthful(w)
    ensures var w' := Next(w, st, cfg);
            forall r, i :: r in w'.runs && 0 <= i < |w'.runs[r].claims| ==> OwnRows(w'.db, w'.runs[r].claims[i])
  {
    StepKeepsSound(w, st, cfg);
    var w' := Next(w, st, cfg);
    forall r, i | r in w'.runs && 0 <= i < |w'.runs[r].claims| ensures OwnRows(w'.db, w'.runs[r].claims[i]) {
      if st.ClaimSome? && r == w.nextRun {
        NewClaimsOwnTheirRows(w.db, w.now, cfg, st.locked, st.chosen, st.rows, i);
      } else {
        hide Sound, SentWasAccepted, OwnRows, IsSelection, IsPendingList, Evolves, RunOk;
        assert r in w.runs && w'.runs[r].claims == w.runs[r].claims;
      }
      hide *;
      OwnRowsLast(w.db, w'.db, w'.runs[r].claims[i]);
    }
  }

  lemma StepKeepsTruth(w: World, st: Step, cfg: Settings)
    requires Sound(w.db) && Enabled(w, st, cfg) && Truthful(w)
    ensures Truthful(Next(w, st, cfg))
  {
    var w' := Next(w, st, cfg);
    RunsStayOk(w, st, cfg);
    RunsStayOwned(w, st, cfg);
    if st.Record? {
      var run := w.runs[st.run];
      forall i | 0 <= i < |run.outcomes| ensures OutcomeTrue(w.db, run.outcomes[i], w.accepted) {
        hide Sound, SentWasAccepted, OwnRows;
        assert RunOk(run, w.accepted) && OwnRows(w.db, run.claims[i]);
      }
      OutcomesKeepTruth(w.db, run.outcomes, w.now, cfg.pauseAfter, w.accepted);
      hide Sound, OwnRows, RunOk, OutcomesRecorded, OutcomeTrue;
      ShrinkKeepsSent(OutcomesRecorded(w.db, run.outcomes, w.now, cfg.pauseAfter), w'.db, w.accepted, w'.accepted);
    } else {
      SentOnlyGrowsAtRecord(w, st, cfg);
      hide Sound, OwnRows, RunOk, Next, SentWasAccepted;
      ShrinkKeepsSent(w.db, w'.db, w.accepted, w'.accepted);
    }
  }

  /** In every state of every run, a sent row was in a message that was accepted. */
  lemma {:induction false} RunsAreTruthful(ws: seq<World>, steps: seq<Step>, cfg: Settings, i: nat)
    requires IsRun(ws, steps, cfg) && i < |ws|
    ensures Truthful(ws[i])
  {
    if i > 0 {
      RunsAreSound(ws, steps, cfg, i - 1);
      RunsAreTruthful(ws, steps, cfg, i - 1);
      StepOf(ws, steps, cfg, i - 1);
      hide Truthful, Next;
      StepKeepsTruth(ws[i - 1], steps[i - 1], cfg);
    }
  }

  // ----- Nothing pending is lost -----

  /** The three ways out of 'pending'. */
  ghost predicate Leaves(w: World, st: Step, cfg: Settings, k: DeliveryKey)
    requires k in w.db.deliveries
  {
    var s := w.db.deliveries[k].sub;
    match st
    case Record(r) => r in w.runs && (InAccepted(w.runs[r].outcomes, k) || PausedBy(w, r, cfg, s))
    case Pause(x) => x == s
    case Remove(x) => x == s
    case _ => false
  }

  /** A message accepted in this run carried `k`. */
  ghost predicate InAccepted(os: seq<Outcome>, k: DeliveryKey) {
    exists i :: 0 <= i < |os| && os[i].SentAs? && k in os[i].claim.deliveries
  }

  /** Recording this run pauses `s`: a failure ended a streak that was too long. */
  ghost predicate PausedBy(w: World, r: RunId, cfg: Settings, s: SubId)
    requires r in w.runs
  {
    PausesIn(w.db, w.runs[r].outcomes, w.now, cfg.pauseAfter, s)
  }

  ghost predicate PausesIn(db: Db, os: seq<Outcome>, now: Time, pauseAfter: Time, s: SubId) {
    exists i :: 0 <= i < |os| && PausesAt(db, os, now, pauseAfter, s, i)
  }

  ghost predicate PausesAt(db: Db, os: seq<Outcome>, now: Time, pauseAfter: Time, s: SubId, i: nat)
    requires i < |os|
  {
    os[i].claim.sub == s && Pauses(OutcomesRecorded(db, os[..i], now, pauseAfter), os[i], now, pauseAfter)
  }

  lemma OutcomeFate(db: Db, o: Outcome, now: Time, pauseAfter: Time, k: DeliveryKey)
    requires IsPending(db, k)
    ensures var db' := OutcomeRecorded(db, o, now, pauseAfter);
            if o.SentAs? && k in o.claim.deliveries then k in db'.deliveries && db'.deliveries[k].status == Sent
            else if o.claim.sub == db.deliveries[k].sub && Pauses(db, o, now, pauseAfter)
            then k in db'.deliveries && db'.deliveries[k].status == Failed
            else k in db'.deliveries && db'.deliveries[k] == db.deliveries[k]
  {
  }

  lemma {:induction false} OutcomesFate(db: Db, os: seq<Outcome>, now: Time, pauseAfter: Time, k: DeliveryKey)
    requires IsPending(db, k)
    requires !InAccepted(os, k) && !PausesIn(db, os, now, pauseAfter, db.deliveries[k].sub)
    ensures var db' := OutcomesRecorded(db, os, now, pauseAfter);
            k in db'.deliveries && db'.deliveries[k] == db.deliveries[k]
  {
    if os != [] {
      var n := |os| - 1;
      forall i | 0 <= i < n && os[..n][i].SentAs? ensures k !in os[..n][i].claim.deliveries {
        assert os[..n][i] == os[i];
      }
      forall i | 0 <= i < n ensures !PausesAt(db, os[..n], now, pauseAfter, db.deliveries[k].sub, i) {
        assert os[..n][..i] == os[..i] && os[..n][i] == os[i];
        assert !PausesAt(db, os, now, pauseAfter, db.deliveries[k].sub, i);
      }
      OutcomesFate(db, os[..n], now, pauseAfter, k);
      assert !PausesAt(db, os, now, pauseAfter, db.deliveries[k].sub, n);
      OutcomeFate(OutcomesRecorded(db, os[..n], now, pauseAfter), os[n], now, pauseAfter, k);
    }
  }

  /** A failed row becomes sent exactly when it was in a message accepted in the run
      that is recorded, although its subscription was paused meanwhile; otherwise it
      stays as it was. */
  lemma {:induction false} FailedTurnsSentIff(db: Db, os: seq<Outcome>, now: Time, pauseAfter: Time, k: DeliveryKey)
    requires k in db.deliveries && db.deliveries[k].status == Failed
    ensures var db' := OutcomesRecorded(db, os, now, pauseAfter);
            && k in db'.deliveries
            && (db'.deliveries[k].status == Sent <==> InAccepted(os, k))
            && (!InAccepted(os, k) ==> db'.deliveries[k] == db.deliveries[k])
  {
    if os != [] {
      var n := |os| - 1;
      FailedTurnsSentIff(db, os[..n], now, pauseAfter, k);
      assert InAccepted(os, k) <==> InAccepted(os[..n], k) || (os[n].SentAs? && k in os[n].claim.deliveries) by {
        AcceptedGrows(os, k);
      }
      var before := OutcomesRecorded(db, os[..n], now, pauseAfter);
      hide InAccepted;
      SettledFate(before, os[n], now, pauseAfter, k);
    }
  }

  lemma AcceptedGrows(os: seq<Outcome>, k: DeliveryKey)
    requires os != []
    ensures var n := |os| - 1;
            InAccepted(os, k) <==> InAccepted(os[..n], k) || (os[n].SentAs? && k in os[n].claim.deliveries)
  {
    var n := |os| - 1;
    assert forall i :: 0 <= i < n ==> os[..n][i] == os[i];
    if InAccepted(os[..n], k) {
      var i :| 0 <= i < n && os[..n][i].SentAs? && k in os[..n][i].claim.deliveries;
      assert os[i].SentAs?;
    }
  }

  /** One outcome leaves a settled row alone, unless its message carried it. */
  lemma SettledFate(db: Db, o: Outcome, now: Time, pauseAfter: Time, k: DeliveryKey)
    requires k in db.deliveries && db.deliveries[k].status != Pending
    ensures var db' := OutcomeRecorded(db, o, now, pauseAfter);
            && k in db'.deliveries
            && if o.SentAs? && k in o.claim.deliveries then db'.deliveries[k].status == Sent
               else db'.deliveries[k] == db.deliveries[k]
  {
  }

  /** A purge never takes a pending row nor its episode. */
  lemma PurgeSparesPending(db: Db, now: Time, retention: Time, k: DeliveryKey)
    requires ForeignKeys(db) && IsPending(db, k)
    ensures var db' := AfterPurge(db, now, retention);
            && k in db'.deliveries && db'.deliveries[k] == db.deliveries[k]
            && k.episode in db'.episodes && db'.episodes[k.episode] == db.episodes[k.episode]
  {
    assert IsPending(DeliveriesPurged(db, now - retention), k);
  }

  /** One step: a pending delivery stays pending, with its row and its episode,
      unless it leaves in one of the three ways. */
  lemma PendingStaysOrLeaves(w: World, st: Step, cfg: Settings, k: DeliveryKey)
    requires Sound(w.db) && Enabled(w, st, cfg) && IsPending(w.db, k)
    ensures !Leaves(w, st, cfg, k)
        ==> IsPending(Next(w, st, cfg).db, k) && Next(w, st, cfg).db.deliveries[k].sub == w.db.deliveries[k].sub
    ensures !Leaves(w, st, cfg, k) ==> k.episode in Next(w, st, cfg).db.episodes
  {
    StepKeepsSound(w, st, cfg);
    if !Leaves(w, st, cfg, k) {
      if st.Record? {
        var os := w.runs[st.run].outcomes;
        OutcomesFate(w.db, os, w.now, cfg.pauseAfter, k);
        OutcomesShrink(w.db, os, w.now, cfg.pauseAfter);
        hide OutcomesRecorded, AfterPurge, Sound, Leaves;
        PurgeSparesPending(OutcomesRecorded(w.db, os, w.now, cfg.pauseAfter), w.now, cfg.retention, k);
      } else if st.MatchCommit? {
        hide GroupsApplied, Leaves, OneOpen, Expiry, Ledger, Recorded;
        CommitAddsPending(w.db, st.ms, st.seen, st.b);
      } else {
        hide Sound, Evolves;
        OthersKeepPending(w, st, cfg, k);
        assert k.episode in w.db.episodes by { assert ForeignKeys(w.db); }
      }
    }
  }

  lemma OthersKeepPending(w: World, st: Step, cfg: Settings, k: DeliveryKey)
    requires Enabled(w, st, cfg) && IsPending(w.db, k) && !st.Record? && !st.MatchCommit? && !Leaves(w, st, cfg, k)
    requires ForeignKeys(w.db)
    ensures IsPending(Next(w, st, cfg).db, k) && Next(w, st, cfg).db.deliveries[k].sub == w.db.deliveries[k].sub
    ensures k.episode in Next(w, st, cfg).db.episodes
  {
    hide IsSelection, IsPendingList, OneOpen, OutcomesRecorded, GroupsApplied, LeasedAll;
    assert k.episode in w.db.episodes && w.db.episodes[k.episode].sub == w.db.deliveries[k].sub;
    hide ForeignKeys;
  }

  /** Delivery loses nothing: over any stretch of any run, a pending delivery is
      still pending, or some step made it leave in one of the three ways. */
  lemma {:induction false} NothingIsLost(
    ws: seq<World>, steps: seq<Step>, cfg: Settings, i: nat, j: nat, k: DeliveryKey)
    requires IsRun(ws, steps, cfg) && i <= j < |ws| && IsPending(ws[i].db, k)
    ensures || IsPending(ws[j].db, k)
            || exists n :: i <= n < j && k in ws[n].db.deliveries && Leaves(ws[n], steps[n], cfg, k)
    decreases j
  {
    hide Next, Enabled, Leaves, Sound;
    if i < j {
      NothingIsLost(ws, steps, cfg, i, j - 1, k);
      RunsAreSound(ws, steps, cfg, j - 1);
      if IsPending(ws[j - 1].db, k) && !Leaves(ws[j - 1], steps[j - 1], cfg, k) {
        StepOf(ws, steps, cfg, j - 1);
        PendingStaysOrLeaves(ws[j - 1], steps[j - 1], cfg, k);
      }
    }
  }

  // ----- Rows that came after the claim -----

  /** The run keeps its claims until it is recorded or dies, and a row that was not
      in the tables when it claimed is in none of them. */
  lemma {:induction false} ClaimsHoldOldRows(
    ws: seq<World>, steps: seq<Step>, cfg: Settings, i: nat, j: nat, k: DeliveryKey)
    requires IsRun(ws, steps, cfg) && i < j < |ws| && steps[i].ClaimSome? && k !in ws[i].db.deliveries
    requires ws[i].nextRun in ws[j].runs
    ensures forall c :: c in ws[j].runs[ws[i].nextRun].claims ==> k !in c.deliveries
    ensures ws[j].nextRun > ws[i].nextRun
    decreases j
  {
    hide Next, Enabled;
    var r := ws[i].nextRun;
    StepOf(ws, steps, cfg, j - 1);
    if i + 1 < j {
      RunIdsGrow(ws, steps, cfg, i + 1, j - 1);
      StepOf(ws, steps, cfg, i);
      ClaimTakesOldRows(ws[i], steps[i], cfg, k);
      RunsKeepClaims(ws[j - 1], steps[j - 1], cfg, r);
      ClaimsHoldOldRows(ws, steps, cfg, i, j - 1, k);
    } else {
      ClaimTakesOldRows(ws[i], steps[i], cfg, k);
    }
  }

  lemma ClaimTakesOldRows(w: World, st: Step, cfg: Settings, k: DeliveryKey)
    requires Enabled(w, st, cfg) && st.ClaimSome? && k !in w.db.deliveries
    ensures Next(w, st, cfg).nextRun == w.nextRun + 1
    ensures w.nextRun in Next(w, st, cfg).runs
    ensures forall c :: c in Next(w, st, cfg).runs[w.nextRun].claims ==> k !in c.deliveries
  {
    var claims := ClaimsOf(w.db, st.chosen, st.rows);
    forall i | 0 <= i < |claims| ensures k !in claims[i].deliveries {
      ClaimsAreExact(w.db, w.now, cfg.minInterval, cfg.limit, st.locked, st.chosen, st.rows, i);
    }
    hide IsSelection, IsPendingList, RowsOf, LeasedAll, AttemptedAll;
  }

  lemma RunsKeepClaims(w: World, st: Step, cfg: Settings, r: RunId)
    requires Enabled(w, st, cfg) && r in Next(w, st, cfg).runs && r < w.nextRun
    ensures r in w.runs && Next(w, st, cfg).runs[r].claims == w.runs[r].claims
    ensures Next(w, st, cfg).nextRun >= w.nextRun
  {
    hide IsSelection, IsPendingList, GroupsApplied, OutcomesRecorded, AfterClaim, AfterPause, AfterResume, AfterRemove;
  }

  lemma {:induction false} RunIdsGrow(ws: seq<World>, steps: seq<Step>, cfg: Settings, i: nat, j: nat)
    requires IsRun(ws, steps, cfg) && i <= j < |ws|
    ensures ws[i].nextRun <= ws[j].nextRun
    decreases j
  {
    hide Next, Enabled;
    if i < j {
      RunIdsGrow(ws, steps, cfg, i, j - 1);
      StepOf(ws, steps, cfg, j - 1);
      RunIdGrows(ws[j - 1], steps[j - 1], cfg);
    }
  }

  lemma RunIdGrows(w: World, st: Step, cfg: Settings)
    requires Enabled(w, st, cfg)
    ensures Next(w, st, cfg).nextRun >= w.nextRun
  {
    hide IsSelection, IsPendingList, GroupsApplied, OutcomesRecorded, AfterClaim, AfterPause, AfterResume, AfterRemove;
  }

  /** So a pending row that came after the claim of a run is not sent by recording
      it: it stays pending, unless a failure recorded there pauses its subscription. */
  lemma LaterRowsAreSpared(ws: seq<World>, steps: seq<Step>, cfg: Settings, i: nat, j: nat, k: DeliveryKey)
    requires IsRun(ws, steps, cfg) && i < j < |steps| && steps[i].ClaimSome? && steps[j] == Record(ws[i].nextRun)
    requires k !in ws[i].db.deliveries && IsPending(ws[j].db, k)
    requires ws[i].nextRun in ws[j].runs
    ensures !InAccepted(ws[j].runs[ws[i].nextRun].outcomes, k)
    ensures !PausedBy(ws[j], ws[i].nextRun, cfg, ws[j].db.deliveries[k].sub) ==>
              IsPending(ws[j + 1].db, k) && ws[j + 1].db.deliveries[k].sub == ws[j].db.deliveries[k].sub
  {
    var r := ws[i].nextRun;
    RunsAreTruthful(ws, steps, cfg, j);
    RunsAreSound(ws, steps, cfg, j);
    ClaimsHoldOldRows(ws, steps, cfg, i, j, k);
    StepOf(ws, steps, cfg, j);
    hide IsRun, Next, Enabled, Sound, PausedBy;
    NotAccepted(ws[j].runs[r], ws[j].accepted, k);
    hide *;
    LaterRowStays(ws[j], steps[j], cfg, r, k);
  }

  lemma NotAccepted(run: Run, accepted: map<MessageId, Message>, k: DeliveryKey)
    requires RunOk(run, accepted) && forall c :: c in run.claims ==> k !in c.deliveries
    ensures !InAccepted(run.outcomes, k)
  {
    forall i | 0 <= i < |run.outcomes| ensures k !in run.outcomes[i].claim.deliveries {
      assert run.claims[i] in run.claims;
    }
  }

  lemma LaterRowStays(w: World, st: Step, cfg: Settings, r: RunId, k: DeliveryKey)
    requires Sound(w.db) && Enabled(w, st, cfg) && st == Record(r) && IsPending(w.db, k)
    requires r in w.runs && !InAccepted(w.runs[r].outcomes, k)
    ensures !PausedBy(w, r, cfg, w.db.deliveries[k].sub) ==>
              IsPending(Next(w, st, cfg).db, k) && Next(w, st, cfg).db.deliveries[k].sub == w.db.deliveries[k].sub
  {
    PendingStaysOrLeaves(w, st, cfg, k);
    hide Next, Enabled, Sound, InAccepted, PausedBy;
  }
}
