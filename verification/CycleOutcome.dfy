/** What one cycle of the daemon does and reports, in each runtime mode. */
module CycleOutcome {
  import opened Text
  import opened Sorting
  import opened Destination
  import opened Engine
  import opened Dispatch
  import opened DispatchTheorems
  import opened DispatchReconcile
  import opened Runtime
  import opened Drain

  // ---------- How many a batch delivers ----------

  ghost function DeliveredAmong(b: Books, keys: seq<Key>): set<Key> {
    set k | k in keys && k in b.reminders.data && b.reminders.data[k].status.Delivered?
  }

  lemma OneMoreDelivered(b: Books, b': Books, rest: seq<Key>, last: Key)
    requires last !in rest && last in b'.reminders.data && b'.reminders.data.Keys == b.reminders.data.Keys
    requires forall x | x in rest && x in b.reminders.data :: b'.reminders.data[x] == b.reminders.data[x]
    ensures |DeliveredAmong(b', rest + [last])| ==
              |DeliveredAmong(b, rest)| + if b'.reminders.data[last].status.Delivered? then 1 else 0
  {
    assert forall x :: x in rest + [last] <==> x in rest || x == last;
    if b'.reminders.data[last].status.Delivered? {
      assert DeliveredAmong(b', rest + [last]) == DeliveredAmong(b, rest) + {last};
    } else {
      assert DeliveredAmong(b', rest + [last]) == DeliveredAmong(b, rest);
    }
  }

  /** The reminder's status is what the outcome says. */
  ghost predicate CountsAs(k: Key, after: (Books, DispatchOutcome)) {
    after.1.Done? ==> k in after.0.reminders.data
                      && (after.1.delivered <==> after.0.reminders.data[k].status.Delivered?)
  }

  lemma PersistCounts(b: Books, r: Reminder, status: Status, id: AttemptId, row: Row)
    requires row.delivered <==> status.Delivered?
    ensures CountsAs(r.dedupeKey, Persist(b, r, status, id, row))
  {
  }

  lemma FailureCounts(b: Books, r: Reminder, reason: A.Code, now: Time, d: Option<Resolution>)
    ensures CountsAs(r.dedupeKey, PersistFailure(b, r, reason, now, d))
  {
    PersistCounts(b, r, Failed, AttemptId(r.dedupeKey, AtLeastOne(r.attempts)), FailureRow(reason, now, d));
    hide CountsAs, Persist;
  }

  lemma AssignCounts(b: Books, r: Reminder, id: AttemptId, now: Time, d: Resolution)
    ensures CountsAs(r.dedupeKey, AssignUnverified(b, r, id, now, d))
  {
  }

  lemma FailSeamCounts(b: Books, r: Reminder, token: string, now: Time, d: Resolution)
    ensures CountsAs(r.dedupeKey, FailSeam(b, r, token, now, d))
  {
    match S.Route(None, false, Some(token)) {
      case SeamFailure(reason, _) => FailureCounts(b, r, reason, now, Some(d));
      case _ =>
    }
    hide PersistFailure, S.Route;
  }

  lemma SendCounts(b: Books, r: Reminder, now: Time, d: Resolution, scene: Scene)
    ensures CountsAs(r.dedupeKey, SendWhatsApp(b, r, now, d, scene))
  {
    FailSeamCounts(b, r, S.BYPASS_DETECTED, now, d);
    FailSeamCounts(b, r, S.FALLBACK_WITHOUT_FLAG, now, d);
    FailureCounts(b, r, A.FailedConfigInvalidTarget, now, Some(d));
    var id := AttemptId(r.dedupeKey, r.attempts);
    hide PersistFailure, S.Decide, FailSeam, AssignUnverified, Persist;
    match S.Decide(scene.call(id, OrElse(d.resolvedTargetRef, ""))) {
      case IntegrityFail(_) =>
      case SeamFailure(reason, _) => FailureCounts(b, r, reason, now, Some(d));
      case AcceptedUnverified => AssignCounts(b, r, id, now, d);
      case Delivered(a) =>
        PersistCounts(b, r, Status.Delivered, id,
                      Row(true, a.reasonCode, now, a.receiptRef, a.statusCode, a.acceptOnly, a.confidence, Some(d)));
    }
  }

  /** The count goes up exactly when the dispatch leaves its reminder delivered. */
  lemma DoneMeansDelivered(cfg: Setup, b: Books, k: Key, now: Time, scene: Scene)
    requires Filed(b.reminders) && k in b.reminders.data
    ensures CountsAs(k, ProcessCandidate(cfg, b, k, now, scene))
  {
    var r0 := b.reminders.data[k];
    FailureCounts(b, r0, A.TzMissing, now, None);
    hide PersistFailure, Persist, SendWhatsApp, Aim, ProvenanceComplete, CountsAs;
    if scene.target.Some? {
      var b1, r, d := WithStatus(b, Counted(r0), Attempted), Counted(r0), Aim(r0, scene.target.value);
      FailureCounts(b1, r, A.FailedConfigInvalidTarget, now, Some(d));
      SendCounts(b1, r, now, d, scene);
      PersistCounts(b1, r, Status.Delivered, AttemptId(r.dedupeKey, r.attempts),
                    Row(true, A.DeliveredSuccess, now, Some(cfg.engine.dedupeText(r.dedupeKey)), Some("ok"), false,
                        A.ProviderConfirmed, Some(d)));
    }
  }

  lemma SoundIsFiled(b: Books)
    requires Sound(b)
    ensures Filed(b.reminders)
  {
  }

  lemma {:induction false} BatchCounts(cfg: Setup, b: Books, keys: seq<Key>, w: World)
    requires Sound(b) && Distinct(keys)
    requires forall k | k in keys :: k in b.reminders.data && IsSchedulable(b.reminders.data[k].status)
    ensures var p := DispatchAll(cfg, b, keys, w); !p.2 ==> p.1 == |DeliveredAmong(p.0, keys)|
    decreases |keys|
  {
    if keys == [] {
      assert DeliveredAmong(b, []) == {};
    } else {
      var rest, last := keys[..|keys| - 1], keys[|keys| - 1];
      assert keys == rest + [last] && last in keys && last !in rest;
      assert forall k | k in rest :: k in keys;
      BatchCounts(cfg, b, rest, w);
      DispatchAllDrains(cfg, b, rest, w);
      NextCounts(cfg, b, rest, DispatchAll(cfg, b, rest, w), last, w);
    }
  }

  lemma NextCounts(cfg: Setup, b: Books, rest: seq<Key>, sofar: Progress, last: Key, w: World)
    requires last in b.reminders.data && IsSchedulable(b.reminders.data[last].status) && last !in rest
    requires Drains(b, sofar, rest) && (!sofar.2 ==> sofar.1 == |DeliveredAmong(sofar.0, rest)|)
    ensures var p := DispatchNext(cfg, sofar, last, w); !p.2 ==> p.1 == |DeliveredAmong(p.0, rest + [last])|
  {
    hide Sound, ProcessCandidate, DeliveredAmong;
    if !sofar.2 {
      var b', outcome := DispatchStaysSound(cfg, sofar.0, last, w.dispatchAt(last), w.scene(last));
      SoundIsFiled(sofar.0);
      DoneMeansDelivered(cfg, sofar.0, last, w.dispatchAt(last), w.scene(last));
      if outcome.Done? {
        OneMoreDelivered(sofar.0, b', rest, last);
      }
    }
  }

  // ---------- One cycle ----------

  /** The first hundred due reminders when the batch is listed. */
  ghost function Batch(cfg: Setup, rt: Runtime, w: World): seq<Key> {
    var due := DueKeys(cfg.engine, rt.books.reminders, w.listAt);
    if |due| <= 100 then due else due[..100]
  }

  /** The books after the second half of the cycle, and whether it reconciled. */
  ghost predicate ReconciledAt(cfg: Setup, tickMs: int, rt: Runtime, w: World, b: Books, next: Runtime, moved: bool)
    requires tickMs > 0
  {
    && (moved <==> rt.lastBoundaryMs < w.startMs - w.startMs % tickMs)
    && next.lastBoundaryMs == (if moved then w.startMs - w.startMs % tickMs else rt.lastBoundaryMs)
    && (if moved then Reconciled(cfg, b, next.books, w.reconcileAt) else next.books == b)
  }

  lemma BoundaryIsMultiple(nowMs: int, tickMs: int)
    requires tickMs > 0
    ensures BoundaryMs(nowMs, tickMs) == nowMs - nowMs % tickMs
  {
  }

  lemma SecondHalf(cfg: Setup, tickMs: int, rt: Runtime, w: World, b: Books, next: Runtime)
    requires tickMs > 0 && Sound(b)
    ensures var boundary := BoundaryMs(w.startMs, tickMs);
            var moved := boundary > rt.lastBoundaryMs;
            && next.books == (if moved then RunReconcile(cfg, b, w.reconcileAt) else b)
            && next.lastBoundaryMs == (if moved then boundary else rt.lastBoundaryMs) ==>
              ReconciledAt(cfg, tickMs, rt, w, b, next, moved)
  {
    hide Sound, Reconciled, RunReconcile, BoundaryMs;
    ReconcileIsExact(cfg, b, w.reconcileAt);
    BoundaryIsMultiple(w.startMs, tickMs);
    var floor := w.startMs - w.startMs % tickMs;
    assert BoundaryMs(w.startMs, tickMs) == floor;
  }

  /** In capture-only mode a cycle never stops the runner, dispatches nothing, and reports every
      due reminder as blocked; it still reconciles when the boundary has moved. */
  lemma CaptureOnlyCycle(cfg: Setup, tickMs: int, rt: Runtime, w: World)
    requires tickMs > 0 && Sound(rt.books) && w.mode == "capture_only"
    ensures var (next, summary) := RunCycle(cfg, tickMs, rt, w);
            var n := |Batch(cfg, rt, w)|;
            && summary.Summary?
            && ReconciledAt(cfg, tickMs, rt, w, rt.books, next, summary.reconciled)
            && summary == Summary(n, 0, n, true, summary.reconciled)
            && next.cycles == rt.cycles + 1 && next.healthy
  {
    hide Sound, ReconciledAt, RunReconcile, DueKeys, DispatchAll, BoundaryMs;
    SecondHalf(cfg, tickMs, rt, w, rt.books, RunCycle(cfg, tickMs, rt, w).0);
  }

  /** In any other mode a cycle that is not stopped dispatches its batch, counts what it
      delivered, blocks nothing, and succeeds exactly when the mode is known and all of the
      batch was delivered; the daemon is healthy from its first success on. */
  lemma NormalCycle(cfg: Setup, tickMs: int, rt: Runtime, w: World) returns (b: Books)
    requires tickMs > 0 && Sound(rt.books) && w.mode != "capture_only"
    ensures var (next, summary) := RunCycle(cfg, tickMs, rt, w);
            var keys := Batch(cfg, rt, w);
            && next.cycles == rt.cycles + 1
            && (summary.Stopped? ==> next == rt.(books := b, cycles := next.cycles))
            && (summary.Summary? ==>
                  && BatchDone(rt.books.reminders.data, b.reminders.data, false, keys)
                  && ReconciledAt(cfg, tickMs, rt, w, b, next, summary.reconciled)
                  && summary == Summary(|keys|, |DeliveredAmong(b, keys)|, 0,
                                        w.mode != "" && |DeliveredAmong(b, keys)| == |keys|, summary.reconciled)
                  && (next.healthy <==> rt.healthy || summary.success))
  {
    var keys := ListCandidates(cfg, rt.books, w.listAt);
    CandidatesAreDue(cfg, rt.books, w.listAt);
    Tables.DueKeysDistinct(cfg.engine, rt.books.reminders, w.listAt);
    BatchCounts(cfg, rt.books, keys, w);
    DispatchAllDrains(cfg, rt.books, keys, w);
    b := DispatchAll(cfg, rt.books, keys, w).0;
    hide ReconciledAt, RunReconcile, DueKeys, DispatchAll, BatchDone, DeliveredAmong, BoundaryMs, Sound;
    SecondHalf(cfg, tickMs, rt, w, b, RunCycle(cfg, tickMs, rt, w).0);
  }

  // ---------- Capture-only runs ----------

  ghost predicate WasSent(b: Books, k: Key) {
    k in b.reminders.data && b.reminders.data[k].status in {Delivered, Failed}
  }

  /** Nothing was sent: the same attempts have rows and were assigned, no reminder is newly
      delivered or failed, and none has been attempted more often. */
  ghost predicate NothingSent(b: Books, b': Books) {
    && b'.rows.data.Keys == b.rows.data.Keys
    && (forall id :: (id, AssignOpen) in b'.transitions <==> (id, AssignOpen) in b.transitions)
    && (forall k :: WasSent(b', k) ==> WasSent(b, k))
    && (forall k | k in b.reminders.data ::
          k in b'.reminders.data && b'.reminders.data[k].attempts == b.reminders.data[k].attempts)
  }

  lemma AssignedIn(ts: seq<(AttemptId, Transition)>, id: AttemptId)
    ensures (id, AssignOpen) in ts <==> (id, AssignOpen) in TransitionsOf(ts, id)
  {
    FilterMembers(ts, (t: (AttemptId, Transition)) => t.0 == id);
  }

  lemma RowsTell(b: Books, id: AttemptId)
    requires Sound(b)
    ensures if id in b.rows.data then WasSent(b, id.reminder) else TransitionsOf(b.transitions, id) == []
  {
    assert AttemptOk(b, id);
  }

  lemma FateAssignsNone(b: Books, b': Books, id: AttemptId, fate: Fate)
    requires MeetsFate(b, b', id, fate)
    ensures (id, AssignOpen) in TransitionsOf(b'.transitions, id) <==>
              (id, AssignOpen) in TransitionsOf(b.transitions, id)
  {
    hide TransitionsOf;
    var before, after := TransitionsOf(b.transitions, id), TransitionsOf(b'.transitions, id);
    assert after == before + after[|before|..];
  }

  lemma FateKeepsAttempts(b: Books, b': Books, id: AttemptId, fate: Fate)
    requires MeetsFate(b, b', id, fate)
    ensures id.reminder in b.reminders.data && id.reminder in b'.reminders.data
    ensures b'.reminders.data[id.reminder].attempts == b.reminders.data[id.reminder].attempts
  {
    hide TransitionsOf;
  }

  lemma RowMeets(cfg: Setup, b: Books, b': Books, now: Time, id: AttemptId)
    requires AllMeet(cfg, b, b', now) && id in b.rows.data
    ensures MeetsFate(b, b', id, FateOf(cfg, b.rows.data[id], now))
  {
  }

  lemma ReconcileAssignsNone(cfg: Setup, b: Books, b': Books, now: Time, id: AttemptId)
    requires Sound(b) && Sound(b') && AllMeet(cfg, b, b', now) && b'.rows.data.Keys == b.rows.data.Keys
    ensures (id, AssignOpen) in b'.transitions <==> (id, AssignOpen) in b.transitions
  {
    AssignedIn(b.transitions, id);
    AssignedIn(b'.transitions, id);
    RowsTell(b, id);
    RowsTell(b', id);
    hide TransitionsOf, FateOf, Sound, AllMeet, MeetsFate;
    if id in b.rows.data {
      RowMeets(cfg, b, b', now, id);
      FateAssignsNone(b, b', id, FateOf(cfg, b.rows.data[id], now));
    }
  }

  lemma OtherIsUnsent(cfg: Setup, b: Books, b': Books, now: Time, k: Key)
    requires OthersRescheduled(cfg, b, b', now)
    requires k in b.reminders.data && forall id | id in b.rows.data :: id.reminder != k
    ensures k in b'.reminders.data && b'.reminders.data[k].attempts == b.reminders.data[k].attempts
    ensures WasSent(b', k) ==> WasSent(b, k)
  {
    assert RescheduledOnly(cfg, b, b', now, k);
    hide DueKeys;
  }

  lemma ReconcileSendsNone(cfg: Setup, b: Books, b': Books, now: Time, k: Key)
    requires Sound(b) && AllMeet(cfg, b, b', now) && OthersRescheduled(cfg, b, b', now) && k in b.reminders.data
    ensures k in b'.reminders.data && b'.reminders.data[k].attempts == b.reminders.data[k].attempts
    ensures WasSent(b', k) ==> WasSent(b, k)
  {
    hide FateOf, Sound, AllMeet, OthersRescheduled, MeetsFate;
    if id :| id in b.rows.data && id.reminder == k {
      RowsTell(b, id);
      RowMeets(cfg, b, b', now, id);
      FateKeepsAttempts(b, b', id, FateOf(cfg, b.rows.data[id], now));
    } else {
      OtherIsUnsent(cfg, b, b', now, k);
    }
  }

  lemma ReconciledIsSilent(cfg: Setup, b: Books, b': Books, now: Time)
    requires Sound(b) && Sound(b') && AllMeet(cfg, b, b', now) && OthersRescheduled(cfg, b, b', now) && SameRest(b, b')
    ensures NothingSent(b, b')
  {
    hide Sound, AllMeet, OthersRescheduled;
    forall id {
      ReconcileAssignsNone(cfg, b, b', now, id);
    }
    forall k | k in b.reminders.data {
      ReconcileSendsNone(cfg, b, b', now, k);
    }
  }

  lemma ReconcileIsSilent(cfg: Setup, b: Books, now: Time)
    requires Sound(b)
    ensures Sound(RunReconcile(cfg, b, now)) && NothingSent(b, RunReconcile(cfg, b, now))
  {
    ReconcileStaysSound(cfg, b, now);
    ReconcileIsExact(cfg, b, now);
    hide Sound, RunReconcile, AllMeet, OthersRescheduled, SameRest, NothingSent, RowsFated;
    ReconciledIsSilent(cfg, b, RunReconcile(cfg, b, now), now);
  }

  lemma OtherMoveIsSilent(cfg: Setup, b: Books, move: Move)
    requires Filed(b.reminders) && !move.DispatchOne? && !move.ReconcilePass?
    ensures NothingSent(b, Play(cfg, b, move))
  {
    hide RunReconcile;
  }

  lemma MoveIsSilent(cfg: Setup, b: Books, move: Move)
    requires Sound(b) && !move.DispatchOne?
    ensures Sound(Play(cfg, b, move)) && NothingSent(b, Play(cfg, b, move))
  {
    PlayStaysSound(cfg, b, move);
    SoundIsFiled(b);
    hide Sound, NothingSent, RunReconcile;
    if move.ReconcilePass? {
      ReconcileIsSilent(cfg, b, move.now);
    } else {
      OtherMoveIsSilent(cfg, b, move);
    }
  }

  lemma NoneIsSilent(b: Books)
    ensures NothingSent(b, b)
  {
  }

  lemma SilentAgain(b: Books, b1: Books, b2: Books)
    requires NothingSent(b, b1) && NothingSent(b1, b2)
    ensures NothingSent(b, b2)
  {
  }

  lemma {:induction false} MovesAreSilent(cfg: Setup, b: Books, moves: seq<Move>)
    requires Sound(b) && forall m | m in moves :: !m.DispatchOne?
    ensures Sound(PlayAll(cfg, b, moves)) && NothingSent(b, PlayAll(cfg, b, moves))
    decreases |moves|
  {
    hide Sound, NothingSent, Play;
    if moves == [] {
      NoneIsSilent(b);
    } else {
      var rest, last := moves[..|moves| - 1], moves[|moves| - 1];
      assert moves == rest + [last] && last in moves;
      assert forall m | m in rest :: m in moves;
      MovesAreSilent(cfg, b, rest);
      MoveIsSilent(cfg, PlayAll(cfg, b, rest), last);
      SilentAgain(b, PlayAll(cfg, b, rest), PlayAll(cfg, b, moves));
    }
  }

  ghost predicate IsCaptureOnly(round: Round) {
    round.world.mode == "capture_only" && forall m | m in round.meanwhile :: !m.DispatchOne?
  }

  lemma RoundIsSilent(cfg: Setup, tickMs: int, rt: Runtime, round: Round)
    requires tickMs > 0 && Sound(rt.books) && IsCaptureOnly(round)
    ensures var (next, summary) := RunRound(cfg, tickMs, rt, round);
            Sound(next.books) && NothingSent(rt.books, next.books) && summary.Summary? && summary.processed == 0
            && summary.blocked == summary.scanned && next.cycles == rt.cycles + 1
  {
    MovesAreSilent(cfg, rt.books, round.meanwhile);
    var mid := rt.(books := PlayAll(cfg, rt.books, round.meanwhile));
    ReconcileIsSilent(cfg, mid.books, round.world.reconcileAt);
    SilentAgain(rt.books, mid.books, RunReconcile(cfg, mid.books, round.world.reconcileAt));
    hide Sound, NothingSent, PlayAll, RunReconcile, DueKeys, BoundaryMs, DispatchAll;
  }

  /** Over every run of capture-only cycles, whatever else moves the books between them except
      other dispatches: nothing is sent, and no cycle stops the runner. */
  lemma {:induction false} CaptureOnlySendsNothing(cfg: Setup, tickMs: int, rt: Runtime, rounds: seq<Round>)
    requires tickMs > 0 && Sound(rt.books) && forall round | round in rounds :: IsCaptureOnly(round)
    ensures var after := Cycles(cfg, tickMs, rt, rounds);
            Sound(after.books) && NothingSent(rt.books, after.books) && after.cycles == rt.cycles + |rounds|
    decreases |rounds|
  {
    hide Sound, NothingSent, RunRound;
    if rounds == [] {
      NoneIsSilent(rt.books);
    } else {
      assert rounds[0] in rounds && forall round | round in rounds[1..] :: round in rounds;
      RoundIsSilent(cfg, tickMs, rt, rounds[0]);
      var next := RunRound(cfg, tickMs, rt, rounds[0]).0;
      CaptureOnlySendsNothing(cfg, tickMs, next, rounds[1..]);
      SilentAgain(rt.books, next.books, Cycles(cfg, tickMs, rt, rounds).books);
    }
  }
}
