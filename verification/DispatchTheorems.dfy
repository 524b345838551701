/** The life of dispatched reminders over every run of the daemon, from empty books. */
module DispatchTheorems {
  import opened Text
  import opened OrderedDict
  import opened Sorting
  import opened Destination
  import opened Engine
  import opened Dispatch

  ghost function TransitionsOf(ts: seq<(AttemptId, Transition)>, id: AttemptId): seq<(AttemptId, Transition)> {
    Filter(ts, (t: (AttemptId, Transition)) => t.0 == id)
  }

  ghost function OpenCount(rows: Dict<AttemptId, Row>): nat {
    |Filter(rows.keys, IsOpenIn(rows))|
  }

  /** The row id a reminder's outcome is stored under. */
  function RowId(r: Reminder): AttemptId {
    AttemptId(r.dedupeKey, AtLeastOne(r.attempts))
  }

  /** An attempt is unknown, or its row agrees with its reminder, and it has been assigned,
      promoted or demoted in that order, at most once each and never both closed ways. */
  ghost predicate AttemptOk(b: Books, id: AttemptId) {
    var ts := TransitionsOf(b.transitions, id);
    if id in b.rows.data then
      var row := b.rows.data[id];
      && id.reminder in b.reminders.data
      && id == RowId(b.reminders.data[id.reminder])
      && b.reminders.data[id.reminder].status == (if row.delivered then Delivered else Failed)
      && (row.delivered ==> row.destination.Some?)
      && (row.delivered && ViaWhatsApp(row) ==> HasEvidence(row))
      && (if IsOpen(row) then ViaWhatsApp(row) && ts == [(id, AssignOpen)]
          else || ts == []
               || (row.delivered && ts == [(id, AssignOpen), (id, PromoteDelivered)])
               || (!row.delivered && row.reason == A.AcceptedUnverifiedTimeout
                   && ts == [(id, AssignOpen), (id, DemoteTimeout)]))
    else ts == []
  }

  ghost predicate OutcomeStored(b: Books, k: Key)
    requires k in b.reminders.data
  {
    b.reminders.data[k].status in {Delivered, Failed} ==> RowId(b.reminders.data[k]) in b.rows.data
  }

  ghost predicate Balanced(b: Books) {
    b.openAtStart + b.assignedTotal == b.promotedTotal + b.demotedTotal + OpenCount(b.rows)
  }

  ghost predicate Tidy(b: Books) {
    Filed(b.reminders) && b.rows.Valid() && Balanced(b)
  }

  ghost predicate Sound(b: Books) {
    Tidy(b) && (forall id :: AttemptOk(b, id)) && (forall k | k in b.reminders.data :: OutcomeStored(b, k))
  }

  // ---------- Steps that touch one reminder and at most its row ----------

  /** b' changes reminder r only, and the rows and transitions of its row id only. */
  ghost predicate Touches(b: Books, b': Books, r: Reminder, id: AttemptId) {
    && id.reminder == r.dedupeKey && r.dedupeKey in b.reminders.data
    && b'.reminders == Dict(b.reminders.keys, b.reminders.data[r.dedupeKey := r])
    && b'.rows.data.Keys <= b.rows.data.Keys + {id} && b.rows.data.Keys <= b'.rows.data.Keys
    && (forall x | x in b.rows.data && x != id :: b'.rows.data[x] == b.rows.data[x])
    && (forall x | x != id :: TransitionsOf(b'.transitions, x) == TransitionsOf(b.transitions, x))
  }

  /** b' has the reminders of b, and at most the one filed under k is different. */
  ghost predicate OnlyReminder(b: Books, b': Books, k: Key) {
    && b'.reminders.data.Keys == b.reminders.data.Keys && k in b.reminders.data
    && forall x | x in b.reminders.data && x != k :: b'.reminders.data[x] == b.reminders.data[x]
  }

  lemma OnlyReminderTwice(a: Books, b: Books, c: Books, k: Key)
    ensures OnlyReminder(a, b, k) && OnlyReminder(b, c, k) ==> OnlyReminder(a, c, k)
  {
  }

  /** Sound again, with only reminder k changed, and k settled unless the runner was stopped. */
  ghost predicate Settles(b: Books, b': Books, outcome: DispatchOutcome, k: Key) {
    match outcome
    case DuplicateRow => false
    case RunnerStopped => Sound(b') && OnlyReminder(b, b', k)
    case Done(_) => Sound(b') && OnlyReminder(b, b', k) && b'.reminders.data[k].status in {Delivered, Failed}
  }

  lemma TouchedStaysSound(b: Books, b': Books, r: Reminder, id: AttemptId)
    requires Sound(b) && Tidy(b') && Touches(b, b', r, id)
    requires forall x | x in b.rows.data && x.reminder == r.dedupeKey :: x == id
    requires AttemptOk(b', id) && OutcomeStored(b', r.dedupeKey)
    ensures Sound(b')
  {
    forall x ensures AttemptOk(b', x) {
      assert AttemptOk(b, x);
    }
    forall k | k in b'.reminders.data ensures OutcomeStored(b', k) {
      if k != r.dedupeKey {
        assert OutcomeStored(b, k);
      }
    }
  }

  lemma OpenCountPut(rows: Dict<AttemptId, Row>, id: AttemptId, row: Row)
    requires rows.Valid()
    ensures OpenCount(rows.Put(id, row)) + (if id in rows.data && IsOpen(rows.data[id]) then 1 else 0)
         == OpenCount(rows) + (if IsOpen(row) then 1 else 0)
  {
    var rows' := rows.Put(id, row);
    if id in rows.data {
      FilterChangesAt(rows.keys, IsOpenIn(rows), IsOpenIn(rows'), id);
    } else {
      FilterAppend(rows.keys, id, IsOpenIn(rows'));
      FilterAgrees(rows.keys, IsOpenIn(rows), IsOpenIn(rows'));
    }
  }

  lemma TransitionsAppended(ts: seq<(AttemptId, Transition)>, id: AttemptId, t: Transition)
    ensures forall x :: TransitionsOf(ts + [(id, t)], x) == TransitionsOf(ts, x) + (if x == id then [(id, t)] else [])
  {
    forall x ensures TransitionsOf(ts + [(id, t)], x) == TransitionsOf(ts, x) + (if x == id then [(id, t)] else []) {
      FilterAppend(ts, (id, t), (e: (AttemptId, Transition)) => e.0 == x);
    }
  }

  lemma NoRowsWhileSchedulable(b: Books, k: Key)
    requires Sound(b) && k in b.reminders.data && IsSchedulable(b.reminders.data[k].status)
    ensures forall x: AttemptId | x.reminder == k :: x !in b.rows.data && TransitionsOf(b.transitions, x) == []
  {
    forall x: AttemptId | x.reminder == k ensures x !in b.rows.data && TransitionsOf(b.transitions, x) == [] {
      assert AttemptOk(b, x);
    }
  }

  /** Storing the outcome of a reminder that could still be sent never meets a taken row id. */
  lemma PersistStaysSound(b: Books, r: Reminder, status: Status, row: Row)
    requires Sound(b) && r.dedupeKey in b.reminders.data && IsSchedulable(b.reminders.data[r.dedupeKey].status)
    requires status == (if row.delivered then Delivered else Failed)
    requires !IsOpen(row) && (row.delivered ==> row.destination.Some? && (ViaWhatsApp(row) ==> HasEvidence(row)))
    ensures var (b', outcome) := Persist(b, r, status, RowId(r), row);
            Settles(b, b', outcome, r.dedupeKey) && outcome == Done(row.delivered)
  {
    var id := RowId(r);
    var b' := Persist(b, r, status, id, row).0;
    NoRowsWhileSchedulable(b, r.dedupeKey);
    OpenCountPut(b.rows, id, row);
    TouchedStaysSound(b, b', r.(status := status), id);
  }

  lemma AssignStaysSound(b: Books, r: Reminder, now: Time, d: Resolution)
    requires GoesByWhatsApp(d)
    requires Sound(b) && r.dedupeKey in b.reminders.data && IsSchedulable(b.reminders.data[r.dedupeKey].status)
    ensures var (b', outcome) := AssignUnverified(b, r, RowId(r), now, d);
            Settles(b, b', outcome, r.dedupeKey)
  {
    var id := RowId(r);
    var row := FailureRow(A.AcceptedUnverifiedCode, now, Some(d));
    var b' := AssignUnverified(b, r, id, now, d).0;
    NoRowsWhileSchedulable(b, r.dedupeKey);
    OpenCountPut(b.rows, id, row);
    TransitionsAppended(b.transitions, id, AssignOpen);
    TouchedStaysSound(b, b', r.(status := Failed), id);
  }

  lemma AttemptedStaysSound(b: Books, r: Reminder)
    requires Sound(b) && r.dedupeKey in b.reminders.data && IsSchedulable(b.reminders.data[r.dedupeKey].status)
    requires !(r.status in {Delivered, Failed})
    ensures Sound(b.(reminders := b.reminders.Put(r.dedupeKey, r)))
    ensures OnlyReminder(b, b.(reminders := b.reminders.Put(r.dedupeKey, r)), r.dedupeKey)
  {
    NoRowsWhileSchedulable(b, r.dedupeKey);
    TouchedStaysSound(b, b.(reminders := b.reminders.Put(r.dedupeKey, r)), r, RowId(r));
  }

  // ---------- Dispatch ----------

  lemma FailSeamIsFailure(b: Books, r: Reminder, token: string, now: Time, d: Resolution)
    ensures FailSeam(b, r, token, now, d) == PersistFailure(b, r, A.FailedAdapterResultMissing, now, Some(d))
  {
    S.RouteNeverMeetsNone(token, S.GotNothing);
  }

  lemma AnswerStaysSound(b: Books, r: Reminder, now: Time, d: Resolution, scene: Scene)
    requires Sound(b) && r.dedupeKey in b.reminders.data && b.reminders.data[r.dedupeKey] == r
    requires GoesByWhatsApp(d) && r.status.Attempted? && r.attempts >= 1
    requires !scene.forceBypass && scene.adapterBound
    ensures var (b', outcome) := SendWhatsApp(b, r, now, d, scene);
            Settles(b, b', outcome, r.dedupeKey)
  {
    var call := scene.call(AttemptId(r.dedupeKey, r.attempts), OrElse(d.resolvedTargetRef, ""));
    S.DeliveredHasEvidence(call);
    match S.Decide(call)
    case IntegrityFail(_) =>
    case SeamFailure(reason, _) => PersistStaysSound(b, r, Failed, FailureRow(reason, now, Some(d)));
    case AcceptedUnverified => AssignStaysSound(b, r, now, d);
    case Delivered(a) =>
      PersistStaysSound(b, r, Status.Delivered,
                        Row(true, a.reasonCode, now, a.receiptRef, a.statusCode, a.acceptOnly, a.confidence, Some(d)));
  }

  lemma SendWhatsAppStaysSound(b: Books, r: Reminder, now: Time, d: Resolution, scene: Scene)
    requires Sound(b) && r.dedupeKey in b.reminders.data && b.reminders.data[r.dedupeKey] == r
    requires GoesByWhatsApp(d) && r.status.Attempted? && r.attempts >= 1
    ensures var (b', outcome) := SendWhatsApp(b, r, now, d, scene);
            Settles(b, b', outcome, r.dedupeKey)
  {
    if scene.forceBypass || !scene.adapterBound {
      FailSeamIsFailure(b, r, if scene.forceBypass then S.BYPASS_DETECTED else S.FALLBACK_WITHOUT_FLAG, now, d);
      PersistStaysSound(b, r, Failed, FailureRow(A.FailedAdapterResultMissing, now, Some(d)));
      PersistStaysSound(b, r, Failed, FailureRow(A.FailedConfigInvalidTarget, now, Some(d)));
    } else {
      AnswerStaysSound(b, r, now, d, scene);
    }
  }

  /** A delivered result with a verifiable receipt and a status code. */
  predicate IsProven(call: S.AdapterCall) {
    call.Got? && call.result.status.DeliveredStatus? && S.IsVerifiable(call.result.receiptRef)
        && !S.HasNoStatusCode(call.result)
  }

  /** Accepted by the provider, without a verifiable receipt. */
  predicate IsUnproven(call: S.AdapterCall) {
    call.Got? && A.IsWeakTuple(call.result) && !S.IsVerifiable(call.result.receiptRef)
  }

  /** What a send by WhatsApp stores, for every answer the adapter can give: delivered exactly
      on proof, open exactly when accepted without it, else failed with the reason of the seam;
      the runner stops exactly on an accepted receipt that cannot be right. */
  lemma WhatsAppOutcomeIsExact(b: Books, r: Reminder, now: Time, d: Resolution, scene: Scene)
    requires Sound(b) && r.dedupeKey in b.reminders.data && b.reminders.data[r.dedupeKey] == r
    requires r.status.Attempted? && r.attempts >= 1
    requires !scene.forceBypass && scene.adapterBound
    requires var call := scene.call(RowId(r), OrElse(d.resolvedTargetRef, ""));
             call.Got? ==> A.ValidResult(call.result)
    ensures var id := RowId(r);
            var call := scene.call(id, OrElse(d.resolvedTargetRef, ""));
            var (b', outcome) := SendWhatsApp(b, r, now, d, scene);
            && (outcome.RunnerStopped? <==>
                  call.Got? && A.IsWeakTuple(call.result) && S.IsVerifiable(call.result.receiptRef)
                      && S.HasNoStatusCode(call.result))
            && (outcome.RunnerStopped? ==> b' == b)
            && (!outcome.RunnerStopped? ==>
                  && id in b'.rows.data && (b'.rows.data[id].delivered <==> IsProven(call))
                  && (IsOpen(b'.rows.data[id]) <==> IsUnproven(call))
                  && (!IsProven(call) && !IsUnproven(call) ==>
                        b'.rows.data[id].reason ==
                        (if call.Got? then A.FailedAdapterResultInvalid else A.FailedAdapterResultMissing))
                  && b'.reminders.data[r.dedupeKey] == r.(status := if IsProven(call) then Delivered else Failed)
                  && b'.assignedTotal == b.assignedTotal + if IsUnproven(call) then 1 else 0)
  {
    S.DecisionIsExact(scene.call(RowId(r), OrElse(d.resolvedTargetRef, "")));
    NoRowsWhileSchedulable(b, r.dedupeKey);
  }

  lemma SendOnStaysSound(cfg: Setup, b: Books, r: Reminder, now: Time, d: Resolution, scene: Scene)
    requires r.dedupeKey in b.reminders.data && b.reminders.data[r.dedupeKey] == r
    requires r.status.Attempted? && r.attempts >= 1
    ensures var (b', outcome) := SendOn(cfg, b, r, now, d, scene);
            Sound(b) ==> Settles(b, b', outcome, r.dedupeKey)
  {
    if Sound(b) {
      if !d.status.OkStatus? || !ProvenanceComplete(d) {
        PersistStaysSound(b, r, Failed, FailureRow(A.FailedConfigInvalidTarget, now, Some(d)));
      } else if GoesByWhatsApp(d) {
        SendWhatsAppStaysSound(b, r, now, d, scene);
      } else {
        PersistStaysSound(b, r, Status.Delivered,
                          Row(true, A.DeliveredSuccess, now, Some(cfg.engine.dedupeText(r.dedupeKey)), Some("ok"),
                              false,
                              A.ProviderConfirmed, Some(d)));
      }
    }
  }

  /** Counting the attempt and sending on. */
  lemma CountedStaysSound(cfg: Setup, b: Books, k: Key, now: Time, d: Resolution, scene: Scene)
    returns (b': Books, outcome: DispatchOutcome)
    requires Sound(b) && k in b.reminders.data && IsSchedulable(b.reminders.data[k].status)
    ensures var r := Counted(b.reminders.data[k]);
            (b', outcome) == SendOn(cfg, WithStatus(b, r, Attempted), r, now, d, scene)
    ensures Settles(b, b', outcome, k)
  {
    var r := Counted(b.reminders.data[k]);
    var b1 := WithStatus(b, r, Attempted);
    AttemptedStaysSound(b, r);
    SendOnStaysSound(cfg, b1, r, now, d, scene);
    var both := SendOn(cfg, b1, r, now, d, scene);
    b', outcome := both.0, both.1;
    OnlyReminderTwice(b, b1, b', k);
  }

  lemma NoTimezoneStaysSound(b: Books, k: Key, now: Time) returns (b': Books, outcome: DispatchOutcome)
    requires Sound(b) && k in b.reminders.data && IsSchedulable(b.reminders.data[k].status)
    ensures (b', outcome) == PersistFailure(b, b.reminders.data[k], A.TzMissing, now, None)
    ensures Settles(b, b', outcome, k)
  {
    var r := b.reminders.data[k];
    PersistStaysSound(b, r, Failed, FailureRow(A.TzMissing, now, None));
    var both := PersistFailure(b, r, A.TzMissing, now, None);
    b', outcome := both.0, both.1;
  }

  lemma WithTimezoneStaysSound(cfg: Setup, b: Books, k: Key, now: Time, scene: Scene)
    returns (b': Books, outcome: DispatchOutcome)
    requires Sound(b) && k in b.reminders.data && IsSchedulable(b.reminders.data[k].status)
    requires scene.target.Some? && scene.target.value.timezone.Some?
    ensures (b', outcome) == ProcessCandidate(cfg, b, k, now, scene)
    ensures Settles(b, b', outcome, k)
  {
    b', outcome := CountedStaysSound(cfg, b, k, now, Aim(b.reminders.data[k], scene.target.value), scene);
  }

  /** Dispatching a due reminder never meets a taken row id, and unless the runner stops it
      leaves the reminder delivered or failed, so no longer due. */
  lemma DispatchStaysSound(cfg: Setup, b: Books, k: Key, now: Time, scene: Scene)
    returns (b': Books, outcome: DispatchOutcome)
    requires Sound(b) && k in b.reminders.data && IsSchedulable(b.reminders.data[k].status)
    ensures (b', outcome) == ProcessCandidate(cfg, b, k, now, scene)
    ensures Settles(b, b', outcome, k)
  {
    if scene.target.None? || scene.target.value.timezone.None? {
      b', outcome := NoTimezoneStaysSound(b, k, now);
    } else {
      b', outcome := WithTimezoneStaysSound(cfg, b, k, now, scene);
    }
  }

  /** The attempt and the target with which a dispatch of r calls the adapter, if it does. */
  function Asked(r: Reminder, scene: Scene): Option<(AttemptId, string)> {
    if scene.target.None? || scene.target.value.timezone.None? then None
    else
      var d := Aim(r, scene.target.value);
      if && d.status.OkStatus? && ProvenanceComplete(d) && GoesByWhatsApp(d)
         && !scene.forceBypass && scene.adapterBound
      then Some((AttemptId(r.dedupeKey, r.attempts + 1), OrElse(d.resolvedTargetRef, "")))
      else None
  }

  lemma SendStopsOnAlarm(b: Books, r: Reminder, now: Time, d: Resolution, scene: Scene)
    ensures var id := AttemptId(r.dedupeKey, r.attempts);
            SendWhatsApp(b, r, now, d, scene).1.RunnerStopped? <==>
              && !scene.forceBypass && scene.adapterBound
              && S.Decide(scene.call(id, OrElse(d.resolvedTargetRef, ""))).IntegrityFail?
  {
    hide S.Decide;
    S.RouteNeverMeetsNone(S.BYPASS_DETECTED, S.GotNothing);
    S.RouteNeverMeetsNone(S.FALLBACK_WITHOUT_FLAG, S.GotNothing);
  }

  /** A dispatch stops the runner exactly when it calls the adapter and the answer is alarming. */
  lemma StopsOnlyOnAlarm(cfg: Setup, b: Books, k: Key, now: Time, scene: Scene)
    requires k in b.reminders.data && b.reminders.data[k].dedupeKey == k
    ensures var asked := Asked(b.reminders.data[k], scene);
            ProcessCandidate(cfg, b, k, now, scene).1.RunnerStopped? <==>
              asked.Some? && S.Decide(scene.call(asked.value.0, asked.value.1)).IntegrityFail?
  {
    hide S.Decide, SendWhatsApp, Aim, ProvenanceComplete;
    if scene.target.Some? && scene.target.value.timezone.Some? {
      var r := b.reminders.data[k];
      var d := Aim(r, scene.target.value);
      SendStopsOnAlarm(WithStatus(b, Counted(r), Attempted), Counted(r), now, d, scene);
    }
  }

  // ---------- Reconcile ----------

  lemma {:induction false} RescheduleStaysSound(b: Books, keys: seq<Key>, now: Time)
    requires Sound(b)
    ensures var b' := Reschedule(b, keys, now);
            Sound(b') && b' == b.(reminders := b'.reminders)
    decreases |keys|
  {
    if keys != [] {
      var rest, k := keys[..|keys| - 1], keys[|keys| - 1];
      RescheduleStaysSound(b, rest, now);
      var b1 := Reschedule(b, rest, now);
      if k in b1.reminders.data && MustReconcile(b1.reminders.data[k], now) {
        AttemptedStaysSound(b1, b1.reminders.data[k].(status := Scheduled, next := None));
      }
    }
  }

  predicate IsFresh(cfg: Setup, row: Row, now: Time) {
    now < row.at + cfg.windowMicros
  }

  /** What settling one open row leaves behind. */
  ghost predicate SettledRow(cfg: Setup, b: Books, id: AttemptId, now: Time, b': Books, open: bool)
    requires id in b.rows.data
  {
    && b'.assignedTotal == b.assignedTotal && b'.openAtStart == b.openAtStart
    && b'.promotedTotal + b'.demotedTotal + (if open then 1 else 0) == b.promotedTotal + b.demotedTotal + 1
    && b'.rows.keys == b.rows.keys && b'.rows.data.Keys == b.rows.data.Keys
    && (forall x | x in b.rows.data && x != id :: b'.rows.data[x] == b.rows.data[x])
    && (IsOpen(b'.rows.data[id]) ==> IsFresh(cfg, b'.rows.data[id], now))
  }

  lemma RowIsSettled(cfg: Setup, b: Books, id: AttemptId, now: Time)
    requires b.rows.Valid() && id in b.rows.data && IsOpen(b.rows.data[id])
    requires id.reminder in b.reminders.data && !IsClosed(b, id)
    ensures var (b', open) := SettleRow(cfg, b, id, now); SettledRow(cfg, b, id, now, b', open)
  {
  }

  lemma SettleRowStaysSound(cfg: Setup, b: Books, id: AttemptId, now: Time) returns (b': Books, open: bool)
    requires Sound(b) && id in b.rows.data && IsOpen(b.rows.data[id])
    ensures (b', open) == SettleRow(cfg, b, id, now)
    ensures Sound(b') && SettledRow(cfg, b, id, now, b', open)
  {
    assert AttemptOk(b, id);
    ClosedMeansTransition(b, id);
    RowIsSettled(cfg, b, id, now);
    var settled := SettleRow(cfg, b, id, now);
    b', open := settled.0, settled.1;
    if !open {
      var promoted := S.IsVerifiable(b.rows.data[id].providerRef);
      CloseStaysSound(b, id, if promoted then Promoted(b.rows.data[id]) else Demoted(b.rows.data[id]), promoted);
    }
  }

  lemma ClosedTouches(b: Books, id: AttemptId, row: Row, promoted: bool)
    requires Tidy(b) && id in b.rows.data && IsOpen(b.rows.data[id]) && !IsOpen(row)
    requires id.reminder in b.reminders.data
    ensures var b' := Closed(b, id, row, promoted);
            && Tidy(b') && Touches(b, b', b'.reminders.data[id.reminder], id)
            && TransitionsOf(b'.transitions, id) ==
               TransitionsOf(b.transitions, id) + [(id, if promoted then PromoteDelivered else DemoteTimeout)]
  {
    TransitionsAppended(b.transitions, id, if promoted then PromoteDelivered else DemoteTimeout);
    OpenCountPut(b.rows, id, row);
  }

  lemma CloseStaysSound(b: Books, id: AttemptId, row: Row, promoted: bool)
    requires Sound(b) && id in b.rows.data && IsOpen(b.rows.data[id])
    requires id.reminder in b.reminders.data
    requires row.delivered == promoted && !IsOpen(row) && row.destination == b.rows.data[id].destination
    requires if promoted then HasEvidence(row) else row.reason == A.AcceptedUnverifiedTimeout
    ensures Sound(Closed(b, id, row, promoted))
  {
    assert AttemptOk(b, id);
    var b' := Closed(b, id, row, promoted);
    ClosedTouches(b, id, row, promoted);
    RowIdIsOnly(b, id);
    TouchedStaysSound(b, b', b'.reminders.data[id.reminder], id);
  }

  lemma ClosedMeansTransition(b: Books, id: AttemptId)
    ensures IsClosed(b, id) <==> (id, PromoteDelivered) in TransitionsOf(b.transitions, id)
                                 || (id, DemoteTimeout) in TransitionsOf(b.transitions, id)
  {
    FilterMembers(b.transitions, (t: (AttemptId, Transition)) => t.0 == id);
  }

  lemma RowIdIsOnly(b: Books, id: AttemptId)
    requires Sound(b) && id in b.rows.data
    ensures forall x | x in b.rows.data && x.reminder == id.reminder :: x == id
  {
    assert AttemptOk(b, id);
    forall x | x in b.rows.data && x.reminder == id.reminder ensures x == id {
      assert AttemptOk(b, x);
    }
  }

  /** What settling several open rows leaves behind. */
  ghost predicate SettledRows(cfg: Setup, b: Books, ids: seq<AttemptId>, now: Time, b': Books, n: nat) {
    && b'.assignedTotal == b.assignedTotal && b'.openAtStart == b.openAtStart
    && b'.promotedTotal + b'.demotedTotal + n == b.promotedTotal + b.demotedTotal + |ids|
    && b'.rows.keys == b.rows.keys && b'.rows.data.Keys == b.rows.data.Keys
    && (forall x | x in b.rows.data && x !in ids :: b'.rows.data[x] == b.rows.data[x])
    && (forall x | x in ids && x in b'.rows.data && IsOpen(b'.rows.data[x]) :: IsFresh(cfg, b'.rows.data[x], now))
  }

  lemma OneMoreSettled(cfg: Setup, b: Books, b1: Books, b2: Books, rest: seq<AttemptId>, last: AttemptId, now: Time,
                       n: nat, open: bool)
    requires last in b1.rows.data
    ensures SettledRows(cfg, b, rest, now, b1, n) && SettledRow(cfg, b1, last, now, b2, open) ==>
              SettledRows(cfg, b, rest + [last], now, b2, if open then n + 1 else n)
  {
    assert forall x :: x in rest + [last] <==> x in rest || x == last;
  }

  lemma {:induction false} SettleAllStaysSound(cfg: Setup, b: Books, ids: seq<AttemptId>, now: Time)
    returns (b': Books, n: nat)
    requires Sound(b) && Distinct(ids)
    requires forall id | id in ids :: id in b.rows.data && IsOpen(b.rows.data[id])
    ensures (b', n) == SettleAll(cfg, b, ids, now)
    ensures Sound(b') && SettledRows(cfg, b, ids, now, b', n)
    decreases |ids|
  {
    b', n := b, 0;
    if ids != [] {
      var rest, last := ids[..|ids| - 1], ids[|ids| - 1];
      assert ids == rest + [last] && last in ids && last !in rest;
      assert forall id | id in rest :: id in ids;
      var b1, n1 := SettleAllStaysSound(cfg, b, rest, now);
      var b2, open := SettleRowStaysSound(cfg, b1, last, now);
      var counted := CountOpen(n1, (b2, open));
      b', n := counted.0, counted.1;
      OneMoreSettled(cfg, b, b1, b2, rest, last, now, n1, open);
    }
  }

  /** After a reconcile the books balance against the gauge and no open row is past its window. */
  lemma ReconcileStaysSound(cfg: Setup, b: Books, now: Time)
    requires Sound(b)
    ensures var b' := RunReconcile(cfg, b, now);
            && Sound(b') && b'.openGauge == OpenCount(b'.rows)
            && b'.openAtStart == b.openAtStart
            && b'.openAtStart + b'.assignedTotal == b'.promotedTotal + b'.demotedTotal + b'.openGauge
            && (forall id | id in b'.rows.data && IsOpen(b'.rows.data[id]) :: IsFresh(cfg, b'.rows.data[id], now))
  {
    hide Reschedule, SettleAll, DueKeys, Sort;
    var keys := Take(DueKeys(cfg.engine, b.reminders, now), RECONCILE_LIMIT);
    var b1 := Reschedule(b, keys, now);
    RescheduleStaysSound(b, keys, now);
    var ids := OpenIds(b1.rows);
    OpenIdsPresent(b1.rows);
    FilterMembers(b1.rows.keys, IsOpenIn(b1.rows));
    SortDistinct(Filter(b1.rows.keys, IsOpenIn(b1.rows)), OlderFirst(b1.rows));
    var b2, open := SettleAllStaysSound(cfg, b1, ids, now);
    assert Balanced(b1) && Balanced(b2);
    GaugeStaysSound(b2, open);
  }

  lemma GaugeStaysSound(b: Books, open: nat)
    requires Sound(b)
    ensures Sound(b.(openGauge := open))
  {
    forall id ensures AttemptOk(b.(openGauge := open), id) {
      assert AttemptOk(b, id);
    }
    forall k | k in b.reminders.data ensures OutcomeStored(b.(openGauge := open), k) {
      assert OutcomeStored(b, k);
    }
  }

  // ---------- Runs ----------

  lemma LateReceiptStaysSound(b: Books, id: AttemptId, ref: Option<string>, code: Option<string>)
    requires Sound(b) && id in b.rows.data && IsOpen(b.rows.data[id])
    ensures Sound(b.(rows := b.rows.Put(id, b.rows.data[id].(providerRef := ref, statusCode := code))))
  {
    var row := b.rows.data[id].(providerRef := ref, statusCode := code);
    var b' := b.(rows := b.rows.Put(id, row));
    assert AttemptOk(b, id);
    OpenCountPut(b.rows, id, row);
    RowIdIsOnly(b, id);
    var r := b.reminders.data[id.reminder];
    assert b.reminders.data[r.dedupeKey := r] == b.reminders.data;
    TouchedStaysSound(b, b', r, id);
  }

  lemma NewReminderStaysSound(b: Books, r: Reminder)
    requires Sound(b) && r.dedupeKey !in b.reminders.data && r.status.Scheduled?
    ensures Sound(b.(reminders := b.reminders.Put(r.dedupeKey, r)))
  {
    var b' := b.(reminders := b.reminders.Put(r.dedupeKey, r));
    forall id ensures AttemptOk(b', id) {
      assert AttemptOk(b, id);
    }
    forall k | k in b'.reminders.data ensures OutcomeStored(b', k) {
      if k != r.dedupeKey {
        assert OutcomeStored(b, k);
      }
    }
  }

  lemma PlayStaysSound(cfg: Setup, b: Books, move: Move)
    requires Sound(b)
    ensures Sound(Play(cfg, b, move))
  {
    match move
    case DispatchOne(k, now, scene) =>
      if k in b.reminders.data && IsDue(b.reminders.data[k], now) {
        var b', outcome := DispatchStaysSound(cfg, b, k, now, scene);
      }
    case ReconcilePass(now) => ReconcileStaysSound(cfg, b, now);
    case LateReceipt(id, ref, code) =>
      if id in b.rows.data && IsOpen(b.rows.data[id]) {
        LateReceiptStaysSound(b, id, ref, code);
      }
    case NewReminders(r) =>
      if r.dedupeKey !in b.reminders.data && r.attempts == 0 && r.status.Scheduled? {
        NewReminderStaysSound(b, r);
      }
    case DropReminder(k) =>
      if k in b.reminders.data && IsSchedulable(b.reminders.data[k].status) {
        AttemptedStaysSound(b, b.reminders.data[k].(status := Invalidated));
      }
    case Restart => RestartStaysSound(b);
  }

  lemma RestartStaysSound(b: Books)
    requires Sound(b)
    ensures Sound(Restarted(b))
  {
    forall id ensures AttemptOk(Restarted(b), id) {
      assert AttemptOk(b, id);
    }
    forall k | k in b.reminders.data ensures OutcomeStored(Restarted(b), k) {
      assert OutcomeStored(b, k);
    }
  }

  lemma NewBooksAreSound()
    ensures Sound(NEW_BOOKS)
  {
    assert Filter(NEW_BOOKS.rows.keys, IsOpenIn(NEW_BOOKS.rows)) == [];
    forall id ensures AttemptOk(NEW_BOOKS, id) {
      assert TransitionsOf(NEW_BOOKS.transitions, id) == [];
    }
  }

  lemma {:induction false} ReachableBooksAreSound(cfg: Setup, moves: seq<Move>)
    ensures Sound(After(cfg, moves))
    decreases |moves|
  {
    if moves == [] {
      NewBooksAreSound();
    } else {
      ReachableBooksAreSound(cfg, moves[..|moves| - 1]);
      PlayStaysSound(cfg, After(cfg, moves[..|moves| - 1]), moves[|moves| - 1]);
    }
  }

  /** Over any run each attempt is never assigned, or assigned and then promoted or demoted
      at most once and never both; the totals of the process always balance with the open rows,
      counting those that were open when it started. */
  lemma AcceptModeLifecycle(cfg: Setup, moves: seq<Move>, id: AttemptId)
    ensures var b := After(cfg, moves);
            var ts := TransitionsOf(b.transitions, id);
            && (ts == [] || ts == [(id, AssignOpen)]
                || ts == [(id, AssignOpen), (id, PromoteDelivered)] || ts == [(id, AssignOpen), (id, DemoteTimeout)])
            && (ts == [(id, AssignOpen)] <==> id in b.rows.data && IsOpen(b.rows.data[id]))
            && b.openAtStart + b.assignedTotal == b.promotedTotal + b.demotedTotal + OpenCount(b.rows)
  {
    ReachableBooksAreSound(cfg, moves);
    assert AttemptOk(After(cfg, moves), id);
  }

  /** The rows that were open when the process of this run started: none before any restart. */
  ghost function OpenWhenStarted(cfg: Setup, moves: seq<Move>): nat
    decreases |moves|
  {
    if moves == [] then 0
    else if moves[|moves| - 1].Restart? then OpenCount(After(cfg, moves[..|moves| - 1]).rows)
    else OpenWhenStarted(cfg, moves[..|moves| - 1])
  }

  lemma SendKeepsStart(cfg: Setup, b: Books, r: Reminder, now: Time, d: Resolution, scene: Scene)
    ensures SendOn(cfg, b, r, now, d, scene).0.openAtStart == b.openAtStart
  {
  }

  lemma DispatchKeepsStart(cfg: Setup, b: Books, k: Key, now: Time, scene: Scene)
    requires k in b.reminders.data
    ensures ProcessCandidate(cfg, b, k, now, scene).0.openAtStart == b.openAtStart
  {
    if scene.target.Some? {
      var r := Counted(b.reminders.data[k]);
      SendKeepsStart(cfg, WithStatus(b, r, Attempted), r, now, Aim(b.reminders.data[k], scene.target.value), scene);
    }
  }

  lemma PlayKeepsStart(cfg: Setup, b: Books, move: Move)
    requires Sound(b)
    ensures Play(cfg, b, move).openAtStart == if move.Restart? then OpenCount(b.rows) else b.openAtStart
  {
    match move
    case DispatchOne(k, now, scene) =>
      if k in b.reminders.data {
        DispatchKeepsStart(cfg, b, k, now, scene);
      }
    case ReconcilePass(now) => ReconcileStaysSound(cfg, b, now);
    case _ =>
  }

  lemma {:induction false} OpenAtStartIsHistory(cfg: Setup, moves: seq<Move>)
    ensures After(cfg, moves).openAtStart == OpenWhenStarted(cfg, moves)
    decreases |moves|
  {
    if moves != [] {
      var rest, last := moves[..|moves| - 1], moves[|moves| - 1];
      OpenAtStartIsHistory(cfg, rest);
      ReachableBooksAreSound(cfg, rest);
      PlayKeepsStart(cfg, After(cfg, rest), last);
    }
  }

  /** Right after a reconcile the gauge is the number of open rows, and every open row is
      still inside its verification window. The totals balance with the gauge if and only if
      no row was open when the process started: its counters begin at zero. */
  lemma ReconcileBalances(cfg: Setup, moves: seq<Move>, now: Time)
    ensures var b := After(cfg, moves + [ReconcilePass(now)]);
            && b.openGauge == OpenCount(b.rows)
            && (b.assignedTotal == b.promotedTotal + b.demotedTotal + b.openGauge <==> OpenWhenStarted(cfg, moves) == 0)
            && (forall id | id in b.rows.data && IsOpen(b.rows.data[id]) :: now < b.rows.data[id].at + cfg.windowMicros)
  {
    var all := moves + [ReconcilePass(now)];
    assert all[..|all| - 1] == moves;
    ReachableBooksAreSound(cfg, moves);
    ReconcileStaysSound(cfg, After(cfg, moves), now);
    OpenAtStartIsHistory(cfg, moves);
  }

  /** A new reminder, due now, that goes by WhatsApp and is accepted without proof. */
  ghost predicate EndsOpen(r: Reminder, now: Time, scene: Scene) {
    && r.status.Scheduled? && r.attempts == 0 && IsDue(r, now)
    && scene.target.Some? && scene.target.value.timezone.Some? && !scene.forceBypass && scene.adapterBound
    && var d := Aim(r, scene.target.value);
       && d.status.OkStatus? && ProvenanceComplete(d) && GoesByWhatsApp(d)
       && S.Decide(scene.call(AttemptId(r.dedupeKey, 1), OrElse(d.resolvedTargetRef, ""))).AcceptedUnverified?
  }

  lemma EndsAssigned(cfg: Setup, b: Books, r: Reminder, now: Time, scene: Scene)
    requires EndsOpen(r, now, scene) && r.dedupeKey in b.reminders.data && b.reminders.data[r.dedupeKey] == r
    ensures ProcessCandidate(cfg, b, r.dedupeKey, now, scene) ==
              AssignUnverified(WithStatus(b, Counted(r), Attempted), Counted(r), AttemptId(r.dedupeKey, 1), now,
                               Aim(r, scene.target.value))
  {
    hide AssignUnverified, WithStatus, Aim, S.Decide, ProvenanceComplete;
  }

  lemma AssignOpens(b: Books, r: Reminder, id: AttemptId, now: Time, d: Resolution)
    requires b.rows == Empty()
    ensures OpenCount(AssignUnverified(b, r, id, now, d).0.rows) == 1
  {
    OpenCountPut(b.rows, id, FailureRow(A.AcceptedUnverifiedCode, now, Some(d)));
    assert Filter(b.rows.keys, IsOpenIn(b.rows)) == [];
  }

  lemma FirstDispatchOpens(cfg: Setup, r: Reminder, now: Time, scene: Scene)
    requires EndsOpen(r, now, scene)
    ensures OpenCount(Play(cfg, Play(cfg, NEW_BOOKS, NewReminders(r)), DispatchOne(r.dedupeKey, now, scene)).rows) == 1
  {
    hide ProcessCandidate, AssignUnverified, Aim, S.Decide, ProvenanceComplete, OpenCount;
    var b := Play(cfg, NEW_BOOKS, NewReminders(r));
    EndsAssigned(cfg, b, r, now, scene);
    AssignOpens(WithStatus(b, Counted(r), Attempted), Counted(r), AttemptId(r.dedupeKey, 1), now,
                Aim(r, scene.target.value));
  }

  lemma OneMove(cfg: Setup, moves: seq<Move>, move: Move)
    ensures After(cfg, moves + [move]) == Play(cfg, After(cfg, moves), move)
  {
    assert (moves + [move])[..|moves|] == moves;
  }

  /** The witness: such a reminder, one dispatch and a restart, and the counters of the new
      process never balance with its gauge. */
  lemma OpenRowOutlivesRestart(cfg: Setup, r: Reminder, now: Time, scene: Scene, later: Time)
    requires EndsOpen(r, now, scene)
    ensures var moves := [NewReminders(r), DispatchOne(r.dedupeKey, now, scene), Restart];
            var b := After(cfg, moves + [ReconcilePass(later)]);
            && OpenWhenStarted(cfg, moves) == 1
            && b.assignedTotal != b.promotedTotal + b.demotedTotal + b.openGauge
  {
    var made, sent := NewReminders(r), DispatchOne(r.dedupeKey, now, scene);
    OneMove(cfg, [], made);
    OneMove(cfg, [made], sent);
    assert [] + [made] == [made] && [made] + [sent] == [made, sent];
    FirstDispatchOpens(cfg, r, now, scene);
    var moves := [made, sent, Restart];
    assert moves[..2] == [made, sent];
    ReconcileBalances(cfg, moves, later);
  }

  /** There are such reminders and answers. */
  lemma SomethingEndsOpen() returns (r: Reminder, scene: Scene)
    ensures EndsOpen(r, 60, scene)
  {
    var pair := Dest(Some("whatsapp"), Some("ana"));
    r := Reminder(Key(1, 1, "ana", 0, 60), 1, 1, "ana", 60, 0, Scheduled, 0, None, pair, UNSET);
    var accepted := A.DeliveryResult(
      A.DeliveredStatus, A.DeliveredSuccess, false, None, Some("ok"), None, true, A.ProviderAccepted, 60, None, false,
      A.NoReplay, "", "", "", "");
    var target := Target("signal", "ana", Some("UTC"), 22, 7);
    scene := Scene(Some(target), (id, targetRef) => S.Got(accepted), false, true, false);
    WrittenDestinationIsUsed(pair, UNSET, Dest(Some("signal"), Some("ana")));
    OkIsComplete(pair, UNSET, Dest(Some("signal"), Some("ana")));
    S.DecisionIsExact(S.Got(accepted));
  }

  /** A delivered reminder has a delivered row with its destination, and when that was
      resolved to the channel whatsapp the row holds complete evidence. */
  lemma DeliveredHasEvidence(cfg: Setup, moves: seq<Move>, k: Key)
    requires k in After(cfg, moves).reminders.data && After(cfg, moves).reminders.data[k].status.Delivered?
    ensures var b := After(cfg, moves);
            var id := RowId(b.reminders.data[k]);
            && id in b.rows.data && b.rows.data[id].delivered && b.rows.data[id].destination.Some?
            && (b.rows.data[id].destination.value.resolvedChannel == Some("whatsapp") ==> HasEvidence(b.rows.data[id]))
  {
    ReachableBooksAreSound(cfg, moves);
    var b := After(cfg, moves);
    assert OutcomeStored(b, k);
    assert AttemptOk(b, RowId(b.reminders.data[k]));
  }
}
