/** The daemon's callback object over its tables; every method does what module Dispatch says. */
module DispatchCallbacks {
  import opened Text
  import opened OrderedDict
  import opened Sorting
  import opened Destination
  import opened Engine
  import opened D = Dispatch

  class DispatchTables {
    const cfg: Setup
    var reminders: Dict<Key, Reminder>
    var attempts: Dict<AttemptId, Row>
    var transitions: seq<(AttemptId, Transition)>
    var acceptedUnverifiedTotal: nat
    var promotedTotal: nat
    var demotedTotal: nat
    var openGauge: nat
    ghost var openAtStart: nat

    ghost function View(): Books
      reads this
    {
      Books(reminders, attempts, transitions, acceptedUnverifiedTotal, promotedTotal, demotedTotal, openGauge,
            openAtStart)
    }

    constructor (cfg: Setup)
      ensures this.cfg == cfg && View() == NEW_BOOKS
    {
      this.cfg := cfg;
      reminders, attempts, transitions := Empty(), Empty(), [];
      acceptedUnverifiedTotal, promotedTotal, demotedTotal, openGauge := 0, 0, 0, 0;
      openAtStart := 0;
    }

    /** A new callback object over the same store. */
    method Reopen()
      modifies this
      ensures View() == Restarted(old(View()))
    {
      acceptedUnverifiedTotal, promotedTotal, demotedTotal, openGauge := 0, 0, 0, 0;
      openAtStart := |Filter(attempts.keys, IsOpenIn(attempts))|;
    }

    method UpdateStatus(r: Reminder, status: Status)
      modifies this`reminders
      ensures View() == WithStatus(old(View()), r, status)
    {
      reminders := reminders.Put(r.dedupeKey, r.(status := status));
    }

    method PersistOutcome(r: Reminder, status: Status, id: AttemptId, row: Row) returns (outcome: DispatchOutcome)
      modifies this
      ensures (View(), outcome) == Persist(old(View()), r, status, id, row)
    {
      UpdateStatus(r, status);
      if attempts.Has(id) {
        return DuplicateRow;
      }
      attempts := attempts.Put(id, row);
      return Done(row.delivered);
    }

    method PersistNonTerminalFailure(r: Reminder, reason: A.Code, now: Time, d: Option<Resolution>)
      returns (outcome: DispatchOutcome)
      modifies this
      ensures (View(), outcome) == PersistFailure(old(View()), r, reason, now, d)
    {
      var number := if r.attempts < 1 then 1 else r.attempts;
      outcome := PersistOutcome(r, Failed, AttemptId(r.dedupeKey, number), FailureRow(reason, now, d));
    }

    method AssignAcceptModeUnverified(r: Reminder, id: AttemptId, now: Time, d: Resolution)
      returns (outcome: DispatchOutcome)
      modifies this
      ensures (View(), outcome) == AssignUnverified(old(View()), r, id, now, d)
    {
      outcome := PersistOutcome(r, Failed, id, FailureRow(A.AcceptedUnverifiedCode, now, Some(d)));
      if outcome.DuplicateRow? {
        return;
      }
      acceptedUnverifiedTotal := acceptedUnverifiedTotal + 1;
      transitions := transitions + [(id, AssignOpen)];
      outcome := Done(false);
    }

    method RouteFailure(r: Reminder, token: string, now: Time, d: Resolution) returns (outcome: DispatchOutcome)
      modifies this
      ensures (View(), outcome) == FailSeam(old(View()), r, token, now, d)
    {
      var verdict := S.Route(None, false, Some(token));
      if verdict.SeamFailure? {
        outcome := PersistNonTerminalFailure(r, verdict.reason, now, Some(d));
      } else {
        outcome := RunnerStopped;
      }
    }

    method SendByWhatsApp(r: Reminder, now: Time, d: Resolution, scene: Scene) returns (outcome: DispatchOutcome)
      modifies this
      ensures (View(), outcome) == SendWhatsApp(old(View()), r, now, d, scene)
    {
      if scene.forceBypass {
        outcome := RouteFailure(r, S.BYPASS_DETECTED, now, d);
        return;
      }
      if !scene.adapterBound && !scene.allowFallback {
        outcome := RouteFailure(r, S.FALLBACK_WITHOUT_FLAG, now, d);
        return;
      }
      if !scene.adapterBound {
        outcome := PersistNonTerminalFailure(r, A.FailedConfigInvalidTarget, now, Some(d));
        return;
      }
      var id := AttemptId(r.dedupeKey, r.attempts);
      match S.Decide(scene.call(id, OrElse(d.resolvedTargetRef, "")))
      case IntegrityFail(_) => outcome := RunnerStopped;
      case SeamFailure(reason, _) => outcome := PersistNonTerminalFailure(r, reason, now, Some(d));
      case AcceptedUnverified => outcome := AssignAcceptModeUnverified(r, id, now, d);
      case Delivered(a) =>
        outcome := PersistOutcome(r, Status.Delivered, id,
                                  Row(true, a.reasonCode, now, a.receiptRef, a.statusCode, a.acceptOnly, a.confidence,
                                      Some(d)));
    }

    method ProcessCandidate(k: Key, now: Time, scene: Scene) returns (outcome: DispatchOutcome)
      requires k in reminders.data
      modifies this
      ensures (View(), outcome) == D.ProcessCandidate(cfg, old(View()), k, now, scene)
    {
      var r := reminders.data[k];
      if scene.target.None? || scene.target.value.timezone.None? {
        outcome := PersistNonTerminalFailure(r, A.TzMissing, now, None);
        return;
      }
      var target := scene.target.value;
      r := r.(status := Attempted, attempts := r.attempts + 1);
      UpdateStatus(r, Attempted);
      var d := ResolveDestination(r.eventOverride, r.requestDefault, Dest(Some(target.channel), Some(target.targetId)));
      outcome := Forward(r, now, d, scene);
    }

    method Forward(r: Reminder, now: Time, d: Resolution, scene: Scene) returns (outcome: DispatchOutcome)
      modifies this
      ensures (View(), outcome) == SendOn(cfg, old(View()), r, now, d, scene)
    {
      if !d.status.OkStatus? || !ProvenanceComplete(d) {
        outcome := PersistNonTerminalFailure(r, A.FailedConfigInvalidTarget, now, Some(d));
      } else if GoesByWhatsApp(d) {
        outcome := SendByWhatsApp(r, now, d, scene);
      } else {
        outcome := PersistOutcome(r, Status.Delivered, AttemptId(r.dedupeKey, r.attempts),
                                  Row(true, A.DeliveredSuccess, now, Some(cfg.engine.dedupeText(r.dedupeKey)),
                                      Some("ok"), false,
                                      A.ProviderConfirmed, Some(d)));
      }
    }

    // ---------- Reconcile ----------

    method RescheduleReminder(k: Key, now: Time)
      modifies this`reminders
      ensures View() == RescheduleOne(old(View()), k, now)
    {
      if k in reminders.data {
        var r := reminders.data[k];
        if r.status == Attempted && r.next.Some? && r.next.value <= now {
          reminders := reminders.Put(k, r.(status := Scheduled, next := None));
        }
      }
    }

    method RescheduleDue(now: Time)
      modifies this`reminders
      ensures View() == Reschedule(old(View()), Take(DueKeys(cfg.engine, old(View()).reminders, now), RECONCILE_LIMIT),
                                   now)
    {
      var keys := Take(DueKeys(cfg.engine, reminders, now), RECONCILE_LIMIT);
      for n := 0 to |keys|
        invariant View() == Reschedule(old(View()), keys[..n], now)
      {
        assert keys[..n + 1][..n] == keys[..n];
        RescheduleReminder(keys[n], now);
      }
      assert keys[..|keys|] == keys;
    }

    method CloseRow(id: AttemptId, row: Row, promoted: bool)
      requires id.reminder in reminders.data
      modifies this
      ensures View() == Closed(old(View()), id, row, promoted)
    {
      attempts := attempts.Put(id, row);
      UpdateStatus(reminders.data[id.reminder], if promoted then Status.Delivered else Failed);
      if promoted {
        promotedTotal := promotedTotal + 1;
      } else {
        demotedTotal := demotedTotal + 1;
      }
      transitions := transitions + [(id, if promoted then PromoteDelivered else DemoteTimeout)];
    }

    method SettleOpenRow(id: AttemptId, now: Time) returns (open: bool)
      requires id in attempts.data
      modifies this
      ensures (View(), open) == SettleRow(cfg, old(View()), id, now)
    {
      var row := attempts.data[id];
      if id.reminder !in reminders.data {
        return false;
      }
      if (id, PromoteDelivered) in transitions || (id, DemoteTimeout) in transitions {
        return false;
      }
      if S.IsVerifiable(row.providerRef) {
        CloseRow(id, row.(delivered := true, reason := A.DeliveredSuccess,
                          statusCode := Some(OrElse(row.statusCode, "ok")),
                          acceptOnly := false, confidence := A.ProviderConfirmed), true);
        return false;
      }
      if now >= row.at + cfg.windowMicros {
        CloseRow(id, row.(delivered := false, reason := A.AcceptedUnverifiedTimeout, providerRef := None,
                          statusCode := None,
                          acceptOnly := false, confidence := A.NoConfidence), false);
        return false;
      }
      return true;
    }

    method SettleOpenRows(ids: seq<AttemptId>, now: Time) returns (openCount: nat)
      requires forall id | id in ids :: id in attempts.data
      modifies this
      ensures (View(), openCount) == SettleAll(cfg, old(View()), ids, now)
    {
      openCount := 0;
      for n := 0 to |ids|
        invariant forall id | id in ids[..n] :: id in old(View()).rows.data
        invariant (View(), openCount) == SettleAll(cfg, old(View()), ids[..n], now)
      {
        assert ids[..n + 1][..n] == ids[..n] && ids[n] in ids;
        var open := SettleOpenRow(ids[n], now);
        if open {
          openCount := openCount + 1;
        }
      }
      assert ids[..|ids|] == ids;
    }

    method RunReconcile(now: Time)
      modifies this
      ensures View() == D.RunReconcile(cfg, old(View()), now)
    {
      RescheduleDue(now);
      OpenIdsPresent(attempts);
      openGauge := SettleOpenRows(OpenIds(attempts), now);
    }
  }
}
