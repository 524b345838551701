/** The engine as the program runs it: a mutable in-memory store and the scheduler object
    over it. Every method is proved to do what its step in module Engine says. */
module Scheduler {
  import opened Text
  import opened OrderedDict
  import opened Sorting
  import opened Destination
  import opened E = Engine

  class InMemoryStateStore {
    var eventVersions: map<EventId, seq<Event>>
    var reminders: Dict<Key, Reminder>
    var deliveryTargets: map<PersonId, Target>
    var audit: seq<AuditRecord>
    var receipts: Dict<MessageKey, Receipt>
    var eventCounter: nat
    var runtimeMode: string
    var deliveryAttempts: seq<Attempt>
    const idempotencyWindowHours: int
    const maxRetryAttempts: int
    ghost var history: map<EventId, seq<Mutation>>
    ghost var calls: seq<Call>

    ghost function View(visible: set<Key>): State
      reads this
    {
      State(eventVersions, eventCounter, reminders, deliveryTargets, audit, receipts, runtimeMode,
            deliveryAttempts, visible, history, calls)
    }

    constructor ()
      ensures View({}) == Initial()
      ensures idempotencyWindowHours == 24 && maxRetryAttempts == 3
    {
      eventVersions, reminders, deliveryTargets, audit := map[], Empty(), map[], [];
      receipts, eventCounter, runtimeMode, deliveryAttempts := Empty(), 0, "normal", [];
      idempotencyWindowHours, maxRetryAttempts := 24, 3;
      history, calls := map[], [];
    }

    method FindRecentReceipt(hash: Hash, nowUtc: Time, windowHours: int) returns (found: Option<Result>)
      ensures found == FindRecent(receipts, hash, nowUtc, windowHours)
    {
      var lower := nowUtc - windowHours * HOUR;
      var rows := Sort(Rows(receipts), NewerFirst);
      var j := 0;
      while j < |rows|
        invariant 0 <= j <= |rows|
        invariant FirstMatch(rows, hash, lower) == FirstMatch(rows[j..], hash, lower)
      {
        if rows[j].hash == hash && rows[j].at >= lower {
          return Some(rows[j].result);
        }
        j := j + 1;
      }
      return None;
    }

    method ListDueReminders(cfg: Config, nowUtc: Time) returns (due: seq<Key>)
      ensures due == DueKeys(cfg, reminders, nowUtc)
    {
      var rows: seq<Key> := [];
      ghost var keep := IsDueIn(reminders, nowUtc);
      for i := 0 to |reminders.keys|
        invariant rows == Filter(reminders.keys[..i], keep)
      {
        var k := reminders.keys[i];
        FilterAppend(reminders.keys[..i], k, keep);
        assert reminders.keys[..i + 1] == reminders.keys[..i] + [k];
        if k in reminders.data {
          var r := reminders.data[k];
          if r.status in {Scheduled, Attempted} {
            var due := if r.next.Some? then r.next.value else r.trigger;
            if due <= nowUtc {
              rows := rows + [k];
            }
          }
        }
      }
      assert reminders.keys[..|reminders.keys|] == reminders.keys;
      due := Sort(rows, DueOrder(cfg));
    }

    method SaveNewEvent(event: Event, ghost m: Mutation)
      modifies this`eventVersions, this`history
      ensures eventVersions == old(eventVersions)[event.id := [event]]
      ensures history == old(history)[event.id := [m]]
    {
      eventVersions := eventVersions[event.id := [event]];
      history := history[event.id := [m]];
    }

    method AppendEventVersion(event: Event, ghost m: Mutation)
      modifies this`eventVersions, this`history
      ensures forall visible :: View(visible) == AppendVersion(old(View(visible)), event, m)
    {
      var versions := if event.id in eventVersions then eventVersions[event.id] else [];
      eventVersions := eventVersions[event.id := versions + [event]];
      history := history[event.id := (if event.id in history then history[event.id] else []) + [m]];
    }

    method StoreReminder(r: Reminder)
      modifies this`reminders
      ensures reminders == old(reminders).Put(r.dedupeKey, r)
    {
      reminders := reminders.Put(r.dedupeKey, r);
    }

    method AppendDeliveryAttempt(row: Attempt)
      modifies this`deliveryAttempts
      ensures deliveryAttempts == old(deliveryAttempts) + [row]
    {
      deliveryAttempts := deliveryAttempts + [row];
    }

    method SaveDeliveryTarget(person: PersonId, target: Target) returns (ok: bool)
      modifies this`deliveryTargets
      ensures ok == (|target.targetId| <= TARGET_REF_MAX_LENGTH)
      ensures deliveryTargets == if ok then old(deliveryTargets)[person := target] else old(deliveryTargets)
    {
      ok := |target.targetId| <= TARGET_REF_MAX_LENGTH;
      if ok {
        deliveryTargets := deliveryTargets[person := target];
      }
    }
  }

  /** Recording over a reminder that was just saved under the same key is recording alone. */
  lemma RecordTwice(s: State, a: Reminder, b: Reminder, row: Attempt, ok: bool)
    requires a.dedupeKey == b.dedupeKey
    ensures Record(SaveReminder(s, a), b, row, ok) == Record(s, b, row, ok)
  {
    var k := a.dedupeKey;
    assert s.reminders.data[k := a][k := b] == s.reminders.data[k := b];
    assert s.reminders.Put(k, a).Put(k, b) == s.reminders.Put(k, b);
  }

  lemma StatusCases(status: Status)
    ensures IsSchedulable(status) <==> status !in {Invalidated, Delivered, Failed, Suppressed, Blocked}
  {
    match status
    case Scheduled =>
    case _ =>
  }

  class FamilyScheduler {
    const cfg: Config
    const store: InMemoryStateStore
    var visibleDeliveryKeys: set<Key>

    ghost predicate Valid()
      reads this
    {
      cfg.windowHours == store.idempotencyWindowHours && cfg.storeRetryLimit == store.maxRetryAttempts
    }

    ghost function View(): State
      reads this, store
    {
      store.View(visibleDeliveryKeys)
    }

    /** A new engine over a store that may already be in use: nothing is visible yet. */
    constructor (cfg: Config, store: InMemoryStateStore)
      requires cfg.windowHours == store.idempotencyWindowHours && cfg.storeRetryLimit == store.maxRetryAttempts
      ensures Valid() && this.cfg == cfg && this.store == store
      ensures View() == store.View({})
    {
      this.cfg, this.store := cfg, store;
      visibleDeliveryKeys := {};
    }

    method RegisterDeliveryTarget(person: PersonId, target: Target)
      requires Valid()
      modifies store
      ensures View() == Step(cfg, old(View()), Register(person, target))
    {
      var ok := store.SaveDeliveryTarget(person, target);
    }

    method SetRuntimeMode(mode: string)
      requires Valid()
      modifies store
      ensures View() == Step(cfg, old(View()), SetMode(mode))
    {
      store.runtimeMode := mode;
    }

    method AppendAudit(stage: string, reason: Reason, subject: Subject)
      modifies store`audit
      ensures View() == Log(old(View()), stage, reason, subject)
    {
      store.audit := store.audit + [AuditRecord(|store.audit| + 1, stage, reason, subject)];
    }

    // ---------- Intake ----------

    method Answer(key: MessageKey, hash: Hash, result: Result, nowUtc: Time) returns (outcome: Outcome)
      modifies store`receipts
      ensures (View(), outcome) == SaveReceipt(old(View()), key, hash, result, nowUtc)
    {
      store.receipts := store.receipts.Put(key, Receipt(nowUtc, hash, result));
      outcome := Returned(result);
    }

    method ResolveEvent(i: Intent) returns (resolved: Option<EventId>, code: Reason)
      ensures (resolved, code) == E.ResolveEvent(cfg, View(), i)
    {
      if i.eventId.Some? && i.eventId.value in store.eventVersions {
        return i.eventId, ResolverExplicit;
      }
      var candidates: seq<EventId> := [];
      for id := 1 to store.eventCounter + 1
        invariant candidates == Candidates(cfg, store.eventVersions, i, id - 1)
      {
        if id in store.eventVersions && store.eventVersions[id] != [] {
          var versions := store.eventVersions[id];
          var latest := versions[|versions| - 1];
          if latest.active && Score(i, latest) >= cfg.similarityThreshold {
            candidates := candidates + [id];
          }
        }
      }
      if |candidates| == 1 {
        return Some(candidates[0]), ResolverMatched;
      }
      if |candidates| > 1 {
        return None, ResolverAmbiguous;
      }
      return None, ResolverNoMatch;
    }

    method ScheduleReminder(event: Event, recipient: PersonId)
      modifies store
      ensures View() == ScheduleOne(cfg, old(View()), event, recipient)
    {
      var k := KeyOf(cfg, event, recipient);
      if recipient !in store.deliveryTargets || store.deliveryTargets[recipient].timezone.None? {
        store.StoreReminder(NewReminder(cfg, event, recipient, Blocked));
        AppendAudit("schedule", TzMissing, ReminderSubject(k));
      } else if !store.reminders.Has(k) {
        store.StoreReminder(NewReminder(cfg, event, recipient, Scheduled));
      }
    }

    method ScheduleReminders(event: Event)
      modifies store
      ensures View() == Schedule(cfg, old(View()), event, event.audience)
    {
      for n := 0 to |event.audience|
        invariant View() == Schedule(cfg, old(View()), event, event.audience[..n])
      {
        assert event.audience[..n + 1][..n] == event.audience[..n];
        ScheduleReminder(event, event.audience[n]);
      }
      assert event.audience[..|event.audience|] == event.audience;
    }

    method InvalidateReminder(k: Key, id: EventId, newVersion: nat, nowUtc: Time, reason: Reason)
      requires k in store.reminders.data
      modifies store
      ensures View() == InvalidateOne(old(View()), k, id, newVersion, nowUtc, reason)
    {
      var r := store.reminders.data[k];
      StatusCases(r.status);
      if r.event != id || r.version >= newVersion || r.trigger <= nowUtc
         || r.status in {Invalidated, Delivered, Failed, Suppressed, Blocked} {
        return;
      }
      store.StoreReminder(r.(status := Invalidated));
      AppendAudit("mutation", reason, ReminderSubject(k));
    }

    method InvalidatePriorVersionReminders(id: EventId, newVersion: nat, nowUtc: Time, reason: Reason)
      modifies store
      ensures View() == Invalidate(old(View()), KeysInOrder(cfg, old(View()).reminders.keys), id, newVersion, nowUtc,
                                   reason)
    {
      var keys := KeysInOrder(cfg, store.reminders.keys);
      for n := 0 to |keys|
        invariant View() == Invalidate(old(View()), keys[..n], id, newVersion, nowUtc, reason)
      {
        assert keys[..n + 1][..n] == keys[..n];
        if keys[n] in store.reminders.data {
          InvalidateReminder(keys[n], id, newVersion, nowUtc, reason);
        }
      }
      assert keys[..|keys|] == keys;
    }

    method CreateEvent(i: Intent, nowUtc: Time) returns (made: MutationOutcome)
      modifies store
      ensures (View(), made) == E.CreateEvent(cfg, old(View()), i, nowUtc)
    {
      var (tz, tzReason) := ResolveTimezone(cfg, i, []);
      AppendAudit("timezone", tzReason, NoSubject);
      var o, d := ResolveField(i.eventOverride, UNSET), ResolveField(i.requestDefault, UNSET);
      if o.Rejected? || d.Rejected? {
        return BadDestination;
      }
      store.eventCounter := store.eventCounter + 1;
      if i.title.None? || i.start.None? || i.participants.None? || i.audience.None? || i.offset.None? {
        return Exception;
      }
      var event := Event(store.eventCounter, 1, i.title.value, i.start.value, tz, SortPeople(i.participants.value),
                         SortPeople(i.audience.value), i.offset.value, i.allDay.Some? && i.allDay.value, true,
                         o.value, d.value);
      store.SaveNewEvent(event,
                         Mutation(nowUtc, Explicit(i.eventOverride, o.value), Explicit(i.requestDefault, d.value)));
      ScheduleReminders(event);
      return Made(event);
    }

    method UpdateEvent(id: EventId, i: Intent, nowUtc: Time) returns (made: MutationOutcome)
      modifies store
      ensures (View(), made) == E.UpdateEvent(cfg, old(View()), id, i, nowUtc)
    {
      if id !in store.eventVersions || store.eventVersions[id] == [] {
        return Exception;
      }
      var versions := store.eventVersions[id];
      var current := versions[|versions| - 1];
      var (tz, tzReason) := ResolveTimezone(cfg, i, current.timezone);
      AppendAudit("timezone", tzReason, NoSubject);
      var o := ResolveField(i.eventOverride, current.eventOverride);
      var d := ResolveField(i.requestDefault, current.requestDefault);
      if o.Rejected? || d.Rejected? {
        return BadDestination;
      }
      var updated := Revised(id, current, i, tz, o.value, d.value);
      ghost var m := Mutation(nowUtc, Explicit(i.eventOverride, o.value), Explicit(i.requestDefault, d.value));
      ghost var before := View();
      store.AppendEventVersion(updated, m);
      assert View() == AppendVersion(before, updated, m);
      InvalidatePriorVersionReminders(id, updated.version, nowUtc, UpdatedRegenerated);
      ScheduleReminders(updated);
      return Made(updated);
    }

    method CancelEvent(id: EventId, nowUtc: Time) returns (made: MutationOutcome)
      modifies store
      ensures (View(), made) == E.CancelEvent(cfg, old(View()), id, nowUtc)
    {
      if id !in store.eventVersions || store.eventVersions[id] == [] {
        return Exception;
      }
      var versions := store.eventVersions[id];
      var current := versions[|versions| - 1];
      var cancelled := current.(version := current.version + 1, active := false);
      store.AppendEventVersion(cancelled, Mutation(nowUtc, None, None));
      InvalidatePriorVersionReminders(id, cancelled.version, nowUtc, CancelInvalidated);
      return Made(cancelled);
    }

    method ProcessIntent(raw: Intent, nowUtc: Time) returns (outcome: Outcome)
      requires Valid()
      modifies store
      ensures (View(), outcome) == E.ProcessIntent(cfg, old(View()), raw, nowUtc)
    {
      var lifted := LiftIntent(raw);
      if lifted.Rejected? {
        return Raised;
      }
      var i := lifted.value;
      var hash := IntentHash(i);
      if i.key in store.receipts.data {
        return Returned(store.receipts.data[i.key].result);
      }
      var replay := store.FindRecentReceipt(hash, nowUtc, store.idempotencyWindowHours);
      if replay.Some? {
        outcome := Answer(i.key, hash, replay.value, nowUtc);
        return;
      }
      outcome := ProcessFresh(i, hash, nowUtc);
    }

    method Mutate(i: Intent, resolved: Option<EventId>, nowUtc: Time) returns (made: MutationOutcome)
      modifies store
      ensures (View(), made) == E.Mutate(cfg, old(View()), i, resolved, nowUtc)
    {
      made := Exception;
      if i.action.Cancel? {
        if resolved.Some? {
          made := CancelEvent(resolved.value, nowUtc);
        }
      } else if resolved.Some? && i.action in {Update, Create} {
        made := UpdateEvent(resolved.value, i, nowUtc);
      } else {
        made := CreateEvent(i, nowUtc);
      }
    }

    method ProcessFresh(i: Intent, hash: Hash, nowUtc: Time) returns (outcome: Outcome)
      modifies store
      ensures (View(), outcome) == E.ProcessFresh(cfg, old(View()), i, hash, nowUtc)
    {
      AppendAudit("intake", ResolverNoMatch, NoSubject);
      var missing := MissingFields(i);
      if missing != [] {
        outcome := Answer(i.key, hash, NeedsFollowUp(missing), nowUtc);
        return;
      }
      var resolved, code := ResolveEvent(i);
      AppendAudit("resolver", code, EventSubject(resolved));
      if code == ResolverAmbiguous {
        outcome := Answer(i.key, hash, Ambiguous, nowUtc);
        return;
      }
      if !i.confirmed {
        AppendAudit("confirmation", BlockedConfirmationRequired, NoSubject);
        outcome := Answer(i.key, hash, BlockedUnconfirmed, nowUtc);
        return;
      }
      var made := Mutate(i, resolved, nowUtc);
      match made
      case Made(event) => outcome := Answer(i.key, hash, Mutated(event.id, event.version, code), nowUtc);
      case BadDestination =>
        AppendAudit("mutation", FailedConfigInvalidTarget, NoSubject);
        outcome := Answer(i.key, hash, BlockedDestination(resolved), nowUtc);
      case Exception => outcome := Raised;
    }

    // ---------- Delivery ----------

    method SetReminderAside(r: Reminder, nowUtc: Time, status: Status, rowStatus: AttemptStatus, reason: Reason,
                            text: string)
      modifies store
      ensures View() == SetAside(old(View()), r, nowUtc, status, rowStatus, reason, text)
    {
      store.StoreReminder(r.(status := status));
      store.AppendDeliveryAttempt(
        Attempt(r.dedupeKey, r.attempts + 1, nowUtc, rowStatus, reason, None, None, Some(text), false, "none"));
      AppendAudit("delivery", reason, ReminderSubject(r.dedupeKey));
    }

    /** Applies the provider's reply p to attempt r, which is already stored. */
    method Settle(r: Reminder, nowUtc: Time, p: ProviderResult) returns (reason: Reason)
      requires Valid() && p.Detailed?
      modifies this, store
      ensures var (r2, row) := AfterReply(cfg, r, nowUtc, p);
              && reason == row.reason
              && View() == Record(old(View()), r2, row, p.ok)
    {
      var deliveryKey := r.dedupeKey;
      store.calls := store.calls + [Call(deliveryKey, p.ok)];
      if p.ok {
        SettleSuccess(r, nowUtc, p);
        return DeliveredSuccess;
      }
      AppendAudit("delivery", FailedProviderTransient, ReminderSubject(deliveryKey));
      reason := SettleFailure(r, nowUtc, p);
    }

    method SettleSuccess(r: Reminder, nowUtc: Time, p: ProviderResult)
      requires Valid() && p.Detailed? && p.ok
      modifies this, store
      ensures var (r2, row) := AfterReply(cfg, r, nowUtc, p);
              View() == Log(Append(SaveReminder(old(View()), r2), row)
                              .(visible := old(visibleDeliveryKeys) + {r.dedupeKey}),
                            "delivery", DeliveredSuccess, ReminderSubject(r.dedupeKey))
    {
      var evidence := HasTransportRef(p.providerRef, cfg.reminderIdText(r.dedupeKey), cfg.dedupeText(r.dedupeKey));
      store.StoreReminder(r.(status := Delivered));
      visibleDeliveryKeys := visibleDeliveryKeys + {r.dedupeKey};
      var confidence := OrElse(p.confidence, "none");
      store.AppendDeliveryAttempt(
        Attempt(r.dedupeKey, r.attempts, nowUtc, DeliveredRow, DeliveredSuccess,
                Some(if evidence then p.providerRef.value else cfg.dedupeText(r.dedupeKey)),
                Some(OrElse(p.statusCode, "ok")), None, p.acceptOnly || !evidence,
                if confidence != "none" then confidence
                else if evidence then "provider_confirmed" else "provider_accepted"));
      AppendAudit("delivery", DeliveredSuccess, ReminderSubject(r.dedupeKey));
    }

    method StoreAttempt(r: Reminder, row: Attempt)
      requires Valid()
      modifies store`reminders, store`deliveryAttempts
      ensures View() == Append(SaveReminder(old(View()), r), row)
    {
      store.StoreReminder(r);
      store.AppendDeliveryAttempt(row);
    }

    method SettleFailure(r: Reminder, nowUtc: Time, p: ProviderResult) returns (reason: Reason)
      requires Valid() && p.Detailed? && !p.ok
      modifies store
      ensures var (r2, row) := AfterReply(cfg, r, nowUtc, p);
              && reason == row.reason
              && var s := Append(SaveReminder(old(View()), r2), row);
                 View() == if reason == FailedProviderTransient then s
                           else Log(s, "delivery", reason, ReminderSubject(r.dedupeKey))
    {
      var error := Some(OrElse(p.errorText, "provider transient failure"));
      var retryLimit := if cfg.maxRetries <= store.maxRetryAttempts then cfg.maxRetries else store.maxRetryAttempts;
      if r.attempts > retryLimit {
        StoreAttempt(r.(status := Failed),
                     Attempt(r.dedupeKey, r.attempts, nowUtc, FailedRow, FailedRetryExhausted, p.providerRef,
                             Some(OrElse(p.statusCode, "retry_exhausted")), error, false, "none"));
        AppendAudit("delivery", FailedRetryExhausted, ReminderSubject(r.dedupeKey));
        return FailedRetryExhausted;
      }
      StoreAttempt(r.(next := Some(nowUtc + cfg.retryDelayMinutes * MINUTE)),
                   Attempt(r.dedupeKey, r.attempts, nowUtc, FailedRow, FailedProviderTransient, p.providerRef,
                           Some(OrElse(p.statusCode, "transient")), error, false, "none"));
      return FailedProviderTransient;
    }

    method SendToProvider(k: Key, nowUtc: Time, provider: Provider) returns (reason: Option<Reason>)
      requires Valid() && k in store.reminders.data
      modifies this, store
      ensures (View(), reason) == CallProvider(cfg, old(View()), k, nowUtc, provider)
    {
      var r := store.reminders.data[k];
      r := r.(status := Attempted, attempts := r.attempts + 1);
      store.StoreReminder(r);
      if r.dedupeKey in visibleDeliveryKeys {
        return None;
      }
      ghost var stored := View();
      var p := Unpack(provider(r));
      var code := Settle(r, nowUtc, p);
      RecordTwice(old(View()), r, AfterReply(cfg, r, nowUtc, p).0, AfterReply(cfg, r, nowUtc, p).1, p.ok);
      return Some(code);
    }

    method AttemptDueDeliveries(nowUtc: Time, provider: Provider) returns (report: DeliveryReport)
      requires Valid()
      modifies this, store
      ensures (View(), report) == Deliver(cfg, old(View()), nowUtc, provider)
    {
      if store.runtimeMode == CAPTURE_ONLY {
        AppendAudit("delivery", CaptureOnlyBlocked, NoSubject);
        return CaptureOnly;
      }
      var outcomes: seq<(Key, Reason)> := [];
      var due := store.ListDueReminders(cfg, nowUtc);
      DueKeysPresent(cfg, store.reminders, nowUtc);
      for n := 0 to |due|
        invariant forall k | k in due[..n] :: k in old(View()).reminders.data
        invariant (View(), outcomes) == DeliverAll(cfg, old(View()), due[..n], nowUtc, provider)
      {
        var k := due[n];
        assert due[..n + 1][..n] == due[..n] && k in due;
        var r := store.reminders.data[k];
        var reason: Option<Reason>;
        if r.recipient !in store.deliveryTargets || store.deliveryTargets[r.recipient].timezone.None? {
          SetReminderAside(r, nowUtc, Blocked, BlockedRow, TzMissing, "timezone missing");
          reason := Some(TzMissing);
        } else {
          var target := store.deliveryTargets[r.recipient];
          if IsQuietHour(cfg.localHour(nowUtc, target.timezone.value), target.quietStart, target.quietEnd) {
            SetReminderAside(r, nowUtc, Suppressed, SuppressedRow, SuppressedQuietHours, "quiet_hours");
            reason := Some(SuppressedQuietHours);
          } else {
            reason := SendToProvider(k, nowUtc, provider);
          }
        }
        if reason.Some? {
          outcomes := outcomes + [(k, reason.value)];
        }
      }
      assert due[..|due|] == due;
      report := Attempts(outcomes);
    }

    // ---------- Reconciliation ----------

    method RunReconciliationBatch(nowUtc: Time, batchSize: nat) returns (report: ReconcileReport)
      requires Valid()
      modifies store
      ensures (View(), report) == Reconcile(cfg, old(View()), nowUtc, batchSize)
    {
      if store.runtimeMode == CAPTURE_ONLY {
        AppendAudit("recovery", CaptureOnlyBlocked, NoSubject);
        return ReconcileReport(0, false, CaptureOnlyBlocked);
      }
      var due := store.ListDueReminders(cfg, nowUtc);
      due := Take(due, batchSize);
      var processed := 0;
      for n := 0 to |due|
        invariant View() == ReconcileAll(old(View()), due[..n], nowUtc)
        invariant processed == CountReconciled(old(View()), due[..n], nowUtc)
      {
        var k := due[n];
        assert due[..n + 1][..n] == due[..n];
        if k in store.reminders.data {
          var r := store.reminders.data[k];
          if r.status == Attempted && r.next.Some? && r.next.value <= nowUtc {
            store.StoreReminder(r.(status := Scheduled, next := None));
            AppendAudit("recovery", RecoveryReconciled, ReminderSubject(k));
            processed := processed + 1;
          }
        }
      }
      assert due[..|due|] == due;
      var rest := store.ListDueReminders(cfg, nowUtc);
      report := ReconcileReport(processed, |rest| > batchSize, RecoveryReconciled);
    }
  }
}
