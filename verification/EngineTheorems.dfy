/** The results about the engine, for every configuration, every provider and every
    sequence of calls from the empty store, engine restarts included. */
module EngineTheorems {
  import opened Text
  import opened Sorting
  import opened Destination
  import opened Engine
  import opened EngineEffects
  import opened EngineTables
  import opened EngineLedger
  import opened EngineReceipts

  ghost function After(cfg: Config, ops: seq<Op>): State {
    Run(cfg, Initial(), ops)
  }

  lemma ReachableInvariants(cfg: Config, ops: seq<Op>)
    ensures Tables(cfg, After(cfg, ops)) && Ledger(cfg, After(cfg, ops))
  {
    RunKeepsTables(cfg, Initial(), ops);
    RunKeepsLedger(cfg, Initial(), ops);
  }

  // ---------- The reminder table ----------

  /** The reminder table is exactly the reminders of the people in the audience of every
      version that was created active, each with the fields of its version. */
  lemma ReminderTableIsExact(cfg: Config, ops: seq<Op>)
    ensures var s := After(cfg, ops);
            && (forall k :: k in s.reminders.data <==>
                  exists id, j :: id in s.versions && 0 <= j < |s.versions[id]| && s.versions[id][j].active
                                  && k.recipient in s.versions[id][j].audience
                                  && k == KeyOf(cfg, s.versions[id][j], k.recipient))
            && (forall k | k in s.reminders.data ::
                  && k.event in s.versions && 1 <= k.version <= |s.versions[k.event]|
                  && Faithful(cfg, s.reminders.data[k], s.versions[k.event][k.version - 1]))
  {
    ReachableInvariants(cfg, ops);
    var s := After(cfg, ops);
    forall k ensures k in s.reminders.data <==>
                     exists id, j :: id in s.versions && 0 <= j < |s.versions[id]| && s.versions[id][j].active
                                     && k.recipient in s.versions[id][j].audience
                                     && k == KeyOf(cfg, s.versions[id][j], k.recipient)
    {
      if k in s.reminders.data {
        assert Faithful(cfg, s.reminders.data[k], VersionOf(s, k));
        assert VersionOf(s, k) == s.versions[k.event][k.version - 1];
      }
    }
  }

  /** A reminder of a superseded version can still be sent only if it had already
      triggered when the next version of its event was made. */
  lemma SupersededRemindersStayDead(cfg: Config, ops: seq<Op>, k: Key)
    requires k in After(cfg, ops).reminders.data
    ensures var s := After(cfg, ops);
            && k.event in s.versions && k.event in s.history && |s.history[k.event]| == |s.versions[k.event]|
            && (k.version < |s.versions[k.event]| && IsSchedulable(s.reminders.data[k].status) ==>
                  s.reminders.data[k].trigger <= s.history[k.event][k.version].at)
  {
    ReachableInvariants(cfg, ops);
  }

  ghost predicate KeepsTerminal(s: State, s': State) {
    forall k | k in s.reminders.data && !IsSchedulable(s.reminders.data[k].status) ::
      k in s'.reminders.data && s'.reminders.data[k] == s.reminders.data[k]
  }

  lemma NewVersionKeepsTerminal(cfg: Config, s: State, s': State, e: Event, m: Mutation)
    requires Numbered(s) && NewVersion(cfg, s, s', e, m)
    ensures KeepsTerminal(s, s')
  {
    forall k | k in s.reminders.data {
      SchedulingKeys(cfg, s.targets, e, if e.active then e.audience else [], k);
    }
  }

  lemma ProgressKeepsTerminal(s: State, s': State)
    requires Progressed(s, s')
    ensures KeepsTerminal(s, s')
  {
    forall k | k in s.reminders.data ensures SameButProgress(s.reminders.data[k], s'.reminders.data[k]) {
    }
  }

  lemma QuietlyKeepsTerminal(s: State, s': State)
    requires SameReminders(s, s') || Progressed(s, s')
    ensures KeepsTerminal(s, s')
  {
    if Progressed(s, s') {
      ProgressKeepsTerminal(s, s');
    }
  }

  ghost predicate SameReminders(s: State, s': State) {
    s'.reminders == s.reminders
  }

  lemma StepProgresses(cfg: Config, s: State, op: Op)
    requires Filed(s.reminders) && !op.Intake?
    ensures SameReminders(s, Step(cfg, s, op)) || Progressed(s, Step(cfg, s, op))
  {
    match op
    case DeliverDue(now, provider) => DeliverProgresses(cfg, s, now, provider);
    case ReconcileDue(now, n) => ReconcileProgresses(cfg, s, now, n);
    case _ =>
  }

  lemma IntakeKeepsTerminal(cfg: Config, s: State, i: Intent, now: Time)
    requires Tables(cfg, s)
    ensures KeepsTerminal(s, ProcessIntent(cfg, s, i, now).0)
  {
    var made, m := IntakeEffect(cfg, s, i, now);
    if made.Some? {
      NewVersionKeepsTerminal(cfg, s, ProcessIntent(cfg, s, i, now).0, made.value, m);
    }
  }

  lemma StepKeepsTerminal(cfg: Config, s: State, op: Op)
    requires Tables(cfg, s)
    ensures KeepsTerminal(s, Step(cfg, s, op))
  {
    if op.Intake? {
      IntakeKeepsTerminal(cfg, s, op.intent, op.now);
    } else {
      StepProgresses(cfg, s, op);
      QuietlyKeepsTerminal(s, Step(cfg, s, op));
    }
  }

  /** A delivered, failed, suppressed, invalidated or blocked reminder never changes again. */
  lemma {:induction false} TerminalIsForever(cfg: Config, ops: seq<Op>, later: seq<Op>, k: Key)
    requires k in After(cfg, ops).reminders.data && !IsSchedulable(After(cfg, ops).reminders.data[k].status)
    ensures var s' := Run(cfg, After(cfg, ops), later);
            k in s'.reminders.data && s'.reminders.data[k] == After(cfg, ops).reminders.data[k]
    decreases |later|
  {
    if later != [] {
      TerminalIsForever(cfg, ops, later[..|later| - 1], k);
      ReachableInvariants(cfg, ops);
      RunKeepsTables(cfg, After(cfg, ops), later[..|later| - 1]);
      StepKeepsTerminal(cfg, Run(cfg, After(cfg, ops), later[..|later| - 1]), later[|later| - 1]);
    }
  }

  // ---------- The ledger ----------

  /** The ledger determines every reminder: rows numbered from one, only the last not a
      transient failure, one provider call per attempt, the next attempt due one retry delay
      after the last row, and the final statuses exactly the ones that row names. */
  lemma LedgerDeterminesReminder(cfg: Config, ops: seq<Op>, k: Key)
    requires k in After(cfg, ops).reminders.data
    ensures var s := After(cfg, ops);
            var r, rows, calls := s.reminders.data[k], RowsFor(s.attempts, k), CallsFor(s.calls, k);
            var last := if rows == [] then None else Some(rows[|rows| - 1]);
            && (forall j | 0 <= j < |rows| :: rows[j].index == j + 1)
            && (forall j | 0 <= j < |rows| - 1 :: IsTransient(rows[j]))
            && |calls| == r.attempts
            && (IsSchedulable(r.status) && r.next.Some? ==>
                  last.Some? && r.next.value == last.value.at + cfg.retryDelayMinutes * 60_000_000)
            && (r.status.Delivered? <==> last.Some? && last.value.status.DeliveredRow?)
            && (r.status.Failed? <==>
                  last.Some? && last.value.status.FailedRow? && last.value.reason.FailedRetryExhausted?)
            && (r.status.Suppressed? <==> last.Some? && last.value.status.SuppressedRow?)
            && (r.status.Blocked? && rows != [] <==> last.Some? && last.value.status.BlockedRow?)
  {
    ReachableLedgerOk(cfg, ops, k);
  }

  lemma ReachableLedgerOk(cfg: Config, ops: seq<Op>, k: Key)
    requires k in After(cfg, ops).reminders.data
    ensures var s := After(cfg, ops);
            LedgerOk(cfg, s.reminders.data[k], RowsFor(s.attempts, k), CallsFor(s.calls, k))
  {
    ReachableInvariants(cfg, ops);
  }

  /** A reminder reaches the provider a bounded number of times and succeeds at most once,
      as its last call, whatever restarts, reconciliations and mode changes intervene. */
  lemma ProviderCallsAreBounded(cfg: Config, ops: seq<Op>, k: Key)
    ensures var calls := CallsFor(After(cfg, ops).calls, k);
            && |calls| <= Max0(cfg.maxRetries) + 1 && |calls| <= Max0(cfg.storeRetryLimit) + 1
            && (forall j | 0 <= j < |calls| :: calls[j].ok ==> j == |calls| - 1)
  {
    var s := After(cfg, ops);
    if k in s.reminders.data {
      ReachableLedgerOk(cfg, ops, k);
    } else {
      ReachableInvariants(cfg, ops);
      NoRows(s.attempts, s.calls, k);
    }
  }

  /** The skip of an already visible key is never taken: no due reminder has a visible key. */
  lemma VisibleKeysAreNeverDue(cfg: Config, ops: seq<Op>, now: Time)
    ensures var s := After(cfg, ops);
            forall k | k in DueKeys(cfg, s.reminders, now) :: k !in s.visible
  {
    ReachableInvariants(cfg, ops);
    DueKeysPresent(cfg, After(cfg, ops).reminders, now);
  }

  // ---------- Reconciliation ----------

  /** Reconciling keeps the exact due list if and only if each reminder it moves back has
      reached its trigger; every other reminder stays as due as it was. */
  lemma ReconcileKeepsDueList(cfg: Config, s: State, now: Time, batchSize: nat)
    requires Filed(s.reminders) && s.mode != CAPTURE_ONLY
    ensures var s' := Reconcile(cfg, s, now, batchSize).0;
            var batch := Take(DueKeys(cfg, s.reminders, now), batchSize);
            DueKeys(cfg, s'.reminders, now) == DueKeys(cfg, s.reminders, now) <==>
              forall k | k in batch && k in s.reminders.data && MustReconcile(s.reminders.data[k], now) ::
                s.reminders.data[k].trigger <= now
  {
    hide ReconcileAll, CountReconciled;
    var due := DueKeys(cfg, s.reminders, now);
    var batch := Take(due, batchSize);
    var s' := Reconcile(cfg, s, now, batchSize).0;
    ReconcileEffect(s, batch, now);
    DueKeysPresent(cfg, s.reminders, now);
    DueKeysPresent(cfg, s'.reminders, now);
    if forall k | k in batch && k in s.reminders.data && MustReconcile(s.reminders.data[k], now) ::
         s.reminders.data[k].trigger <= now {
      FilterAgrees(s.reminders.keys, IsDueIn(s.reminders, now), IsDueIn(s'.reminders, now));
    } else {
      var k :| k in batch && k in s.reminders.data && MustReconcile(s.reminders.data[k], now)
          && s.reminders.data[k].trigger > now;
      assert k in due && !IsDue(s'.reminders.data[k], now);
    }
  }

  lemma ReconciledHasTriggered(cfg: Config, s: State, k: Key, now: Time)
    requires Ledger(cfg, s) && cfg.retryDelayMinutes >= 0 && k in s.reminders.data
    ensures MustReconcile(s.reminders.data[k], now) ==> s.reminders.data[k].trigger <= now
  {
    assert LedgerOk(cfg, s.reminders.data[k], RowsFor(s.attempts, k), CallsFor(s.calls, k));
  }

  lemma DueHaveTriggered(cfg: Config, s: State, now: Time, batch: seq<Key>)
    requires Ledger(cfg, s) && cfg.retryDelayMinutes >= 0
    ensures forall k | k in batch && k in s.reminders.data && MustReconcile(s.reminders.data[k], now) ::
              s.reminders.data[k].trigger <= now
  {
    forall k | k in batch && k in s.reminders.data && MustReconcile(s.reminders.data[k], now)
      ensures s.reminders.data[k].trigger <= now
    {
      ReconciledHasTriggered(cfg, s, k, now);
    }
  }

  lemma ReconcileKeepsAttempts(cfg: Config, s: State, now: Time, batchSize: nat)
    requires Filed(s.reminders) && s.mode != CAPTURE_ONLY
    ensures var s' := Reconcile(cfg, s, now, batchSize).0;
            && s'.reminders.data.Keys == s.reminders.data.Keys
            && forall k | k in s.reminders.data :: s'.reminders.data[k].attempts == s.reminders.data[k].attempts
  {
    ReconcileEffect(s, Take(DueKeys(cfg, s.reminders, now), batchSize), now);
  }

  /** With a retry delay that is not negative this holds in every reachable state, so
      has_more after a reconcile is what it would have been before. */
  lemma ReachableReconcileKeepsDueList(cfg: Config, ops: seq<Op>, now: Time, batchSize: nat)
    requires cfg.retryDelayMinutes >= 0 && After(cfg, ops).mode != CAPTURE_ONLY
    ensures var s := After(cfg, ops);
            var (s', report) := Reconcile(cfg, s, now, batchSize);
            && DueKeys(cfg, s'.reminders, now) == DueKeys(cfg, s.reminders, now)
            && report.hasMore == (|DueKeys(cfg, s.reminders, now)| > batchSize)
            && s'.reminders.data.Keys == s.reminders.data.Keys
            && (forall k | k in s.reminders.data :: s'.reminders.data[k].attempts == s.reminders.data[k].attempts)
  {
    ReachableInvariants(cfg, ops);
    var s := After(cfg, ops);
    DueHaveTriggered(cfg, s, now, Take(DueKeys(cfg, s.reminders, now), batchSize));
    ReconcileKeepsDueList(cfg, s, now, batchSize);
    ReconcileKeepsAttempts(cfg, s, now, batchSize);
  }

  // ---------- Termination of retries ----------

  function RemainingOf(cfg: Config, r: Reminder): nat {
    if IsSchedulable(r.status) && r.attempts <= CallLimit(cfg) then CallLimit(cfg) - r.attempts else 0
  }

  ghost function Remaining(cfg: Config, data: map<Key, Reminder>, keys: seq<Key>): nat {
    if keys == [] then 0
    else (if keys[0] in data then RemainingOf(cfg, data[keys[0]]) else 0) + Remaining(cfg, data, keys[1..])
  }

  lemma {:induction false} RemainingChange(cfg: Config, data: map<Key, Reminder>, keys: seq<Key>, k: Key, r: Reminder)
    requires Distinct(keys) && k in data
    ensures k in keys ==> Remaining(cfg, data[k := r], keys) + RemainingOf(cfg, data[k])
                          == Remaining(cfg, data, keys) + RemainingOf(cfg, r)
    ensures k !in keys ==> Remaining(cfg, data[k := r], keys) == Remaining(cfg, data, keys)
  {
    if keys != [] {
      assert Distinct(keys[1..]) && keys[0] !in keys[1..];
      RemainingChange(cfg, data, keys[1..], k, r);
    }
  }

  lemma {:induction false} RemainingShrinks(cfg: Config, data: map<Key, Reminder>, data': map<Key, Reminder>,
                                            keys: seq<Key>)
    requires forall k | k in keys :: k in data && k in data' && RemainingOf(cfg, data'[k]) <= RemainingOf(cfg, data[k])
    ensures Remaining(cfg, data', keys) <= Remaining(cfg, data, keys)
  {
    if keys != [] {
      RemainingShrinks(cfg, data, data', keys[1..]);
    }
  }

  ghost function Budget(cfg: Config, s: State): nat {
    Remaining(cfg, s.reminders.data, s.reminders.keys)
  }

  /** s' comes from s by one delivery of k, which spends at least what it calls. */
  ghost predicate Spends(cfg: Config, s: State, s': State, k: Key) {
    && |s.calls| <= |s'.calls| && s'.reminders.keys == s.reminders.keys
    && k in s.reminders.data && k in s'.reminders.data
    && s'.reminders.data == s.reminders.data[k := s'.reminders.data[k]]
    && RemainingOf(cfg, s'.reminders.data[k]) + (|s'.calls| - |s.calls|) <= RemainingOf(cfg, s.reminders.data[k])
  }

  lemma RecordedSpends(cfg: Config, s: State, s': State, k: Key, r: Reminder, row: Attempt, calls: seq<Call>)
    requires k in s.reminders.data && Recorded(s, s', k, r, row, calls)
    requires RemainingOf(cfg, r) + |calls| <= RemainingOf(cfg, s.reminders.data[k])
    ensures Spends(cfg, s, s', k)
  {
  }

  lemma SetAsideSpends(cfg: Config, s: State, k: Key, now: Time, status: Status, rowStatus: AttemptStatus,
                       reason: Reason, text: string)
    requires Filed(s.reminders) && k in s.reminders.data && status in {Blocked, Suppressed}
    ensures Spends(cfg, s, SetAside(s, s.reminders.data[k], now, status, rowStatus, reason, text), k)
  {
    var r, row := SetAsideRecords(s, k, now, status, rowStatus, reason, text);
    RecordedSpends(cfg, s, SetAside(s, s.reminders.data[k], now, status, rowStatus, reason, text), k, r, row, []);
  }

  lemma CallProviderSpends(cfg: Config, s: State, k: Key, now: Time, provider: Provider)
    requires Filed(s.reminders) && k in s.reminders.data && k !in s.visible && IsDue(s.reminders.data[k], now)
    requires s.reminders.data[k].attempts > 0 ==> s.reminders.data[k].attempts <= RetryLimit(cfg)
    ensures Spends(cfg, s, CallProvider(cfg, s, k, now, provider).0, k)
  {
    var s', p, r, row := CallProviderRecords(cfg, s, k, now, provider);
    RecordedSpends(cfg, s, s', k, r, row, [Call(k, p.ok)]);
  }

  lemma DeliverOneSpends(cfg: Config, s: State, k: Key, now: Time, provider: Provider) returns (s': State)
    requires Ledger(cfg, s) && k in s.reminders.data && IsDue(s.reminders.data[k], now)
    ensures s' == DeliverOne(cfg, s, k, now, provider).0 && Spends(cfg, s, s', k)
  {
    var r := s.reminders.data[k];
    s' := DeliverOne(cfg, s, k, now, provider).0;
    if s' == CallProvider(cfg, s, k, now, provider).0 {
      CallProviderSpends(cfg, s, k, now, provider);
    } else if s' == SetAside(s, r, now, Blocked, BlockedRow, TzMissing, "timezone missing") {
      SetAsideSpends(cfg, s, k, now, Blocked, BlockedRow, TzMissing, "timezone missing");
    } else {
      SetAsideSpends(cfg, s, k, now, Suppressed, SuppressedRow, SuppressedQuietHours, "quiet_hours");
    }
  }

  ghost predicate WithinBudget(cfg: Config, s: State, s': State) {
    |s.calls| <= |s'.calls| && Budget(cfg, s') + (|s'.calls| - |s.calls|) <= Budget(cfg, s)
  }

  lemma ReadyForLast(cfg: Config, s: State, rest: seq<Key>, last: Key, now: Time, provider: Provider)
    returns (s1: State)
    requires Ready(cfg, s, rest + [last], now)
    ensures Ready(cfg, s, rest, now) && s1 == DeliverAll(cfg, s, rest, now, provider).0
    ensures last in s1.reminders.data && Ready(cfg, s1, [last], now) && s1.targets == s.targets && last !in rest
  {
    RestIsDue(s, rest, last, now);
    LastStaysDue(cfg, s, rest, last, now, provider);
    s1 := DeliverAllKeepsLedger(cfg, s, rest, now, provider);
  }

  lemma DeliverOneUsesBudget(cfg: Config, s: State, k: Key, now: Time, provider: Provider)
    requires k in s.reminders.data
    ensures Ready(cfg, s, [k], now) ==> WithinBudget(cfg, s, DeliverOne(cfg, s, k, now, provider).0)
  {
    if Ready(cfg, s, [k], now) {
      assert k in [k];
      var s' := DeliverOneSpends(cfg, s, k, now, provider);
      RemainingChange(cfg, s.reminders.data, s.reminders.keys, k, s'.reminders.data[k]);
    }
  }

  lemma {:induction false} DeliverAllUsesBudget(cfg: Config, s: State, keys: seq<Key>, now: Time, provider: Provider)
    requires forall k | k in keys :: k in s.reminders.data
    ensures Ready(cfg, s, keys, now) ==> WithinBudget(cfg, s, DeliverAll(cfg, s, keys, now, provider).0)
    decreases |keys|
  {
    if keys != [] && Ready(cfg, s, keys, now) {
      var rest, last := keys[..|keys| - 1], keys[|keys| - 1];
      assert keys == rest + [last];
      var s1 := ReadyForLast(cfg, s, rest, last, now, provider);
      DeliverAllUsesBudget(cfg, s, rest, now, provider);
      DeliverOneUsesBudget(cfg, s1, last, now, provider);
    }
  }

  /** Every step but an intake spends at least one unit of the budget for each provider call. */
  lemma StepUsesBudget(cfg: Config, s: State, op: Op)
    requires Ledger(cfg, s) && !op.Intake?
    ensures WithinBudget(cfg, s, Step(cfg, s, op))
  {
    match op
    case DeliverDue(now, provider) =>
      if s.mode != CAPTURE_ONLY {
        DueKeysDistinct(cfg, s.reminders, now);
        var due := DueKeys(cfg, s.reminders, now);
        assert Ready(cfg, s, due, now);
        DeliverAllUsesBudget(cfg, s, due, now, provider);
      }
    case ReconcileDue(now, n) =>
      ReconcileUsesBudget(cfg, s, now, n);
    case _ =>
  }

  lemma ReconcileUsesBudget(cfg: Config, s: State, now: Time, n: nat)
    requires Filed(s.reminders)
    ensures WithinBudget(cfg, s, Reconcile(cfg, s, now, n).0)
  {
    var s' := Reconcile(cfg, s, now, n).0;
    ReconcileProgresses(cfg, s, now, n);
    if s.mode != CAPTURE_ONLY {
      ReconcileEffect(s, Take(DueKeys(cfg, s.reminders, now), n), now);
      RemainingShrinks(cfg, s.reminders.data, s'.reminders.data, s.reminders.keys);
    }
  }

  /** Without new intents the provider is called at most as often as the retries that were
      left: retrying terminates over every run. */
  lemma {:induction false} RetriesTerminate(cfg: Config, ops: seq<Op>, later: seq<Op>)
    requires forall op | op in later :: !op.Intake?
    ensures var s, s' := After(cfg, ops), Run(cfg, After(cfg, ops), later);
            |s.calls| <= |s'.calls| && Budget(cfg, s') + (|s'.calls| - |s.calls|) <= Budget(cfg, s)
    decreases |later|
  {
    if later != [] {
      var rest := later[..|later| - 1];
      RetriesTerminate(cfg, ops, rest);
      ReachableInvariants(cfg, ops);
      RunKeepsTables(cfg, After(cfg, ops), rest);
      RunKeepsLedger(cfg, After(cfg, ops), rest);
      StepUsesBudget(cfg, Run(cfg, After(cfg, ops), rest), later[|later| - 1]);
    }
  }

  // ---------- Destinations ----------

  /** Every reachable reminder with an override, else with a request default, is dispatched
      to exactly the written pair; the newest version carries the last explicit setting. */
  lemma ReachableDestinationsResolve(cfg: Config, ops: seq<Op>, k: Key, recipient: Dest)
    requires k in After(cfg, ops).reminders.data
    ensures var r := After(cfg, ops).reminders.data[k];
            var d := ResolveDestination(r.eventOverride, r.requestDefault, recipient);
            && (r.eventOverride != UNSET ==>
                  d.source.EventOverride? && d.status.OkStatus?
                  && Dest(d.resolvedChannel, d.resolvedTargetRef) == r.eventOverride)
            && (r.eventOverride == UNSET && r.requestDefault != UNSET ==>
                  d.source.RequestContextDefault? && d.status.OkStatus?
                  && Dest(d.resolvedChannel, d.resolvedTargetRef) == r.requestDefault)
            && (!d.status.OkStatus? ==> d.source.RecipientDefault? || d.source.NoSource?)
  {
    ReachableDestinationsAreWellFormed(cfg, ops, k);
    var r := After(cfg, ops).reminders.data[k];
    WrittenDestinationIsUsed(r.eventOverride, r.requestDefault, recipient);
  }

  lemma ReachableDestinationsAreWellFormed(cfg: Config, ops: seq<Op>, k: Key)
    requires k in After(cfg, ops).reminders.data
    ensures WellFormed(After(cfg, ops).reminders.data[k].eventOverride)
    ensures WellFormed(After(cfg, ops).reminders.data[k].requestDefault)
  {
    ReachableInvariants(cfg, ops);
    DestinationsAreWellFormed(cfg, After(cfg, ops), k);
  }

  lemma DestinationsAreWellFormed(cfg: Config, s: State, k: Key)
    requires Tables(cfg, s) && k in s.reminders.data
    ensures WellFormed(s.reminders.data[k].eventOverride) && WellFormed(s.reminders.data[k].requestDefault)
  {
    var r := s.reminders.data[k];
    assert Faithful(cfg, r, VersionOf(s, k));
    VersionDestinationsAreWellFormed(s, k.event, k.version - 1);
    assert r.eventOverride == VersionOf(s, k).eventOverride && r.requestDefault == VersionOf(s, k).requestDefault;
  }

  lemma VersionDestinationsAreWellFormed(s: State, id: EventId, j: nat)
    requires Numbered(s) && DestinationsFollow(s) && id in s.versions && j < |s.versions[id]|
    ensures WellFormed(s.versions[id][j].eventOverride) && WellFormed(s.versions[id][j].requestDefault)
  {
  }

  lemma NewestVersionHasLastSetting(cfg: Config, ops: seq<Op>, id: EventId)
    requires id in After(cfg, ops).versions
    ensures var s := After(cfg, ops);
            && HasLatest(s, id) && id in s.history
            && Latest(s, id).eventOverride == LastOverride(s.history[id])
            && Latest(s, id).requestDefault == LastDefault(s.history[id])
  {
    ReachableInvariants(cfg, ops);
    var s := After(cfg, ops);
    var n := |s.versions[id]|;
    assert s.history[id][..n] == s.history[id];
    assert s.versions[id][n - 1].eventOverride == LastOverride(s.history[id][..n]);
  }

  // ---------- Idempotent intake ----------

  ghost predicate ClockForward(ops: seq<Op>, clock: Time)
    decreases |ops|
  {
    ops == [] || (var last := ops[|ops| - 1];
                  if last.Intake? then last.now <= clock && ClockForward(ops[..|ops| - 1], last.now)
                  else ClockForward(ops[..|ops| - 1], clock))
  }

  lemma StepKeepsReceipts(cfg: Config, s: State, op: Op)
    requires Tables(cfg, s)
    ensures !op.Intake? ==> Step(cfg, s, op).receipts == s.receipts
    ensures forall k | k in s.receipts.data ::
              k in Step(cfg, s, op).receipts.data && Step(cfg, s, op).receipts.data[k] == s.receipts.data[k]
  {
    match op
    case Intake(i, now) => IntakeReceipts(cfg, s, i, now);
    case DeliverDue(now, provider) => DeliverProgresses(cfg, s, now, provider);
    case ReconcileDue(now, n) => ReconcileProgresses(cfg, s, now, n);
    case _ =>
  }

  lemma {:induction false} ReachableReceiptsAreValid(cfg: Config, ops: seq<Op>)
    ensures After(cfg, ops).receipts.Valid()
    decreases |ops|
  {
    if ops != [] {
      var rest, last := ops[..|ops| - 1], ops[|ops| - 1];
      ReachableReceiptsAreValid(cfg, rest);
      ReachableInvariants(cfg, rest);
      if last.Intake? {
        IntakeReceipts(cfg, After(cfg, rest), last.intent, last.now);
      } else {
        StepKeepsReceipts(cfg, After(cfg, rest), last);
      }
    }
  }

  /** With a clock that never goes back, receipts with equal hashes inside the window agree. */
  lemma {:induction false} DuplicateIntentsAgree(cfg: Config, ops: seq<Op>, clock: Time)
    requires ClockForward(ops, clock)
    ensures ReceiptsAgree(cfg, After(cfg, ops).receipts, clock)
    decreases |ops|
  {
    if ops != [] {
      var rest, last := ops[..|ops| - 1], ops[|ops| - 1];
      ReachableInvariants(cfg, rest);
      var s := After(cfg, rest);
      if last.Intake? {
        DuplicateIntentsAgree(cfg, rest, last.now);
        IntakeKeepsAgreement(cfg, s, last.now, last.intent, last.now);
      } else {
        DuplicateIntentsAgree(cfg, rest, clock);
        StepKeepsReceipts(cfg, s, last);
      }
    }
  }

  lemma {:induction false} ReceiptsAreWriteOnce(cfg: Config, ops: seq<Op>, later: seq<Op>, k: MessageKey)
    requires k in After(cfg, ops).receipts.data
    ensures var s' := Run(cfg, After(cfg, ops), later);
            k in s'.receipts.data && s'.receipts.data[k] == After(cfg, ops).receipts.data[k]
    decreases |later|
  {
    if later != [] {
      var rest := later[..|later| - 1];
      ReceiptsAreWriteOnce(cfg, ops, rest, k);
      ReachableInvariants(cfg, ops);
      RunKeepsTables(cfg, After(cfg, ops), rest);
      StepKeepsReceipts(cfg, Run(cfg, After(cfg, ops), rest), later[|later| - 1]);
    }
  }

  /** Once a message id has an answer, any later intent under it gets that first answer
      and changes nothing at all, whatever it says and however the clock moved. */
  lemma MessageIsAnsweredOnce(cfg: Config, ops: seq<Op>, later: seq<Op>, raw: Intent, now: Time)
    requires raw.key in After(cfg, ops).receipts.data && LiftIntent(raw).Accepted?
    ensures var s' := Run(cfg, After(cfg, ops), later);
            ProcessIntent(cfg, s', raw, now) == (s', Returned(After(cfg, ops).receipts.data[raw.key].result))
  {
    ReceiptsAreWriteOnce(cfg, ops, later, raw.key);
  }

  /** A duplicate inside the window, under a new message id, mutates nothing and gets the
      first answer, even if a run of other calls lies between. */
  lemma DuplicateIntentMutatesNothing(cfg: Config, ops: seq<Op>, later: seq<Op>, k: MessageKey, raw: Intent, now: Time)
    requires ClockForward(ops + later, now)
    requires k in After(cfg, ops).receipts.data && LiftIntent(raw).Accepted?
    requires After(cfg, ops).receipts.data[k].hash == IntentHash(LiftIntent(raw).value)
    requires now - After(cfg, ops).receipts.data[k].at <= cfg.windowHours * HOUR
    requires raw.key !in After(cfg, ops + later).receipts.data
    ensures var s := After(cfg, ops + later);
            var (s', outcome) := ProcessIntent(cfg, s, raw, now);
            && outcome == Returned(After(cfg, ops).receipts.data[k].result)
            && s' == s.(receipts := s'.receipts)
  {
    RunSplits(cfg, Initial(), ops, later);
    ReceiptsAreWriteOnce(cfg, ops, later, k);
    DuplicateIntentsAgree(cfg, ops + later, now);
    ResendIsReplayed(cfg, After(cfg, ops + later), now, k, raw, now);
  }

  lemma {:induction false} RunSplits(cfg: Config, s: State, a: seq<Op>, b: seq<Op>)
    ensures Run(cfg, s, a + b) == Run(cfg, Run(cfg, s, a), b)
    decreases |b|
  {
    if b == [] {
      assert a + b == a;
    } else {
      assert (a + b)[..|a + b| - 1] == a + b[..|b| - 1];
      RunSplits(cfg, s, a, b[..|b| - 1]);
    }
  }

  /** The events of s' are those of s with one more version of one event. */
  ghost predicate OneVersionMore(s: State, s': State) {
    exists id :: && id in s'.versions && s'.versions[id] != []
                 && s'.versions[id][..|s'.versions[id]| - 1] == (if id in s.versions then s.versions[id] else [])
                 && s'.versions == s.versions[id := s'.versions[id]]
  }

  lemma NewVersionIsOneMore(cfg: Config, s: State, s': State, e: Event, m: Mutation)
    requires NewVersion(cfg, s, s', e, m)
    ensures OneVersionMore(s, s')
  {
    var v := s'.versions[e.id];
    assert v[..|v| - 1] == (if e.id in s.versions then s.versions[e.id] else []);
  }

  lemma IntakeChangesEventsByOne(cfg: Config, s: State, i: Intent, now: Time) returns (s': State)
    requires Numbered(s)
    ensures s' == ProcessIntent(cfg, s, i, now).0
    ensures s'.versions != s.versions ==> Reached(cfg, s, i, now).Some? && OneVersionMore(s, s')
  {
    s' := ProcessIntent(cfg, s, i, now).0;
    var made, m := IntakeEffect(cfg, s, i, now);
    if made.Some? {
      NewVersionIsOneMore(cfg, s, s', made.value, m);
    }
  }

  lemma OthersKeepEvents(cfg: Config, s: State, op: Op)
    requires Filed(s.reminders) && !op.Intake?
    ensures Step(cfg, s, op).versions == s.versions
  {
    match op
    case DeliverDue(now, provider) => DeliverProgresses(cfg, s, now, provider);
    case ReconcileDue(now, n) => ReconcileProgresses(cfg, s, now, n);
    case _ =>
  }

  /** The event tables change only through an intake, and then by exactly one version of one
      event, for a confirmed and unambiguous intent with a new message id and a new hash. */
  lemma EventsChangeOnlyByConfirmedIntents(cfg: Config, ops: seq<Op>, op: Op)
    ensures var s := After(cfg, ops);
            var s' := Step(cfg, s, op);
            s'.versions != s.versions ==>
              op.Intake? && Reached(cfg, s, op.intent, op.now).Some? && OneVersionMore(s, s')
  {
    ReachableInvariants(cfg, ops);
    if op.Intake? {
      var s' := IntakeChangesEventsByOne(cfg, After(cfg, ops), op.intent, op.now);
    } else {
      OthersKeepEvents(cfg, After(cfg, ops), op);
    }
  }
}
