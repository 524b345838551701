/** Schedulers built one after the other over the same store, each with settings of its own:
    what of the delivery ledger does not depend on the settings. */
module EngineRebuilds {
  import opened Sorting
  import opened Engine
  import opened EngineEffects
  import opened EngineTables
  import opened EngineLedger

  datatype Turn = Turn(cfg: Config, op: Op)

  /** A run in which every call is made by a scheduler with its own settings. */
  function Turns(turns: seq<Turn>): State
    decreases |turns|
  {
    if turns == [] then Initial()
    else
      var last := turns[|turns| - 1];
      Step(last.cfg, Turns(turns[..|turns| - 1]), last.op)
  }

  ghost predicate CallLedger(s: State) {
    && Filed(s.reminders) && LogsKnown(s)
    && forall k | k in s.reminders.data :: CallsOk(s.reminders.data[k], CallsFor(s.calls, k))
  }

  // ---------- One delivery ----------

  lemma RecordedKeepsCalls(s: State, s': State, k: Key, r: Reminder, row: Attempt, calls: seq<Call>)
    requires CallLedger(s) && k in s.reminders.data && k !in s.visible && Recorded(s, s', k, r, row, calls)
    ensures CallsOk(r, CallsFor(s.calls, k) + calls) ==> CallLedger(s')
  {
    RecordedKeepsLogs(s, s', k, r, row, calls);
    if CallsOk(r, CallsFor(s.calls, k) + calls) {
      forall x | x in s'.reminders.data ensures CallsOk(s'.reminders.data[x], CallsFor(s'.calls, x)) {
        RecordedHistory(s, s', k, r, row, calls, x);
        if x != k {
          assert CallsFor(s'.calls, x) == CallsFor(s.calls, x);
        }
      }
    }
  }

  lemma ReplyKeepsCallsOk(cfg: Config, r: Reminder, now: Time, p: ProviderResult, calls: seq<Call>)
    requires p.Detailed? && IsSchedulable(r.status) && CallsOk(r, calls)
    ensures CallsOk(AfterReply(cfg, Counted(r), now, p).0, calls + [Call(r.dedupeKey, p.ok)])
  {
  }

  lemma CallProviderKeepsCalls(cfg: Config, s: State, k: Key, now: Time, provider: Provider)
    requires CallLedger(s) && k in s.reminders.data && IsDue(s.reminders.data[k], now)
    ensures CallLedger(CallProvider(cfg, s, k, now, provider).0)
  {
    var s', p, r, row := CallProviderRecords(cfg, s, k, now, provider);
    ReplyKeepsCallsOk(cfg, s.reminders.data[k], now, p, CallsFor(s.calls, k));
    RecordedKeepsCalls(s, s', k, r, row, [Call(k, p.ok)]);
  }

  lemma SetAsideKeepsCalls(s: State, k: Key, now: Time, status: Status, rowStatus: AttemptStatus, reason: Reason,
                           text: string)
    requires CallLedger(s) && k in s.reminders.data && IsSchedulable(s.reminders.data[k].status)
    requires status in {Blocked, Suppressed}
    ensures CallLedger(SetAside(s, s.reminders.data[k], now, status, rowStatus, reason, text))
  {
    var r, row := SetAsideRecords(s, k, now, status, rowStatus, reason, text);
    assert CallsFor(s.calls, k) + [] == CallsFor(s.calls, k);
    RecordedKeepsCalls(s, SetAside(s, s.reminders.data[k], now, status, rowStatus, reason, text), k, r, row, []);
  }

  lemma DeliverOneKeepsCalls(cfg: Config, s: State, k: Key, now: Time, provider: Provider)
    requires CallLedger(s) && k in s.reminders.data && IsDue(s.reminders.data[k], now)
    ensures CallLedger(DeliverOne(cfg, s, k, now, provider).0)
  {
    var r, s' := s.reminders.data[k], DeliverOne(cfg, s, k, now, provider).0;
    if s' == CallProvider(cfg, s, k, now, provider).0 {
      CallProviderKeepsCalls(cfg, s, k, now, provider);
    } else if s' == SetAside(s, r, now, Blocked, BlockedRow, TzMissing, "timezone missing") {
      SetAsideKeepsCalls(s, k, now, Blocked, BlockedRow, TzMissing, "timezone missing");
    } else {
      SetAsideKeepsCalls(s, k, now, Suppressed, SuppressedRow, SuppressedQuietHours, "quiet_hours");
    }
  }

  lemma {:induction false} DeliverAllKeepsCalls(cfg: Config, s: State, keys: seq<Key>, now: Time, provider: Provider)
    requires CallLedger(s) && AllDue(s, keys, now)
    ensures CallLedger(DeliverAll(cfg, s, keys, now, provider).0)
    decreases |keys|
  {
    if keys != [] {
      var rest, last := keys[..|keys| - 1], keys[|keys| - 1];
      assert keys == rest + [last];
      RestIsDue(s, rest, last, now);
      LastStaysDue(cfg, s, rest, last, now, provider);
      DeliverAllKeepsCalls(cfg, s, rest, now, provider);
      DeliverOneKeepsCalls(cfg, DeliverAll(cfg, s, rest, now, provider).0, last, now, provider);
    }
  }

  // ---------- The other steps ----------

  lemma NewVersionCallsAt(cfg: Config, s: State, s': State, e: Event, m: Mutation, k: Key)
    requires Numbered(s) && CallLedger(s) && NewVersion(cfg, s, s', e, m) && k in s'.reminders.data
    ensures CallsOk(s'.reminders.data[k], CallsFor(s.calls, k))
    ensures k in s.reminders.data && s.reminders.data[k].status.Delivered? ==>
              s'.reminders.data[k] == s.reminders.data[k]
  {
    NewVersionEntry(cfg, s, s', e, m, k);
    if k !in s.reminders.data {
      NoRows(s.attempts, s.calls, k);
    }
  }

  lemma NewVersionKeepsCalls(cfg: Config, s: State, s': State, e: Event, m: Mutation)
    requires Numbered(s) && CallLedger(s) && NewVersion(cfg, s, s', e, m) && SameDeliveries(s, s')
    ensures CallLedger(s')
  {
    forall k | k in s'.reminders.data {
      NewVersionCallsAt(cfg, s, s', e, m, k);
    }
  }

  lemma ReconcileKeepsCalls(cfg: Config, s: State, now: Time, batchSize: nat)
    requires CallLedger(s)
    ensures CallLedger(Reconcile(cfg, s, now, batchSize).0)
  {
    if s.mode != CAPTURE_ONLY {
      ReconcileEffect(s, Take(DueKeys(cfg, s.reminders, now), batchSize), now);
    }
  }

  lemma StepKeepsNumbers(cfg: Config, s: State, op: Op)
    requires Numbered(s)
    ensures Numbered(Step(cfg, s, op))
  {
    match op
    case Intake(i, now) =>
      var made, m := IntakeEffect(cfg, s, i, now);
      if made.Some? {
        NewVersionNumbered(cfg, s, Step(cfg, s, op), made.value, m);
      }
    case DeliverDue(now, provider) =>
      DeliverProgresses(cfg, s, now, provider);
      ProgressNumbered(s, Step(cfg, s, op));
    case ReconcileDue(now, n) =>
      ReconcileProgresses(cfg, s, now, n);
      ProgressNumbered(s, Step(cfg, s, op));
    case _ =>
  }

  lemma StepKeepsCalls(cfg: Config, s: State, op: Op)
    requires Numbered(s) && CallLedger(s)
    ensures CallLedger(Step(cfg, s, op))
  {
    match op
    case Intake(i, now) =>
      var made, m := IntakeEffect(cfg, s, i, now);
      if made.Some? {
        NewVersionKeepsCalls(cfg, s, Step(cfg, s, op), made.value, m);
      }
    case DeliverDue(now, provider) =>
      DueKeysDistinct(cfg, s.reminders, now);
      DeliverAllKeepsCalls(cfg, s, DueKeys(cfg, s.reminders, now), now, provider);
    case ReconcileDue(now, n) => ReconcileKeepsCalls(cfg, s, now, n);
    case _ =>
  }

  lemma {:induction false} TurnsKeepCalls(turns: seq<Turn>)
    ensures Numbered(Turns(turns)) && CallLedger(Turns(turns))
    decreases |turns|
  {
    if turns != [] {
      var rest, last := turns[..|turns| - 1], turns[|turns| - 1];
      TurnsKeepCalls(rest);
      StepKeepsNumbers(last.cfg, Turns(rest), last.op);
      StepKeepsCalls(last.cfg, Turns(rest), last.op);
    }
  }

  /** Whatever settings each scheduler had, a reminder's provider calls are its attempts, at
      most one of them succeeded, no call follows a success, and it is delivered exactly when
      there was one. */
  lemma SuccessIsTheLastCall(turns: seq<Turn>, k: Key)
    ensures var s := Turns(turns);
            var calls := CallsFor(s.calls, k);
            && (forall j | 0 <= j < |calls| :: calls[j].ok ==> j == |calls| - 1)
            && (k !in s.reminders.data ==> calls == [])
            && (k in s.reminders.data ==>
                  && |calls| == s.reminders.data[k].attempts
                  && (s.reminders.data[k].status.Delivered? <==> exists j :: 0 <= j < |calls| && calls[j].ok))
  {
    TurnsKeepCalls(turns);
    var s := Turns(turns);
    if k in s.reminders.data {
      assert CallsOk(s.reminders.data[k], CallsFor(s.calls, k));
      if s.reminders.data[k].status.Delivered? {
        assert CallsFor(s.calls, k)[|CallsFor(s.calls, k)| - 1].ok;
      }
    } else {
      NoRows(s.attempts, s.calls, k);
    }
  }
}
