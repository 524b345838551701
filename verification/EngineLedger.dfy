/** The delivery ledger over every run of the engine: its rows determine the state of
    each reminder, and retries are bounded. */
module EngineLedger {
  import opened Text
  import opened Sorting
  import opened Engine
  import opened EngineEffects
  import opened EngineTables

  ghost function RowsFor(attempts: seq<Attempt>, k: Key): seq<Attempt> {
    Filter(attempts, (row: Attempt) => row.reminder == k)
  }

  ghost function CallsFor(calls: seq<Call>, k: Key): seq<Call> {
    Filter(calls, (c: Call) => c.reminder == k)
  }

  predicate IsTransient(row: Attempt) {
    row.status.FailedRow? && row.reason.FailedProviderTransient?
  }

  /** A delivered row names a reference and a status code, and one that is not marked
      accept-only rests on a reference that is evidence of transport. */
  ghost predicate EvidenceOk(cfg: Config, row: Attempt) {
    row.status.DeliveredRow? ==>
      && row.providerRef.Some? && row.statusCode.Some? && row.statusCode.value != []
      && (row.acceptOnly
          || HasTransportRef(row.providerRef, cfg.reminderIdText(row.reminder), cfg.dedupeText(row.reminder)))
  }

  ghost predicate AllTransient(rows: seq<Attempt>) {
    forall j | 0 <= j < |rows| :: IsTransient(rows[j])
  }

  /** What the rows of a reminder say about its status. */
  ghost predicate StatusFollows(r: Reminder, rows: seq<Attempt>) {
    var n := |rows|;
    match r.status
    case Scheduled => n == r.attempts && AllTransient(rows)
    case Attempted => n == r.attempts && AllTransient(rows) && n > 0 && r.next.Some?
    case Invalidated => n == r.attempts && AllTransient(rows)
    case Delivered => n == r.attempts && n > 0 && rows[n - 1].status.DeliveredRow?
    case Failed => n == r.attempts && n > 0 && rows[n - 1].status.FailedRow? && rows[n - 1].reason.FailedRetryExhausted?
    case Suppressed => n == r.attempts + 1 && rows[n - 1].status.SuppressedRow?
    case Blocked => (n == 0 && r.attempts == 0) || (n == r.attempts + 1 && rows[n - 1].status.BlockedRow?)
  }

  function Max0(n: int): nat {
    if n < 0 then 0 else n
  }

  /** How often a reminder may reach the provider. */
  function CallLimit(cfg: Config): nat {
    Max0(RetryLimit(cfg)) + 1
  }

  /** When the attempt after a failed one is due. */
  function RetryTime(cfg: Config, row: Attempt): Time {
    row.at + cfg.retryDelayMinutes * MINUTE
  }

  /** One call per attempt, and only the last call of a delivered reminder succeeded. */
  ghost predicate CallsOk(r: Reminder, calls: seq<Call>) {
    && |calls| == r.attempts && (r.status.Delivered? ==> calls != [])
    && forall j | 0 <= j < |calls| :: calls[j].ok <==> r.status.Delivered? && j == |calls| - 1
  }

  ghost predicate LedgerOk(cfg: Config, r: Reminder, rows: seq<Attempt>, calls: seq<Call>) {
    && CallsOk(r, calls)
    && (forall j | 0 <= j < |rows| :: rows[j].index == j + 1 && EvidenceOk(cfg, rows[j]))
    && (forall j | 0 <= j < |rows| - 1 :: IsTransient(rows[j]))
    && StatusFollows(r, rows)
    && r.attempts <= CallLimit(cfg)
    && (IsSchedulable(r.status) && r.attempts > 0 ==> r.attempts <= RetryLimit(cfg))
    && (r.next.Some? && cfg.retryDelayMinutes >= 0 ==> r.trigger <= r.next.value)
    && (IsSchedulable(r.status) && r.next.Some? ==> rows != [] && r.next.value == RetryTime(cfg, rows[|rows| - 1]))
  }

  /** Rows and calls are about stored reminders, and a visible key is a delivered reminder. */
  ghost predicate LogsKnown(s: State) {
    && (forall row | row in s.attempts :: row.reminder in s.reminders.data)
    && (forall c | c in s.calls :: c.reminder in s.reminders.data)
    && (forall k | k in s.visible :: k in s.reminders.data && s.reminders.data[k].status.Delivered?)
  }

  ghost predicate LedgersOk(cfg: Config, s: State) {
    forall k | k in s.reminders.data ::
      LedgerOk(cfg, s.reminders.data[k], RowsFor(s.attempts, k), CallsFor(s.calls, k))
  }

  ghost predicate Ledger(cfg: Config, s: State) {
    Filed(s.reminders) && LogsKnown(s) && LedgersOk(cfg, s)
  }

  // ---------- One delivery ----------

  lemma RowsForAppend(attempts: seq<Attempt>, row: Attempt, k: Key)
    ensures RowsFor(attempts + [row], k) == RowsFor(attempts, k) + (if row.reminder == k then [row] else [])
  {
    FilterAppend(attempts, row, (x: Attempt) => x.reminder == k);
  }

  lemma CallsForAppend(calls: seq<Call>, c: Call, k: Key)
    ensures CallsFor(calls + [c], k) == CallsFor(calls, k) + (if c.reminder == k then [c] else [])
  {
    FilterAppend(calls, c, (x: Call) => x.reminder == k);
  }

  lemma AfterReplyLedger(cfg: Config, r: Reminder, now: Time, p: ProviderResult, rows: seq<Attempt>, calls: seq<Call>)
    requires p.Detailed? && IsSchedulable(r.status) && DueTime(r) <= now
    ensures var (r2, row) := AfterReply(cfg, Counted(r), now, p);
            LedgerOk(cfg, r, rows, calls) ==> LedgerOk(cfg, r2, rows + [row], calls + [Call(r.dedupeKey, p.ok)])
  {
  }

  lemma SetAsideLedger(cfg: Config, r: Reminder, now: Time, rows: seq<Attempt>, calls: seq<Call>, row: Attempt)
    requires IsSchedulable(r.status) && row.index == r.attempts + 1
    ensures LedgerOk(cfg, r, rows, calls) && row.status.BlockedRow? ==>
              LedgerOk(cfg, r.(status := Blocked), rows + [row], calls)
    ensures LedgerOk(cfg, r, rows, calls) && row.status.SuppressedRow? ==>
              LedgerOk(cfg, r.(status := Suppressed), rows + [row], calls)
  {
  }

  /** s' replaces reminder k by r, adds one row and the given calls for it, and nothing else of the ledger. */
  ghost predicate Recorded(s: State, s': State, k: Key, r: Reminder, row: Attempt, calls: seq<Call>) {
    && Replaced(s, s', k, r) && r.dedupeKey == k
    && row.reminder == k && s'.attempts == s.attempts + [row]
    && s'.calls == s.calls + calls && |calls| <= 1 && (forall c | c in calls :: c.reminder == k)
    && s'.visible <= s.visible + (if r.status.Delivered? then {k} else {})
  }

  lemma RecordedHistory(s: State, s': State, k: Key, r: Reminder, row: Attempt, calls: seq<Call>, x: Key)
    requires Recorded(s, s', k, r, row, calls)
    ensures RowsFor(s'.attempts, x) == RowsFor(s.attempts, x) + (if x == k then [row] else [])
    ensures CallsFor(s'.calls, x) == CallsFor(s.calls, x) + (if x == k then calls else [])
  {
    RowsForAppend(s.attempts, row, x);
    if calls != [] {
      assert calls == [calls[0]];
      CallsForAppend(s.calls, calls[0], x);
    } else {
      assert s'.calls == s.calls;
    }
  }

  lemma RecordedKeepsLedgers(cfg: Config, s: State, s': State, k: Key, r: Reminder, row: Attempt, calls: seq<Call>)
    requires Ledger(cfg, s) && k in s.reminders.data && Recorded(s, s', k, r, row, calls)
    ensures LedgerOk(cfg, r, RowsFor(s.attempts, k) + [row], CallsFor(s.calls, k) + calls) ==> LedgersOk(cfg, s')
  {
    if LedgerOk(cfg, r, RowsFor(s.attempts, k) + [row], CallsFor(s.calls, k) + calls) {
      forall x | x in s.reminders.data {
        RecordedAt(cfg, s, s', k, r, row, calls, x);
      }
    }
  }

  lemma RecordedKeepsLogs(s: State, s': State, k: Key, r: Reminder, row: Attempt, calls: seq<Call>)
    requires Filed(s.reminders) && LogsKnown(s) && k in s.reminders.data && Recorded(s, s', k, r, row, calls)
    requires k !in s.visible
    ensures Filed(s'.reminders) && LogsKnown(s')
  {
  }

  lemma RecordedKeepsLedger(cfg: Config, s: State, s': State, k: Key, r: Reminder, row: Attempt, calls: seq<Call>)
    requires Ledger(cfg, s) && k in s.reminders.data && Recorded(s, s', k, r, row, calls)
    requires k !in s.visible
    ensures LedgerOk(cfg, r, RowsFor(s.attempts, k) + [row], CallsFor(s.calls, k) + calls) ==> Ledger(cfg, s')
  {
    RecordedKeepsLedgers(cfg, s, s', k, r, row, calls);
    RecordedKeepsLogs(s, s', k, r, row, calls);
  }

  lemma RecordedAt(cfg: Config, s: State, s': State, k: Key, r: Reminder, row: Attempt, calls: seq<Call>, x: Key)
    requires Ledger(cfg, s) && x in s.reminders.data && Recorded(s, s', k, r, row, calls)
    ensures LedgerOk(cfg, r, RowsFor(s.attempts, k) + [row], CallsFor(s.calls, k) + calls) ==>
              LedgerOk(cfg, s'.reminders.data[x], RowsFor(s'.attempts, x), CallsFor(s'.calls, x))
  {
    RecordedHistory(s, s', k, r, row, calls, x);
    if x != k {
      assert RowsFor(s'.attempts, x) == RowsFor(s.attempts, x);
      assert CallsFor(s'.calls, x) == CallsFor(s.calls, x);
    }
  }

  lemma SetAsideRecords(s: State, k: Key, now: Time, status: Status, rowStatus: AttemptStatus, reason: Reason,
                        text: string)
    returns (r: Reminder, row: Attempt)
    requires Filed(s.reminders) && k in s.reminders.data && !status.Delivered?
    ensures Recorded(s, SetAside(s, s.reminders.data[k], now, status, rowStatus, reason, text), k, r, row, [])
    ensures r == s.reminders.data[k].(status := status)
    ensures row == Attempt(k, s.reminders.data[k].attempts + 1, now, rowStatus, reason, None, None, Some(text), false,
                           "none")
  {
    r := s.reminders.data[k].(status := status);
    row := Attempt(k, r.attempts + 1, now, rowStatus, reason, None, None, Some(text), false, "none");
    SetAsideReplaces(s, k, now, status, rowStatus, reason, text);
    assert s.calls + [] == s.calls;
  }

  lemma SetAsideKeepsLedger(cfg: Config, s: State, k: Key, now: Time, status: Status, rowStatus: AttemptStatus,
                            reason: Reason, text: string)
    requires Ledger(cfg, s) && k in s.reminders.data && IsSchedulable(s.reminders.data[k].status)
    requires (status == Blocked && rowStatus == BlockedRow) || (status == Suppressed && rowStatus == SuppressedRow)
    ensures Ledger(cfg, SetAside(s, s.reminders.data[k], now, status, rowStatus, reason, text))
  {
    hide SetAside, Recorded;
    var r, row := SetAsideRecords(s, k, now, status, rowStatus, reason, text);
    SetAsideLedger(cfg, s.reminders.data[k], now, RowsFor(s.attempts, k), CallsFor(s.calls, k), row);
    assert CallsFor(s.calls, k) + [] == CallsFor(s.calls, k);
    RecordedKeepsLedger(cfg, s, SetAside(s, s.reminders.data[k], now, status, rowStatus, reason, text), k, r, row, []);
  }

  lemma AfterReplyRecords(cfg: Config, s: State, k: Key, r1: Reminder, now: Time, p: ProviderResult)
    returns (s': State, r: Reminder, row: Attempt)
    requires Filed(s.reminders) && k in s.reminders.data && p.Detailed? && r1.dedupeKey == k
    ensures (r, row) == AfterReply(cfg, r1, now, p) && s' == Record(s, r, row, p.ok)
    ensures Recorded(s, s', k, r, row, [Call(k, p.ok)])
  {
    var reply := AfterReply(cfg, r1, now, p);
    r, row := reply.0, reply.1;
    s' := Record(s, r, row, p.ok);
    RecordReplaces(s, k, r, row, p.ok);
  }

  lemma CallProviderRecords(cfg: Config, s: State, k: Key, now: Time, provider: Provider)
    returns (s': State, p: ProviderResult, r: Reminder, row: Attempt)
    requires Filed(s.reminders) && k in s.reminders.data && k !in s.visible
    ensures p == Unpack(provider(Counted(s.reminders.data[k])))
    ensures (r, row) == AfterReply(cfg, Counted(s.reminders.data[k]), now, p)
    ensures s' == CallProvider(cfg, s, k, now, provider).0 && Recorded(s, s', k, r, row, [Call(k, p.ok)])
  {
    var r1 := Counted(s.reminders.data[k]);
    p := Unpack(provider(r1));
    s', r, row := AfterReplyRecords(cfg, s, k, r1, now, p);
    CallProviderIsRecord(cfg, s, k, now, provider);
  }

  lemma CallProviderIsRecord(cfg: Config, s: State, k: Key, now: Time, provider: Provider)
    requires k in s.reminders.data && s.reminders.data[k].dedupeKey == k && k !in s.visible
    ensures var p := Unpack(provider(Counted(s.reminders.data[k])));
            var (r, row) := AfterReply(cfg, Counted(s.reminders.data[k]), now, p);
            CallProvider(cfg, s, k, now, provider).0 == Record(s, r, row, p.ok)
  {
  }

  lemma CallProviderKeepsLedger(cfg: Config, s: State, k: Key, now: Time, provider: Provider)
    requires Ledger(cfg, s) && k in s.reminders.data && IsDue(s.reminders.data[k], now)
    ensures Ledger(cfg, CallProvider(cfg, s, k, now, provider).0)
  {
    var s', p, r, row := CallProviderRecords(cfg, s, k, now, provider);
    AfterReplyLedger(cfg, s.reminders.data[k], now, p, RowsFor(s.attempts, k), CallsFor(s.calls, k));
    RecordedKeepsLedger(cfg, s, s', k, r, row, [Call(k, p.ok)]);
  }

  lemma DeliverOneKeepsLedger(cfg: Config, s: State, k: Key, now: Time, provider: Provider)
    returns (s': State)
    requires Ledger(cfg, s) && k in s.reminders.data && IsDue(s.reminders.data[k], now)
    ensures s' == DeliverOne(cfg, s, k, now, provider).0 && Ledger(cfg, s')
  {
    var r := s.reminders.data[k];
    s' := DeliverOne(cfg, s, k, now, provider).0;
    if s' == CallProvider(cfg, s, k, now, provider).0 {
      CallProviderKeepsLedger(cfg, s, k, now, provider);
    } else if s' == SetAside(s, r, now, Blocked, BlockedRow, TzMissing, "timezone missing") {
      SetAsideKeepsLedger(cfg, s, k, now, Blocked, BlockedRow, TzMissing, "timezone missing");
    } else {
      SetAsideKeepsLedger(cfg, s, k, now, Suppressed, SuppressedRow, SuppressedQuietHours, "quiet_hours");
    }
  }

  lemma StillDue(s: State, s1: State, rest: seq<Key>, k: Key, now: Time)
    requires k in s.reminders.data && k !in rest && IsDue(s.reminders.data[k], now)
    ensures ProgressedAmong(s, s1, rest) ==> k in s1.reminders.data && IsDue(s1.reminders.data[k], now)
  {
  }

  /** These keys are due, each of them once. */
  ghost predicate AllDue(s: State, keys: seq<Key>, now: Time) {
    Distinct(keys) && forall k | k in keys :: k in s.reminders.data && IsDue(s.reminders.data[k], now)
  }

  lemma RestIsDue(s: State, rest: seq<Key>, last: Key, now: Time)
    requires AllDue(s, rest + [last], now)
    ensures AllDue(s, rest, now) && last !in rest
    ensures last in s.reminders.data && IsDue(s.reminders.data[last], now)
  {
    var keys := rest + [last];
    assert forall i | 0 <= i < |rest| :: rest[i] == keys[i];
    assert keys[|rest|] == last && last in keys;
  }

  lemma LastStaysDue(cfg: Config, s: State, rest: seq<Key>, last: Key, now: Time, provider: Provider)
    requires Filed(s.reminders) && AllDue(s, rest + [last], now)
    ensures var s1 := DeliverAll(cfg, s, rest, now, provider).0;
            s1.targets == s.targets && last in s1.reminders.data && IsDue(s1.reminders.data[last], now)
  {
    RestIsDue(s, rest, last, now);
    var s1 := DeliverAllProgresses(cfg, s, rest, now, provider);
    StillDue(s, s1, rest, last, now);
  }

  /** These keys can be delivered one after the other from s. */
  ghost predicate Ready(cfg: Config, s: State, keys: seq<Key>, now: Time) {
    Ledger(cfg, s) && AllDue(s, keys, now)
  }

  lemma {:induction false} DeliverAllKeepsLedger(cfg: Config, s: State, keys: seq<Key>, now: Time, provider: Provider)
    returns (s': State)
    requires Ready(cfg, s, keys, now)
    ensures s' == DeliverAll(cfg, s, keys, now, provider).0 && Ledger(cfg, s')
    decreases |keys|
  {
    s' := s;
    if keys != [] {
      var rest, last := keys[..|keys| - 1], keys[|keys| - 1];
      assert keys == rest + [last];
      RestIsDue(s, rest, last, now);
      LastStaysDue(cfg, s, rest, last, now, provider);
      var s1 := DeliverAllKeepsLedger(cfg, s, rest, now, provider);
      s' := DeliverOneKeepsLedger(cfg, s1, last, now, provider);
    }
  }

  // ---------- The other steps ----------

  lemma NewVersionLedgerAt(cfg: Config, s: State, s': State, e: Event, m: Mutation, k: Key)
    requires Numbered(s) && Ledger(cfg, s) && NewVersion(cfg, s, s', e, m) && k in s'.reminders.data
    ensures LedgerOk(cfg, s'.reminders.data[k], RowsFor(s.attempts, k), CallsFor(s.calls, k))
    ensures k in s.reminders.data && s.reminders.data[k].status.Delivered? ==>
              s'.reminders.data[k] == s.reminders.data[k]
  {
    NewVersionEntry(cfg, s, s', e, m, k);
    if k in s.reminders.data {
      InvalidatedLedger(cfg, s.reminders.data[k], e.id, e.version, m.at, RowsFor(s.attempts, k), CallsFor(s.calls, k));
    } else {
      NoRows(s.attempts, s.calls, k);
      FreshLedger(cfg, s.targets, e, k.recipient);
    }
  }

  lemma FreshLedger(cfg: Config, targets: map<PersonId, Target>, e: Event, p: PersonId)
    ensures LedgerOk(cfg, Fresh(cfg, targets, e, p), [], [])
  {
  }

  lemma NewVersionKeepsLedger(cfg: Config, s: State, s': State, e: Event, m: Mutation)
    requires Numbered(s) && Ledger(cfg, s) && NewVersion(cfg, s, s', e, m) && SameDeliveries(s, s')
    ensures Ledger(cfg, s')
  {
    forall k | k in s'.reminders.data {
      NewVersionLedgerAt(cfg, s, s', e, m, k);
    }
  }

  lemma InvalidatedLedger(cfg: Config, r: Reminder, id: EventId, version: nat, now: Time, rows: seq<Attempt>,
                          calls: seq<Call>)
    requires LedgerOk(cfg, r, rows, calls)
    ensures LedgerOk(cfg, Invalidated1(r, id, version, now), rows, calls)
  {
  }

  lemma NoRows(attempts: seq<Attempt>, calls: seq<Call>, k: Key)
    requires forall row | row in attempts :: row.reminder != k
    requires forall c | c in calls :: c.reminder != k
    ensures RowsFor(attempts, k) == [] && CallsFor(calls, k) == []
  {
    FilterNone(attempts, (row: Attempt) => row.reminder == k);
    FilterNone(calls, (c: Call) => c.reminder == k);
  }

  lemma ReconciledLedger(cfg: Config, r: Reminder, now: Time, rows: seq<Attempt>, calls: seq<Call>)
    requires LedgerOk(cfg, r, rows, calls)
    ensures LedgerOk(cfg, Reconciled1(r, now), rows, calls)
  {
  }

  lemma ReconcileKeepsLedger(cfg: Config, s: State, now: Time, batchSize: nat)
    requires Ledger(cfg, s)
    ensures Ledger(cfg, Reconcile(cfg, s, now, batchSize).0)
  {
    if s.mode != CAPTURE_ONLY {
      var keys := Take(DueKeys(cfg, s.reminders, now), batchSize);
      ReconcileEffect(s, keys, now);
      forall k | k in s.reminders.data
        ensures LedgerOk(cfg, Reconciled1(s.reminders.data[k], now), RowsFor(s.attempts, k), CallsFor(s.calls, k))
      {
        ReconciledLedger(cfg, s.reminders.data[k], now, RowsFor(s.attempts, k), CallsFor(s.calls, k));
      }
    }
  }

  lemma StepKeepsLedger(cfg: Config, s: State, op: Op)
    requires Tables(cfg, s) && Ledger(cfg, s)
    ensures Ledger(cfg, Step(cfg, s, op))
  {
    match op
    case Intake(i, now) =>
      var made, m := IntakeEffect(cfg, s, i, now);
      if made.Some? {
        NewVersionKeepsLedger(cfg, s, Step(cfg, s, op), made.value, m);
      }
    case DeliverDue(now, provider) =>
      if s.mode != CAPTURE_ONLY {
        DueKeysDistinct(cfg, s.reminders, now);
        var s' := DeliverAllKeepsLedger(cfg, s, DueKeys(cfg, s.reminders, now), now, provider);
      }
    case ReconcileDue(now, n) =>
      ReconcileKeepsLedger(cfg, s, now, n);
    case _ =>
  }

  lemma {:induction false} RunKeepsLedger(cfg: Config, s: State, ops: seq<Op>)
    requires Tables(cfg, s) && Ledger(cfg, s)
    ensures Ledger(cfg, Run(cfg, s, ops))
    decreases |ops|
  {
    if ops != [] {
      RunKeepsTables(cfg, s, ops[..|ops| - 1]);
      RunKeepsLedger(cfg, s, ops[..|ops| - 1]);
      StepKeepsLedger(cfg, Run(cfg, s, ops[..|ops| - 1]), ops[|ops| - 1]);
    }
  }
}
