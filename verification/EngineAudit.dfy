/** The audit log: numbered from one, only ever added to, and what each call adds to it. */
module EngineAudit {
  import opened Text
  import opened Sorting
  import opened Destination
  import opened Engine
  import opened EngineEffects
  import opened EngineTables
  import opened EngineTheorems
  import opened EngineDelivery
  import opened EngineAnswers

  /** An audit record without its number. */
  type Line = (string, Reason, Subject)

  /** The call added these lines at the end, numbered on. */
  ghost predicate Writes(s: State, s': State, lines: seq<Line>) {
    && |s'.audit| == |s.audit| + |lines| && s.audit == s'.audit[..|s.audit|]
    && forall n | |s.audit| <= n < |s'.audit| ::
         var line := lines[n - |s.audit|]; s'.audit[n] == AuditRecord(n + 1, line.0, line.1, line.2)
  }

  lemma WritesNothing(s: State, s': State)
    requires s'.audit == s.audit
    ensures Writes(s, s', [])
  {
  }

  lemma WritesBoth(s: State, s1: State, s2: State, a: seq<Line>, b: seq<Line>)
    requires Writes(s, s1, a) && Writes(s1, s2, b)
    ensures Writes(s, s2, a + b)
  {
    assert s.audit == s2.audit[..|s1.audit|][..|s.audit|];
    forall n | |s.audit| <= n < |s1.audit| ensures s2.audit[n] == s1.audit[n] {
      assert s2.audit[..|s1.audit|][n] == s1.audit[n];
    }
  }

  // ---------- One delivery pass ----------

  /** A refusal at the limit is logged twice: as a refusal and as the end of the retries. */
  ghost function LinesFor(k: Key, reason: Reason): seq<Line> {
    (if reason == FailedRetryExhausted then [("delivery", FailedProviderTransient, ReminderSubject(k))] else [])
    + [("delivery", reason, ReminderSubject(k))]
  }

  ghost function PassLines(outcomes: seq<(Key, Reason)>): seq<Line>
    decreases |outcomes|
  {
    if outcomes == [] then []
    else PassLines(outcomes[..|outcomes| - 1]) + LinesFor(outcomes[|outcomes| - 1].0, outcomes[|outcomes| - 1].1)
  }

  lemma RecordWrites(s: State, r: Reminder, row: Attempt, ok: bool)
    requires if ok then row.reason == DeliveredSuccess
               else row.reason in {FailedProviderTransient, FailedRetryExhausted}
    ensures Writes(s, Record(s, r, row, ok), LinesFor(r.dedupeKey, row.reason))
  {
  }

  lemma DeliverOneWrites(cfg: Config, s: State, k: Key, now: Time, provider: Provider)
    requires k in s.reminders.data && s.reminders.data[k].dedupeKey == k
    ensures var (s', outcome) := DeliverOne(cfg, s, k, now, provider);
            Writes(s, s', if outcome.Some? then LinesFor(k, outcome.value) else [])
  {
    var r := s.reminders.data[k];
    hide Writes, Record, IsQuietHour, HasTransportRef;
    if !HasTimezone(s, r.recipient) {
      SetAsideWrites(s, r, now, Blocked, BlockedRow, TzMissing, "timezone missing");
    } else if IsQuietHour(cfg.localHour(now, s.targets[r.recipient].timezone.value), s.targets[r.recipient].quietStart,
                          s.targets[r.recipient].quietEnd) {
      SetAsideWrites(s, r, now, Suppressed, SuppressedRow, SuppressedQuietHours, "quiet_hours");
    } else if k in s.visible {
      WritesNothing(s, SaveReminder(s, Counted(r)));
    } else {
      var p := Unpack(provider(Counted(r)));
      var after := AfterReply(cfg, Counted(r), now, p);
      RecordWrites(s, after.0, after.1, p.ok);
    }
  }

  lemma SetAsideWrites(s: State, r: Reminder, now: Time, status: Status, rowStatus: AttemptStatus, reason: Reason,
                       text: string)
    requires reason != FailedRetryExhausted
    ensures Writes(s, SetAside(s, r, now, status, rowStatus, reason, text), LinesFor(r.dedupeKey, reason))
  {
  }

  lemma SaveKeepsFiled(s: State, r: Reminder)
    requires Filed(s.reminders)
    ensures Filed(SaveReminder(s, r).reminders)
  {
  }

  lemma DeliverOneKeepsFiled(cfg: Config, s: State, k: Key, now: Time, provider: Provider)
    requires Filed(s.reminders) && k in s.reminders.data
    ensures Filed(DeliverOne(cfg, s, k, now, provider).0.reminders)
  {
    hide Filed, IsQuietHour, HasTransportRef;
    var r := s.reminders.data[k];
    SaveKeepsFiled(s, r.(status := Blocked));
    SaveKeepsFiled(s, r.(status := Suppressed));
    SaveKeepsFiled(s, Counted(r));
    SaveKeepsFiled(s, AfterReply(cfg, Counted(r), now, Unpack(provider(Counted(r)))).0);
  }

  lemma {:induction false} DeliverAllWrites(cfg: Config, s: State, keys: seq<Key>, now: Time, provider: Provider)
    returns (s': State, outcomes: seq<(Key, Reason)>)
    requires Filed(s.reminders) && forall k | k in keys :: k in s.reminders.data
    ensures (s', outcomes) == DeliverAll(cfg, s, keys, now, provider)
    ensures Filed(s'.reminders) && Writes(s, s', PassLines(outcomes))
    decreases |keys|
  {
    hide Filed, Writes, DeliverOne, LinesFor;
    s', outcomes := s, [];
    if keys == [] {
      WritesNothing(s, s);
    } else {
      var rest, last := keys[..|keys| - 1], keys[|keys| - 1];
      assert keys == rest + [last] && last in keys;
      assert forall k | k in rest :: k in keys;
      var s1, before := DeliverAllWrites(cfg, s, rest, now, provider);
      assert last in s1.reminders.data;
      DeliverOneKeepsFiled(cfg, s1, last, now, provider);
      FiledUnder(s1, last);
      DeliverOneWrites(cfg, s1, last, now, provider);
      var done := DeliverOne(cfg, s1, last, now, provider);
      s' := done.0;
      if done.1.Some? {
        outcomes := before + [(last, done.1.value)];
        assert outcomes[..|before|] == before;
        WritesBoth(s, s1, s', PassLines(before), LinesFor(last, done.1.value));
      } else {
        outcomes := before;
        WritesBoth(s, s1, s', PassLines(before), []);
        assert PassLines(before) + [] == PassLines(before);
      }
    }
  }

  lemma FiledUnder(s: State, k: Key)
    requires Filed(s.reminders) && k in s.reminders.data
    ensures s.reminders.data[k].dedupeKey == k
  {
  }

  /** In every reachable state, the log of a delivery pass follows its report line by line. */
  lemma DeliveryLog(cfg: Config, ops: seq<Op>, now: Time, provider: Provider)
    ensures var s := After(cfg, ops);
            var (s', report) := Deliver(cfg, s, now, provider);
            Writes(s, s', if s.mode == "capture_only" then [("delivery", CaptureOnlyBlocked, NoSubject)]
                          else if report.Attempts? then PassLines(report.outcomes) else [])
  {
    ReachableInvariants(cfg, ops);
    var s := After(cfg, ops);
    if s.mode != CAPTURE_ONLY {
      DueKeysPresent(cfg, s.reminders, now);
      var s', outcomes := DeliverAllWrites(cfg, s, DueKeys(cfg, s.reminders, now), now, provider);
    }
  }

  // ---------- One reconciliation batch ----------

  ghost function RecoveryLines(s: State, keys: seq<Key>, now: Time): seq<Line>
    decreases |keys|
  {
    if keys == [] then []
    else
      var last := keys[|keys| - 1];
      RecoveryLines(s, keys[..|keys| - 1], now)
      + if last in s.reminders.data && IsOverdue(s.reminders.data[last], now)
        then [("recovery", RecoveryReconciled, ReminderSubject(last))] else []
  }

  lemma ReconcileOneWrites(s: State, k: Key, now: Time)
    ensures Writes(s, ReconcileOne(s, k, now),
                   if k in s.reminders.data && IsOverdue(s.reminders.data[k], now)
                   then [("recovery", RecoveryReconciled, ReminderSubject(k))] else [])
  {
  }

  lemma {:induction false} ReconcileAllWrites(s: State, keys: seq<Key>, now: Time)
    requires Filed(s.reminders) && Distinct(keys)
    ensures Writes(s, ReconcileAll(s, keys, now), RecoveryLines(s, keys, now))
    decreases |keys|
  {
    hide Filed, Writes, ReconcileOne, IsOverdue;
    if keys == [] {
      WritesNothing(s, s);
    } else {
      var rest, last := keys[..|keys| - 1], keys[|keys| - 1];
      assert keys == rest + [last] && last !in rest;
      ReconcileAllWrites(s, rest, now);
      LastIsUntouched(s, rest, last, now);
      ReconcileOneWrites(ReconcileAll(s, rest, now), last, now);
      WritesBoth(s, ReconcileAll(s, rest, now), ReconcileAll(s, keys, now), RecoveryLines(s, rest, now),
                 if last in s.reminders.data && IsOverdue(s.reminders.data[last], now)
                 then [("recovery", RecoveryReconciled, ReminderSubject(last))] else []);
    }
  }

  /** In every reachable state, a reconciliation batch logs each reminder it moves back, in the
      order in which they were due. */
  lemma ReconcileLog(cfg: Config, ops: seq<Op>, now: Time, batchSize: nat)
    ensures var s := After(cfg, ops);
            var due := DueKeys(cfg, s.reminders, now);
            Writes(s, Reconcile(cfg, s, now, batchSize).0,
                   if s.mode == "capture_only" then [("recovery", CaptureOnlyBlocked, NoSubject)]
                   else RecoveryLines(s, if |due| <= batchSize then due else due[..batchSize], now))
  {
    ReachableInvariants(cfg, ops);
    var s := After(cfg, ops);
    if s.mode != CAPTURE_ONLY {
      DueKeysDistinct(cfg, s.reminders, now);
      ReconcileAllWrites(s, Take(DueKeys(cfg, s.reminders, now), batchSize), now);
    }
  }

  // ---------- One intent ----------

  /** An older reminder of the event that can still be sent and has not triggered. */
  predicate IsDropped(r: Reminder, id: EventId, now: Time) {
    r.event == id && r.status in {Scheduled, Attempted} && now < r.trigger
  }

  /** One line for each reminder of the event that is invalidated, in the order of the dedupe texts. */
  ghost predicate DropLines(cfg: Config, s: State, id: EventId, now: Time, reason: Reason, lines: seq<Line>) {
    exists keys: seq<Key> :: IsDropOrder(cfg, s, id, now, keys) && lines == MutationLines(keys, reason)
  }

  ghost predicate IsDropOrder(cfg: Config, s: State, id: EventId, now: Time, keys: seq<Key>) {
    && Distinct(keys)
    && (forall k :: k in keys <==> k in s.reminders.data && IsDropped(s.reminders.data[k], id, now))
    && (forall i, j | 0 <= i < j < |keys| :: LessOrEqual(cfg.dedupeText(keys[i]), cfg.dedupeText(keys[j])))
  }

  ghost function MutationLines(keys: seq<Key>, reason: Reason): seq<Line> {
    seq(|keys|, i requires 0 <= i < |keys| => ("mutation", reason, ReminderSubject(keys[i])))
  }

  lemma MutationLinesGrow(keys: seq<Key>, k: Key, reason: Reason)
    ensures MutationLines(keys + [k], reason) ==
              MutationLines(keys, reason) + [("mutation", reason, ReminderSubject(k))]
  {
  }

  lemma InvalidateOneWrites(s: State, k: Key, id: EventId, version: nat, now: Time, reason: Reason)
    ensures Writes(s, InvalidateOne(s, k, id, version, now, reason),
                   if k in s.reminders.data && MustInvalidate(s.reminders.data[k], id, version, now)
                   then [("mutation", reason, ReminderSubject(k))] else [])
  {
  }

  lemma LastIsKept(s: State, rest: seq<Key>, last: Key, id: EventId, version: nat, now: Time, reason: Reason)
    requires Filed(s.reminders) && last !in rest
    ensures var s1 := Invalidate(s, rest, id, version, now, reason);
            && (last in s1.reminders.data <==> last in s.reminders.data)
            && (last in s.reminders.data ==> s1.reminders.data[last] == s.reminders.data[last])
  {
    InvalidateEffect(s, rest, id, version, now, reason);
  }

  /** These are the keys that a pass over keys invalidates, in the order of the pass. */
  ghost predicate IsDroppedAmong(s: State, keys: seq<Key>, leq: (Key, Key) -> bool, id: EventId, version: nat,
                                 now: Time, dropped: seq<Key>)
  {
    && Distinct(dropped) && SortedBy(dropped, leq)
    && forall k :: k in dropped <==>
                     k in keys && k in s.reminders.data && MustInvalidate(s.reminders.data[k], id, version, now)
  }

  lemma PrefixIsSorted(rest: seq<Key>, last: Key, leq: (Key, Key) -> bool)
    requires Distinct(rest + [last]) && SortedBy(rest + [last], leq)
    ensures Distinct(rest) && SortedBy(rest, leq) && last !in rest
  {
    var keys := rest + [last];
    assert keys[|rest|] == last && forall i | 0 <= i < |rest| :: keys[i] == rest[i];
  }

  lemma DroppedNext(s: State, rest: seq<Key>, last: Key, leq: (Key, Key) -> bool, id: EventId, version: nat, now: Time,
                    before: seq<Key>)
    requires Distinct(rest + [last]) && SortedBy(rest + [last], leq)
    requires IsDroppedAmong(s, rest, leq, id, version, now, before)
    ensures if last in s.reminders.data && MustInvalidate(s.reminders.data[last], id, version, now)
            then IsDroppedAmong(s, rest + [last], leq, id, version, now, before + [last])
            else IsDroppedAmong(s, rest + [last], leq, id, version, now, before)
  {
    hide MustInvalidate;
    PrefixIsSorted(rest, last, leq);
    var keys, dropped := rest + [last], before + [last];
    assert keys[|rest|] == last;
    assert forall k :: k in keys <==> k in rest || k == last;
    assert forall k :: k in dropped <==> k in before || k == last;
    forall i | 0 <= i < |before| ensures leq(before[i], last) {
      assert before[i] in rest;
      var n :| 0 <= n < |rest| && rest[n] == before[i];
      assert keys[n] == before[i];
    }
  }

  lemma {:induction false} InvalidateWrites(s: State, keys: seq<Key>, leq: (Key, Key) -> bool, id: EventId,
                                            version: nat, now: Time, reason: Reason)
    returns (dropped: seq<Key>)
    requires Filed(s.reminders) && Distinct(keys) && SortedBy(keys, leq)
    ensures Writes(s, Invalidate(s, keys, id, version, now, reason), MutationLines(dropped, reason))
    ensures IsDroppedAmong(s, keys, leq, id, version, now, dropped)
    decreases |keys|
  {
    dropped := [];
    if keys == [] {
      WritesNothing(s, s);
      NoMutationLines(reason);
    } else {
      hide Filed, Writes, InvalidateOne, MustInvalidate, MutationLines, IsDroppedAmong, Distinct, SortedBy;
      var rest, last := keys[..|keys| - 1], keys[|keys| - 1];
      assert keys == rest + [last];
      PrefixIsSorted(rest, last, leq);
      var before := InvalidateWrites(s, rest, leq, id, version, now, reason);
      LastIsKept(s, rest, last, id, version, now, reason);
      DroppedNext(s, rest, last, leq, id, version, now, before);
      var s1 := Invalidate(s, rest, id, version, now, reason);
      InvalidateOneWrites(s1, last, id, version, now, reason);
      if last in s.reminders.data && MustInvalidate(s.reminders.data[last], id, version, now) {
        dropped := before + [last];
        MutationLinesGrow(before, last, reason);
        WritesBoth(s, s1, Invalidate(s, keys, id, version, now, reason), MutationLines(before, reason),
                   [("mutation", reason, ReminderSubject(last))]);
      } else {
        dropped := before;
        WritesBoth(s, s1, Invalidate(s, keys, id, version, now, reason), MutationLines(before, reason), []);
        assert MutationLines(before, reason) + [] == MutationLines(before, reason);
      }
    }
  }

  lemma NoMutationLines(reason: Reason)
    ensures MutationLines([], reason) == []
  {
  }

  lemma DedupeOrderIsTotal(cfg: Config, keys: seq<Key>)
    ensures TotalPreorderOn(DedupeOrder(cfg), keys)
  {
    forall x, y | x in keys && y in keys ensures DedupeOrder(cfg)(x, y) || DedupeOrder(cfg)(y, x) {
      LessTotal(cfg.dedupeText(x), cfg.dedupeText(y));
    }
    forall x, y, z | x in keys && y in keys && z in keys && DedupeOrder(cfg)(x, y) && DedupeOrder(cfg)(y, z)
        ensures DedupeOrder(cfg)(x, z) {
      LessOrEqualTransitive(cfg.dedupeText(x), cfg.dedupeText(y), cfg.dedupeText(z));
    }
  }

  /** Reminders belong to versions that exist, so a new version is above all of them. */
  lemma DroppedAreOlder(s: State, id: EventId, version: nat, now: Time, k: Key)
    requires Numbered(s) && k in s.reminders.data && version == (if id in s.versions then |s.versions[id]| else 0) + 1
    ensures MustInvalidate(s.reminders.data[k], id, version, now) <==> IsDropped(s.reminders.data[k], id, now)
  {
  }

  /** s1 is s with the version appended. */
  lemma InvalidationWrites(cfg: Config, s: State, s1: State, id: EventId, version: nat, now: Time, reason: Reason)
    returns (lines: seq<Line>)
    requires Numbered(s) && s1.reminders == s.reminders
    requires version == (if id in s.versions then |s.versions[id]| else 0) + 1
    ensures Writes(s1, Invalidate(s1, KeysInOrder(cfg, s1.reminders.keys), id, version, now, reason), lines)
    ensures DropLines(cfg, s, id, now, reason, lines)
  {
    var keys := KeysInOrder(cfg, s1.reminders.keys);
    DedupeOrderIsTotal(cfg, s1.reminders.keys);
    SortKeepsElements(s1.reminders.keys, DedupeOrder(cfg));
    SortSorts(s1.reminders.keys, DedupeOrder(cfg));
    SortDistinct(s1.reminders.keys, DedupeOrder(cfg));
    var dropped := InvalidateWrites(s1, keys, DedupeOrder(cfg), id, version, now, reason);
    lines := MutationLines(dropped, reason);
    forall k | k in s.reminders.data {
      DroppedAreOlder(s, id, version, now, k);
    }
    assert IsDropOrder(cfg, s, id, now, dropped);
  }

  /** One line for each person who has no time zone, as often as the audience names them. */
  ghost function UntimedLines(cfg: Config, targets: map<PersonId, Target>, e: Event, people: seq<PersonId>): seq<Line>
    decreases |people|
  {
    if people == [] then []
    else
      var p := people[|people| - 1];
      UntimedLines(cfg, targets, e, people[..|people| - 1])
      + if p in targets && targets[p].timezone.Some? then []
        else [("schedule", TzMissing, ReminderSubject(KeyIn(cfg, e, p)))]
  }

  lemma ScheduleOneWrites(cfg: Config, s: State, e: Event, p: PersonId)
    ensures ScheduleOne(cfg, s, e, p).targets == s.targets
    ensures Writes(s, ScheduleOne(cfg, s, e, p),
                   if p in s.targets && s.targets[p].timezone.Some? then []
                   else [("schedule", TzMissing, ReminderSubject(KeyIn(cfg, e, p)))])
  {
  }

  lemma {:induction false} ScheduleWrites(cfg: Config, s: State, e: Event, people: seq<PersonId>)
    ensures Schedule(cfg, s, e, people).targets == s.targets
    ensures Writes(s, Schedule(cfg, s, e, people), UntimedLines(cfg, s.targets, e, people))
    decreases |people|
  {
    hide Writes, ScheduleOne;
    if people == [] {
      WritesNothing(s, s);
    } else {
      var rest, p := people[..|people| - 1], people[|people| - 1];
      ScheduleWrites(cfg, s, e, rest);
      var s1 := Schedule(cfg, s, e, rest);
      ScheduleOneWrites(cfg, s1, e, p);
      WritesBoth(s, s1, Schedule(cfg, s, e, people), UntimedLines(cfg, s.targets, e, rest),
                 if p in s.targets && s.targets[p].timezone.Some? then []
                 else [("schedule", TzMissing, ReminderSubject(KeyIn(cfg, e, p)))]);
    }
  }

  function TimezoneLine(cfg: Config, i: Intent, existing: string): Line {
    ("timezone",
     if i.timezone.Some? && i.timezone.value != "" then TzExplicit
     else if existing != "" || cfg.householdTimezone != "" then TzHouseholdDefault else TzFallbackUsed,
     NoSubject)
  }

  /** The event whose newest version an intent revises. */
  ghost function Revises(cfg: Config, s: State, i: Intent): Option<EventId> {
    if i.action in {Update, Create} then ResolveEvent(cfg, s, i).0 else None
  }

  /** The log of a new version: what it drops, then who has no time zone. */
  ghost predicate Regenerates(cfg: Config, s: State, e: Event, now: Time, lines: seq<Line>) {
    exists drops ::
      DropLines(cfg, s, e.id, now, UpdatedRegenerated, drops)
      && lines == drops + UntimedLines(cfg, s.targets, e, e.audience)
  }

  /** What the mutation stage logs. */
  ghost predicate MutateLines(cfg: Config, s: State, i: Intent, now: Time, made: Option<Event>, lines: seq<Line>) {
    if i.action.Cancel? then
      if made.Some? then DropLines(cfg, s, made.value.id, now, CancelInvalidated, lines) else lines == []
    else
      var revised := Revises(cfg, s, i);
      var existing := if revised.Some? && HasLatest(s, revised.value) then Latest(s, revised.value).timezone else "";
      && lines != [] && lines[0] == TimezoneLine(cfg, i, existing)
      && if made.Some? then Regenerates(cfg, s, made.value, now, lines[1..]) else |lines| == 1
  }

  lemma CancelWrites(cfg: Config, s: State, id: EventId, now: Time) returns (lines: seq<Line>)
    requires Numbered(s) && id in s.versions
    ensures var (s', made) := CancelEvent(cfg, s, id, now);
            Writes(s, s', lines) && made.Made? && DropLines(cfg, s, made.event.id, now, CancelInvalidated, lines)
  {
    var e := Cancelled(Latest(s, id));
    var s1 := AppendVersion(s, e, Mutation(now, None, None));
    lines := InvalidationWrites(cfg, s, s1, id, e.version, now, CancelInvalidated);
    hide Numbered, Invalidate, DropLines, KeysInOrder;
    SameAudit(s, s1, CancelEvent(cfg, s, id, now).0, lines);
  }

  lemma SameAudit(s: State, s1: State, s': State, lines: seq<Line>)
    requires s1.audit == s.audit
    ensures Writes(s1, s', lines) ==> Writes(s, s', lines)
  {
  }

  lemma LogWrites(s: State, stage: string, reason: Reason, subject: Subject)
    ensures Writes(s, Log(s, stage, reason, subject), [(stage, reason, subject)])
  {
  }

  /** Where an update that succeeds stands before it invalidates and schedules. */
  ghost function Appended(cfg: Config, s: State, id: EventId, i: Intent, e: Event, now: Time): State
    requires HasLatest(s, id)
  {
    AppendVersion(Log(s, "timezone", ResolveTimezone(cfg, i, Latest(s, id).timezone).1, NoSubject), e,
                  ExplicitIn(i, e, now))
  }

  ghost function Regenerated(cfg: Config, s2: State, e: Event, now: Time): State {
    Schedule(cfg, Invalidate(s2, KeysInOrder(cfg, s2.reminders.keys), e.id, e.version, now, UpdatedRegenerated), e,
             e.audience)
  }

  lemma UpdateShape(cfg: Config, s: State, id: EventId, i: Intent, now: Time)
    requires HasLatest(s, id)
    ensures var (s', made) := UpdateEvent(cfg, s, id, i, now);
            if made.Made? then
              && made.event.id == id && made.event.version == Latest(s, id).version + 1
              && s' == Regenerated(cfg, Appended(cfg, s, id, i, made.event, now), made.event, now)
            else
              s' == Log(s, "timezone", ResolveTimezone(cfg, i, Latest(s, id).timezone).1, NoSubject)
  {
    hide Schedule, Invalidate, ResolveField, ResolveTimezone, SortPeople;
  }

  lemma UpdateWrites(cfg: Config, s: State, id: EventId, i: Intent, now: Time) returns (lines: seq<Line>)
    requires Numbered(s) && id in s.versions
    ensures HasLatest(s, id)
    ensures var (s', made) := UpdateEvent(cfg, s, id, i, now);
            && Writes(s, s', lines) && lines != [] && lines[0] == TimezoneLine(cfg, i, Latest(s, id).timezone)
            && (!made.Made? ==> |lines| == 1)
            && (made.Made? ==> made.event.id == id && Regenerates(cfg, s, made.event, now, lines[1..]))
  {
    UpdateShape(cfg, s, id, i, now);
    var line := TimezoneLine(cfg, i, Latest(s, id).timezone);
    var (s', made) := UpdateEvent(cfg, s, id, i, now);
    var s1 := Log(s, "timezone", ResolveTimezone(cfg, i, Latest(s, id).timezone).1, NoSubject);
    LogWrites(s, "timezone", ResolveTimezone(cfg, i, Latest(s, id).timezone).1, NoSubject);
    lines := [line];
    if made.Made? {
      var s2 := Appended(cfg, s, id, i, made.event, now);
      hide UpdateEvent, Writes, Regenerated, Regenerates;
      var more := RegenerateWrites(cfg, s, s2, made.event, now);
      SameAudit(s1, s2, s', more);
      WritesBoth(s, s1, s', [line], more);
      lines := [line] + more;
      assert lines[1..] == more;
    }
  }

  lemma RegenerateWrites(cfg: Config, s: State, s2: State, e: Event, now: Time) returns (lines: seq<Line>)
    requires Numbered(s) && s2.reminders == s.reminders && s2.targets == s.targets
    requires e.version == (if e.id in s.versions then |s.versions[e.id]| else 0) + 1
    ensures Writes(s2, Regenerated(cfg, s2, e, now), lines) && Regenerates(cfg, s, e, now, lines)
  {
    var s3 := Invalidate(s2, KeysInOrder(cfg, s2.reminders.keys), e.id, e.version, now, UpdatedRegenerated);
    var drops := InvalidationWrites(cfg, s, s2, e.id, e.version, now, UpdatedRegenerated);
    InvalidateAllEffect(cfg, s2, e.id, e.version, now, UpdatedRegenerated);
    ScheduleWrites(cfg, s3, e, e.audience);
    hide Writes, Numbered, DropLines, Filed;
    lines := drops + UntimedLines(cfg, s.targets, e, e.audience);
    WritesBoth(s2, s3, Schedule(cfg, s3, e, e.audience), drops, UntimedLines(cfg, s.targets, e, e.audience));
  }

  lemma CreateWrites(cfg: Config, s: State, i: Intent, now: Time) returns (lines: seq<Line>)
    requires Numbered(s)
    ensures var (s', made) := CreateEvent(cfg, s, i, now);
            && Writes(s, s', lines) && lines != [] && lines[0] == TimezoneLine(cfg, i, "")
            && (!made.Made? ==> |lines| == 1)
            && (made.Made? ==> Regenerates(cfg, s, made.event, now, lines[1..]))
  {
    var (tz, reason) := ResolveTimezone(cfg, i, []);
    var s1 := Log(s, "timezone", reason, NoSubject);
    var line := TimezoneLine(cfg, i, "");
    var (s', made) := CreateEvent(cfg, s, i, now);
    lines := [line];
    LogWrites(s, "timezone", reason, NoSubject);
    CreateShape(cfg, s, i, now);
    if made.Made? {
      NothingDropped(cfg, s, made.event.id, now);
    }
    hide Writes, ResolveField, SortPeople, DropLines, Numbered, CreateEvent;
    if made.Made? {
      var e := made.event;
      var s2 := Created(cfg, s, i, e, ExplicitIn(i, e, now));
      var more := UntimedLines(cfg, s.targets, e, e.audience);
      ScheduleWrites(cfg, s2, e, e.audience);
      SameAudit(s1, s2, s', more);
      WritesBoth(s, s1, s', [line], more);
      lines := [line] + more;
      assert lines[1..] == more == [] + more;
    } else {
      SameAuditAfter(s, s1, s', [line]);
    }
  }

  lemma SameAuditAfter(s: State, s1: State, s': State, lines: seq<Line>)
    requires s'.audit == s1.audit
    ensures Writes(s, s1, lines) ==> Writes(s, s', lines)
  {
  }

  lemma NothingDropped(cfg: Config, s: State, id: EventId, now: Time)
    requires Numbered(s) && id == s.counter + 1
    ensures DropLines(cfg, s, id, now, UpdatedRegenerated, [])
  {
    assert IsDropOrder(cfg, s, id, now, []);
    assert MutationLines([], UpdatedRegenerated) == [];
  }

  function MadeEvent(made: MutationOutcome): Option<Event> {
    if made.Made? then Some(made.event) else None
  }

  lemma MutateWrites(cfg: Config, s: State, i: Intent, now: Time) returns (lines: seq<Line>)
    requires Numbered(s)
    ensures var (s', made) := Mutate(cfg, s, i, ResolveEvent(cfg, s, i).0, now);
            Writes(s, s', lines) && MutateLines(cfg, s, i, now, MadeEvent(made), lines)
  {
    var resolved := ResolveEvent(cfg, s, i).0;
    ResolvedExists(cfg, s, i);
    hide Writes, DropLines, Regenerates, ResolveEvent, UpdateEvent, CreateEvent, CancelEvent;
    if i.action.Cancel? {
      lines := [];
      if resolved.Some? {
        lines := CancelWrites(cfg, s, resolved.value, now);
      } else {
        WritesNothing(s, s);
      }
    } else if resolved.Some? && i.action in {Update, Create} {
      lines := UpdateWrites(cfg, s, resolved.value, i, now);
    } else {
      lines := CreateWrites(cfg, s, i, now);
    }
  }

  /** What a fresh intent logs: the intake, then the resolution unless fields are missing, then
      that it is not confirmed, or what the mutation stage logs, and a refused destination. */
  ghost predicate FreshLines(cfg: Config, s: State, s': State, i: Intent, now: Time, outcome: Outcome, lines: seq<Line>)
  {
    var (resolved, code) := ResolveEvent(cfg, s, i);
    && lines != [] && lines[0] == ("intake", ResolverNoMatch, NoSubject)
    && if MissingFields(i) != [] then |lines| == 1
       else
         && |lines| >= 2 && lines[1] == ("resolver", code, EventSubject(resolved))
         && if code.ResolverAmbiguous? then |lines| == 2
            else if !i.confirmed then lines[2..] == [("confirmation", BlockedConfirmationRequired, NoSubject)]
            else MutationLog(cfg, s, s', i, now, outcome, lines[2..])
  }

  ghost predicate MutationLog(cfg: Config, s: State, s': State, i: Intent, now: Time, outcome: Outcome,
                              lines: seq<Line>)
  {
    match outcome
    case Raised => MutateLines(cfg, s, i, now, None, lines)
    case Returned(Mutated(id, _, _)) => HasLatest(s', id) && MutateLines(cfg, s, i, now, Some(Latest(s', id)), lines)
    case Returned(_) =>
      && lines != [] && lines[|lines| - 1] == ("mutation", FailedConfigInvalidTarget, NoSubject)
      && MutateLines(cfg, s, i, now, None, lines[..|lines| - 1])
  }

  ghost predicate IsAnswered(cfg: Config, s: State, i: Intent, now: Time) {
    i.key in s.receipts.data || FindRecent(s.receipts, IntentHash(i), now, cfg.windowHours).Some?
  }

  lemma EarlyWrites(cfg: Config, s: State, raw: Intent, now: Time) returns (lines: seq<Line>)
    requires LiftIntent(raw).Accepted? && Reached(cfg, s, raw, now).None?
    requires !IsAnswered(cfg, s, LiftIntent(raw).value, now)
    ensures var (s', outcome) := ProcessIntent(cfg, s, raw, now);
            Writes(s, s', lines) && FreshLines(cfg, s, s', LiftIntent(raw).value, now, outcome, lines)
  {
    var i := LiftIntent(raw).value;
    var s1 := Log(s, "intake", ResolverNoMatch, NoSubject);
    var (resolved, code) := ResolveEvent(cfg, s, i);
    assert ResolveEvent(cfg, s1, i) == (resolved, code);
    LogWrites(s, "intake", ResolverNoMatch, NoSubject);
    BeforeWrites(cfg, s, i);
    hide FindRecent, MissingFields, ResolveEvent, Mutate, MutationLog, Writes;
    var s' := ProcessIntent(cfg, s, raw, now).0;
    lines := [("intake", ResolverNoMatch, NoSubject)];
    if MissingFields(i) != [] {
      SameAuditAfter(s, s1, s', lines);
    } else {
      var s2 := BeforeMutation(cfg, s, i);
      lines := lines + [("resolver", code, EventSubject(resolved))];
      if code.ResolverAmbiguous? {
        SameAuditAfter(s, s2, s', lines);
      } else {
        var last := [("confirmation", BlockedConfirmationRequired, NoSubject)];
        var s3 := Log(s2, "confirmation", BlockedConfirmationRequired, NoSubject);
        LogWrites(s2, "confirmation", BlockedConfirmationRequired, NoSubject);
        WritesBoth(s, s2, s3, lines, last);
        lines := lines + last;
        SameAuditAfter(s, s3, s', lines);
      }
    }
  }

  function ResolverLines(cfg: Config, s: State, i: Intent): seq<Line> {
    [("intake", ResolverNoMatch, NoSubject),
     ("resolver", ResolveEvent(cfg, s, i).1, EventSubject(ResolveEvent(cfg, s, i).0))]
  }

  lemma BeforeWrites(cfg: Config, s: State, i: Intent)
    ensures Writes(s, BeforeMutation(cfg, s, i), ResolverLines(cfg, s, i))
  {
    hide ResolveEvent;
  }

  lemma MutateLinesBefore(cfg: Config, s: State, i: Intent, now: Time, made: Option<Event>, lines: seq<Line>)
    requires MutateLines(cfg, BeforeMutation(cfg, s, i), i, now, made, lines)
    ensures MutateLines(cfg, s, i, now, made, lines)
  {
    assert ResolveEvent(cfg, BeforeMutation(cfg, s, i), i) == ResolveEvent(cfg, s, i);
    forall id, reason, x | DropLines(cfg, BeforeMutation(cfg, s, i), id, now, reason, x)
      ensures DropLines(cfg, s, id, now, reason, x)
    {
      var keys :| IsDropOrder(cfg, BeforeMutation(cfg, s, i), id, now, keys) && x == MutationLines(keys, reason);
      assert IsDropOrder(cfg, s, id, now, keys);
    }
    hide ResolveEvent, DropLines, UntimedLines;
  }

  lemma StageWrites(cfg: Config, s: State, i: Intent, now: Time) returns (more: seq<Line>)
    requires Numbered(s)
    ensures var s2 := BeforeMutation(cfg, s, i);
            var (s3, made) := Mutate(cfg, s2, i, ResolveEvent(cfg, s2, i).0, now);
            && Writes(s, s3, ResolverLines(cfg, s, i) + more)
            && MutateLines(cfg, s, i, now, MadeEvent(made), more)
            && (made.Made? ==> HasLatest(s3, made.event.id) && Latest(s3, made.event.id) == made.event)
  {
    var s2 := BeforeMutation(cfg, s, i);
    NumberedBeforeMutation(cfg, s, i);
    BeforeWrites(cfg, s, i);
    more := MutateWrites(cfg, s2, i, now);
    var (s3, made) := Mutate(cfg, s2, i, ResolveEvent(cfg, s2, i).0, now);
    MutateLinesBefore(cfg, s, i, now, MadeEvent(made), more);
    var m := MutateEffect(cfg, s2, i, now);
    hide Writes, ResolveEvent, Mutate, MutateLines, Numbered, BeforeMutation, InvalidatingAll, Scheduling;
    WritesBoth(s, s2, s3, ResolverLines(cfg, s, i), more);
  }

  /** How an intent ends after the mutation stage, and what that adds to the stage's lines. */
  lemma EndWrites(cfg: Config, s: State, s3: State, i: Intent, now: Time, made: MutationOutcome, code: Reason,
                  resolved: Option<EventId>, more: seq<Line>, s': State, outcome: Outcome)
    returns (lines: seq<Line>)
    requires Writes(s, s3, ResolverLines(cfg, s, i) + more) && MutateLines(cfg, s, i, now, MadeEvent(made), more)
    requires made.Made? ==> HasLatest(s3, made.event.id) && Latest(s3, made.event.id) == made.event
    requires (s', outcome) ==
             match made
             case Made(e) => SaveReceipt(s3, i.key, IntentHash(i), Mutated(e.id, e.version, code), now)
             case BadDestination =>
               SaveReceipt(Log(s3, "mutation", FailedConfigInvalidTarget, NoSubject), i.key, IntentHash(i),
                           BlockedDestination(resolved), now)
             case Exception => (s3, Raised)
    ensures Writes(s, s', ResolverLines(cfg, s, i) + lines) && MutationLog(cfg, s, s', i, now, outcome, lines)
  {
    hide Writes, MutateLines, ResolverLines, IntentHash;
    lines := more;
    if made.BadDestination? {
      var last := [("mutation", FailedConfigInvalidTarget, NoSubject)];
      lines := more + last;
      RefusalIsLogged(s, s3, s', ResolverLines(cfg, s, i) + more);
      assert ResolverLines(cfg, s, i) + more + last == ResolverLines(cfg, s, i) + lines;
      assert lines[..|lines| - 1] == more;
    } else {
      SameAuditAfter(s, s3, s', ResolverLines(cfg, s, i) + lines);
    }
  }

  lemma LinesAreFresh(cfg: Config, s: State, s': State, i: Intent, now: Time, outcome: Outcome, more: seq<Line>)
    requires MissingFields(i) == [] && !ResolveEvent(cfg, s, i).1.ResolverAmbiguous? && i.confirmed
    requires MutationLog(cfg, s, s', i, now, outcome, more)
    ensures FreshLines(cfg, s, s', i, now, outcome, ResolverLines(cfg, s, i) + more)
  {
    hide MissingFields, ResolveEvent, MutationLog;
    assert (ResolverLines(cfg, s, i) + more)[2..] == more;
  }

  lemma ReachedWrites(cfg: Config, s: State, raw: Intent, now: Time) returns (lines: seq<Line>)
    requires Numbered(s) && Reached(cfg, s, raw, now).Some?
    ensures var (s', outcome) := ProcessIntent(cfg, s, raw, now);
            Writes(s, s', lines) && FreshLines(cfg, s, s', LiftIntent(raw).value, now, outcome, lines)
  {
    hide Writes, ResolveEvent, Mutate, ProcessIntent, MutateLines, MutationLog, FreshLines, Numbered, BeforeMutation,
      MissingFields, FindRecent, ResolverLines, HasLatest, Latest;
    var i := LiftIntent(raw).value;
    var s2 := BeforeMutation(cfg, s, i);
    var more := StageWrites(cfg, s, i, now);
    ReachedMutates(cfg, s, raw, now);
    var (resolved, code) := ResolveEvent(cfg, s2, i);
    var (s3, made) := Mutate(cfg, s2, i, resolved, now);
    var (s', outcome) := ProcessIntent(cfg, s, raw, now);
    var rest := EndWrites(cfg, s, s3, i, now, made, code, resolved, more, s', outcome);
    LinesAreFresh(cfg, s, s', i, now, outcome, rest);
    lines := ResolverLines(cfg, s, i) + rest;
  }

  lemma RefusalIsLogged(s: State, s3: State, s': State, lines: seq<Line>)
    requires s'.audit == Log(s3, "mutation", FailedConfigInvalidTarget, NoSubject).audit
    ensures Writes(s, s3, lines) ==> Writes(s, s', lines + [("mutation", FailedConfigInvalidTarget, NoSubject)])
  {
  }

  /** What an intent adds to the log of any reachable state: nothing when it is malformed or
      answered already; else its own lines, and for a new version one for each reminder it
      invalidates and each person without a time zone. */
  lemma IntakeLog(cfg: Config, ops: seq<Op>, raw: Intent, now: Time) returns (lines: seq<Line>)
    ensures var s := After(cfg, ops);
            var (s', outcome) := ProcessIntent(cfg, s, raw, now);
            && Writes(s, s', lines)
            && match LiftIntent(raw)
               case Rejected => lines == []
               case Accepted(i) =>
                 if IsAnswered(cfg, s, i, now) then lines == [] else FreshLines(cfg, s, s', i, now, outcome, lines)
  {
    ReachableInvariants(cfg, ops);
    var s := After(cfg, ops);
    lines := [];
    if Reached(cfg, s, raw, now).Some? {
      lines := ReachedWrites(cfg, s, raw, now);
    } else if LiftIntent(raw).Accepted? && !IsAnswered(cfg, s, LiftIntent(raw).value, now) {
      lines := EarlyWrites(cfg, s, raw, now);
    } else {
      WritesNothing(s, ProcessIntent(cfg, s, raw, now).0);
    }
  }

  // ---------- Every call ----------

  lemma StepWrites(cfg: Config, ops: seq<Op>, op: Op) returns (lines: seq<Line>)
    ensures Writes(After(cfg, ops), Step(cfg, After(cfg, ops), op), lines)
  {
    var s := After(cfg, ops);
    hide Writes, ProcessIntent, Deliver, Reconcile;
    lines := [];
    match op
    case Intake(i, now) => lines := IntakeLog(cfg, ops, i, now);
    case DeliverDue(now, provider) =>
      DeliveryLog(cfg, ops, now, provider);
      var report := Deliver(cfg, s, now, provider).1;
      lines := if s.mode == "capture_only" then [("delivery", CaptureOnlyBlocked, NoSubject)]
      else if report.Attempts? then PassLines(report.outcomes) else [];
    case ReconcileDue(now, n) =>
      ReconcileLog(cfg, ops, now, n);
      var due := DueKeys(cfg, s.reminders, now);
      lines := if s.mode == "capture_only" then [("recovery", CaptureOnlyBlocked, NoSubject)]
      else RecoveryLines(s, if |due| <= n then due else due[..n], now);
    case _ => WritesNothing(s, Step(cfg, s, op));
  }

  ghost predicate IsNumbered(audit: seq<AuditRecord>) {
    forall n | 0 <= n < |audit| :: audit[n].index == n + 1
  }

  lemma WritesNumbered(s: State, s': State, lines: seq<Line>)
    requires Writes(s, s', lines) && IsNumbered(s.audit)
    ensures IsNumbered(s'.audit) && s.audit <= s'.audit
  {
  }

  lemma {:induction false} LogGrows(cfg: Config, ops: seq<Op>, more: seq<Op>)
    requires IsNumbered(After(cfg, ops).audit)
    ensures IsNumbered(After(cfg, ops + more).audit) && After(cfg, ops).audit <= After(cfg, ops + more).audit
    decreases |more|
  {
    hide IsNumbered, Writes, Step;
    if more == [] {
      assert ops + more == ops;
    } else {
      var rest, last := more[..|more| - 1], more[|more| - 1];
      LogGrows(cfg, ops, rest);
      var all := ops + more;
      assert all[..|all| - 1] == ops + rest && all[|all| - 1] == last;
      var lines := StepWrites(cfg, ops + rest, last);
      WritesNumbered(After(cfg, ops + rest), After(cfg, all), lines);
    }
  }

  /** Whatever the calls, the log is numbered from one and nothing in it ever changes. */
  lemma LogIsNumbered(cfg: Config, ops: seq<Op>, more: seq<Op>)
    ensures forall n | 0 <= n < |After(cfg, ops).audit| :: After(cfg, ops).audit[n].index == n + 1
    ensures After(cfg, ops).audit <= After(cfg, ops + more).audit
  {
    LogGrows(cfg, [], ops);
    assert [] + ops == ops;
    LogGrows(cfg, ops, more);
  }
}
