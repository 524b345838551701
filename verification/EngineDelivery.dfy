/** What one delivery pass does to each reminder, whatever else is in the batch, and when
    quiet hours hold a reminder back. */
module EngineDelivery {
  import opened Text
  import opened Sorting
  import opened Engine
  import opened EngineEffects
  import opened EngineTables
  import opened EngineLedger
  import opened EngineTheorems

  // ---------- Quiet hours ----------

  /** The length of the quiet period: the hours from start forward to end, and a whole day
      when both are the same. */
  function QuietSpan(start: int, end: int): int {
    if start == end then 24 else (end - start) % 24
  }

  predicate IsHour(h: int) {
    0 <= h < 24
  }

  /** The hour h lies on the clock from start forward to end. */
  predicate IsBetween(h: int, start: int, end: int) {
    (h - start) % 24 < QuietSpan(start, end)
  }

  predicate OnClock(x: int) {
    0 <= x <= 24 || x % 24 == 0
  }

  /** No hour of the day is quiet. */
  predicate NeverQuiet(start: int, end: int) {
    if start < end then end <= 0 || start >= 24 else start >= 24 && end <= 0
  }

  /** Every hour of the day is quiet. */
  predicate AlwaysQuiet(start: int, end: int) {
    if start < end then start <= 0 && end >= 24 else start <= 0 || end >= 24 || start == end
  }

  predicate Wraps(start: int, end: int) {
    || start == end
    || (if NeverQuiet(start, end) then start % 24 == end % 24
        else !AlwaysQuiet(start, end) && OnClock(start) && OnClock(end))
  }

  lemma AroundTheClock(a: int, b: int)
    ensures var (x, y) := (a % 24, b % 24);
            IsHour(x) && IsHour(y) && (a - b) % 24 == (if x >= y then x - y else x - y + 24)
  {
  }

  lemma ClockHour(h: int, start: int, end: int)
    requires IsHour(h)
    ensures var (s, e) := (start % 24, end % 24);
            IsBetween(h, start, end) <==> (start == end || (if s <= e then s <= h < e else h >= s || h < e))
  {
    AroundTheClock(h, start);
    AroundTheClock(end, start);
  }

  ghost predicate WrapsAt(h: int, start: int, end: int) {
    IsHour(h) ==> (IsQuietHour(h, start, end) <==> IsBetween(h, start, end))
  }

  lemma WrapsIf(h: int, start: int, end: int)
    requires Wraps(start, end)
    ensures WrapsAt(h, start, end)
  {
    if IsHour(h) {
      ClockHour(h, start, end);
    }
  }

  /** Some hour is quiet, unless none is, and some is not, unless all are. */
  lemma SomeHours(start: int, end: int) returns (quiet: int, loud: int)
    ensures !NeverQuiet(start, end) ==> IsHour(quiet) && IsQuietHour(quiet, start, end)
    ensures !AlwaysQuiet(start, end) ==> IsHour(loud) && !IsQuietHour(loud, start, end)
    ensures forall h | IsHour(h) :: (NeverQuiet(start, end) ==> !IsQuietHour(h, start, end))
                                    && (AlwaysQuiet(start, end) ==> IsQuietHour(h, start, end))
  {
    quiet := if 0 <= start < 24 then start else 0;
    loud := if 0 <= end < 24 then end else if start > 0 then 0 else 23;
  }

  lemma HourBefore(x: int)
    requires x % 24 != 0
    ensures IsHour(x % 24) && IsHour(x % 24 - 1)
  {
  }

  /** A start that is off the clock opens no quiet period, but the clock has one open there. */
  lemma StartDiffers(start: int, end: int) returns (h: int)
    requires !OnClock(start) && start % 24 != end % 24 && !NeverQuiet(start, end) && !AlwaysQuiet(start, end)
    ensures IsHour(h) && !WrapsAt(h, start, end)
  {
    var s := start % 24;
    HourBefore(start);
    ClockHour(s, start, end);
    ClockHour(s - 1, start, end);
    assert IsBetween(s, start, end) && !IsBetween(s - 1, start, end);
    assert IsQuietHour(s, start, end) ==> IsQuietHour(s - 1, start, end) by {
      hide IsBetween, QuietSpan;
    }
    h := if IsQuietHour(s, start, end) then s - 1 else s;
  }

  /** Nor does an end that is off the clock close one. */
  lemma EndDiffers(start: int, end: int) returns (h: int)
    requires !OnClock(end) && start % 24 != end % 24 && !NeverQuiet(start, end) && !AlwaysQuiet(start, end)
    ensures IsHour(h) && !WrapsAt(h, start, end)
  {
    var e := end % 24;
    HourBefore(end);
    ClockHour(e, start, end);
    ClockHour(e - 1, start, end);
    assert !IsBetween(e, start, end) && IsBetween(e - 1, start, end);
    assert IsQuietHour(e - 1, start, end) ==> IsQuietHour(e, start, end) by {
      hide IsBetween, QuietSpan;
    }
    h := if IsQuietHour(e, start, end) then e else e - 1;
  }

  lemma WrapsOnlyIf(start: int, end: int) returns (h: int)
    requires !Wraps(start, end)
    ensures IsHour(h) && !WrapsAt(h, start, end)
  {
    var quiet, loud := SomeHours(start, end);
    var s, e := start % 24, end % 24;
    ClockHour(s, start, end);
    ClockHour(e, start, end);
    if NeverQuiet(start, end) {
      h := s;
    } else if s == e {
      h := quiet;
      ClockHour(h, start, end);
    } else if AlwaysQuiet(start, end) {
      h := e;
    } else if OnClock(start) {
      h := EndDiffers(start, end);
    } else {
      h := StartDiffers(start, end);
    }
  }

  /** Exactly when the stored hours, which nothing checks, mean the hours on the clock from
      start forward to end, past midnight if need be: for every hour of the day. */
  lemma QuietHoursWrap(start: int, end: int)
    ensures (forall h :: WrapsAt(h, start, end)) <==> Wraps(start, end)
    ensures IsHour(start) && IsHour(end) ==> Wraps(start, end)
  {
    if Wraps(start, end) {
      forall h ensures WrapsAt(h, start, end) {
        WrapsIf(h, start, end);
      }
    } else {
      var h := WrapsOnlyIf(start, end);
    }
  }

  /** Whatever start and end are, quietness changes from one hour to the next exactly when the
      next is one of them and not both. */
  lemma QuietChangesAtEnds(hour: int, start: int, end: int)
    ensures (IsQuietHour(hour, start, end) <==> IsQuietHour(hour + 1, start, end)) <==>
              (hour + 1 == start <==> hour + 1 == end)
  {
  }

  /** From 22 to 30 is not quiet at two in the morning; from 22 to 24 and to 48 wrap as they should. */
  lemma SomeEndsBeyondMidnightWrap()
    ensures !Wraps(22, 30) && !IsQuietHour(2, 22, 30) && IsBetween(2, 22, 30) && IsQuietHour(2, 22, 6)
    ensures Wraps(22, 24) && Wraps(22, 48)
  {
  }

  // ---------- One pass ----------

  /** What stands between a due reminder and the provider. */
  datatype Obstacle = NoTimezone | QuietHours | Clear

  function ObstacleFor(cfg: Config, targets: map<PersonId, Target>, person: PersonId, now: Time): Obstacle {
    if person !in targets || targets[person].timezone.None? then NoTimezone
    else
      var t := targets[person];
      if IsQuietHour(cfg.localHour(now, t.timezone.value), t.quietStart, t.quietEnd) then QuietHours else Clear
  }

  /** A reference that is evidence of transport: neither blank, nor a placeholder, nor made of
      the reminder's own texts, whatever the case of its letters. */
  predicate IsEvidence(ref: Option<string>, idText: string, dedupeText: string) {
    && ref.Some?
    && var t := Lower(Strip(ref.value));
       && t !in {"", "none", "null", "n/a", "na", "placeholder", "synthetic", Lower(idText), Lower(dedupeText)}
       && !("att-" <= t) && !("rcpt:att-" <= t)
  }

  lemma LowerKeepsPrefix(prefix: string, rest: string)
    requires Lower(prefix) == prefix
    ensures prefix <= Lower(prefix + rest)
  {
    assert forall i | 0 <= i < |prefix| :: Lower(prefix + rest)[i] == Lower(prefix)[i];
  }

  /** The engine's list of attempt texts adds nothing to its test of their prefixes. */
  lemma EvidenceIsExact(ref: Option<string>, idText: string, dedupeText: string)
    ensures HasTransportRef(ref, idText, dedupeText) <==> IsEvidence(ref, idText, dedupeText)
  {
    LowerKeepsPrefix("att-", idText);
    LowerKeepsPrefix("rcpt:att-", idText);
  }

  predicate IsGiven(text: Option<string>) {
    text.Some? && |text.value| > 0
  }

  /** The row that a successful reply to attempt n leaves. */
  ghost predicate DeliveredWith(cfg: Config, k: Key, ref: Option<string>, code: Option<string>, acceptOnly: bool,
                                confidence: Option<string>, row: Attempt)
  {
    && row.status == DeliveredRow && row.reason == DeliveredSuccess && row.errorText.None?
    && row.statusCode == Some(if IsGiven(code) then code.value else "ok")
    && (if IsEvidence(ref, cfg.reminderIdText(k), cfg.dedupeText(k))
        then row.providerRef == ref && row.acceptOnly == acceptOnly
        else row.providerRef == Some(cfg.dedupeText(k)) && row.acceptOnly)
    && row.confidence == if IsGiven(confidence) && confidence.value != "none" then confidence.value
                         else if IsEvidence(ref, cfg.reminderIdText(k), cfg.dedupeText(k)) then "provider_confirmed"
                         else "provider_accepted"
  }

  /** The row that a refusal of attempt n leaves: the last one when n is beyond either limit. */
  ghost predicate RefusedWith(exhausted: bool, ref: Option<string>, code: Option<string>, error: Option<string>,
                              row: Attempt)
  {
    && row.status == FailedRow && row.reason == (if exhausted then FailedRetryExhausted else FailedProviderTransient)
    && row.providerRef == ref && !row.acceptOnly && row.confidence == "none"
    && row.errorText == Some(if IsGiven(error) then error.value else "provider transient failure")
    && row.statusCode == Some(if IsGiven(code) then code.value
                              else if exhausted then "retry_exhausted" else "transient")
  }

  ghost predicate IsExhausted(cfg: Config, n: nat) {
    n > cfg.maxRetries || n > cfg.storeRetryLimit
  }

  ghost predicate RowOfReply(cfg: Config, k: Key, n: nat, now: Time, answer: ProviderResult, row: Attempt) {
    && row.reminder == k && row.index == n && row.at == now
    && match answer
       case Bare(ok) =>
         if ok then DeliveredWith(cfg, k, None, None, false, None, row)
         else RefusedWith(IsExhausted(cfg, n), None, None, None, row)
       case Detailed(ok, ref, code, error, acceptOnly, confidence) =>
         if ok then DeliveredWith(cfg, k, ref, code, acceptOnly, confidence, row)
         else RefusedWith(IsExhausted(cfg, n), ref, code, error, row)
  }

  lemma ReplyLeavesRow(cfg: Config, r: Reminder, now: Time, answer: ProviderResult)
    ensures RowOfReply(cfg, r.dedupeKey, r.attempts, now, answer, AfterReply(cfg, r, now, Unpack(answer)).1)
  {
    var k := r.dedupeKey;
    EvidenceIsExact(Unpack(answer).providerRef, cfg.reminderIdText(k), cfg.dedupeText(k));
    hide HasTransportRef;
    hide IsEvidence;
    assert HasTransportRef(None, cfg.reminderIdText(k), cfg.dedupeText(k)) ==
           IsEvidence(None, cfg.reminderIdText(k), cfg.dedupeText(k)) by {
      EvidenceIsExact(None, cfg.reminderIdText(k), cfg.dedupeText(k));
    }
  }

  /** The ledger rows and the provider calls that a pass leaves for one reminder. */
  datatype Trace = Trace(rows: seq<Attempt>, calls: seq<Call>)

  const UNTRACED := Trace([], [])

  ghost function SetAsideRow(r: Reminder, now: Time, status: AttemptStatus, reason: Reason, text: string): Attempt {
    Attempt(r.dedupeKey, r.attempts + 1, now, status, reason, None, None, Some(text), false, "none")
  }

  /** A due reminder after the pass, its new ledger row and the provider calls made for it:
      blocked without a time zone, suppressed in quiet hours, else sent once and delivered,
      failed beyond either limit, or retried after the delay. */
  ghost predicate Handled(cfg: Config, targets: map<PersonId, Target>, r: Reminder, now: Time,
                          provider: Provider, r': Reminder, done: Trace)
  {
    && |done.rows| == 1
    && var row := done.rows[0];
       match ObstacleFor(cfg, targets, r.recipient, now)
       case NoTimezone =>
         && r' == r.(status := Blocked) && done.calls == []
         && row == SetAsideRow(r, now, BlockedRow, TzMissing, "timezone missing")
       case QuietHours =>
         && r' == r.(status := Suppressed) && done.calls == []
         && row == SetAsideRow(r, now, SuppressedRow, SuppressedQuietHours, "quiet_hours")
       case Clear =>
         var n := r.attempts + 1;
         var answer := provider(r.(status := Attempted, attempts := n));
         && done.calls == [Call(r.dedupeKey, answer.ok)] && RowOfReply(cfg, r.dedupeKey, n, now, answer, row)
         && (if answer.ok then r' == r.(status := Delivered, attempts := n)
             else if IsExhausted(cfg, n) then r' == r.(status := Failed, attempts := n)
             else r' == r.(status := Attempted, attempts := n, next := Some(now + cfg.retryDelayMinutes * 60_000_000)))
  }

  lemma ReplyHandles(cfg: Config, targets: map<PersonId, Target>, r: Reminder, now: Time, provider: Provider)
    requires ObstacleFor(cfg, targets, r.recipient, now).Clear?
    ensures var p := Unpack(provider(Counted(r)));
            var (r2, row) := AfterReply(cfg, Counted(r), now, p);
            Handled(cfg, targets, r, now, provider, r2, Trace([row], [Call(r.dedupeKey, p.ok)]))
  {
    ReplyLeavesRow(cfg, Counted(r), now, provider(Counted(r)));
    hide RowOfReply, HasTransportRef;
  }

  /** s' is s with reminder k handled and nothing else of reminders, rows and calls changed. */
  ghost predicate HandledOne(cfg: Config, s: State, s': State, k: Key, now: Time, provider: Provider, done: Trace)
    requires k in s.reminders.data
  {
    && s'.targets == s.targets && k in s'.reminders.data
    && Handled(cfg, s.targets, s.reminders.data[k], now, provider, s'.reminders.data[k], done)
    && (forall x | x in s.reminders.data && x != k ::
          x in s'.reminders.data && s'.reminders.data[x] == s.reminders.data[x])
    && (forall x :: CallsFor(s'.calls, x) == CallsFor(s.calls, x) + (if x == k then done.calls else []))
    && (forall x :: RowsFor(s'.attempts, x) == RowsFor(s.attempts, x) + (if x == k then done.rows else []))
  }

  lemma RecordedHandles(cfg: Config, s: State, s': State, k: Key, now: Time, provider: Provider, r: Reminder,
                        row: Attempt, calls: seq<Call>)
    requires Filed(s.reminders) && k in s.reminders.data && Recorded(s, s', k, r, row, calls)
    ensures Handled(cfg, s.targets, s.reminders.data[k], now, provider, r, Trace([row], calls)) ==>
              HandledOne(cfg, s, s', k, now, provider, Trace([row], calls))
  {
    hide Handled;
    forall x
      ensures CallsFor(s'.calls, x) == CallsFor(s.calls, x) + (if x == k then calls else [])
      ensures RowsFor(s'.attempts, x) == RowsFor(s.attempts, x) + (if x == k then [row] else [])
    {
      RecordedHistory(s, s', k, r, row, calls, x);
    }
  }

  lemma SetAsideHandles(cfg: Config, s: State, k: Key, now: Time, provider: Provider, status: Status,
                        rowStatus: AttemptStatus, reason: Reason, text: string)
    returns (done: Trace)
    requires Filed(s.reminders) && k in s.reminders.data && !status.Delivered?
    ensures done == Trace([SetAsideRow(s.reminders.data[k], now, rowStatus, reason, text)], [])
    ensures var r := s.reminders.data[k];
            Handled(cfg, s.targets, r, now, provider, r.(status := status), done) ==>
              HandledOne(cfg, s, SetAside(s, r, now, status, rowStatus, reason, text), k, now, provider, done)
  {
    hide Handled, HandledOne;
    var r, row := SetAsideRecords(s, k, now, status, rowStatus, reason, text);
    done := Trace([row], []);
    RecordedHandles(cfg, s, SetAside(s, s.reminders.data[k], now, status, rowStatus, reason, text), k, now, provider,
                    r, row, []);
  }

  lemma CallHandles(cfg: Config, s: State, k: Key, now: Time, provider: Provider) returns (done: Trace)
    requires Filed(s.reminders) && k in s.reminders.data && k !in s.visible
    requires ObstacleFor(cfg, s.targets, s.reminders.data[k].recipient, now).Clear?
    ensures HandledOne(cfg, s, CallProvider(cfg, s, k, now, provider).0, k, now, provider, done) && |done.rows| == 1
    ensures CallProvider(cfg, s, k, now, provider).1 == Some(done.rows[0].reason)
  {
    hide Handled, HandledOne, AfterReply;
    var s', p, r, row := CallProviderRecords(cfg, s, k, now, provider);
    done := Trace([row], [Call(k, p.ok)]);
    ReplyHandles(cfg, s.targets, s.reminders.data[k], now, provider);
    RecordedHandles(cfg, s, s', k, now, provider, r, row, [Call(k, p.ok)]);
  }

  lemma DeliverOneHandles(cfg: Config, s: State, k: Key, now: Time, provider: Provider)
    returns (s': State, done: Trace)
    requires Ledger(cfg, s) && k in s.reminders.data && IsDue(s.reminders.data[k], now)
    ensures s' == DeliverOne(cfg, s, k, now, provider).0 && |done.rows| == 1
    ensures HandledOne(cfg, s, s', k, now, provider, done)
    ensures DeliverOne(cfg, s, k, now, provider).1 == Some(done.rows[0].reason)
  {
    hide HandledOne, RowOfReply, SetAside, CallProvider;
    s' := DeliverOne(cfg, s, k, now, provider).0;
    var r := s.reminders.data[k];
    match ObstacleFor(cfg, s.targets, r.recipient, now)
    case NoTimezone =>
      done := SetAsideHandles(cfg, s, k, now, provider, Blocked, BlockedRow, TzMissing, "timezone missing");
    case QuietHours =>
      done := SetAsideHandles(cfg, s, k, now, provider, Suppressed, SuppressedRow, SuppressedQuietHours, "quiet_hours");
    case Clear => done := CallHandles(cfg, s, k, now, provider);
  }

  /** Reminder x between s and s', when the reminders under keys were delivered in between. */
  ghost predicate HandledAmong(cfg: Config, s: State, s': State, keys: seq<Key>, now: Time, provider: Provider,
                               x: Key, done: Trace)
    requires x in s.reminders.data
  {
    && x in s'.reminders.data && CallsFor(s'.calls, x) == CallsFor(s.calls, x) + done.calls
    && RowsFor(s'.attempts, x) == RowsFor(s.attempts, x) + done.rows
    && (if x in keys then Handled(cfg, s.targets, s.reminders.data[x], now, provider, s'.reminders.data[x], done)
        else s'.reminders.data[x] == s.reminders.data[x] && done == UNTRACED)
  }

  lemma OneMoreHandled(cfg: Config, s: State, s1: State, s2: State, rest: seq<Key>, last: Key, now: Time,
                       provider: Provider, x: Key, before: Trace, here: Trace)
    requires x in s.reminders.data && last in s1.reminders.data && last !in rest && s1.targets == s.targets
    ensures HandledAmong(cfg, s, s1, rest, now, provider, x, before)
            && HandledOne(cfg, s1, s2, last, now, provider, here) ==>
              HandledAmong(cfg, s, s2, rest + [last], now, provider, x, if x == last then here else before)
  {
    hide Handled;
    assert x in rest + [last] <==> x in rest || x == last;
    assert HandledOne(cfg, s1, s2, last, now, provider, here) ==>
        && CallsFor(s2.calls, x) == CallsFor(s1.calls, x) + (if x == last then here.calls else [])
        && RowsFor(s2.attempts, x) == RowsFor(s1.attempts, x) + (if x == last then here.rows else []);
  }

  lemma LastHandled(cfg: Config, s: State, rest: seq<Key>, last: Key, now: Time, provider: Provider, x: Key,
                    before: Trace)
    returns (s': State, done: Trace)
    requires Ready(cfg, s, rest + [last], now) && x in s.reminders.data
    requires HandledAmong(cfg, s, DeliverAll(cfg, s, rest, now, provider).0, rest, now, provider, x, before)
    ensures s' == DeliverOne(cfg, DeliverAll(cfg, s, rest, now, provider).0, last, now, provider).0
    ensures HandledAmong(cfg, s, s', rest + [last], now, provider, x, done)
  {
    hide HandledAmong, HandledOne, Handled;
    var s1 := ReadyForLast(cfg, s, rest, last, now, provider);
    var s2, here := DeliverOneHandles(cfg, s1, last, now, provider);
    OneMoreHandled(cfg, s, s1, s2, rest, last, now, provider, x, before, here);
    s', done := s2, if x == last then here else before;
  }

  lemma {:induction false} DeliverAllHandles(cfg: Config, s: State, keys: seq<Key>, now: Time, provider: Provider,
                                             x: Key)
    returns (s': State, done: Trace)
    requires Ready(cfg, s, keys, now) && x in s.reminders.data
    ensures s' == DeliverAll(cfg, s, keys, now, provider).0
    ensures HandledAmong(cfg, s, s', keys, now, provider, x, done)
    decreases |keys|
  {
    hide Handled, DeliverOne;
    s', done := s, UNTRACED;
    if keys != [] {
      var rest, last := keys[..|keys| - 1], keys[|keys| - 1];
      assert keys == rest + [last];
      RestIsDue(s, rest, last, now);
      var s1, before := DeliverAllHandles(cfg, s, rest, now, provider, x);
      s', done := LastHandled(cfg, s, rest, last, now, provider, x, before);
    }
  }

  /** Reminder k between s and s', when a delivery pass took place in between. */
  ghost predicate PassedOver(cfg: Config, s: State, s': State, now: Time, provider: Provider, k: Key, done: Trace)
    requires k in s.reminders.data
  {
    var r := s.reminders.data[k];
    && k in s'.reminders.data && CallsFor(s'.calls, k) == CallsFor(s.calls, k) + done.calls
    && RowsFor(s'.attempts, k) == RowsFor(s.attempts, k) + done.rows
    && (if s.mode != "capture_only" && r.status in {Scheduled, Attempted}
           && (if r.next.Some? then r.next.value else r.trigger) <= now
        then Handled(cfg, s.targets, r, now, provider, s'.reminders.data[k], done)
        else s'.reminders.data[k] == r && done == UNTRACED)
  }

  /** A delivery pass handles every due reminder exactly once, by its own state and its
      recipient's target alone; it changes no other reminder, adds no other row, and calls no
      provider for any other. */
  lemma DeliveryIsExact(cfg: Config, ops: seq<Op>, now: Time, provider: Provider, k: Key)
    returns (done: Trace)
    requires k in After(cfg, ops).reminders.data
    ensures PassedOver(cfg, After(cfg, ops), Step(cfg, After(cfg, ops), DeliverDue(now, provider)), now, provider, k,
                       done)
  {
    ReachableInvariants(cfg, ops);
    hide PassedOver, Deliver;
    done := PassHandles(cfg, After(cfg, ops), now, provider, k);
  }

  lemma PassHandles(cfg: Config, s: State, now: Time, provider: Provider, k: Key) returns (done: Trace)
    requires Ledger(cfg, s) && k in s.reminders.data
    ensures PassedOver(cfg, s, Deliver(cfg, s, now, provider).0, now, provider, k, done)
  {
    hide Handled, DueKeys, DeliverAll;
    done := UNTRACED;
    if s.mode != CAPTURE_ONLY {
      DueKeysDistinct(cfg, s.reminders, now);
      var s' : State;
      s', done := DeliverAllHandles(cfg, s, DueKeys(cfg, s.reminders, now), now, provider, k);
    }
  }

  // ---------- The report of a pass ----------

  /** The outcomes are the keys in order, each with the reason of its newest ledger row. */
  ghost predicate Reports(s': State, keys: seq<Key>, outcomes: seq<(Key, Reason)>) {
    && |outcomes| == |keys|
    && forall i | 0 <= i < |keys| ::
         && outcomes[i].0 == keys[i]
         && var rows := RowsFor(s'.attempts, keys[i]);
            rows != [] && rows[|rows| - 1].reason == outcomes[i].1
  }

  lemma OneMoreReport(s1: State, s2: State, rest: seq<Key>, last: Key, outcomes: seq<(Key, Reason)>, row: Attempt)
    requires Reports(s1, rest, outcomes) && last !in rest
    requires forall x :: RowsFor(s2.attempts, x) == RowsFor(s1.attempts, x) + (if x == last then [row] else [])
    ensures Reports(s2, rest + [last], outcomes + [(last, row.reason)])
  {
    forall i | 0 <= i < |rest| ensures RowsFor(s2.attempts, rest[i]) == RowsFor(s1.attempts, rest[i]) {
      assert rest[i] in rest;
    }
  }

  lemma LastReport(cfg: Config, s: State, rest: seq<Key>, last: Key, now: Time, provider: Provider)
    returns (s': State, outcomes: seq<(Key, Reason)>)
    requires Ready(cfg, s, rest + [last], now)
    requires Reports(DeliverAll(cfg, s, rest, now, provider).0, rest, DeliverAll(cfg, s, rest, now, provider).1)
    ensures var (s1, before) := DeliverAll(cfg, s, rest, now, provider);
            && last in s1.reminders.data
            && var (s2, outcome) := DeliverOne(cfg, s1, last, now, provider);
               s' == s2 && outcome.Some? && outcomes == before + [(last, outcome.value)]
    ensures Reports(s', rest + [last], outcomes)
  {
    hide Reports, DeliverOne, Handled, LedgersOk, LogsKnown, RowsFor, CallsFor;
    var s1 := ReadyForLast(cfg, s, rest, last, now, provider);
    var s2, done := DeliverOneHandles(cfg, s1, last, now, provider);
    var before := DeliverAll(cfg, s, rest, now, provider).1;
    OneMoreReport(s1, s2, rest, last, before, done.rows[0]);
    s', outcomes := s2, before + [(last, done.rows[0].reason)];
  }

  lemma {:induction false} DeliverAllReports(cfg: Config, s: State, keys: seq<Key>, now: Time, provider: Provider)
    returns (s': State, outcomes: seq<(Key, Reason)>)
    requires Ready(cfg, s, keys, now)
    ensures (s', outcomes) == DeliverAll(cfg, s, keys, now, provider) && Reports(s', keys, outcomes)
    decreases |keys|
  {
    hide Reports, DeliverOne, Ledger;
    s', outcomes := s, [];
    if keys == [] {
      NothingReported(s);
    } else {
      var rest, last := keys[..|keys| - 1], keys[|keys| - 1];
      assert keys == rest + [last];
      RestIsDue(s, rest, last, now);
      var s1, before := DeliverAllReports(cfg, s, rest, now, provider);
      s', outcomes := LastReport(cfg, s, rest, last, now, provider);
    }
  }

  lemma NothingReported(s: State)
    ensures Reports(s, [], [])
  {
  }

  /** The report of a pass names every due reminder once, in due order, with the reason of the
      ledger row it got; in capture-only mode it says only that. */
  lemma ReportIsExact(cfg: Config, ops: seq<Op>, now: Time, provider: Provider)
    ensures var s := After(cfg, ops);
            var (s', report) := Deliver(cfg, s, now, provider);
            if s.mode == "capture_only" then report.CaptureOnly? && s' == s.(audit := s'.audit)
            else report.Attempts? && Reports(s', DueKeys(cfg, s.reminders, now), report.outcomes)
  {
    ReachableInvariants(cfg, ops);
    var s := After(cfg, ops);
    if s.mode != CAPTURE_ONLY {
      DueKeysDistinct(cfg, s.reminders, now);
      var s', outcomes := DeliverAllReports(cfg, s, DueKeys(cfg, s.reminders, now), now, provider);
    }
  }

  // ---------- One reconciliation batch ----------

  ghost predicate IsOverdue(r: Reminder, now: Time) {
    r.status.Attempted? && r.next.Some? && r.next.value <= now
  }

  ghost function Overdue(s: State, keys: seq<Key>, now: Time): set<Key> {
    set k | k in keys && k in s.reminders.data && IsOverdue(s.reminders.data[k], now)
  }

  lemma OverdueGrows(s: State, rest: seq<Key>, last: Key, now: Time)
    requires last !in rest
    ensures |Overdue(s, rest + [last], now)| == |Overdue(s, rest, now)|
              + (if last in s.reminders.data && IsOverdue(s.reminders.data[last], now) then 1 else 0)
  {
    assert forall k :: k in rest + [last] <==> k in rest || k == last;
    if last in s.reminders.data && IsOverdue(s.reminders.data[last], now) {
      assert Overdue(s, rest + [last], now) == Overdue(s, rest, now) + {last};
    } else {
      assert Overdue(s, rest + [last], now) == Overdue(s, rest, now);
    }
  }

  lemma LastIsUntouched(s: State, rest: seq<Key>, last: Key, now: Time)
    requires Filed(s.reminders) && last !in rest
    ensures var s1 := ReconcileAll(s, rest, now);
            && (last in s1.reminders.data <==> last in s.reminders.data)
            && (last in s.reminders.data ==> s1.reminders.data[last] == s.reminders.data[last])
  {
    ReconcileEffect(s, rest, now);
  }

  lemma {:induction false} CountIsOverdue(s: State, keys: seq<Key>, now: Time)
    requires Filed(s.reminders) && Distinct(keys)
    ensures CountReconciled(s, keys, now) == |Overdue(s, keys, now)|
    decreases |keys|
  {
    hide ReconcileAll, Filed;
    if keys != [] {
      var rest, last := keys[..|keys| - 1], keys[|keys| - 1];
      assert keys == rest + [last] && last !in rest;
      CountIsOverdue(s, rest, now);
      LastIsUntouched(s, rest, last, now);
      OverdueGrows(s, rest, last, now);
      hide Overdue;
    } else {
      assert Overdue(s, keys, now) == {};
    }
  }

  /** A reconciliation batch looks at the first batchSize due reminders, moves back to scheduled
      exactly the attempted ones whose retry time has come, touches no other, and counts them;
      there is more exactly when more than a batch is due afterwards. */
  lemma ReconcileIsExact(cfg: Config, ops: seq<Op>, now: Time, batchSize: nat)
    ensures var s := After(cfg, ops);
            var (s', report) := Reconcile(cfg, s, now, batchSize);
            var due := DueKeys(cfg, s.reminders, now);
            var batch := if |due| <= batchSize then due else due[..batchSize];
            if s.mode == "capture_only" then
              s' == s.(audit := s'.audit) && report == ReconcileReport(0, false, CaptureOnlyBlocked)
            else
              && s' == s.(reminders := s'.reminders, audit := s'.audit)
              && s'.reminders.data.Keys == s.reminders.data.Keys
              && (forall k | k in s.reminders.data ::
                    s'.reminders.data[k] == if k in batch && IsOverdue(s.reminders.data[k], now)
                                            then s.reminders.data[k].(status := Scheduled, next := None)
                                            else s.reminders.data[k])
              && report == ReconcileReport(|Overdue(s, batch, now)|, |DueKeys(cfg, s'.reminders, now)| > batchSize,
                                           RecoveryReconciled)
  {
    ReachableInvariants(cfg, ops);
    var s := After(cfg, ops);
    var batch := Take(DueKeys(cfg, s.reminders, now), batchSize);
    if s.mode != CAPTURE_ONLY {
      DueKeysDistinct(cfg, s.reminders, now);
      ReconcileEffect(s, batch, now);
      CountIsOverdue(s, batch, now);
    }
  }

  // ---------- A negative retry delay ----------

  lemma ReconcileDropsUntriggered(cfg: Config, s: State, k: Key, now: Time, batchSize: nat)
    requires Filed(s.reminders) && s.mode != CAPTURE_ONLY && k in s.reminders.data
    requires MustReconcile(s.reminders.data[k], now) && now < s.reminders.data[k].trigger
    requires |DueKeys(cfg, s.reminders, now)| <= batchSize
    ensures k in DueKeys(cfg, s.reminders, now)
    ensures k !in DueKeys(cfg, Reconcile(cfg, s, now, batchSize).0.reminders, now)
  {
    var due := DueKeys(cfg, s.reminders, now);
    DueKeysDistinct(cfg, s.reminders, now);
    ReconcileEffect(s, due, now);
    assert Take(due, batchSize) == due;
    DueKeysDistinct(cfg, Reconcile(cfg, s, now, batchSize).0.reminders, now);
  }

  /** A fresh reminder that the provider refuses at its trigger, and a delay that goes back. */
  ghost predicate FailsAtTrigger(cfg: Config, s: State, k: Key, provider: Provider) {
    && s.mode != CAPTURE_ONLY && cfg.retryDelayMinutes < 0 && RetryLimit(cfg) >= 1 && k in s.reminders.data
    && var r := s.reminders.data[k];
       && r.attempts == 0 && r.trigger == k.trigger && IsDue(r, k.trigger)
       && ObstacleFor(cfg, s.targets, r.recipient, k.trigger).Clear? && !Unpack(provider(Counted(r))).ok
  }

  lemma FailedIsDueEarly(cfg: Config, s: State, k: Key, provider: Provider)
    requires Ledger(cfg, s) && FailsAtTrigger(cfg, s, k, provider)
    ensures var s' := Deliver(cfg, s, k.trigger, provider).0;
            var now := k.trigger + cfg.retryDelayMinutes * MINUTE;
            k in s'.reminders.data && MustReconcile(s'.reminders.data[k], now) && now < s'.reminders.data[k].trigger
  {
    hide Deliver, Ledger, ObstacleFor, RowOfReply;
    var done := PassHandles(cfg, s, k.trigger, provider, k);
  }

  lemma DeliverKeepsMode(cfg: Config, s: State, now: Time, provider: Provider)
    requires Filed(s.reminders)
    ensures var s' := Deliver(cfg, s, now, provider).0; Filed(s'.reminders) && s'.mode == s.mode
  {
    DeliverProgresses(cfg, s, now, provider);
  }

  lemma FailedLosesDue(cfg: Config, s: State, k: Key, provider: Provider)
    requires Ledger(cfg, s) && FailsAtTrigger(cfg, s, k, provider)
    ensures var s' := Deliver(cfg, s, k.trigger, provider).0;
            var now := k.trigger + cfg.retryDelayMinutes * MINUTE;
            var due := DueKeys(cfg, s'.reminders, now);
            k in due && k !in DueKeys(cfg, Reconcile(cfg, s', now, |due|).0.reminders, now)
  {
    hide Deliver, DueKeys, Reconcile, LedgersOk, LogsKnown;
    FailedIsDueEarly(cfg, s, k, provider);
    DeliverKeepsMode(cfg, s, k.trigger, provider);
    var s', now := Deliver(cfg, s, k.trigger, provider).0, k.trigger + cfg.retryDelayMinutes * MINUTE;
    ReconcileDropsUntriggered(cfg, s', k, now, |DueKeys(cfg, s'.reminders, now)|);
  }

  /** The witness: such a reminder is due again before its trigger, and a reconcile at this
      earlier reading of the clock takes it off the due list. */
  lemma NegativeDelayLosesDue(cfg: Config, ops: seq<Op>, k: Key, provider: Provider)
    requires FailsAtTrigger(cfg, After(cfg, ops), k, provider)
    ensures var s := Step(cfg, After(cfg, ops), DeliverDue(k.trigger, provider));
            var now := k.trigger + cfg.retryDelayMinutes * MINUTE;
            var due := DueKeys(cfg, s.reminders, now);
            k in due && k !in DueKeys(cfg, Reconcile(cfg, s, now, |due|).0.reminders, now)
  {
    ReachableInvariants(cfg, ops);
    hide Deliver, DueKeys, Reconcile;
    FailedLosesDue(cfg, After(cfg, ops), k, provider);
  }
}
