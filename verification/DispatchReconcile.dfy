/** What one reconcile pass does to every row, to every reminder and to the counters. */
module DispatchReconcile {
  import opened Text
  import opened OrderedDict
  import opened Sorting
  import opened Engine
  import opened Dispatch
  import opened DispatchTheorems

  // ---------- The fate of a row ----------

  datatype Fate = Kept | ToPromote | ToDemote | StaysOpen

  /** Only rows accepted without proof are looked at: a verifiable reference promotes one, the
      end of its window demotes one without it, and any other stays open. */
  ghost function FateOf(cfg: Setup, row: Row, now: Time): Fate {
    if row.delivered || row.reason != A.AcceptedUnverifiedCode then Kept
    else if S.IsVerifiable(row.providerRef) then ToPromote
    else if row.at + cfg.windowMicros <= now then ToDemote
    else StaysOpen
  }

  /** Row and reminder after the pass, and the transitions it adds. */
  ghost predicate Meets(fate: Fate, id: AttemptId, row: Row, row': Row, r: Reminder, r': Reminder,
                        added: seq<(AttemptId, Transition)>)
  {
    match fate
    case Kept => row' == row && r' == r && added == []
    case StaysOpen => row' == row && r' == r && added == []
    case ToPromote =>
      && row' == Row(true, A.DeliveredSuccess, row.at, row.providerRef,
                     if row.statusCode.Some? && |row.statusCode.value| > 0 then row.statusCode else Some("ok"),
                     false, A.ProviderConfirmed, row.destination)
      && r' == r.(status := Delivered) && added == [(id, PromoteDelivered)]
    case ToDemote =>
      && row' == Row(false, A.AcceptedUnverifiedTimeout, row.at, None, None, false, A.NoConfidence, row.destination)
      && r' == r.(status := Failed) && added == [(id, DemoteTimeout)]
  }

  ghost predicate MeetsFate(b: Books, b': Books, id: AttemptId, fate: Fate) {
    && id in b.rows.data && id in b'.rows.data
    && id.reminder in b.reminders.data && id.reminder in b'.reminders.data
    && var before, after := TransitionsOf(b.transitions, id), TransitionsOf(b'.transitions, id);
       && |before| <= |after| && before == after[..|before|]
       && Meets(fate, id, b.rows.data[id], b'.rows.data[id], b.reminders.data[id.reminder],
                b'.reminders.data[id.reminder], after[|before|..])
  }

  ghost predicate SameRest(b: Books, b': Books) {
    && b'.rows.data.Keys == b.rows.data.Keys && b'.reminders.data.Keys == b.reminders.data.Keys
    && b'.assignedTotal == b.assignedTotal && b'.openAtStart == b.openAtStart
  }

  ghost predicate CountsFate(b: Books, b': Books, fate: Fate, open: bool) {
    && (open <==> fate.StaysOpen?)
    && b'.promotedTotal == b.promotedTotal + (if fate.ToPromote? then 1 else 0)
    && b'.demotedTotal == b.demotedTotal + (if fate.ToDemote? then 1 else 0)
  }

  /** Apart from row id and its reminder nothing changed. */
  ghost predicate SameOthers(b: Books, b': Books, id: AttemptId) {
    && SameRest(b, b')
    && (forall x | x in b.rows.data && x != id ::
          b'.rows.data[x] == b.rows.data[x] && TransitionsOf(b'.transitions, x) == TransitionsOf(b.transitions, x))
    && (forall k | k in b.reminders.data && k != id.reminder :: b'.reminders.data[k] == b.reminders.data[k])
  }

  lemma ClosedIs(b: Books, id: AttemptId, row: Row, promoted: bool)
    requires Filed(b.reminders) && id in b.rows.data && id.reminder in b.reminders.data
    ensures var b' := Closed(b, id, row, promoted);
            && SameOthers(b, b', id)
            && b'.rows.data[id] == row
            && b'.reminders.data[id.reminder] ==
                 b.reminders.data[id.reminder].(status := if promoted then Delivered else Failed)
            && TransitionsOf(b'.transitions, id) == TransitionsOf(b.transitions, id)
                 + [(id, if promoted then PromoteDelivered else DemoteTimeout)]
            && b'.promotedTotal == b.promotedTotal + (if promoted then 1 else 0)
            && b'.demotedTotal == b.demotedTotal + (if promoted then 0 else 1)
  {
    TransitionsAppended(b.transitions, id, if promoted then PromoteDelivered else DemoteTimeout);
    hide TransitionsOf;
  }

  lemma PromotionMeets(b: Books, id: AttemptId)
    requires Filed(b.reminders) && id in b.rows.data && id.reminder in b.reminders.data
    ensures var b' := Closed(b, id, Promoted(b.rows.data[id]), true);
            SameOthers(b, b', id) && MeetsFate(b, b', id, ToPromote) && CountsFate(b, b', ToPromote, false)
  {
    ClosedIs(b, id, Promoted(b.rows.data[id]), true);
    hide Closed, TransitionsOf, SameOthers;
    assert SameRest(b, Closed(b, id, Promoted(b.rows.data[id]), true)) by {
      SameOthersSameRest(b, Closed(b, id, Promoted(b.rows.data[id]), true), id);
    }
  }

  lemma DemotionMeets(b: Books, id: AttemptId)
    requires Filed(b.reminders) && id in b.rows.data && id.reminder in b.reminders.data && !b.rows.data[id].delivered
    ensures var b' := Closed(b, id, Demoted(b.rows.data[id]), false);
            SameOthers(b, b', id) && MeetsFate(b, b', id, ToDemote) && CountsFate(b, b', ToDemote, false)
  {
    ClosedIs(b, id, Demoted(b.rows.data[id]), false);
    hide Closed, TransitionsOf, SameOthers;
    assert SameRest(b, Closed(b, id, Demoted(b.rows.data[id]), false)) by {
      SameOthersSameRest(b, Closed(b, id, Demoted(b.rows.data[id]), false), id);
    }
  }

  lemma SameOthersSameRest(b: Books, b': Books, id: AttemptId)
    ensures SameOthers(b, b', id) ==> SameRest(b, b')
  {
  }

  lemma NoChangeMeets(b: Books, id: AttemptId)
    requires id in b.rows.data && id.reminder in b.reminders.data
    ensures SameOthers(b, b, id) && MeetsFate(b, b, id, StaysOpen) && CountsFate(b, b, StaysOpen, true)
  {
  }

  lemma OpenRowIsLive(b: Books, id: AttemptId)
    requires Sound(b) && id in b.rows.data && IsOpen(b.rows.data[id])
    ensures Filed(b.reminders) && id.reminder in b.reminders.data && !IsClosed(b, id)
  {
    assert AttemptOk(b, id);
    ClosedMeansTransition(b, id);
  }

  lemma OneIsSettled(cfg: Setup, b: Books, id: AttemptId, now: Time) returns (b': Books, open: bool)
    requires Sound(b) && id in b.rows.data && IsOpen(b.rows.data[id])
    ensures (b', open) == SettleRow(cfg, b, id, now)
    ensures SameOthers(b, b', id)
    ensures var fate := FateOf(cfg, b.rows.data[id], now); MeetsFate(b, b', id, fate) && CountsFate(b, b', fate, open)
  {
    OpenRowIsLive(b, id);
    PromotionMeets(b, id);
    DemotionMeets(b, id);
    NoChangeMeets(b, id);
    hide Sound, S.IsVerifiable, Closed, Promoted, Demoted, SameOthers, MeetsFate, CountsFate, IsClosed, Filed;
    var settled := SettleRow(cfg, b, id, now);
    b', open := settled.0, settled.1;
  }

  // ---------- The whole pass ----------

  ghost function Fated(cfg: Setup, rows: map<AttemptId, Row>, ids: seq<AttemptId>, now: Time,
                       fate: Fate): set<AttemptId> {
    set id | id in ids && id in rows && FateOf(cfg, rows[id], now) == fate
  }

  lemma FatedGrows(cfg: Setup, rows: map<AttemptId, Row>, rest: seq<AttemptId>, last: AttemptId, now: Time, fate: Fate)
    requires last !in rest && last in rows
    ensures |Fated(cfg, rows, rest + [last], now, fate)| == |Fated(cfg, rows, rest, now, fate)|
              + (if FateOf(cfg, rows[last], now) == fate then 1 else 0)
  {
    assert forall id :: id in rest + [last] <==> id in rest || id == last;
    if FateOf(cfg, rows[last], now) == fate {
      assert Fated(cfg, rows, rest + [last], now, fate) == Fated(cfg, rows, rest, now, fate) + {last};
    } else {
      assert Fated(cfg, rows, rest + [last], now, fate) == Fated(cfg, rows, rest, now, fate);
    }
  }

  /** How many of these rows were left open, promoted and demoted. */
  ghost predicate Tallies(cfg: Setup, b: Books, b': Books, ids: seq<AttemptId>, now: Time, n: nat) {
    && n == |Fated(cfg, b.rows.data, ids, now, StaysOpen)|
    && b'.promotedTotal == b.promotedTotal + |Fated(cfg, b.rows.data, ids, now, ToPromote)|
    && b'.demotedTotal == b.demotedTotal + |Fated(cfg, b.rows.data, ids, now, ToDemote)|
  }

  /** Row x after these rows were settled: its fate is met if it is among them, else it is as it was. */
  ghost predicate RowAmong(cfg: Setup, b: Books, b': Books, ids: seq<AttemptId>, now: Time, x: AttemptId)
    requires x in b.rows.data
  {
    MeetsFate(b, b', x, if x in ids then FateOf(cfg, b.rows.data[x], now) else Kept)
  }

  ghost predicate SettledAll(cfg: Setup, b: Books, b': Books, ids: seq<AttemptId>, now: Time, n: nat) {
    && SameRest(b, b') && Tallies(cfg, b, b', ids, now, n)
    && (forall x | x in b.rows.data :: RowAmong(cfg, b, b', ids, now, x))
    && (forall k | k in b.reminders.data && (forall x | x in b.rows.data :: x.reminder != k) ::
          b'.reminders.data[k] == b.reminders.data[k])
  }

  lemma MeetsAgain(b: Books, b1: Books, b2: Books, last: AttemptId, x: AttemptId, fate: Fate)
    requires MeetsFate(b, b1, x, fate) && SameOthers(b1, b2, last) && x != last && x.reminder != last.reminder
    ensures MeetsFate(b, b2, x, fate)
  {
  }

  lemma MeetsAtLast(b: Books, b1: Books, b2: Books, x: AttemptId, fate: Fate)
    requires MeetsFate(b, b1, x, Kept) && MeetsFate(b1, b2, x, fate)
    ensures MeetsFate(b, b2, x, fate)
  {
    var t, t1 := TransitionsOf(b.transitions, x), TransitionsOf(b1.transitions, x);
    assert t1 == t1[..|t|] + t1[|t|..] == t;
  }

  lemma RowsAreApart(b: Books, x: AttemptId, y: AttemptId)
    requires Sound(b) && x in b.rows.data && y in b.rows.data && x != y
    ensures x.reminder != y.reminder
  {
    RowIdIsOnly(b, x);
  }

  lemma OneMoreRow(cfg: Setup, b: Books, b1: Books, b2: Books, rest: seq<AttemptId>, last: AttemptId, now: Time,
                   x: AttemptId)
    requires Sound(b) && x in b.rows.data && last in b.rows.data && last !in rest && RowAmong(cfg, b, b1, rest, now, x)
    requires SameOthers(b1, b2, last)
    requires RowAmong(cfg, b, b1, rest, now, last) && MeetsFate(b1, b2, last, FateOf(cfg, b.rows.data[last], now))
    ensures RowAmong(cfg, b, b2, rest + [last], now, x)
  {
    hide MeetsFate, SameOthers, Sound, FateOf;
    assert x in rest + [last] <==> x in rest || x == last;
    if x == last {
      MeetsAtLast(b, b1, b2, x, FateOf(cfg, b.rows.data[x], now));
    } else {
      RowsAreApart(b, x, last);
      MeetsAgain(b, b1, b2, last, x, if x in rest then FateOf(cfg, b.rows.data[x], now) else Kept);
    }
  }

  lemma NothingSettled(cfg: Setup, b: Books, now: Time)
    requires Sound(b)
    ensures SettledAll(cfg, b, b, [], now, 0)
  {
    forall x | x in b.rows.data ensures RowAmong(cfg, b, b, [], now, x) {
      assert AttemptOk(b, x);
    }
    assert Fated(cfg, b.rows.data, [], now, StaysOpen) == {} == Fated(cfg, b.rows.data, [], now, ToPromote);
    assert Fated(cfg, b.rows.data, [], now, ToDemote) == {};
  }

  lemma OneMoreTally(cfg: Setup, b: Books, b1: Books, b2: Books, rest: seq<AttemptId>, last: AttemptId, now: Time,
                     n: nat, open: bool)
    requires last in b.rows.data && last !in rest && Tallies(cfg, b, b1, rest, now, n)
    requires CountsFate(b1, b2, FateOf(cfg, b.rows.data[last], now), open)
    ensures Tallies(cfg, b, b2, rest + [last], now, if open then n + 1 else n)
  {
    FatedGrows(cfg, b.rows.data, rest, last, now, StaysOpen);
    FatedGrows(cfg, b.rows.data, rest, last, now, ToPromote);
    FatedGrows(cfg, b.rows.data, rest, last, now, ToDemote);
    hide Fated, FateOf;
  }

  lemma OneMoreSettles(cfg: Setup, b: Books, b1: Books, b2: Books, rest: seq<AttemptId>, last: AttemptId, now: Time,
                       n: nat, open: bool)
    requires Sound(b) && last in b.rows.data && last !in rest && SettledAll(cfg, b, b1, rest, now, n)
    requires SameOthers(b1, b2, last) && b1.rows.data[last] == b.rows.data[last]
    requires var fate := FateOf(cfg, b.rows.data[last], now);
             MeetsFate(b1, b2, last, fate) && CountsFate(b1, b2, fate, open)
    ensures SettledAll(cfg, b, b2, rest + [last], now, if open then n + 1 else n)
  {
    hide Sound, MeetsFate, FateOf, Tallies, CountsFate, RowAmong;
    OneMoreTally(cfg, b, b1, b2, rest, last, now, n, open);
    forall x | x in b.rows.data {
      OneMoreRow(cfg, b, b1, b2, rest, last, now, x);
    }
  }

  lemma {:induction false} AllAreSettled(cfg: Setup, b: Books, ids: seq<AttemptId>, now: Time)
    returns (b': Books, n: nat)
    requires Sound(b) && Distinct(ids)
    requires forall id | id in ids :: id in b.rows.data && IsOpen(b.rows.data[id])
    ensures (b', n) == SettleAll(cfg, b, ids, now)
    ensures SettledAll(cfg, b, b', ids, now, n)
    decreases |ids|
  {
    hide Sound, SettledAll, SettledRows, SameOthers, MeetsFate, CountsFate, FateOf, SettleRow;
    b', n := b, 0;
    if ids == [] {
      NothingSettled(cfg, b, now);
    } else {
      var rest, last := ids[..|ids| - 1], ids[|ids| - 1];
      assert ids == rest + [last] && last in ids && last !in rest;
      assert forall id | id in rest :: id in ids;
      var b1, n1 := AllAreSettled(cfg, b, rest, now);
      var same, m := SettleAllStaysSound(cfg, b, rest, now);
      LastIsOpen(cfg, b, b1, rest, last, now, n1);
      var b2, open := OneIsSettled(cfg, b1, last, now);
      OneMoreSettles(cfg, b, b1, b2, rest, last, now, n1, open);
      var counted := CountOpen(n1, (b2, open));
      b', n := counted.0, counted.1;
    }
  }

  lemma LastIsOpen(cfg: Setup, b: Books, b1: Books, rest: seq<AttemptId>, last: AttemptId, now: Time, n: nat)
    requires SettledAll(cfg, b, b1, rest, now, n) && last in b.rows.data && last !in rest
    ensures last in b1.rows.data && b1.rows.data[last] == b.rows.data[last]
  {
    assert RowAmong(cfg, b, b1, rest, now, last);
  }

  // ---------- With the reminders that are due ----------

  /** A reminder without a row: rescheduled if it is among the first hundred due, was attempted
      and its retry time has come. */
  ghost predicate RescheduledOnly(cfg: Setup, b: Books, b': Books, now: Time, k: Key)
    requires k in b.reminders.data
  {
    var r := b.reminders.data[k];
    var due := DueKeys(cfg.engine, b.reminders, now);
    k in b'.reminders.data && b'.reminders.data[k] ==
      if k in (if |due| <= 100 then due else due[..100]) && r.status.Attempted? && r.next.Some? && r.next.value <= now
      then r.(status := Scheduled, next := None) else r
  }

  lemma OneIsRescheduled(b: Books, k: Key, now: Time)
    requires Filed(b.reminders)
    ensures var b' := RescheduleOne(b, k, now);
            && b' == b.(reminders := b'.reminders) && b'.reminders.data.Keys == b.reminders.data.Keys
            && Filed(b'.reminders)
            && (forall x | x in b.reminders.data && x != k :: b'.reminders.data[x] == b.reminders.data[x])
            && (k in b.reminders.data ==>
                  var r := b.reminders.data[k];
                  b'.reminders.data[k] == if MustReconcile(r, now) then r.(status := Scheduled, next := None) else r)
  {
  }

  ghost predicate RescheduledAmong(b: Books, b': Books, keys: seq<Key>, now: Time) {
    && b' == b.(reminders := b'.reminders) && b'.reminders.data.Keys == b.reminders.data.Keys && Filed(b'.reminders)
    && forall k | k in b.reminders.data ::
         b'.reminders.data[k] ==
         if k in keys && MustReconcile(b.reminders.data[k], now)
         then b.reminders.data[k].(status := Scheduled, next := None) else b.reminders.data[k]
  }

  lemma {:induction false} RescheduleIs(b: Books, keys: seq<Key>, now: Time)
    requires Filed(b.reminders)
    ensures RescheduledAmong(b, Reschedule(b, keys, now), keys, now)
    decreases |keys|
  {
    hide RescheduleOne, RescheduledAmong;
    if keys == [] {
      NoneRescheduled(b, now);
    } else {
      var rest, last := keys[..|keys| - 1], keys[|keys| - 1];
      assert keys == rest + [last];
      RescheduleIs(b, rest, now);
      OneMoreRescheduled(b, Reschedule(b, rest, now), rest, last, now);
    }
  }

  lemma NoneRescheduled(b: Books, now: Time)
    requires Filed(b.reminders)
    ensures RescheduledAmong(b, b, [], now)
  {
  }

  lemma OneMoreRescheduled(b: Books, b1: Books, rest: seq<Key>, last: Key, now: Time)
    requires RescheduledAmong(b, b1, rest, now)
    ensures RescheduledAmong(b, RescheduleOne(b1, last, now), rest + [last], now)
  {
    OneIsRescheduled(b1, last, now);
    hide RescheduleOne;
    assert forall k :: k in rest + [last] <==> k in rest || k == last;
  }

  ghost function RowsFated(cfg: Setup, b: Books, now: Time, fate: Fate): set<AttemptId> {
    set id | id in b.rows.data && FateOf(cfg, b.rows.data[id], now) == fate
  }

  ghost predicate AllMeet(cfg: Setup, b: Books, b': Books, now: Time) {
    forall id | id in b.rows.data :: MeetsFate(b, b', id, FateOf(cfg, b.rows.data[id], now))
  }

  ghost predicate OthersRescheduled(cfg: Setup, b: Books, b': Books, now: Time) {
    forall k | k in b.reminders.data && (forall id | id in b.rows.data :: id.reminder != k) ::
      RescheduledOnly(cfg, b, b', now, k)
  }

  /** Every row meets its fate, every other reminder is at most rescheduled, and the counters
      and the gauge count the rows of each fate. */
  ghost predicate Reconciled(cfg: Setup, b: Books, b': Books, now: Time) {
    && SameRest(b, b') && AllMeet(cfg, b, b', now) && OthersRescheduled(cfg, b, b', now)
    && b'.promotedTotal == b.promotedTotal + |RowsFated(cfg, b, now, ToPromote)|
    && b'.demotedTotal == b.demotedTotal + |RowsFated(cfg, b, now, ToDemote)|
    && b'.openGauge == |RowsFated(cfg, b, now, StaysOpen)|
  }

  lemma RowReminderStays(cfg: Setup, b: Books, now: Time, id: AttemptId)
    requires Sound(b) && id in b.rows.data
    ensures var b1 := Reschedule(b, Take(DueKeys(cfg.engine, b.reminders, now), RECONCILE_LIMIT), now);
            && id.reminder in b.reminders.data && id.reminder in b1.reminders.data
            && b1.reminders.data[id.reminder] == b.reminders.data[id.reminder]
  {
    assert AttemptOk(b, id);
    RescheduleIs(b, Take(DueKeys(cfg.engine, b.reminders, now), RECONCILE_LIMIT), now);
  }

  lemma OpenIdsAreDistinct(rows: Dict<AttemptId, Row>)
    requires rows.Valid()
    ensures Distinct(OpenIds(rows)) && forall id :: id in OpenIds(rows) <==> id in rows.data && IsOpen(rows.data[id])
  {
    OpenIdsPresent(rows);
    FilterMembers(rows.keys, IsOpenIn(rows));
    SortDistinct(Filter(rows.keys, IsOpenIn(rows)), OlderFirst(rows));
  }

  lemma OpenAreFated(cfg: Setup, b: Books, ids: seq<AttemptId>, now: Time, fate: Fate)
    requires forall id :: id in ids <==> id in b.rows.data && IsOpen(b.rows.data[id])
    requires !fate.Kept?
    ensures Fated(cfg, b.rows.data, ids, now, fate) == RowsFated(cfg, b, now, fate)
  {
  }

  /** ids are the open rows of b, and b1 is b after the rescheduling half of the pass. */
  ghost predicate HalfWay(cfg: Setup, b: Books, b1: Books, ids: seq<AttemptId>, now: Time) {
    && Sound(b) && b1 == Reschedule(b, Take(DueKeys(cfg.engine, b.reminders, now), RECONCILE_LIMIT), now)
    && b1.rows == b.rows && b1.transitions == b.transitions
    && forall id :: id in ids <==> id in b.rows.data && IsOpen(b.rows.data[id])
  }

  lemma RowIsReconciled(cfg: Setup, b: Books, b1: Books, b': Books, ids: seq<AttemptId>, now: Time, n: nat,
                        id: AttemptId)
    requires HalfWay(cfg, b, b1, ids, now) && SettledAll(cfg, b1, b', ids, now, n) && id in b.rows.data
    ensures MeetsFate(b, b', id, FateOf(cfg, b.rows.data[id], now))
  {
    RowReminderStays(cfg, b, now, id);
    assert RowAmong(cfg, b1, b', ids, now, id);
    hide Sound, Reschedule, DueKeys, TransitionsOf, SettledAll;
  }

  lemma ReminderIsReconciled(cfg: Setup, b: Books, b1: Books, b': Books, ids: seq<AttemptId>, now: Time, n: nat, k: Key)
    requires var keys := Take(DueKeys(cfg.engine, b.reminders, now), RECONCILE_LIMIT);
             RescheduledAmong(b, b1, keys, now)
    requires SettledAll(cfg, b1, b', ids, now, n)
    requires k in b.reminders.data && forall id | id in b.rows.data :: id.reminder != k
    ensures RescheduledOnly(cfg, b, b', now, k)
  {
    hide DueKeys, RowAmong, Tallies;
  }

  lemma RowsAreReconciled(cfg: Setup, b: Books, b1: Books, b': Books, ids: seq<AttemptId>, now: Time, n: nat)
    requires HalfWay(cfg, b, b1, ids, now) && SettledAll(cfg, b1, b', ids, now, n)
    ensures AllMeet(cfg, b, b', now)
  {
    hide Sound, Reschedule, DueKeys, SettledAll, MeetsFate, IsOpen;
    forall id | id in b.rows.data {
      RowIsReconciled(cfg, b, b1, b', ids, now, n, id);
    }
  }

  lemma RemindersAreReconciled(cfg: Setup, b: Books, b1: Books, b': Books, ids: seq<AttemptId>, now: Time, n: nat)
    requires HalfWay(cfg, b, b1, ids, now) && SettledAll(cfg, b1, b', ids, now, n)
    ensures OthersRescheduled(cfg, b, b', now)
  {
    RescheduleIs(b, Take(DueKeys(cfg.engine, b.reminders, now), RECONCILE_LIMIT), now);
    hide Sound, Reschedule, DueKeys, SettledAll, RescheduledOnly, RescheduledAmong;
    forall k | k in b.reminders.data && (forall id | id in b.rows.data :: id.reminder != k) {
      ReminderIsReconciled(cfg, b, b1, b', ids, now, n, k);
    }
  }

  lemma SettledCounts(cfg: Setup, b: Books, b': Books, ids: seq<AttemptId>, now: Time, n: nat)
    ensures SettledAll(cfg, b, b', ids, now, n) ==> SameRest(b, b') && Tallies(cfg, b, b', ids, now, n)
  {
  }

  lemma OtherReminders(cfg: Setup, b: Books, b1: Books, b': Books, ids: seq<AttemptId>, now: Time, n: nat)
    requires b1 == b.(reminders := b1.reminders) && b1.reminders.data.Keys == b.reminders.data.Keys
    ensures SameRest(b1, b') ==> SameRest(b, b')
    ensures Tallies(cfg, b1, b', ids, now, n) ==> Tallies(cfg, b, b', ids, now, n)
  {
    hide Fated;
  }

  lemma HalfWayKeys(cfg: Setup, b: Books, b1: Books, ids: seq<AttemptId>, now: Time)
    requires HalfWay(cfg, b, b1, ids, now)
    ensures b1 == b.(reminders := b1.reminders) && b1.reminders.data.Keys == b.reminders.data.Keys
  {
    RescheduleIs(b, Take(DueKeys(cfg.engine, b.reminders, now), RECONCILE_LIMIT), now);
    hide Sound, DueKeys, Reschedule;
  }

  lemma TotalsAreReconciled(cfg: Setup, b: Books, b1: Books, b': Books, ids: seq<AttemptId>, now: Time, n: nat)
    requires HalfWay(cfg, b, b1, ids, now) && SettledAll(cfg, b1, b', ids, now, n)
    ensures SameRest(b, b') && Tallies(cfg, b, b', ids, now, n)
  {
    hide HalfWay, SettledAll, SameRest, Tallies;
    HalfWayKeys(cfg, b, b1, ids, now);
    SettledCounts(cfg, b1, b', ids, now, n);
    OtherReminders(cfg, b, b1, b', ids, now, n);
  }

  lemma TalliesReconcile(cfg: Setup, b: Books, b1: Books, b': Books, ids: seq<AttemptId>, now: Time, n: nat)
    requires HalfWay(cfg, b, b1, ids, now) && Tallies(cfg, b, b', ids, now, n)
    ensures b'.promotedTotal == b.promotedTotal + |RowsFated(cfg, b, now, ToPromote)|
    ensures b'.demotedTotal == b.demotedTotal + |RowsFated(cfg, b, now, ToDemote)|
    ensures n == |RowsFated(cfg, b, now, StaysOpen)|
  {
    OpenAreFated(cfg, b, ids, now, StaysOpen);
    OpenAreFated(cfg, b, ids, now, ToPromote);
    OpenAreFated(cfg, b, ids, now, ToDemote);
    hide HalfWay, RowsFated, Fated;
  }

  lemma SettledIsReconciled(cfg: Setup, b: Books, b1: Books, b': Books, ids: seq<AttemptId>, now: Time, n: nat)
    requires HalfWay(cfg, b, b1, ids, now) && SettledAll(cfg, b1, b', ids, now, n) && b'.openGauge == n
    ensures Reconciled(cfg, b, b', now)
  {
    hide HalfWay, SettledAll, AllMeet, OthersRescheduled, RowsFated, SameRest, Tallies;
    RowsAreReconciled(cfg, b, b1, b', ids, now, n);
    RemindersAreReconciled(cfg, b, b1, b', ids, now, n);
    TotalsAreReconciled(cfg, b, b1, b', ids, now, n);
    TalliesReconcile(cfg, b, b1, b', ids, now, n);
  }

  /** A reconcile over sound books: a row accepted without proof is promoted exactly when its
      reference is verifiable, demoted exactly when it is not and its window is over, and stays
      open otherwise; no other row changes, and the gauge counts the rows that stay open. */
  lemma ReconcileIsExact(cfg: Setup, b: Books, now: Time)
    requires Sound(b)
    ensures Reconciled(cfg, b, RunReconcile(cfg, b, now), now)
  {
    var b1 := Reschedule(b, Take(DueKeys(cfg.engine, b.reminders, now), RECONCILE_LIMIT), now);
    RescheduleStaysSound(b, Take(DueKeys(cfg.engine, b.reminders, now), RECONCILE_LIMIT), now);
    RescheduleIs(b, Take(DueKeys(cfg.engine, b.reminders, now), RECONCILE_LIMIT), now);
    OpenIdsAreDistinct(b.rows);
    hide Sound, SettledAll, Reconciled, DueKeys, Reschedule;
    var b2, n := AllAreSettled(cfg, b1, OpenIds(b1.rows), now);
    GaugeKeepsSettled(cfg, b1, b2, OpenIds(b1.rows), now, n);
    SettledIsReconciled(cfg, b, b1, b2.(openGauge := n), OpenIds(b1.rows), now, n);
  }

  lemma GaugeKeepsSettled(cfg: Setup, b: Books, b': Books, ids: seq<AttemptId>, now: Time, n: nat)
    requires SettledAll(cfg, b, b', ids, now, n)
    ensures SettledAll(cfg, b, b'.(openGauge := n), ids, now, n)
  {
    forall x | x in b.rows.data ensures RowAmong(cfg, b, b'.(openGauge := n), ids, now, x) {
      assert RowAmong(cfg, b, b', ids, now, x);
    }
  }

  /** The same in every reachable state of the tables. */
  lemma ReachableReconcileIsExact(cfg: Setup, moves: seq<Move>, now: Time)
    ensures Reconciled(cfg, After(cfg, moves), After(cfg, moves + [ReconcilePass(now)]), now)
  {
    ReachableBooksAreSound(cfg, moves);
    OneMove(cfg, moves, ReconcilePass(now));
    ReconcileIsExact(cfg, After(cfg, moves), now);
  }

  // ---------- In which order ----------

  /** The transitions of older rows come first. */
  ghost predicate OldestFirst(rows: map<AttemptId, Row>, ids: seq<AttemptId>, added: seq<(AttemptId, Transition)>) {
    && (forall i | 0 <= i < |added| :: added[i].0 in ids && added[i].0 in rows)
    && forall i, j | 0 <= i < j < |added| :: rows[added[i].0].at <= rows[added[j].0].at
  }

  lemma SettleAdds(cfg: Setup, b: Books, id: AttemptId, now: Time) returns (added: seq<(AttemptId, Transition)>)
    requires id in b.rows.data
    ensures SettleRow(cfg, b, id, now).0.transitions == b.transitions + added
    ensures |added| <= 1 && (added != [] ==> added[0].0 == id)
  {
    hide S.IsVerifiable, Promoted, Demoted;
    var ts := SettleRow(cfg, b, id, now).0.transitions;
    assert ts == b.transitions || ts == b.transitions + [(id, PromoteDelivered)]
        || ts == b.transitions + [(id, DemoteTimeout)];
    added := ts[|b.transitions|..];
  }

  ghost predicate InAgeOrder(rows: map<AttemptId, Row>, ids: seq<AttemptId>) {
    && (forall id | id in ids :: id in rows)
    && forall i, j | 0 <= i < j < |ids| :: rows[ids[i]].at <= rows[ids[j]].at
  }

  lemma OneMoreAdded(rows: map<AttemptId, Row>, rest: seq<AttemptId>, last: AttemptId,
                     before: seq<(AttemptId, Transition)>, one: seq<(AttemptId, Transition)>)
    requires InAgeOrder(rows, rest + [last]) && OldestFirst(rows, rest, before)
    requires |one| <= 1 && (one != [] ==> one[0].0 == last)
    ensures OldestFirst(rows, rest + [last], before + one)
  {
    var ids, added := rest + [last], before + one;
    assert ids[|rest|] == last;
    forall i | 0 <= i < |before| ensures added[i].0 in rest && rows[added[i].0].at <= rows[last].at {
      var n :| 0 <= n < |rest| && rest[n] == added[i].0;
      assert ids[n] == rest[n];
    }
  }

  lemma SettleAllLast(cfg: Setup, b: Books, rest: seq<AttemptId>, last: AttemptId, now: Time)
    requires forall id | id in rest + [last] :: id in b.rows.data
    ensures (forall id | id in rest :: id in b.rows.data) && last in SettleAll(cfg, b, rest, now).0.rows.data
    ensures SettleAll(cfg, b, rest + [last], now).0 == SettleRow(cfg, SettleAll(cfg, b, rest, now).0, last, now).0
  {
    assert (rest + [last])[..|rest|] == rest && last in rest + [last];
    assert forall id | id in rest :: id in rest + [last];
    hide SettleRow;
  }

  lemma SettleAllAddsOne(cfg: Setup, b: Books, rest: seq<AttemptId>, last: AttemptId, now: Time,
                         rows: map<AttemptId, Row>, before: seq<(AttemptId, Transition)>)
    returns (added: seq<(AttemptId, Transition)>)
    requires (forall id | id in rest + [last] :: id in b.rows.data) && InAgeOrder(rows, rest + [last])
    requires forall id | id in rest :: id in b.rows.data
    requires SettleAll(cfg, b, rest, now).0.transitions == b.transitions + before && OldestFirst(rows, rest, before)
    ensures SettleAll(cfg, b, rest + [last], now).0.transitions == b.transitions + added
    ensures OldestFirst(rows, rest + [last], added)
  {
    hide InAgeOrder, SettleAll, SettleRow, OldestFirst;
    SettleAllLast(cfg, b, rest, last, now);
    var one := SettleAdds(cfg, SettleAll(cfg, b, rest, now).0, last, now);
    OneMoreAdded(rows, rest, last, before, one);
    added := before + one;
    assert b.transitions + before + one == b.transitions + added;
  }

  lemma {:induction false} SettleAllAdds(cfg: Setup, b: Books, ids: seq<AttemptId>, now: Time,
                                         rows: map<AttemptId, Row>)
    returns (added: seq<(AttemptId, Transition)>)
    requires (forall id | id in ids :: id in b.rows.data) && InAgeOrder(rows, ids)
    ensures SettleAll(cfg, b, ids, now).0.transitions == b.transitions + added
    ensures OldestFirst(rows, ids, added)
    decreases |ids|
  {
    hide InAgeOrder, SettleRow, OldestFirst;
    added := [];
    if ids == [] {
      NoneIsOldest(rows);
    } else {
      hide SettleAll;
      var rest, last := ids[..|ids| - 1], ids[|ids| - 1];
      assert ids == rest + [last];
      assert forall id | id in rest :: id in ids;
      PrefixInOrder(rows, rest, last);
      var before := SettleAllAdds(cfg, b, rest, now, rows);
      added := SettleAllAddsOne(cfg, b, rest, last, now, rows, before);
    }
  }

  lemma NoneIsOldest(rows: map<AttemptId, Row>)
    ensures OldestFirst(rows, [], [])
  {
  }

  lemma PrefixInOrder(rows: map<AttemptId, Row>, rest: seq<AttemptId>, last: AttemptId)
    ensures InAgeOrder(rows, rest + [last]) ==> InAgeOrder(rows, rest)
  {
    assert forall i | 0 <= i < |rest| :: (rest + [last])[i] == rest[i];
    assert forall id | id in rest :: id in rest + [last];
  }

  lemma OlderIsTotal(rows: Dict<AttemptId, Row>, ids: seq<AttemptId>)
    requires forall id | id in ids :: id in rows.data
    ensures TotalPreorderOn(OlderFirst(rows), ids)
  {
  }

  lemma OpenIdsAreInOrder(rows: Dict<AttemptId, Row>)
    ensures InAgeOrder(rows.data, OpenIds(rows))
  {
    var open := Filter(rows.keys, IsOpenIn(rows));
    OpenIdsPresent(rows);
    FilterMembers(rows.keys, IsOpenIn(rows));
    OlderIsTotal(rows, open);
    SortSorts(open, OlderFirst(rows));
    var ids := OpenIds(rows);
    forall i, j | 0 <= i < j < |ids| ensures rows.data[ids[i]].at <= rows.data[ids[j]].at {
      assert OlderFirst(rows)(ids[i], ids[j]);
    }
  }

  /** A reconcile closes older rows before newer ones: the transitions it adds are in the order
      of the rows' times. */
  lemma ReconcileIsOldestFirst(cfg: Setup, b: Books, now: Time) returns (added: seq<(AttemptId, Transition)>)
    requires Filed(b.reminders)
    ensures RunReconcile(cfg, b, now).transitions == b.transitions + added
    ensures OldestFirst(b.rows.data, OpenIds(b.rows), added)
  {
    var keys := Take(DueKeys(cfg.engine, b.reminders, now), RECONCILE_LIMIT);
    RescheduleIs(b, keys, now);
    OpenIdsAreInOrder(b.rows);
    hide OpenIds, DueKeys, Reschedule, RescheduledAmong;
    added := SettleAllAdds(cfg, Reschedule(b, keys, now), OpenIds(b.rows), now, b.rows.data);
  }

  /** The next process starts from zero over the same tables. */
  lemma RestartIsExact(cfg: Setup, moves: seq<Move>)
    ensures var b, b' := After(cfg, moves), After(cfg, moves + [Restart]);
            && b'.reminders == b.reminders && b'.rows == b.rows && b'.transitions == b.transitions
            && b'.assignedTotal == b'.promotedTotal == b'.demotedTotal == b'.openGauge == 0
            && b'.openAtStart == OpenCount(b.rows)
  {
    OneMove(cfg, moves, Restart);
  }
}
