/** What each engine step does to the store, in closed form: the folds over reminders
    replaced by one map each. The invariants are proved from these. */
module EngineEffects {
  import opened Text
  import opened Sorting
  import opened Destination
  import opened Engine

  type Reminders = map<Key, Reminder>

  /** s' differs from s at most in its reminders and its audit log. */
  ghost predicate OnlyReminders(s: State, s': State) {
    s' == s.(reminders := s'.reminders, audit := s'.audit)
  }

  // ---------- Scheduling ----------

  function Fresh(cfg: Config, targets: map<PersonId, Target>, e: Event, p: PersonId): Reminder {
    NewReminder(cfg, e, p, if p in targets && targets[p].timezone.Some? then Scheduled else Blocked)
  }

  ghost predicate Untouched(data: Reminders, e: Event) {
    forall k | k in data :: !(k.event == e.id && k.version == e.version)
  }

  ghost function Scheduling(cfg: Config, targets: map<PersonId, Target>, e: Event, people: seq<PersonId>): Reminders {
    map p | p in people :: KeyOf(cfg, e, p) := Fresh(cfg, targets, e, p)
  }

  lemma SchedulingKeys(cfg: Config, targets: map<PersonId, Target>, e: Event, people: seq<PersonId>, k: Key)
    ensures k in Scheduling(cfg, targets, e, people) <==> k.recipient in people && k == KeyOf(cfg, e, k.recipient)
    ensures k in Scheduling(cfg, targets, e, people) ==>
              Scheduling(cfg, targets, e, people)[k] == Fresh(cfg, targets, e, k.recipient)
  {
    forall p | p in people ensures KeyOf(cfg, e, p).recipient == p {
    }
  }

  lemma ScheduleOneEffect(cfg: Config, s: State, e: Event, p: PersonId)
    requires s.reminders.Valid()
    requires KeyOf(cfg, e, p) in s.reminders.data ==>
               s.reminders.data[KeyOf(cfg, e, p)] == Fresh(cfg, s.targets, e, p)
    ensures var s' := ScheduleOne(cfg, s, e, p);
            && OnlyReminders(s, s') && s'.reminders.Valid()
            && s'.reminders.data == s.reminders.data[KeyOf(cfg, e, p) := Fresh(cfg, s.targets, e, p)]
  {
  }

  /** s' is s after the reminders of e for these people were scheduled. */
  ghost predicate ScheduledFor(cfg: Config, s: State, s': State, e: Event, people: seq<PersonId>) {
    && OnlyReminders(s, s') && s'.reminders.Valid()
    && s'.reminders.data == s.reminders.data + Scheduling(cfg, s.targets, e, people)
  }

  lemma ScheduleNext(cfg: Config, s: State, s1: State, e: Event, rest: seq<PersonId>, p: PersonId) returns (s2: State)
    requires Untouched(s.reminders.data, e) && ScheduledFor(cfg, s, s1, e, rest)
    ensures s2 == ScheduleOne(cfg, s1, e, p) && ScheduledFor(cfg, s, s2, e, rest + [p])
  {
    var k := KeyOf(cfg, e, p);
    SchedulingKeys(cfg, s.targets, e, rest, k);
    s2 := ScheduleOne(cfg, s1, e, p);
    ScheduleOneEffect(cfg, s1, e, p);
    SchedulingGrows(cfg, s.targets, e, rest, p);
    MergeUpdate(s.reminders.data, Scheduling(cfg, s.targets, e, rest), k, Fresh(cfg, s.targets, e, p));
  }

  lemma ScheduledForNobody(cfg: Config, s: State, e: Event)
    requires s.reminders.Valid()
    ensures ScheduledFor(cfg, s, s, e, [])
  {
    assert Scheduling(cfg, s.targets, e, []) == map[];
  }

  lemma {:induction false} ScheduleEffect(cfg: Config, s: State, e: Event, people: seq<PersonId>)
    requires s.reminders.Valid() && Untouched(s.reminders.data, e)
    ensures ScheduledFor(cfg, s, Schedule(cfg, s, e, people), e, people)
    decreases |people|
  {
    hide ScheduledFor, ScheduleOne;
    if people == [] {
      ScheduledForNobody(cfg, s, e);
    } else {
      var rest, p := people[..|people| - 1], people[|people| - 1];
      ScheduleEffect(cfg, s, e, rest);
      var s2 := ScheduleNext(cfg, s, Schedule(cfg, s, e, rest), e, rest, p);
      assert people == rest + [p];
    }
  }

  lemma MergeUpdate(a: Reminders, b: Reminders, k: Key, r: Reminder)
    ensures (a + b)[k := r] == a + b[k := r]
  {
  }

  lemma SchedulingGrows(cfg: Config, targets: map<PersonId, Target>, e: Event, people: seq<PersonId>, p: PersonId)
    ensures Scheduling(cfg, targets, e, people + [p])
         == Scheduling(cfg, targets, e, people)[KeyOf(cfg, e, p) := Fresh(cfg, targets, e, p)]
  {
    var a := Scheduling(cfg, targets, e, people + [p]);
    var b := Scheduling(cfg, targets, e, people)[KeyOf(cfg, e, p) := Fresh(cfg, targets, e, p)];
    assert forall q :: q in people + [p] <==> q in people || q == p;
    assert a.Keys == b.Keys;
  }

  // ---------- Invalidation ----------

  function Invalidated1(r: Reminder, id: EventId, version: nat, now: Time): Reminder {
    if MustInvalidate(r, id, version, now) then r.(status := Invalidated) else r
  }

  ghost function Invalidating(data: Reminders, keys: seq<Key>, id: EventId, version: nat, now: Time): Reminders {
    map k | k in data :: if k in keys then Invalidated1(data[k], id, version, now) else data[k]
  }

  lemma InvalidateOneEffect(s: State, k: Key, id: EventId, version: nat, now: Time, reason: Reason)
    requires Filed(s.reminders)
    ensures var s' := InvalidateOne(s, k, id, version, now, reason);
            && OnlyReminders(s, s') && Filed(s'.reminders) && s'.reminders.keys == s.reminders.keys
            && s'.reminders.data == if k in s.reminders.data
                                    then s.reminders.data[k := Invalidated1(s.reminders.data[k], id, version, now)]
                                    else s.reminders.data
  {
    if k in s.reminders.data && !MustInvalidate(s.reminders.data[k], id, version, now) {
      assert s.reminders.data[k := s.reminders.data[k]] == s.reminders.data;
    }
  }

  lemma InvalidatingGrows(data: Reminders, keys: seq<Key>, k: Key, id: EventId, version: nat, now: Time)
    ensures Invalidating(data, keys + [k], id, version, now)
         == if k in data
            then Invalidating(data, keys, id, version, now)
                   [k := Invalidated1(Invalidating(data, keys, id, version, now)[k], id, version, now)]
            else Invalidating(data, keys, id, version, now)
  {
    assert forall x :: x in keys + [k] <==> x in keys || x == k;
  }

  lemma {:induction false} InvalidateEffect(s: State, keys: seq<Key>, id: EventId, version: nat, now: Time,
                                            reason: Reason)
    requires Filed(s.reminders)
    ensures var s' := Invalidate(s, keys, id, version, now, reason);
            && OnlyReminders(s, s') && Filed(s'.reminders) && s'.reminders.keys == s.reminders.keys
            && s'.reminders.data == Invalidating(s.reminders.data, keys, id, version, now)
    decreases |keys|
  {
    if keys == [] {
      assert Invalidating(s.reminders.data, keys, id, version, now) == s.reminders.data;
    } else {
      var rest, k := keys[..|keys| - 1], keys[|keys| - 1];
      var s1 := Invalidate(s, rest, id, version, now, reason);
      InvalidateEffect(s, rest, id, version, now, reason);
      InvalidateOneEffect(s1, k, id, version, now, reason);
      InvalidatingGrows(s.reminders.data, rest, k, id, version, now);
      assert keys == rest + [k];
    }
  }

  ghost function InvalidatingAll(data: Reminders, id: EventId, version: nat, now: Time): Reminders {
    map k | k in data :: Invalidated1(data[k], id, version, now)
  }

  lemma InvalidateAllEffect(cfg: Config, s: State, id: EventId, version: nat, now: Time, reason: Reason)
    requires Filed(s.reminders)
    ensures var s' := Invalidate(s, KeysInOrder(cfg, s.reminders.keys), id, version, now, reason);
            && OnlyReminders(s, s') && Filed(s'.reminders)
            && s'.reminders.data == InvalidatingAll(s.reminders.data, id, version, now)
  {
    var keys := KeysInOrder(cfg, s.reminders.keys);
    SortKeepsElements(s.reminders.keys, DedupeOrder(cfg));
    InvalidateEffect(s, keys, id, version, now, reason);
  }

  // ---------- Reconciliation ----------

  function Reconciled1(r: Reminder, now: Time): Reminder {
    if MustReconcile(r, now) then r.(status := Scheduled, next := None) else r
  }

  ghost function Reconciling(data: Reminders, keys: seq<Key>, now: Time): Reminders {
    map k | k in data :: if k in keys then Reconciled1(data[k], now) else data[k]
  }

  lemma ReconcileOneEffect(s: State, k: Key, now: Time)
    requires Filed(s.reminders)
    ensures var s' := ReconcileOne(s, k, now);
            && OnlyReminders(s, s') && Filed(s'.reminders) && s'.reminders.keys == s.reminders.keys
            && s'.reminders.data == if k in s.reminders.data
                                    then s.reminders.data[k := Reconciled1(s.reminders.data[k], now)]
                                    else s.reminders.data
  {
    if k in s.reminders.data && !MustReconcile(s.reminders.data[k], now) {
      assert s.reminders.data[k := s.reminders.data[k]] == s.reminders.data;
    }
  }

  lemma ReconcilingLast(data: Reminders, rest: seq<Key>, k: Key, now: Time)
    ensures var before := Reconciling(data, rest, now);
            Reconciling(data, rest + [k], now) ==
            if k in data then before[k := Reconciled1(before[k], now)] else before
  {
    assert forall x :: x in rest + [k] <==> x in rest || x == k;
  }

  lemma {:induction false} ReconcileEffect(s: State, keys: seq<Key>, now: Time)
    requires Filed(s.reminders)
    ensures var s' := ReconcileAll(s, keys, now);
            && OnlyReminders(s, s') && Filed(s'.reminders) && s'.reminders.keys == s.reminders.keys
            && s'.reminders.data == Reconciling(s.reminders.data, keys, now)
    decreases |keys|
  {
    if keys == [] {
      assert Reconciling(s.reminders.data, keys, now) == s.reminders.data;
    } else {
      var rest, k := keys[..|keys| - 1], keys[|keys| - 1];
      ReconcileEffect(s, rest, now);
      ReconcileOneEffect(ReconcileAll(s, rest, now), k, now);
      assert keys == rest + [k];
      ReconcilingLast(s.reminders.data, rest, k, now);
    }
  }

  // ---------- Intents ----------

  /** s' is s after one new version e of an event, made by mutation m: the version is
      appended, the event's older reminders are invalidated, and, unless the version
      cancels the event, one reminder for each person of its audience is added. */
  ghost predicate NewVersion(cfg: Config, s: State, s': State, e: Event, m: Mutation) {
    && s'.versions == s.versions[e.id := (if e.id in s.versions then s.versions[e.id] else []) + [e]]
    && s'.history == s.history[e.id := (if e.id in s.history then s.history[e.id] else []) + [m]]
    && e.version == (if e.id in s.versions then |s.versions[e.id]| else 0) + 1
    && (e.id !in s.versions ==> e.id == s.counter + 1 && s'.counter == e.id)
    && (e.id in s.versions ==> s'.counter == s.counter)
    && Filed(s'.reminders)
    && s'.reminders.data == InvalidatingAll(s.reminders.data, e.id, e.version, m.at)
                            + Scheduling(cfg, s.targets, e, if e.active then e.audience else [])
  }

  /** Version numbers count from one in every event, and reminders belong to versions that exist. */
  ghost predicate Numbered(s: State) {
    && s.versions.Keys == s.history.Keys
    && (forall id | id in s.versions ::
          && 1 <= id <= s.counter && s.versions[id] != [] && |s.history[id]| == |s.versions[id]|
          && forall j | 0 <= j < |s.versions[id]| :: s.versions[id][j].id == id && s.versions[id][j].version == j + 1)
    && Filed(s.reminders)
    && (forall k | k in s.reminders.data ::
          && s.reminders.data[k].event == k.event && s.reminders.data[k].version == k.version
          && k.event in s.versions && 1 <= k.version <= |s.versions[k.event]|)
  }

  ghost predicate NoMutation(s: State, s': State) {
    && s'.versions == s.versions && s'.history == s.history && s'.reminders == s.reminders
    && s.counter <= s'.counter <= s.counter + 1
  }

  /** The parts no intent touches. */
  ghost predicate SameDeliveries(s: State, s': State) {
    && s'.attempts == s.attempts && s'.calls == s.calls && s'.visible == s.visible
    && s'.targets == s.targets && s'.mode == s.mode
  }

  /** What intent i set explicitly in the version e it made. */
  function ExplicitIn(i: Intent, e: Event, now: Time): Mutation {
    Mutation(now, Explicit(i.eventOverride, e.eventOverride), Explicit(i.requestDefault, e.requestDefault))
  }

  lemma NothingToInvalidate(s: State, id: EventId, version: nat, now: Time)
    requires Numbered(s) && id !in s.versions
    ensures InvalidatingAll(s.reminders.data, id, version, now) == s.reminders.data
  {
  }

  /** Where a create that succeeds stands before it schedules the reminders. */
  ghost function Created(cfg: Config, s: State, i: Intent, e: Event, m: Mutation): State {
    Log(s, "timezone", ResolveTimezone(cfg, i, []).1, NoSubject)
      .(counter := s.counter + 1, versions := s.versions[e.id := [e]], history := s.history[e.id := [m]])
  }

  lemma CreateShape(cfg: Config, s: State, i: Intent, now: Time)
    ensures var (s', made) := CreateEvent(cfg, s, i, now);
            && (!made.Made? ==>
                  s' == s.(audit := s'.audit, counter := s'.counter) && s.counter <= s'.counter <= s.counter + 1)
            && (made.Made? ==>
                  var e := made.event;
                  && e.id == s.counter + 1 && e.version == 1 && e.active
                  && ResolveField(i.eventOverride, UNSET) == Accepted(e.eventOverride)
                  && ResolveField(i.requestDefault, UNSET) == Accepted(e.requestDefault)
                  && s' == Schedule(cfg, Created(cfg, s, i, e, ExplicitIn(i, e, now)), e, e.audience))
  {
    hide Schedule, ResolveField, ResolveTimezone, SortPeople;
  }

  lemma CreateEffect(cfg: Config, s: State, i: Intent, now: Time)
    requires Numbered(s)
    ensures var (s', made) := CreateEvent(cfg, s, i, now);
            && SameDeliveries(s, s') && s'.receipts == s.receipts
            && (made.Made? ==>
                  NewVersion(cfg, s, s', made.event, ExplicitIn(i, made.event, now))
                  && ResolveField(i.eventOverride, UNSET) == Accepted(made.event.eventOverride)
                  && ResolveField(i.requestDefault, UNSET) == Accepted(made.event.requestDefault)
                  && made.event.id !in s.versions && made.event.active)
            && (!made.Made? ==> NoMutation(s, s'))
  {
    CreateShape(cfg, s, i, now);
    var made := CreateEvent(cfg, s, i, now).1;
    if made.Made? {
      ScheduledIsNewVersion(cfg, s, i, made.event, now);
    }
  }

  lemma ScheduledIsNewVersion(cfg: Config, s: State, i: Intent, e: Event, now: Time)
    requires Numbered(s) && e.id == s.counter + 1 && e.version == 1 && e.active
    ensures var m := ExplicitIn(i, e, now);
            var s' := Schedule(cfg, Created(cfg, s, i, e, m), e, e.audience);
            NewVersion(cfg, s, s', e, m) && SameDeliveries(s, s') && s'.receipts == s.receipts
  {
    var m := ExplicitIn(i, e, now);
    assert e.id !in s.versions;
    ScheduleEffect(cfg, Created(cfg, s, i, e, m), e, e.audience);
    NothingToInvalidate(s, e.id, e.version, now);
    assert [] + [e] == [e] && [] + [m] == [m];
  }

  lemma UpdateEffect(cfg: Config, s: State, id: EventId, i: Intent, now: Time)
    requires Numbered(s) && id in s.versions
    ensures var (s', made) := UpdateEvent(cfg, s, id, i, now);
            && SameDeliveries(s, s') && s'.receipts == s.receipts
            && (made.Made? ==>
                  NewVersion(cfg, s, s', made.event, ExplicitIn(i, made.event, now))
                  && ResolveField(i.eventOverride, Latest(s, id).eventOverride) == Accepted(made.event.eventOverride)
                  && ResolveField(i.requestDefault, Latest(s, id).requestDefault) == Accepted(made.event.requestDefault)
                  && made.event.id == id && made.event.active)
            && (!made.Made? ==> NoMutation(s, s'))
  {
    var (s', made) := UpdateEvent(cfg, s, id, i, now);
    if made.Made? {
      var e := made.event;
      var (tz, tzReason) := ResolveTimezone(cfg, i, Latest(s, id).timezone);
      var s1 := Log(s, "timezone", tzReason, NoSubject);
      var m := ExplicitIn(i, e, now);
      var s2 := AppendVersion(s1, e, m);
      var s3 := Invalidate(s2, KeysInOrder(cfg, s2.reminders.keys), id, e.version, now, UpdatedRegenerated);
      InvalidateAllEffect(cfg, s2, id, e.version, now, UpdatedRegenerated);
      ScheduleEffect(cfg, s3, e, e.audience);
      assert s' == Schedule(cfg, s3, e, e.audience);
    }
  }

  /** The last version of an event, as a cancel leaves it. */
  function Cancelled(current: Event): Event {
    current.(version := current.version + 1, active := false)
  }

  lemma AppendedIsNewVersion(cfg: Config, s: State, s1: State, s': State, e: Event, m: Mutation)
    requires Numbered(s) && e.id in s.versions && e.version == |s.versions[e.id]| + 1 && !e.active
    requires s1 == AppendVersion(s, e, m) && OnlyReminders(s1, s') && Filed(s'.reminders)
    requires s'.reminders.data == InvalidatingAll(s.reminders.data, e.id, e.version, m.at)
    ensures NewVersion(cfg, s, s', e, m)
  {
    assert Scheduling(cfg, s.targets, e, []) == map[];
  }

  lemma CancelEffect(cfg: Config, s: State, id: EventId, now: Time)
    requires Numbered(s) && id in s.versions
    ensures var (s', made) := CancelEvent(cfg, s, id, now);
            && SameDeliveries(s, s') && s'.receipts == s.receipts
            && made.Made?
            && NewVersion(cfg, s, s', made.event, Mutation(now, None, None))
            && made.event == Cancelled(Latest(s, id))
  {
    var e, m := Cancelled(Latest(s, id)), Mutation(now, None, None);
    var s1 := AppendVersion(s, e, m);
    InvalidateAllEffect(cfg, s1, id, e.version, now, CancelInvalidated);
    AppendedIsNewVersion(cfg, s, s1, CancelEvent(cfg, s, id, now).0, e, m);
  }

  /** The destinations of a new version: explicit settings, else those of the version before. */
  ghost predicate Inherits(s: State, e: Event, m: Mutation) {
    var overrideBefore := if HasLatest(s, e.id) then Latest(s, e.id).eventOverride else UNSET;
    var defaultBefore := if HasLatest(s, e.id) then Latest(s, e.id).requestDefault else UNSET;
    && e.eventOverride == (if m.eventOverride.Some? then m.eventOverride.value else overrideBefore)
    && e.requestDefault == (if m.requestDefault.Some? then m.requestDefault.value else defaultBefore)
    && (WellFormed(overrideBefore) ==> WellFormed(e.eventOverride))
    && (WellFormed(defaultBefore) ==> WellFormed(e.requestDefault))
  }

  lemma InheritsResolved(i: Intent, s: State, e: Event, m: Mutation)
    requires var o := if HasLatest(s, e.id) then Latest(s, e.id).eventOverride else UNSET;
             var d := if HasLatest(s, e.id) then Latest(s, e.id).requestDefault else UNSET;
             && ResolveField(i.eventOverride, o) == Accepted(e.eventOverride)
             && ResolveField(i.requestDefault, d) == Accepted(e.requestDefault)
             && m.eventOverride == Explicit(i.eventOverride, e.eventOverride)
             && m.requestDefault == Explicit(i.requestDefault, e.requestDefault)
    ensures Inherits(s, e, m)
  {
    var o := if HasLatest(s, e.id) then Latest(s, e.id).eventOverride else UNSET;
    var d := if HasLatest(s, e.id) then Latest(s, e.id).requestDefault else UNSET;
    if WellFormed(o) {
      ResolveFieldWellFormed(i.eventOverride, o);
    }
    if WellFormed(d) {
      ResolveFieldWellFormed(i.requestDefault, d);
    }
  }

  /** What reaching the mutation stage does: nothing to events and reminders, or one new version. */
  lemma MutateEffect(cfg: Config, s: State, i: Intent, now: Time) returns (m: Mutation)
    requires Numbered(s)
    ensures var (s', made) := Mutate(cfg, s, i, ResolveEvent(cfg, s, i).0, now);
            && SameDeliveries(s, s') && s'.receipts == s.receipts
            && (made.Made? ==> NewVersion(cfg, s, s', made.event, m) && Inherits(s, made.event, m) && m.at == now)
            && (!made.Made? ==> NoMutation(s, s'))
  {
    var resolved := ResolveEvent(cfg, s, i).0;
    ResolvedExists(cfg, s, i);
    m := Mutation(now, None, None);
    if i.action.Cancel? {
      if resolved.Some? {
        CancelEffect(cfg, s, resolved.value, now);
      }
    } else if resolved.Some? && i.action in {Update, Create} {
      UpdateEffect(cfg, s, resolved.value, i, now);
      var (s', made) := UpdateEvent(cfg, s, resolved.value, i, now);
      if made.Made? {
        m := ExplicitIn(i, made.event, now);
        InheritsResolved(i, s, made.event, m);
      }
    } else {
      CreateEffect(cfg, s, i, now);
      var (s', made) := CreateEvent(cfg, s, i, now);
      if made.Made? {
        m := ExplicitIn(i, made.event, now);
        InheritsResolved(i, s, made.event, m);
      }
    }
  }

  lemma ResolvedExists(cfg: Config, s: State, i: Intent)
    ensures var r := ResolveEvent(cfg, s, i).0; r.Some? ==> r.value in s.versions
  {
    CandidatesExist(cfg, s.versions, i, s.counter);
    var candidates := Candidates(cfg, s.versions, i, s.counter);
    if |candidates| == 1 {
      assert candidates[0] in candidates;
    }
  }

  lemma CandidatesExist(cfg: Config, versions: map<EventId, seq<Event>>, i: Intent, n: nat)
    ensures forall id | id in Candidates(cfg, versions, i, n) :: IsCandidate(cfg, versions, i, id)
  {
  }

  /** The mutation an intake reaches, if it reaches one: the intent is then well shaped, its
      message and its hash are new, nothing is missing, no ambiguity, and it is confirmed. */
  ghost function Reached(cfg: Config, s: State, raw: Intent, now: Time): Option<Intent> {
    match LiftIntent(raw)
    case Rejected => None
    case Accepted(i) =>
      if && i.key !in s.receipts.data
         && FindRecent(s.receipts, IntentHash(i), now, cfg.windowHours).None?
         && MissingFields(i) == []
         && !ResolveEvent(cfg, s, i).1.ResolverAmbiguous?
         && i.confirmed
      then Some(i) else None
  }

  /** Anything short of the mutation stage only writes the audit log and a receipt. */
  lemma NotReachedIsQuiet(cfg: Config, s: State, raw: Intent, now: Time)
    requires Reached(cfg, s, raw, now).None?
    ensures var s' := ProcessIntent(cfg, s, raw, now).0;
            s' == s.(audit := s'.audit, receipts := s'.receipts)
  {
    if LiftIntent(raw).Accepted? {
      var s1 := Log(s, "intake", ResolverNoMatch, NoSubject);
      assert ResolveEvent(cfg, s1, LiftIntent(raw).value) == ResolveEvent(cfg, s, LiftIntent(raw).value);
    }
  }

  /** The state in which the mutation stage starts. */
  ghost function BeforeMutation(cfg: Config, s: State, i: Intent): State {
    Log(Log(s, "intake", ResolverNoMatch, NoSubject), "resolver", ResolveEvent(cfg, s, i).1,
        EventSubject(ResolveEvent(cfg, s, i).0))
  }

  lemma ReachedMutates(cfg: Config, s: State, raw: Intent, now: Time)
    requires Reached(cfg, s, raw, now).Some?
    ensures var i := Reached(cfg, s, raw, now).value;
            var s2 := BeforeMutation(cfg, s, i);
            var (resolved, code) := ResolveEvent(cfg, s2, i);
            var (s3, made) := Mutate(cfg, s2, i, resolved, now);
            && (resolved, code) == ResolveEvent(cfg, s, i)
            && ProcessIntent(cfg, s, raw, now) ==
               match made
               case Made(e) => SaveReceipt(s3, i.key, IntentHash(i), Mutated(e.id, e.version, code), now)
               case BadDestination =>
                 SaveReceipt(Log(s3, "mutation", FailedConfigInvalidTarget, NoSubject), i.key, IntentHash(i),
                             BlockedDestination(resolved), now)
               case Exception => (s3, Raised)
  {
    var i := Reached(cfg, s, raw, now).value;
    var s1 := Log(s, "intake", ResolverNoMatch, NoSubject);
    assert ResolveEvent(cfg, s1, i) == ResolveEvent(cfg, s, i);
  }

  /** Of a mutation that is reached, only the audit log and the receipts are added to, and the
      answer says whether it made a version, and which. */
  lemma ReachedAnswers(cfg: Config, s: State, raw: Intent, now: Time)
    requires Reached(cfg, s, raw, now).Some?
    ensures var i := Reached(cfg, s, raw, now).value;
            var s2 := BeforeMutation(cfg, s, i);
            var (s3, made) := Mutate(cfg, s2, i, ResolveEvent(cfg, s2, i).0, now);
            var (s', outcome) := ProcessIntent(cfg, s, raw, now);
            && s' == s3.(audit := s'.audit, receipts := s'.receipts)
            && (made.Made? <==> outcome.Returned? && outcome.result.Mutated?)
            && (made.Made? ==> outcome.result.eventId == made.event.id && outcome.result.version == made.event.version)
  {
    ReachedMutates(cfg, s, raw, now);
  }

  /** The event tables and reminders change exactly when an intent that reaches the mutation
      stage is answered with a new version, and then by exactly that version. */
  lemma IntakeEffect(cfg: Config, s: State, raw: Intent, now: Time) returns (made: Option<Event>, m: Mutation)
    requires Numbered(s)
    ensures var (s', outcome) := ProcessIntent(cfg, s, raw, now);
            && SameDeliveries(s, s')
            && (made.None? ==> NoMutation(s, s'))
            && (made.Some? <==>
                  Reached(cfg, s, raw, now).Some? && outcome.Returned? && outcome.result.Mutated?)
            && (made.Some? ==>
                  && NewVersion(cfg, s, s', made.value, m) && Inherits(s, made.value, m) && m.at == now
                  && Reached(cfg, s, raw, now).Some?
                  && outcome.Returned? && outcome.result.Mutated?
                  && outcome.result.eventId == made.value.id && outcome.result.version == made.value.version)
  {
    made, m := None, Mutation(now, None, None);
    if Reached(cfg, s, raw, now).None? {
      NotReachedIsQuiet(cfg, s, raw, now);
    } else {
      var i := Reached(cfg, s, raw, now).value;
      var s2 := BeforeMutation(cfg, s, i);
      ReachedAnswers(cfg, s, raw, now);
      m := MutateEffect(cfg, s2, i, now);
      var outcome := Mutate(cfg, s2, i, ResolveEvent(cfg, s2, i).0, now).1;
      made := if outcome.Made? then Some(outcome.event) else None;
    }
  }
}
