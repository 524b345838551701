/** Invariants of the event and reminder tables over every run of the engine. */
module EngineTables {
  import opened OrderedDict
  import opened Sorting
  import opened Destination
  import opened Engine
  import opened EngineEffects

  /** The version of the event that a reminder was made for. */
  ghost function VersionOf(s: State, k: Key): Event
    requires Numbered(s) && k in s.reminders.data
  {
    s.versions[k.event][k.version - 1]
  }

  /** A reminder repeats its key and carries the destinations of its version. */
  ghost predicate Faithful(cfg: Config, r: Reminder, e: Event) {
    && e.active && r.recipient in e.audience
    && r.dedupeKey == KeyOf(cfg, e, r.recipient)
    && r.event == e.id && r.version == e.version
    && r.trigger == Trigger(cfg, e) && r.offset == e.offsetMinutes
    && r.eventOverride == e.eventOverride && r.requestDefault == e.requestDefault
  }

  /** The table holds the reminder of every person in the audience of every active version, and no other. */
  ghost predicate TableExact(cfg: Config, s: State)
    requires Numbered(s)
  {
    && (forall k | k in s.reminders.data :: Faithful(cfg, s.reminders.data[k], VersionOf(s, k)))
    && (forall id, j, p | id in s.versions && 0 <= j < |s.versions[id]| && p in s.versions[id][j].audience ::
          s.versions[id][j].active ==> KeyOf(cfg, s.versions[id][j], p) in s.reminders.data)
  }

  /** A reminder of a superseded version that can still be sent was already due to trigger
      when its version was superseded. */
  ghost predicate SupersededAreDead(s: State)
    requires Numbered(s)
  {
    forall k | k in s.reminders.data ::
      IsSchedulable(s.reminders.data[k].status) && k.version < |s.versions[k.event]| ==>
        s.reminders.data[k].trigger <= s.history[k.event][k.version].at
  }

  /** The last explicit setting in an event's history; unset when there is none. */
  ghost function LastOverride(ms: seq<Mutation>): Dest
    decreases |ms|
  {
    if ms == [] then UNSET
    else if ms[|ms| - 1].eventOverride.Some? then ms[|ms| - 1].eventOverride.value
    else LastOverride(ms[..|ms| - 1])
  }

  ghost function LastDefault(ms: seq<Mutation>): Dest
    decreases |ms|
  {
    if ms == [] then UNSET
    else if ms[|ms| - 1].requestDefault.Some? then ms[|ms| - 1].requestDefault.value
    else LastDefault(ms[..|ms| - 1])
  }

  ghost predicate DestinationsFollow(s: State)
    requires Numbered(s)
  {
    forall id, j | id in s.versions && 0 <= j < |s.versions[id]| ::
      var e := s.versions[id][j];
      && WellFormed(e.eventOverride) && WellFormed(e.requestDefault)
      && e.eventOverride == LastOverride(s.history[id][..j + 1])
      && e.requestDefault == LastDefault(s.history[id][..j + 1])
  }

  ghost predicate Tables(cfg: Config, s: State) {
    Numbered(s) && TableExact(cfg, s) && SupersededAreDead(s) && DestinationsFollow(s)
  }

  // ---------- A new version keeps the tables ----------

  /** A reminder under k after a new version: the one of before after the invalidation, or a
      freshly scheduled one of that version. */
  lemma NewVersionEntry(cfg: Config, s: State, s': State, e: Event, m: Mutation, k: Key)
    requires Numbered(s) && NewVersion(cfg, s, s', e, m) && k in s'.reminders.data
    ensures if k in s.reminders.data
            then s'.reminders.data[k] == Invalidated1(s.reminders.data[k], e.id, e.version, m.at)
            else && s'.reminders.data[k] == Fresh(cfg, s.targets, e, k.recipient)
                 && e.active && k.recipient in e.audience && k == KeyOf(cfg, e, k.recipient)
  {
    SchedulingKeys(cfg, s.targets, e, if e.active then e.audience else [], k);
  }

  lemma NewVersionKeyed(cfg: Config, s: State, s': State, e: Event, m: Mutation, k: Key)
    requires Numbered(s) && NewVersion(cfg, s, s', e, m) && k in s'.reminders.data
    ensures s'.reminders.data[k].event == k.event && s'.reminders.data[k].version == k.version
    ensures k.event in s'.versions && 1 <= k.version <= |s'.versions[k.event]|
  {
    NewVersionEntry(cfg, s, s', e, m, k);
    VersionsGrow(cfg, s, s', e, m);
  }

  lemma NewVersionNumbered(cfg: Config, s: State, s': State, e: Event, m: Mutation)
    requires Numbered(s) && NewVersion(cfg, s, s', e, m)
    ensures Numbered(s')
  {
    forall k | k in s'.reminders.data {
      NewVersionKeyed(cfg, s, s', e, m, k);
    }
  }

  lemma VersionsGrow(cfg: Config, s: State, s': State, e: Event, m: Mutation)
    requires Numbered(s) && NewVersion(cfg, s, s', e, m)
    ensures e.id in s'.versions && |s'.versions[e.id]| == e.version && s'.versions[e.id][e.version - 1] == e
    ensures forall id | id in s.versions :: id in s'.versions && s.versions[id] <= s'.versions[id]
  {
  }

  lemma FreshIsFaithful(cfg: Config, targets: map<PersonId, Target>, e: Event, p: PersonId)
    requires e.active && p in e.audience
    ensures Faithful(cfg, Fresh(cfg, targets, e, p), e)
  {
  }

  lemma InvalidatedIsFaithful(cfg: Config, r: Reminder, e: Event, id: EventId, version: nat, now: Time)
    requires Faithful(cfg, r, e)
    ensures Faithful(cfg, Invalidated1(r, id, version, now), e)
  {
  }

  lemma NewVersionOf(cfg: Config, s: State, s': State, e: Event, m: Mutation, k: Key)
    requires Numbered(s) && Numbered(s') && NewVersion(cfg, s, s', e, m) && k in s'.reminders.data
    ensures VersionOf(s', k) == if k in s.reminders.data then VersionOf(s, k) else e
  {
    NewVersionEntry(cfg, s, s', e, m, k);
    VersionsGrow(cfg, s, s', e, m);
  }

  lemma NewVersionFaithful(cfg: Config, s: State, s': State, e: Event, m: Mutation, k: Key)
    requires Numbered(s) && Numbered(s') && TableExact(cfg, s) && NewVersion(cfg, s, s', e, m)
    requires k in s'.reminders.data
    ensures Faithful(cfg, s'.reminders.data[k], VersionOf(s', k))
  {
    NewVersionEntry(cfg, s, s', e, m, k);
    NewVersionOf(cfg, s, s', e, m, k);
    if k in s.reminders.data {
      InvalidatedIsFaithful(cfg, s.reminders.data[k], VersionOf(s, k), e.id, e.version, m.at);
    } else {
      FreshIsFaithful(cfg, s.targets, e, k.recipient);
    }
  }

  lemma NewVersionComplete(cfg: Config, s: State, s': State, e: Event, m: Mutation, id: EventId, j: nat, p: PersonId)
    requires Numbered(s) && TableExact(cfg, s) && NewVersion(cfg, s, s', e, m)
    requires id in s'.versions && j < |s'.versions[id]| && p in s'.versions[id][j].audience && s'.versions[id][j].active
    ensures KeyOf(cfg, s'.versions[id][j], p) in s'.reminders.data
  {
    if id in s.versions && j < |s.versions[id]| {
      assert s'.versions[id][j] == s.versions[id][j];
      assert KeyOf(cfg, s.versions[id][j], p) in s.reminders.data;
    } else {
      assert s'.versions[id][j] == e;
      SchedulingKeys(cfg, s.targets, e, e.audience, KeyOf(cfg, e, p));
    }
  }

  lemma NewVersionExact(cfg: Config, s: State, s': State, e: Event, m: Mutation)
    requires Numbered(s) && Numbered(s') && TableExact(cfg, s) && NewVersion(cfg, s, s', e, m)
    ensures TableExact(cfg, s')
  {
    forall k | k in s'.reminders.data ensures Faithful(cfg, s'.reminders.data[k], VersionOf(s', k)) {
      NewVersionFaithful(cfg, s, s', e, m, k);
    }
    forall id, j, p | id in s'.versions && 0 <= j < |s'.versions[id]| && p in s'.versions[id][j].audience
                      && s'.versions[id][j].active
      ensures KeyOf(cfg, s'.versions[id][j], p) in s'.reminders.data
    {
      NewVersionComplete(cfg, s, s', e, m, id, j, p);
    }
  }

  lemma NewVersionSupersedes(cfg: Config, s: State, s': State, e: Event, m: Mutation)
    requires Numbered(s) && Numbered(s') && SupersededAreDead(s) && NewVersion(cfg, s, s', e, m)
    ensures SupersededAreDead(s')
  {
    forall k | k in s'.reminders.data && IsSchedulable(s'.reminders.data[k].status)
        && k.version < |s'.versions[k.event]|
      ensures s'.reminders.data[k].trigger <= s'.history[k.event][k.version].at
    {
      NewVersionSupersedesAt(cfg, s, s', e, m, k);
    }
  }

  lemma HistoryGrows(cfg: Config, s: State, s': State, e: Event, m: Mutation, id: EventId, version: nat)
    requires Numbered(s) && NewVersion(cfg, s, s', e, m) && id in s.versions && 1 <= version <= |s.versions[id]|
    ensures id in s'.versions && id in s'.history && |s'.history[id]| == |s'.versions[id]|
    ensures version < |s.versions[id]| ==> s'.history[id][version] == s.history[id][version]
    ensures version == |s.versions[id]| < |s'.versions[id]| ==> id == e.id && s'.history[id][version] == m
  {
  }

  lemma NewVersionSupersedesAt(cfg: Config, s: State, s': State, e: Event, m: Mutation, k: Key)
    requires Numbered(s) && SupersededAreDead(s) && NewVersion(cfg, s, s', e, m)
    requires k in s'.reminders.data && IsSchedulable(s'.reminders.data[k].status)
    ensures k.event in s'.versions && k.event in s'.history && k.version < |s'.versions[k.event]| ==>
              k.version < |s'.history[k.event]| && s'.reminders.data[k].trigger <= s'.history[k.event][k.version].at
  {
    NewVersionEntry(cfg, s, s', e, m, k);
    if k in s.reminders.data {
      HistoryGrows(cfg, s, s', e, m, k.event, k.version);
    } else {
      VersionsGrow(cfg, s, s', e, m);
    }
  }

  lemma NewVersionDestinations(cfg: Config, s: State, s': State, e: Event, m: Mutation)
    requires Numbered(s) && Numbered(s') && DestinationsFollow(s) && NewVersion(cfg, s, s', e, m) && Inherits(s, e, m)
    ensures DestinationsFollow(s')
  {
    forall id, j | id in s'.versions && 0 <= j < |s'.versions[id]|
      ensures var x := s'.versions[id][j];
              && WellFormed(x.eventOverride) && WellFormed(x.requestDefault)
              && x.eventOverride == LastOverride(s'.history[id][..j + 1])
              && x.requestDefault == LastDefault(s'.history[id][..j + 1])
    {
      if id in s.versions && j < |s.versions[id]| {
        assert s'.history[id][..j + 1] == s.history[id][..j + 1];
        assert s'.versions[id][j] == s.versions[id][j];
      } else {
        var past := s'.history[id][..j + 1];
        assert past[|past| - 1] == m;
        if id in s.versions {
          assert past[..|past| - 1] == s.history[id] == s.history[id][..j];
          assert Latest(s, id) == s.versions[id][j - 1];
        } else {
          assert past[..|past| - 1] == [];
        }
      }
    }
  }

  lemma NewVersionKeepsTables(cfg: Config, s: State, s': State, e: Event, m: Mutation)
    requires Tables(cfg, s) && NewVersion(cfg, s, s', e, m) && Inherits(s, e, m)
    ensures Tables(cfg, s')
  {
    NewVersionNumbered(cfg, s, s', e, m);
    NewVersionExact(cfg, s, s', e, m);
    NewVersionSupersedes(cfg, s, s', e, m);
    NewVersionDestinations(cfg, s, s', e, m);
  }

  // ---------- Delivering and reconciling keep the tables ----------

  ghost predicate SameButProgress(r: Reminder, r': Reminder) {
    && r' == r.(status := r'.status, attempts := r'.attempts, next := r'.next)
    && (!IsSchedulable(r.status) ==> r' == r)
  }

  /** s' has the events of s and its reminders, each at most further along. */
  ghost predicate Progressed(s: State, s': State) {
    && s'.versions == s.versions && s'.history == s.history && s'.counter == s.counter
    && s'.receipts == s.receipts && s'.targets == s.targets && s'.mode == s.mode
    && s'.reminders.keys == s.reminders.keys && s'.reminders.data.Keys == s.reminders.data.Keys
    && forall k | k in s.reminders.data :: SameButProgress(s.reminders.data[k], s'.reminders.data[k])
  }

  lemma ProgressNumbered(s: State, s': State)
    requires Numbered(s) && Progressed(s, s')
    ensures Numbered(s')
  {
    assert s'.reminders.Valid();
  }

  lemma ProgressExact(cfg: Config, s: State, s': State)
    requires Numbered(s) && Numbered(s') && TableExact(cfg, s) && Progressed(s, s')
    ensures TableExact(cfg, s')
  {
    forall k | k in s'.reminders.data ensures Faithful(cfg, s'.reminders.data[k], VersionOf(s', k)) {
      assert SameButProgress(s.reminders.data[k], s'.reminders.data[k]);
      assert Faithful(cfg, s.reminders.data[k], VersionOf(s, k));
    }
  }

  lemma ProgressSupersedes(s: State, s': State)
    requires Numbered(s) && Numbered(s') && SupersededAreDead(s) && Progressed(s, s')
    ensures SupersededAreDead(s')
  {
    forall k | k in s'.reminders.data && IsSchedulable(s'.reminders.data[k].status)
        && k.version < |s'.versions[k.event]|
      ensures s'.reminders.data[k].trigger <= s'.history[k.event][k.version].at
    {
      assert SameButProgress(s.reminders.data[k], s'.reminders.data[k]);
    }
  }

  lemma ProgressKeepsTables(cfg: Config, s: State, s': State)
    requires Tables(cfg, s) && Progressed(s, s')
    ensures Tables(cfg, s')
  {
    ProgressNumbered(s, s');
    ProgressExact(cfg, s, s');
    ProgressSupersedes(s, s');
    assert DestinationsFollow(s');
  }

  /** s' is s with the reminder k replaced by r, apart from the ledger and the logs. */
  ghost predicate Replaced(s: State, s': State, k: Key, r: Reminder) {
    && s' == s.(reminders := s'.reminders, attempts := s'.attempts, calls := s'.calls, audit := s'.audit,
                visible := s'.visible)
    && s'.reminders == Dict(s.reminders.keys, s.reminders.data[k := r])
  }

  lemma RecordReplaces(s: State, k: Key, r: Reminder, row: Attempt, ok: bool)
    requires Filed(s.reminders) && k in s.reminders.data && r.dedupeKey == k
    ensures Replaced(s, Record(s, r, row, ok), k, r)
  {
  }

  lemma SetAsideReplaces(s: State, k: Key, now: Time, status: Status, rowStatus: AttemptStatus, reason: Reason,
                         text: string)
    requires Filed(s.reminders) && k in s.reminders.data
    ensures var r := s.reminders.data[k];
            Replaced(s, SetAside(s, r, now, status, rowStatus, reason, text), k, r.(status := status))
  {
  }

  lemma AfterReplyProgresses(cfg: Config, r: Reminder, now: Time, p: ProviderResult)
    requires p.Detailed?
    ensures var r2 := AfterReply(cfg, r, now, p).0;
            r2 == r.(status := r2.status, next := r2.next)
  {
  }

  lemma SaveReplaces(s: State, k: Key, r: Reminder)
    requires Filed(s.reminders) && k in s.reminders.data && r.dedupeKey == k
    ensures Replaced(s, SaveReminder(s, r), k, r)
  {
  }

  lemma CallProviderReplaces(cfg: Config, s: State, k: Key, now: Time, provider: Provider)
    returns (r': Reminder)
    requires Filed(s.reminders) && k in s.reminders.data && IsSchedulable(s.reminders.data[k].status)
    ensures Replaced(s, CallProvider(cfg, s, k, now, provider).0, k, r') && SameButProgress(s.reminders.data[k], r')
  {
    var r := Counted(s.reminders.data[k]);
    if k in s.visible {
      r' := r;
      SaveReplaces(s, k, r);
    } else {
      var p := Unpack(provider(r));
      AfterReplyProgresses(cfg, r, now, p);
      r' := AfterReply(cfg, r, now, p).0;
      RecordReplaces(s, k, r', AfterReply(cfg, r, now, p).1, p.ok);
    }
  }

  lemma ReplacedProgresses(s: State, s': State, k: Key, r: Reminder)
    requires Filed(s.reminders) && k in s.reminders.data
    requires Replaced(s, s', k, r) && SameButProgress(s.reminders.data[k], r)
    ensures ProgressedAmong(s, s', [k])
  {
  }

  lemma SetAsideProgresses(s: State, k: Key, now: Time, status: Status, rowStatus: AttemptStatus, reason: Reason,
                           text: string)
    requires Filed(s.reminders) && k in s.reminders.data && IsSchedulable(s.reminders.data[k].status)
    requires status in {Blocked, Suppressed}
    ensures ProgressedAmong(s, SetAside(s, s.reminders.data[k], now, status, rowStatus, reason, text), [k])
  {
    var r := s.reminders.data[k];
    SetAsideReplaces(s, k, now, status, rowStatus, reason, text);
    ReplacedProgresses(s, SetAside(s, r, now, status, rowStatus, reason, text), k, r.(status := status));
  }

  lemma CallProviderProgresses(cfg: Config, s: State, k: Key, now: Time, provider: Provider)
    requires Filed(s.reminders) && k in s.reminders.data && IsSchedulable(s.reminders.data[k].status)
    ensures ProgressedAmong(s, CallProvider(cfg, s, k, now, provider).0, [k])
  {
    var r := CallProviderReplaces(cfg, s, k, now, provider);
    ReplacedProgresses(s, CallProvider(cfg, s, k, now, provider).0, k, r);
  }

  lemma DeliverOneProgresses(cfg: Config, s: State, k: Key, now: Time, provider: Provider)
    requires Filed(s.reminders) && k in s.reminders.data && IsSchedulable(s.reminders.data[k].status)
    ensures ProgressedAmong(s, DeliverOne(cfg, s, k, now, provider).0, [k])
  {
    CallProviderProgresses(cfg, s, k, now, provider);
    SetAsideProgresses(s, k, now, Blocked, BlockedRow, TzMissing, "timezone missing");
    SetAsideProgresses(s, k, now, Suppressed, SuppressedRow, SuppressedQuietHours, "quiet_hours");
  }

  /** Progress from s to s', and only of reminders filed under keys. */
  ghost predicate ProgressedAmong(s: State, s': State, keys: seq<Key>) {
    && Progressed(s, s') && Filed(s'.reminders)
    && forall x | x in s.reminders.data && x !in keys :: s'.reminders.data[x] == s.reminders.data[x]
  }

  lemma ProgressesOnce(s: State, s1: State, s2: State, rest: seq<Key>, last: Key)
    requires ProgressedAmong(s, s1, rest) && ProgressedAmong(s1, s2, [last])
    ensures ProgressedAmong(s, s2, rest + [last])
  {
    assert forall x :: x in rest + [last] <==> x in rest || x == last;
  }

  lemma {:induction false} DeliverAllProgresses(cfg: Config, s: State, keys: seq<Key>, now: Time, provider: Provider)
    returns (s': State)
    requires Filed(s.reminders) && Distinct(keys)
    requires forall k | k in keys :: k in s.reminders.data && IsSchedulable(s.reminders.data[k].status)
    ensures s' == DeliverAll(cfg, s, keys, now, provider).0 && ProgressedAmong(s, s', keys)
    decreases |keys|
  {
    s' := s;
    if keys != [] {
      var rest, last := keys[..|keys| - 1], keys[|keys| - 1];
      assert keys == rest + [last] && last in keys && last !in rest;
      assert forall k | k in rest :: k in keys;
      var s1 := DeliverAllProgresses(cfg, s, rest, now, provider);
      s' := DeliverOne(cfg, s1, last, now, provider).0;
      DeliverOneProgresses(cfg, s1, last, now, provider);
      ProgressesOnce(s, s1, s', rest, last);
    }
  }

  lemma DueKeysDistinct(cfg: Config, reminders: Dict<Key, Reminder>, now: Time)
    requires reminders.Valid()
    ensures Distinct(DueKeys(cfg, reminders, now))
    ensures forall k :: k in DueKeys(cfg, reminders, now) <==> k in reminders.data && IsDue(reminders.data[k], now)
  {
    DueKeysPresent(cfg, reminders, now);
    FilterMembers(reminders.keys, IsDueIn(reminders, now));
    SortDistinct(Filter(reminders.keys, IsDueIn(reminders, now)), DueOrder(cfg));
  }

  lemma DeliverProgresses(cfg: Config, s: State, now: Time, provider: Provider)
    requires Filed(s.reminders)
    ensures Progressed(s, Deliver(cfg, s, now, provider).0)
  {
    if s.mode != CAPTURE_ONLY {
      DueKeysDistinct(cfg, s.reminders, now);
      var s' := DeliverAllProgresses(cfg, s, DueKeys(cfg, s.reminders, now), now, provider);
    }
  }

  lemma ReconcileProgresses(cfg: Config, s: State, now: Time, batchSize: nat)
    requires Filed(s.reminders)
    ensures Progressed(s, Reconcile(cfg, s, now, batchSize).0)
  {
    if s.mode != CAPTURE_ONLY {
      ReconcileEffect(s, Take(DueKeys(cfg, s.reminders, now), batchSize), now);
    }
  }

  // ---------- Runs ----------

  lemma StepKeepsTables(cfg: Config, s: State, op: Op)
    requires Tables(cfg, s)
    ensures Tables(cfg, Step(cfg, s, op))
  {
    match op
    case Intake(i, now) =>
      var made, m := IntakeEffect(cfg, s, i, now);
      if made.Some? {
        NewVersionKeepsTables(cfg, s, Step(cfg, s, op), made.value, m);
      }
    case DeliverDue(now, provider) =>
      DeliverProgresses(cfg, s, now, provider);
      ProgressKeepsTables(cfg, s, Step(cfg, s, op));
    case ReconcileDue(now, n) =>
      ReconcileProgresses(cfg, s, now, n);
      ProgressKeepsTables(cfg, s, Step(cfg, s, op));
    case _ =>
  }

  lemma {:induction false} RunKeepsTables(cfg: Config, s: State, ops: seq<Op>)
    requires Tables(cfg, s)
    ensures Tables(cfg, Run(cfg, s, ops))
    decreases |ops|
  {
    if ops != [] {
      RunKeepsTables(cfg, s, ops[..|ops| - 1]);
      StepKeepsTables(cfg, Run(cfg, s, ops[..|ops| - 1]), ops[|ops| - 1]);
    }
  }
}
