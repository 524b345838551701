/** What an intent says, what it is answered, and what it does to the reminders, in terms of
    its own fields and of the stored tables. */
module EngineAnswers {
  import opened Text
  import opened Destination
  import opened Engine
  import opened EngineEffects
  import opened EngineTables
  import opened EngineReceipts
  import opened EngineTheorems
  import opened EngineIntents

  // ---------- When two intents are the same ----------

  predicate HasSuppliedHash(i: Intent) {
    i.suppliedHash.Some? && |i.suppliedHash.value| > 0
  }

  function People(given: Option<seq<PersonId>>): multiset<PersonId> {
    match given
    case None => multiset{}
    case Some(people) => multiset(people)
  }

  /** A flat payload value; an absent key counts as null. */
  function ValueOf(given: Option<Raw>): Raw {
    match given
    case None => None
    case Some(raw) => raw
  }

  /** The same event, as far as duplicates go: not the message, the all-day flag or the confirmation. */
  predicate SameContent(i: Intent, j: Intent) {
    && i.action == j.action && i.title == j.title && i.start == j.start && i.eventId == j.eventId
    && i.offset == j.offset && i.timezone == j.timezone
    && People(i.participants) == People(j.participants) && People(i.audience) == People(j.audience)
    && ValueOf(i.eventOverride.channel) == ValueOf(j.eventOverride.channel)
    && ValueOf(i.eventOverride.targetRef) == ValueOf(j.eventOverride.targetRef)
    && ValueOf(i.requestDefault.channel) == ValueOf(j.requestDefault.channel)
    && ValueOf(i.requestDefault.targetRef) == ValueOf(j.requestDefault.targetRef)
  }

  lemma SameParts(people: Option<seq<PersonId>>, raw: Option<Raw>)
    ensures multiset(OrEmpty(people)) == People(people) && OrNull(raw) == ValueOf(raw)
  {
  }

  /** Two intents have the same hash exactly when neither brings one and they agree in every
      field that counts, or both bring the same one. */
  lemma HashesAgreeExactly(i: Intent, j: Intent)
    ensures IntentHash(i) == IntentHash(j) <==>
              if HasSuppliedHash(i) && HasSuppliedHash(j) then i.suppliedHash == j.suppliedHash
              else !HasSuppliedHash(i) && !HasSuppliedHash(j) && SameContent(i, j)
  {
    hide People, OrEmpty, ValueOf, OrNull;
    SameParts(i.participants, i.eventOverride.channel);
    SameParts(i.audience, i.eventOverride.targetRef);
    SameParts(j.participants, j.eventOverride.channel);
    SameParts(j.audience, j.eventOverride.targetRef);
    SameParts(i.participants, i.requestDefault.channel);
    SameParts(i.audience, i.requestDefault.targetRef);
    SameParts(j.participants, j.requestDefault.channel);
    SameParts(j.audience, j.requestDefault.targetRef);
  }

  /** Every receipt was written by an intent of the run, at its time and with its hash. */
  ghost predicate WrittenBy(ops: seq<Op>, key: MessageKey, r: Receipt) {
    exists n :: 0 <= n < |ops| && ops[n].Intake? && LiftIntent(ops[n].intent).Accepted?
                && ops[n].intent.key == key && ops[n].now == r.at
                && IntentHash(LiftIntent(ops[n].intent).value) == r.hash
  }

  lemma WrittenStays(ops: seq<Op>, op: Op, key: MessageKey, r: Receipt)
    requires WrittenBy(ops, key, r)
    ensures WrittenBy(ops + [op], key, r)
  {
    var n :| 0 <= n < |ops| && ops[n].Intake? && LiftIntent(ops[n].intent).Accepted?
             && ops[n].intent.key == key && ops[n].now == r.at && IntentHash(LiftIntent(ops[n].intent).value) == r.hash;
    assert (ops + [op])[n] == ops[n];
  }

  lemma WrittenNow(ops: seq<Op>, raw: Intent, now: Time, result: Result)
    requires LiftIntent(raw).Accepted?
    ensures WrittenBy(ops + [Intake(raw, now)], raw.key, Receipt(now, IntentHash(LiftIntent(raw).value), result))
  {
    var all := ops + [Intake(raw, now)];
    assert all[|ops|] == Intake(raw, now);
  }

  lemma NoOtherStepWrites(cfg: Config, s: State, op: Op)
    requires Filed(s.reminders) && !op.Intake?
    ensures Step(cfg, s, op).receipts == s.receipts
  {
    match op
    case DeliverDue(now, provider) => DeliverProgresses(cfg, s, now, provider);
    case ReconcileDue(now, n) => ReconcileProgresses(cfg, s, now, n);
    case _ =>
  }

  lemma {:induction false} ReceiptsComeFromIntakes(cfg: Config, ops: seq<Op>, key: MessageKey)
    ensures var receipts := After(cfg, ops).receipts.data; key in receipts ==> WrittenBy(ops, key, receipts[key])
    decreases |ops|
  {
    hide WrittenBy;
    if ops != [] {
      var rest, last := ops[..|ops| - 1], ops[|ops| - 1];
      assert ops == rest + [last];
      var s := After(cfg, rest);
      ReachableInvariants(cfg, rest);
      ReceiptsComeFromIntakes(cfg, rest, key);
      if key in s.receipts.data {
        WrittenStays(rest, last, key, s.receipts.data[key]);
      }
      match last
      case Intake(raw, now) =>
        IntakeReceipts(cfg, s, raw, now);
        var outcome := ProcessIntent(cfg, s, raw, now).1;
        if LiftIntent(raw).Accepted? && outcome.Returned? {
          WrittenNow(rest, raw, now, outcome.result);
        }
      case _ => NoOtherStepWrites(cfg, s, last);
    }
  }

  /** The intent could be applied to these tables, had it not been seen before. */
  ghost predicate IsReady(cfg: Config, s: State, i: Intent) {
    && MissingFields(i) == [] && !ResolveEvent(cfg, s, i).1.ResolverAmbiguous? && i.confirmed && Applicable(cfg, s, i)
  }

  /** Without supplied hashes, an intent that could be applied is applied when it differs, in a
      field that counts, from every intent of the run inside the window. */
  lemma DifferentIntentIsApplied(cfg: Config, ops: seq<Op>, raw: Intent, now: Time)
    requires LiftIntent(raw).Accepted? && !HasSuppliedHash(raw) && raw.key !in After(cfg, ops).receipts.data
    requires IsReady(cfg, After(cfg, ops), LiftIntent(raw).value)
    requires forall n | 0 <= n < |ops| && ops[n].Intake? && LiftIntent(ops[n].intent).Accepted?
                        && ops[n].now >= now - cfg.windowHours * 3_600_000_000 ::
               !HasSuppliedHash(ops[n].intent) && !SameContent(LiftIntent(ops[n].intent).value, LiftIntent(raw).value)
    ensures ProcessIntent(cfg, After(cfg, ops), raw, now).0.versions != After(cfg, ops).versions
  {
    var s, i := After(cfg, ops), LiftIntent(raw).value;
    IntentIsAppliedExactly(cfg, ops, raw, now);
    forall k | k in s.receipts.data && s.receipts.data[k].hash == IntentHash(i)
      ensures s.receipts.data[k].at < now - cfg.windowHours * HOUR
    {
      ReceiptsComeFromIntakes(cfg, ops, k);
      var n :| 0 <= n < |ops| && ops[n].Intake? && LiftIntent(ops[n].intent).Accepted?
               && ops[n].now == s.receipts.data[k].at
               && IntentHash(LiftIntent(ops[n].intent).value) == s.receipts.data[k].hash;
      HashesAgreeExactly(LiftIntent(ops[n].intent).value, i);
    }
  }

  // ---------- What an intent says ----------

  /** The flat keys of a destination after lifting: they win over a nested object, which is
      taken apart, or makes both keys null when it is null itself. */
  ghost predicate IsLifted(p: Payload, lifted: Payload) {
    if p.channel.Some? || p.targetRef.Some? || p.nested.None? then lifted == p
    else match p.nested.value
         case NestedNull => lifted == Payload(Some(None), Some(None), p.nested)
         case NestedObject(channel, targetRef) => lifted == Payload(Some(channel), Some(targetRef), p.nested)
         case NestedMalformed => false
  }

  predicate IsMalformed(p: Payload) {
    p.channel.None? && p.targetRef.None? && p.nested == Some(NestedMalformed)
  }

  /** Lifting changes the two destinations only, each by its own keys, and refuses exactly a
      nested value of the wrong type that no flat key overrules. */
  lemma LiftIsExact(raw: Intent)
    ensures LiftIntent(raw).Rejected? <==> IsMalformed(raw.eventOverride) || IsMalformed(raw.requestDefault)
    ensures LiftIntent(raw).Accepted? ==>
              var i := LiftIntent(raw).value;
              && i == raw.(eventOverride := i.eventOverride, requestDefault := i.requestDefault)
              && IsLifted(raw.eventOverride, i.eventOverride) && IsLifted(raw.requestDefault, i.requestDefault)
  {
  }

  /** Which fields are asked for: none for a cancel; else a start or an all-day flag, somebody,
      and an offset, in this order. */
  lemma MissingIsExact(i: Intent)
    ensures var missing := MissingFields(i);
            var started := i.start.Some? || i.allDay == Some(true);
            var somebody := |People(i.participants)| > 0 || |People(i.audience)| > 0;
            && (i.action.Cancel? ==> missing == [])
            && (!i.action.Cancel? ==>
                  && (DateTimeOrAllDay in missing <==> !started)
                  && (AudienceParticipants in missing <==> !somebody)
                  && (ReminderPreference in missing <==> i.offset.None?)
                  && (!started ==> missing[0] == DateTimeOrAllDay)
                  && (i.offset.None? ==> missing[|missing| - 1] == ReminderPreference)
                  && |missing| ==
                       (if started then 0 else 1) + (if somebody then 0 else 1) + (if i.offset.None? then 1 else 0))
  {
  }

  lemma SamePeople(given: Option<seq<PersonId>>, people: seq<PersonId>)
    ensures (set p | p in OrEmpty(given)) == (set p | p in people) <==>
              (forall p :: p in People(given) <==> p in people)
  {
    var a, b := set p | p in OrEmpty(given), set p | p in people;
    assert forall p :: p in People(given) <==> p in a;
    assert forall p :: p in people <==> p in b;
    if forall p :: p in People(given) <==> p in people {
      assert a == b;
    }
  }

  /** What makes an active event similar: its title weighs five tenths, its start three, its
      people two. At the default threshold of eight tenths both title and start must agree. */
  lemma CandidateIsExact(cfg: Config, versions: map<EventId, seq<Event>>, i: Intent, id: EventId)
    requires id in versions && versions[id] != []
    ensures var e := versions[id][|versions[id]| - 1];
            var title, start := i.title == Some(e.title), i.start == Some(e.startLocal);
            var people := forall p :: p in People(i.participants) <==> p in e.participants;
            && (IsCandidate(cfg, versions, i, id) <==>
                  && e.active
                  && cfg.similarityThreshold <=
                       if title && start && people then 1.0 else if title && start then 0.8
                       else if title && people then 0.7 else if title then 0.5 else if start && people then 0.5
                       else if start then 0.3 else if people then 0.2 else 0.0)
            && (cfg.similarityThreshold == 0.8 ==> (IsCandidate(cfg, versions, i, id) <==> e.active && title && start))
  {
    SamePeople(i.participants, versions[id][|versions[id]| - 1].participants);
    hide People;
  }

  // ---------- What an intent is answered ----------

  /** The destinations given do not go with those the event has. */
  predicate RefusesDestination(cfg: Config, s: State, i: Intent) {
    var resolved := ResolveEvent(cfg, s, i).0;
    && !i.action.Cancel?
    && if resolved.Some? && i.action in {Update, Create}
       then HasLatest(s, resolved.value)
            && !TakesDestinations(i, Latest(s, resolved.value).eventOverride, Latest(s, resolved.value).requestDefault)
       else !TakesDestinations(i, UNSET, UNSET)
  }

  ghost predicate AnswersFresh(cfg: Config, s: State, i: Intent, outcome: Outcome) {
    var (resolved, code) := ResolveEvent(cfg, s, i);
    if MissingFields(i) != [] then outcome == Returned(NeedsFollowUp(MissingFields(i)))
    else if code.ResolverAmbiguous? then outcome == Returned(Ambiguous)
    else if !i.confirmed then outcome == Returned(BlockedUnconfirmed)
    else if Applicable(cfg, s, i) then
      && outcome.Returned? && outcome.result.Mutated? && outcome.result.resolver == code
      && (resolved.Some? && i.action in {Update, Create, Cancel} ==> outcome.result.eventId == resolved.value)
    else if RefusesDestination(cfg, s, i) then outcome == Returned(BlockedDestination(resolved))
    else outcome.Raised?
  }

  lemma MutateAnswers(cfg: Config, s: State, i: Intent, now: Time)
    ensures var made := Mutate(cfg, s, i, ResolveEvent(cfg, s, i).0, now).1;
            var resolved := ResolveEvent(cfg, s, i).0;
            && (made.Made? <==> Applicable(cfg, s, i)) && (made.BadDestination? <==> RefusesDestination(cfg, s, i))
            && (made.Made? && resolved.Some? && i.action in {Update, Create, Cancel} ==>
                  (HasLatest(s, resolved.value) && Latest(s, resolved.value).id == resolved.value ==>
                     made.event.id == resolved.value))
  {
    hide ResolveField, ResolveEvent, Schedule, Invalidate, SortPeople;
  }

  lemma ReachedIsAnswered(cfg: Config, s: State, raw: Intent, now: Time)
    requires Numbered(s) && Reached(cfg, s, raw, now).Some?
    ensures AnswersFresh(cfg, s, LiftIntent(raw).value, ProcessIntent(cfg, s, raw, now).1)
  {
    var i := Reached(cfg, s, raw, now).value;
    ReachedMutates(cfg, s, raw, now);
    var s2 := BeforeMutation(cfg, s, i);
    MutateAnswers(cfg, s2, i, now);
    ApplicableBeforeMutation(cfg, s, i);
    ResolvedExists(cfg, s, i);
    hide ProcessIntent, Mutate, ResolveEvent, ResolveField, MissingFields;
  }

  lemma FreshIsAnswered(cfg: Config, s: State, raw: Intent, now: Time)
    requires LiftIntent(raw).Accepted? && raw.key !in s.receipts.data
    requires FindRecent(s.receipts, IntentHash(LiftIntent(raw).value), now, cfg.windowHours).None?
    requires Reached(cfg, s, raw, now).None?
    ensures AnswersFresh(cfg, s, LiftIntent(raw).value, ProcessIntent(cfg, s, raw, now).1)
  {
    var s1 := Log(s, "intake", ResolverNoMatch, NoSubject);
    assert ResolveEvent(cfg, s1, LiftIntent(raw).value) == ResolveEvent(cfg, s, LiftIntent(raw).value);
    hide FindRecent, MissingFields, ResolveEvent, Mutate;
  }

  /** The answer to every intent, in every reachable state: an exception for a malformed one,
      the first answer to its message, the newest answer to its content inside the window, else
      its own: what is missing, whether it is ambiguous or unconfirmed, the version it made, the
      destination it was refused for, or an exception. */
  lemma AnswerIsExact(cfg: Config, ops: seq<Op>, raw: Intent, now: Time)
    ensures var s := After(cfg, ops);
            var (s', outcome) := ProcessIntent(cfg, s, raw, now);
            match LiftIntent(raw)
            case Rejected => outcome.Raised? && s' == s
            case Accepted(i) =>
              if raw.key in s.receipts.data then outcome == Returned(s.receipts.data[raw.key].result) && s' == s
              else
                var matches := set k | k in s.receipts.data && s.receipts.data[k].hash == IntentHash(i)
                                       && s.receipts.data[k].at >= now - cfg.windowHours * 3_600_000_000;
                if matches != {} then
                  exists k :: k in matches && outcome == Returned(s.receipts.data[k].result)
                              && forall x | x in matches :: s.receipts.data[x].at <= s.receipts.data[k].at
                else AnswersFresh(cfg, s, i, outcome)
  {
    ReachableInvariants(cfg, ops);
    ReachableReceiptsAreValid(cfg, ops);
    var s := After(cfg, ops);
    if LiftIntent(raw).Accepted? && raw.key !in s.receipts.data {
      var hash := IntentHash(LiftIntent(raw).value);
      var newest := FindRecentIsNewest(s.receipts, hash, now, cfg.windowHours);
      var matches := set k | k in s.receipts.data && s.receipts.data[k].hash == hash
                             && s.receipts.data[k].at >= now - cfg.windowHours * 3_600_000_000;
      if FindRecent(s.receipts, hash, now, cfg.windowHours).Some? {
        assert newest in matches;
        assert forall x | x in matches :: IsMatch(s.receipts.data[x], hash, now - cfg.windowHours * HOUR);
      } else {
        assert forall x | x in s.receipts.data :: !IsMatch(s.receipts.data[x], hash, now - cfg.windowHours * HOUR);
        assert matches == {};
        if Reached(cfg, s, raw, now).Some? {
          ReachedIsAnswered(cfg, s, raw, now);
        } else {
          FreshIsAnswered(cfg, s, raw, now);
        }
      }
    }
  }

  /** Event ids are used up by every intent that comes to make an event of its own with
      destinations that are accepted, even when a field it lacks then ends it by an exception. */
  lemma IdsAreUsedUp(cfg: Config, ops: seq<Op>, raw: Intent, now: Time)
    ensures var s := After(cfg, ops);
            ProcessIntent(cfg, s, raw, now).0.counter == s.counter +
              match Reached(cfg, s, raw, now)
              case None => 0
              case Some(i) =>
                var revises := ResolveEvent(cfg, s, i).0.Some? && i.action in {Update, Create};
                if i.action.Cancel? || revises || !TakesDestinations(i, UNSET, UNSET) then 0 else 1
  {
    ReachableInvariants(cfg, ops);
    hide ProcessIntent, Mutate, ResolveEvent, TakesDestinations;
    var s := After(cfg, ops);
    if Reached(cfg, s, raw, now).None? {
      NotReachedIsQuiet(cfg, s, raw, now);
    } else {
      var i := Reached(cfg, s, raw, now).value;
      ReachedMutates(cfg, s, raw, now);
      NumberedBeforeMutation(cfg, s, i);
      hide Numbered, Reached;
      MutateUsesUp(cfg, BeforeMutation(cfg, s, i), i, now);
    }
  }

  lemma NumberedBeforeMutation(cfg: Config, s: State, i: Intent)
    requires Numbered(s)
    ensures Numbered(BeforeMutation(cfg, s, i))
  {
    hide ResolveEvent;
  }

  lemma MutateUsesUp(cfg: Config, s: State, i: Intent, now: Time)
    requires Numbered(s)
    ensures var resolved := ResolveEvent(cfg, s, i).0;
            Mutate(cfg, s, i, resolved, now).0.counter == s.counter +
              if || i.action.Cancel? || (resolved.Some? && i.action in {Update, Create})
                 || !TakesDestinations(i, UNSET, UNSET)
              then 0 else 1
  {
    var resolved := ResolveEvent(cfg, s, i).0;
    ResolvedExists(cfg, s, i);
    if resolved.Some? {
      CancelEffect(cfg, s, resolved.value, now);
      UpdateEffect(cfg, s, resolved.value, i, now);
    }
    CreateUsesUp(cfg, s, i, now);
    hide Numbered, ResolveEvent, CancelEvent, UpdateEvent, CreateEvent, TakesDestinations, InvalidatingAll, Scheduling;
  }

  lemma {:induction false} ScheduleKeepsCounter(cfg: Config, s: State, e: Event, people: seq<PersonId>)
    ensures Schedule(cfg, s, e, people).counter == s.counter
    decreases |people|
  {
    if people != [] {
      ScheduleKeepsCounter(cfg, s, e, people[..|people| - 1]);
    }
  }

  lemma CreateUsesUp(cfg: Config, s: State, i: Intent, now: Time)
    ensures CreateEvent(cfg, s, i, now).0.counter == s.counter + if TakesDestinations(i, UNSET, UNSET) then 1 else 0
  {
    CreateShape(cfg, s, i, now);
    var made := CreateEvent(cfg, s, i, now).1;
    if made.Made? {
      var e := made.event;
      ScheduleKeepsCounter(cfg, Created(cfg, s, i, e, ExplicitIn(i, e, now)), e, e.audience);
    }
    hide ResolveField, SortPeople, Schedule, ResolveTimezone;
  }

  /** A target whose id has at most 256 characters becomes the person's target; a longer one is refused. */
  lemma RegisterIsExact(cfg: Config, s: State, person: PersonId, t: Target)
    ensures var s' := Step(cfg, s, Register(person, t));
            s' == s.(targets := s'.targets)
            && s'.targets == if |t.targetId| <= 256 then s.targets[person := t] else s.targets
  {
  }

  // ---------- What an intent does to the reminders ----------

  /** The one key that a person of the audience has in a version of an event. */
  function KeyIn(cfg: Config, e: Event, person: PersonId): Key {
    Key(e.id, e.version, person, e.offsetMinutes, cfg.toUtc(e.startLocal, e.timezone) - 60_000_000 * e.offsetMinutes)
  }

  /** The reminder under k before and after an intent that made version e. */
  ghost predicate ReminderAfter(cfg: Config, s: State, s': State, e: Event, now: Time, k: Key) {
    && (k in s'.reminders.data <==>
          k in s.reminders.data || (e.active && k.recipient in e.audience && k == KeyIn(cfg, e, k.recipient)))
    && (k in s.reminders.data && k in s'.reminders.data ==>
          var r := s.reminders.data[k];
          s'.reminders.data[k] == if r.event == e.id && r.status in {Scheduled, Attempted} && now < r.trigger
                                  then r.(status := Invalidated) else r)
    && (k !in s.reminders.data && k in s'.reminders.data ==>
          s'.reminders.data[k] ==
            Reminder(k, e.id, e.version, k.recipient, k.trigger, e.offsetMinutes,
                     if k.recipient in s.targets && s.targets[k.recipient].timezone.Some? then Scheduled else Blocked,
                     0, None, e.eventOverride, e.requestDefault))
  }

  lemma NewVersionReminder(cfg: Config, s: State, s': State, e: Event, m: Mutation, k: Key)
    requires Numbered(s) && NewVersion(cfg, s, s', e, m)
    ensures ReminderAfter(cfg, s, s', e, m.at, k)
  {
    SchedulingKeys(cfg, s.targets, e, if e.active then e.audience else [], k);
    if k in s'.reminders.data {
      NewVersionEntry(cfg, s, s', e, m, k);
    }
  }

  /** An intent that changes the event tables makes one version e; it invalidates exactly the
      reminders of that event that can still be sent and have not triggered, schedules one for
      each person of the audience unless e is a cancellation, and touches no other. Any other
      intent touches none. */
  lemma IntentReminders(cfg: Config, ops: seq<Op>, raw: Intent, now: Time, k: Key) returns (e: Option<Event>)
    ensures var s := After(cfg, ops);
            var (s', outcome) := ProcessIntent(cfg, s, raw, now);
            && (e.Some? <==> s'.versions != s.versions)
            && (e.None? ==> s'.reminders == s.reminders)
            && (e.Some? ==>
                  && HasLatest(s', e.value.id) && Latest(s', e.value.id) == e.value
                  && outcome.Returned? && outcome.result.Mutated? && outcome.result.eventId == e.value.id
                  && ReminderAfter(cfg, s, s', e.value, now, k))
  {
    ReachableInvariants(cfg, ops);
    var s := After(cfg, ops);
    var made, m := IntakeEffect(cfg, s, raw, now);
    AppliedExactly(cfg, s, raw, now);
    e := made;
    if made.Some? {
      NewVersionReminder(cfg, s, ProcessIntent(cfg, s, raw, now).0, made.value, m, k);
    }
  }
}
