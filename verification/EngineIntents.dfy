/** Which event an intent is about, and what an applied intent leaves in it. */
module EngineIntents {
  import opened Text
  import opened Sorting
  import opened Destination
  import opened Engine
  import opened EngineEffects
  import opened EngineReceipts
  import opened EngineTheorems

  // ---------- Resolution ----------

  lemma {:induction false} CandidatesAreExact(cfg: Config, versions: map<EventId, seq<Event>>, i: Intent, n: nat)
    ensures forall id :: id in Candidates(cfg, versions, i, n) <==> 1 <= id <= n && IsCandidate(cfg, versions, i, id)
    ensures Distinct(Candidates(cfg, versions, i, n))
  {
    if n > 0 {
      CandidatesAreExact(cfg, versions, i, n - 1);
    }
  }

  /** An intent that names a known event is about that event. Any other is matched exactly
      when one active event is similar enough, ambiguous exactly when several are, whatever
      their scores, and without a match exactly when none is. */
  lemma ResolutionIsExact(cfg: Config, ops: seq<Op>, i: Intent)
    ensures var s := After(cfg, ops);
            var (id, code) := ResolveEvent(cfg, s, i);
            var named := i.eventId.Some? && i.eventId.value in s.versions;
            && (named <==> code.ResolverExplicit?)
            && (named ==> id == i.eventId)
            && (!named ==>
                  && (code.ResolverMatched? <==>
                        id.Some? && forall x :: IsCandidate(cfg, s.versions, i, x) <==> x == id.value)
                  && (code.ResolverAmbiguous? <==>
                        exists a, b ::
                            a != b && IsCandidate(cfg, s.versions, i, a) && IsCandidate(cfg, s.versions, i, b))
                  && (code.ResolverNoMatch? <==> forall x :: !IsCandidate(cfg, s.versions, i, x))
                  && (id.Some? <==> code.ResolverMatched?))
  {
    ReachableInvariants(cfg, ops);
    var s := After(cfg, ops);
    var candidates := Candidates(cfg, s.versions, i, s.counter);
    CandidatesAreExact(cfg, s.versions, i, s.counter);
    assert forall id :: IsCandidate(cfg, s.versions, i, id) <==> id in candidates;
    if |candidates| == 1 {
      assert IsCandidate(cfg, s.versions, i, candidates[0]);
      assert forall x :: x in candidates <==> x == candidates[0];
    } else if |candidates| > 1 {
      assert candidates[0] in candidates && candidates[1] in candidates && candidates[0] != candidates[1];
    }
  }

  // ---------- What arrives ----------

  /** The same people, sorted. */
  ghost predicate IsSortedCopy(copy: seq<PersonId>, people: seq<PersonId>) {
    multiset(copy) == multiset(people) && SortedBy(copy, LessOrEqual)
  }

  lemma SortPeopleSorts(people: seq<PersonId>)
    ensures IsSortedCopy(SortPeople(people), people)
  {
    forall x, y | x in people && y in people ensures LessOrEqual(x, y) || LessOrEqual(y, x) {
      LessTotal(x, y);
    }
    forall x, y, z | x in people && y in people && z in people && LessOrEqual(x, y) && LessOrEqual(y, z)
        ensures LessOrEqual(x, z) {
      LessOrEqualTransitive(x, y, z);
    }
    SortSorts(people, LessOrEqual);
    SortKeepsElements(people, LessOrEqual);
  }

  /** The value is the one given, else the one before. */
  predicate Takes<T(==)>(value: T, given: Option<T>, before: Option<T>) {
    if given.Some? then value == given.value else before == Some(value)
  }

  ghost predicate TakesPeople(people: seq<PersonId>, given: Option<seq<PersonId>>, before: Option<seq<PersonId>>) {
    if given.Some? then IsSortedCopy(people, given.value) else before.Some? && IsSortedCopy(people, before.value)
  }

  /** The pair given, trimmed, else the one before. */
  ghost predicate TakesDest(d: Dest, given: Payload, before: Dest) {
    if given.channel.Some? && given.targetRef.Some?
    then d == Dest(NormalizeOptional(given.channel.value), NormalizeOptional(given.targetRef.value))
    else given.channel.None? && given.targetRef.None? && d == before
  }

  ghost predicate CarriesWords(i: Intent, before: Option<Event>, e: Event) {
    && Takes(e.title, i.title, if before.Some? then Some(before.value.title) else None)
    && Takes(e.startLocal, i.start, if before.Some? then Some(before.value.startLocal) else None)
    && Takes(e.offsetMinutes, i.offset, if before.Some? then Some(before.value.offsetMinutes) else None)
    && Takes(e.allDay, i.allDay, Some(before.Some? && before.value.allDay))
  }

  ghost predicate CarriesPeople(i: Intent, before: Option<Event>, e: Event) {
    && TakesPeople(e.participants, i.participants, if before.Some? then Some(before.value.participants) else None)
    && TakesPeople(e.audience, i.audience, if before.Some? then Some(before.value.audience) else None)
  }

  ghost predicate CarriesTimezone(cfg: Config, i: Intent, before: Option<Event>, e: Event) {
    if i.timezone.Some? && i.timezone.value != [] then e.timezone == i.timezone.value
    else if before.Some? && before.value.timezone != [] then e.timezone == before.value.timezone
    else e.timezone == (if cfg.householdTimezone != [] then cfg.householdTimezone else cfg.fallbackTimezone)
  }

  /** Version e says what intent i gives, and for the rest what the version before said. */
  ghost predicate Carries(cfg: Config, i: Intent, before: Option<Event>, e: Event) {
    && e.active
    && TakesDest(e.eventOverride, i.eventOverride, if before.Some? then before.value.eventOverride else UNSET)
    && TakesDest(e.requestDefault, i.requestDefault, if before.Some? then before.value.requestDefault else UNSET)
    && CarriesWords(i, before, e) && CarriesPeople(i, before, e) && CarriesTimezone(cfg, i, before, e)
  }

  lemma FieldTaken(p: Payload, current: Dest)
    ensures var r := ResolveField(p, current); r.Accepted? ==> TakesDest(r.value, p, current)
  {
  }

  lemma CreateCarries(cfg: Config, s: State, i: Intent, now: Time)
    ensures var made := CreateEvent(cfg, s, i, now).1;
            made.Made? ==> Carries(cfg, i, None, made.event)
  {
    FieldTaken(i.eventOverride, UNSET);
    FieldTaken(i.requestDefault, UNSET);
    hide ResolveField, TakesDest, Schedule;
    if i.participants.Some? {
      SortPeopleSorts(i.participants.value);
    }
    if i.audience.Some? {
      SortPeopleSorts(i.audience.value);
    }
  }

  lemma RevisedWords(i: Intent, id: EventId, current: Event, tz: string, o: Dest, d: Dest)
    ensures CarriesWords(i, Some(current), Revised(id, current, i, tz, o, d))
  {
    hide SortPeople;
  }

  lemma RevisedPeople(i: Intent, id: EventId, current: Event, tz: string, o: Dest, d: Dest)
    ensures CarriesPeople(i, Some(current), Revised(id, current, i, tz, o, d))
  {
    SortPeopleSorts(if i.participants.Some? then i.participants.value else current.participants);
    SortPeopleSorts(if i.audience.Some? then i.audience.value else current.audience);
    hide IsSortedCopy, SortPeople;
  }

  lemma RevisedTimezone(cfg: Config, i: Intent, current: Event, e: Event)
    requires e.timezone == ResolveTimezone(cfg, i, current.timezone).0
    ensures CarriesTimezone(cfg, i, Some(current), e)
  {
  }

  lemma RevisedCarries(cfg: Config, id: EventId, current: Event, i: Intent, o: Dest, d: Dest) returns (e: Event)
    requires TakesDest(o, i.eventOverride, current.eventOverride)
               && TakesDest(d, i.requestDefault, current.requestDefault)
    ensures e == Revised(id, current, i, ResolveTimezone(cfg, i, current.timezone).0, o, d)
    ensures Carries(cfg, i, Some(current), e)
  {
    var tz := ResolveTimezone(cfg, i, current.timezone).0;
    e := Revised(id, current, i, tz, o, d);
    RevisedWords(i, id, current, tz, o, d);
    RevisedPeople(i, id, current, tz, o, d);
    RevisedTimezone(cfg, i, current, e);
    hide TakesDest, SortPeople, CarriesWords, CarriesPeople, CarriesTimezone, ResolveTimezone;
  }

  lemma UpdateCarries(cfg: Config, s: State, id: EventId, i: Intent, now: Time)
    requires HasLatest(s, id)
    ensures var made := UpdateEvent(cfg, s, id, i, now).1;
            made.Made? ==> Carries(cfg, i, Some(Latest(s, id)), made.event)
  {
    var current := Latest(s, id);
    var o := ResolveField(i.eventOverride, current.eventOverride);
    var d := ResolveField(i.requestDefault, current.requestDefault);
    FieldTaken(i.eventOverride, current.eventOverride);
    FieldTaken(i.requestDefault, current.requestDefault);
    hide ResolveField, TakesDest, Schedule, Invalidate, Carries, Revised, ResolveTimezone;
    if o.Accepted? && d.Accepted? {
      var e := RevisedCarries(cfg, id, current, i, o.value, d.value);
    }
  }

  function LatestIfAny(s: State, id: EventId): Option<Event> {
    if HasLatest(s, id) then Some(Latest(s, id)) else None
  }

  /** What an applied intent makes of the event it is about. */
  ghost predicate Applied(cfg: Config, i: Intent, before: Option<Event>, e: Event) {
    if i.action.Cancel? then before.Some? && e == before.value.(version := before.value.version + 1, active := false)
    else Carries(cfg, i, before, e)
  }

  lemma MutateCarries(cfg: Config, s: State, i: Intent, now: Time)
    requires Numbered(s)
    ensures var (s', made) := Mutate(cfg, s, i, ResolveEvent(cfg, s, i).0, now);
            made.Made? ==>
              HasLatest(s', made.event.id) && Latest(s', made.event.id) == made.event
              && Applied(cfg, i, LatestIfAny(s, made.event.id), made.event)
  {
    var resolved := ResolveEvent(cfg, s, i).0;
    ResolvedExists(cfg, s, i);
    var m := MutateEffect(cfg, s, i, now);
    var (s', made) := Mutate(cfg, s, i, resolved, now);
    if made.Made? {
      MadeIsLatest(cfg, s, s', made.event, m);
    }
    hide Numbered, ResolveEvent, Carries, NewVersion, InvalidatingAll, Scheduling;
    if i.action.Cancel? {
      if resolved.Some? {
        CancelEffect(cfg, s, resolved.value, now);
      }
    } else if resolved.Some? && i.action in {Update, Create} {
      UpdateCarries(cfg, s, resolved.value, i, now);
      UpdateEffect(cfg, s, resolved.value, i, now);
    } else {
      CreateCarries(cfg, s, i, now);
      CreateEffect(cfg, s, i, now);
    }
    hide CancelEvent, UpdateEvent, CreateEvent;
  }

  lemma MadeIsLatest(cfg: Config, s: State, s': State, e: Event, m: Mutation)
    requires NewVersion(cfg, s, s', e, m)
    ensures HasLatest(s', e.id) && Latest(s', e.id) == e
  {
    hide InvalidatingAll, Scheduling, Filed;
  }

  lemma ReachedArrives(cfg: Config, s: State, raw: Intent, now: Time)
    requires Numbered(s) && Reached(cfg, s, raw, now).Some?
    ensures var (s', outcome) := ProcessIntent(cfg, s, raw, now);
            outcome.Returned? && outcome.result.Mutated? ==>
              var id := outcome.result.eventId;
              && HasLatest(s', id) && Latest(s', id).version == outcome.result.version
              && Applied(cfg, LiftIntent(raw).value, LatestIfAny(s, id), Latest(s', id))
  {
    hide ProcessIntent, Mutate, ResolveEvent, Applied;
    var i := Reached(cfg, s, raw, now).value;
    ReachedAnswers(cfg, s, raw, now);
    MutateCarries(cfg, BeforeMutation(cfg, s, i), i, now);
  }

  /** An intent that is applied leaves its event with exactly what the intent gives and,
      for the rest, what the event had; a cancel keeps everything and ends the event. */
  lemma AppliedIntentArrives(cfg: Config, ops: seq<Op>, raw: Intent, now: Time)
    requires Reached(cfg, After(cfg, ops), raw, now).Some?
    ensures var s := After(cfg, ops);
            var (s', outcome) := ProcessIntent(cfg, s, raw, now);
            outcome.Returned? && outcome.result.Mutated? ==>
              var id := outcome.result.eventId;
              && HasLatest(s', id) && Latest(s', id).version == outcome.result.version
              && Applied(cfg, LiftIntent(raw).value, LatestIfAny(s, id), Latest(s', id))
  {
    ReachableInvariants(cfg, ops);
    hide ProcessIntent, Mutate, ResolveEvent, Applied;
    ReachedArrives(cfg, After(cfg, ops), raw, now);
  }

  // ---------- When an intent is applied ----------

  /** Both destinations of the intent are acceptable on top of these. */
  predicate TakesDestinations(i: Intent, eventOverride: Dest, requestDefault: Dest) {
    ResolveField(i.eventOverride, eventOverride).Accepted? && ResolveField(i.requestDefault, requestDefault).Accepted?
  }

  /** A cancel needs its event; an update, acceptable destinations; a create, these and every field. */
  predicate Applicable(cfg: Config, s: State, i: Intent) {
    var resolved := ResolveEvent(cfg, s, i).0;
    if i.action.Cancel? then resolved.Some? && HasLatest(s, resolved.value)
    else if resolved.Some? && i.action in {Update, Create} then
      && HasLatest(s, resolved.value)
      && TakesDestinations(i, Latest(s, resolved.value).eventOverride, Latest(s, resolved.value).requestDefault)
    else TakesDestinations(i, UNSET, UNSET) && HasEveryField(i)
  }

  lemma MadeIffApplicable(cfg: Config, s: State, i: Intent, now: Time)
    ensures Mutate(cfg, s, i, ResolveEvent(cfg, s, i).0, now).1.Made? <==> Applicable(cfg, s, i)
  {
  }

  lemma ApplicableBeforeMutation(cfg: Config, s: State, i: Intent)
    ensures Applicable(cfg, BeforeMutation(cfg, s, i), i) <==> Applicable(cfg, s, i)
  {
    assert ResolveEvent(cfg, BeforeMutation(cfg, s, i), i) == ResolveEvent(cfg, s, i);
  }

  lemma AppliedExactly(cfg: Config, s: State, raw: Intent, now: Time)
    requires Numbered(s)
    ensures var (s', outcome) := ProcessIntent(cfg, s, raw, now);
            && (s'.versions != s.versions <==>
                  Reached(cfg, s, raw, now).Some? && Applicable(cfg, s, LiftIntent(raw).value))
            && (Reached(cfg, s, raw, now).Some? ==>
                  (Applicable(cfg, s, LiftIntent(raw).value) <==> outcome.Returned? && outcome.result.Mutated?))
  {
    var made, m := IntakeEffect(cfg, s, raw, now);
    if Reached(cfg, s, raw, now).Some? {
      var i := LiftIntent(raw).value;
      ReachedAnswers(cfg, s, raw, now);
      MadeIffApplicable(cfg, BeforeMutation(cfg, s, i), i, now);
      ApplicableBeforeMutation(cfg, s, i);
    }
    if made.Some? {
      var e := made.value;
      var earlier := if e.id in s.versions then s.versions[e.id] else [];
      assert |ProcessIntent(cfg, s, raw, now).0.versions[e.id]| == |earlier| + 1;
    }
  }

  /** In every reachable state an intent changes the event tables if and only if it is well
      shaped, its message is new, no receipt with its hash is inside the window, nothing is
      missing, it is unambiguous and confirmed, and its mutation is applicable. */
  lemma IntentIsAppliedExactly(cfg: Config, ops: seq<Op>, raw: Intent, now: Time)
    ensures var s := After(cfg, ops);
            ProcessIntent(cfg, s, raw, now).0.versions != s.versions <==>
              && LiftIntent(raw).Accepted?
              && var i := LiftIntent(raw).value;
                 && i.key !in s.receipts.data
                 && (forall k | k in s.receipts.data && s.receipts.data[k].hash == IntentHash(i) ::
                       s.receipts.data[k].at < now - cfg.windowHours * HOUR)
                 && MissingFields(i) == [] && !ResolveEvent(cfg, s, i).1.ResolverAmbiguous?
                 && i.confirmed && Applicable(cfg, s, i)
  {
    ReachableInvariants(cfg, ops);
    ReachableReceiptsAreValid(cfg, ops);
    var s := After(cfg, ops);
    AppliedExactly(cfg, s, raw, now);
    if LiftIntent(raw).Accepted? {
      NoReplayExactly(s.receipts, IntentHash(LiftIntent(raw).value), now, cfg.windowHours);
    }
  }

  lemma NoReplayExactly(receipts: Receipts, hash: Hash, now: Time, windowHours: int)
    requires receipts.Valid()
    ensures FindRecent(receipts, hash, now, windowHours).None? <==>
              forall k | k in receipts.data && receipts.data[k].hash == hash ::
                  receipts.data[k].at < now - windowHours * HOUR
  {
    var k := FindRecentIsNewest(receipts, hash, now, windowHours);
  }

  // ---------- The confirmed resend ----------

  lemma ConfirmingKeepsHash(i: Intent, key: MessageKey)
    requires LiftIntent(i).Accepted?
    ensures LiftIntent(i.(key := key, confirmed := true)) ==
              Accepted(LiftIntent(i).value.(key := key, confirmed := true))
    ensures IntentHash(LiftIntent(i.(key := key, confirmed := true)).value) == IntentHash(LiftIntent(i).value)
  {
  }

  lemma FirstIntakeIsBlocked(cfg: Config, i: Intent, now: Time)
    requires LiftIntent(i).Accepted? && MissingFields(LiftIntent(i).value) == [] && !i.confirmed
    ensures var s := Step(cfg, Initial(), Intake(i, now));
            && s.versions == map[] && i.key in s.receipts.data && s.receipts.keys == [i.key]
            && s.receipts.data == map[i.key := Receipt(now, IntentHash(LiftIntent(i).value), BlockedUnconfirmed)]
  {
  }

  lemma OneCall(cfg: Config, op: Op)
    ensures After(cfg, [op]) == Step(cfg, Initial(), op)
  {
    assert [op][..0] == [] && Run(cfg, Initial(), []) == Initial();
  }

  /** The witness: on an empty engine an unconfirmed intent is blocked, and the same intent,
      confirmed and under a new message id, is answered "blocked" again inside the window:
      nothing is created, although the intent is confirmed and could be applied. */
  lemma ConfirmedResendIsLost(cfg: Config, i: Intent, now: Time, resend: Intent, later: Time)
    requires LiftIntent(i).Accepted? && MissingFields(LiftIntent(i).value) == [] && !i.confirmed
    requires resend == i.(key := resend.key, confirmed := true) && resend.key != i.key
    requires 0 <= later - now <= cfg.windowHours * HOUR
    ensures ProcessIntent(cfg, After(cfg, [Intake(i, now)]), resend, later).1 == Returned(BlockedUnconfirmed)
    ensures ProcessIntent(cfg, After(cfg, [Intake(i, now)]), resend, later).0.versions == map[]
  {
    var s := After(cfg, [Intake(i, now)]);
    OneCall(cfg, Intake(i, now));
    FirstIntakeIsBlocked(cfg, i, now);
    ConfirmingKeepsHash(i, resend.key);
    ReachableReceiptsAreValid(cfg, [Intake(i, now)]);
    var k := FindRecentIsNewest(s.receipts, IntentHash(LiftIntent(resend).value), later, cfg.windowHours);
    assert IsMatch(s.receipts.data[i.key], IntentHash(LiftIntent(resend).value), later - cfg.windowHours * HOUR);
  }

  /** An unconfirmed intent that an empty engine could apply, and its confirmed resend under a
      new message id, inside the window. */
  ghost predicate IsResend(cfg: Config, i: Intent, now: Time, resend: Intent, later: Time) {
    && LiftIntent(i).Accepted? && MissingFields(LiftIntent(i).value) == [] && !i.confirmed
    && resend == i.(key := resend.key, confirmed := true) && resend.key != i.key
    && 0 <= later - now <= cfg.windowHours * HOUR
    && LiftIntent(resend).Accepted? && Applicable(cfg, Initial(), LiftIntent(resend).value)
  }

  lemma EmptyEngineApplies(cfg: Config, i: Intent, now: Time)
    requires LiftIntent(i).Accepted? && MissingFields(LiftIntent(i).value) == [] && i.confirmed
    requires Applicable(cfg, Initial(), LiftIntent(i).value)
    ensures ProcessIntent(cfg, Initial(), i, now).0.versions != map[]
  {
    var s, lifted := Initial(), LiftIntent(i).value;
    assert Candidates(cfg, s.versions, lifted, 0) == [];
    assert FindRecent(s.receipts, IntentHash(lifted), now, cfg.windowHours).None?;
    AppliedExactly(cfg, s, i, now);
  }

  /** Confirmed straight away the intent makes its event; confirmed only after an unconfirmed
      try in the same window it is answered "blocked" and makes nothing. */
  lemma ConfirmationMustComeFirst(cfg: Config, i: Intent, now: Time, resend: Intent, later: Time)
    requires IsResend(cfg, i, now, resend, later)
    ensures ProcessIntent(cfg, Initial(), resend, later).0.versions != map[]
    ensures ProcessIntent(cfg, After(cfg, [Intake(i, now)]), resend, later).1 == Returned(BlockedUnconfirmed)
    ensures ProcessIntent(cfg, After(cfg, [Intake(i, now)]), resend, later).0.versions == map[]
  {
    ConfirmingKeepsHash(i, resend.key);
    EmptyEngineApplies(cfg, resend, later);
    ConfirmedResendIsLost(cfg, i, now, resend, later);
  }

  /** An intent to create one event, with every field given. */
  function Wedding(key: MessageKey, confirmed: bool): Intent {
    Intent(key, Create, None, Some("Wedding"), Some(0), Some("UTC"), Some(["ana"]), Some(["ana"]), Some(60),
           Some(false),
           confirmed, None, Payload(None, None, None), Payload(None, None, None))
  }

  /** With concrete values: such an intent and its resend an hour later. */
  lemma WeddingIsResent(cfg: Config, a: MessageKey, b: MessageKey)
    requires a != b && cfg.windowHours >= 1
    ensures IsResend(cfg, Wedding(a, false), 0, Wedding(b, true), HOUR)
  {
    assert Candidates(cfg, Initial().versions, Wedding(b, true), 0) == [];
  }

  /** Exactly when a confirmed and applicable intent is lost: some receipt with its hash,
      whatever it answered, is still inside the window. */
  lemma ConfirmedIntentIsLostExactly(cfg: Config, ops: seq<Op>, raw: Intent, now: Time)
    requires LiftIntent(raw).Accepted? && raw.confirmed && raw.key !in After(cfg, ops).receipts.data
    requires var i := LiftIntent(raw).value;
             && MissingFields(i) == [] && !ResolveEvent(cfg, After(cfg, ops), i).1.ResolverAmbiguous?
             && Applicable(cfg, After(cfg, ops), i)
    ensures var s := After(cfg, ops);
            ProcessIntent(cfg, s, raw, now).0.versions == s.versions <==>
              exists k :: k in s.receipts.data && s.receipts.data[k].hash == IntentHash(LiftIntent(raw).value)
                          && s.receipts.data[k].at >= now - cfg.windowHours * HOUR
  {
    IntentIsAppliedExactly(cfg, ops, raw, now);
  }
}
