/** What one dispatch stores, for every reminder and every scene it can meet: in terms of the
    reminder's own destinations, the recipient's target and the adapter's answer. */
module DispatchOutcome {
  import opened Text
  import opened Destination
  import opened Engine
  import opened Dispatch
  import opened DispatchTheorems

  // ---------- Where a reminder goes ----------

  /** The override if there is one, else the request default if there is one, else the
      recipient's target, trimmed, if it is a destination at all. */
  ghost function Wanted(r: Reminder, target: Target): (Source, Option<Dest>) {
    if r.eventOverride != UNSET then (EventOverride, Some(r.eventOverride))
    else if r.requestDefault != UNSET then (RequestContextDefault, Some(r.requestDefault))
    else
      var own := Dest(NormalizeOptional(Some(target.channel)), NormalizeOptional(Some(target.targetId)));
      (RecipientDefault, if own != UNSET && WellFormed(own) then Some(own) else None)
  }

  ghost function ResolvedTo(source: Source, d: Dest): Resolution {
    Resolution(source, OkStatus, d.channel, d.targetRef, d.channel, d.targetRef)
  }

  lemma RecipientIsWanted(own: Dest)
    ensures var trimmed := Dest(NormalizeOptional(own.channel), NormalizeOptional(own.targetRef));
            var c := ValidateCandidate(RecipientDefault, own);
            && (trimmed == UNSET <==> c.None?)
            && (trimmed != UNSET && WellFormed(trimmed) ==> c == Some(ResolvedTo(RecipientDefault, trimmed)))
            && (!WellFormed(trimmed) ==> c.Some? && c.value.status.InvalidStatus? && c.value.resolvedChannel.None?
                                         && c.value.resolvedTargetRef.None?)
  {
    NormalizedIsPresent(own.channel);
    NormalizedIsPresent(own.targetRef);
  }

  lemma AimIsWanted(r: Reminder, target: Target)
    requires WellFormed(r.eventOverride) && WellFormed(r.requestDefault)
    ensures var (source, d) := Wanted(r, target);
            var a := Aim(r, target);
            && (d.Some? ==> a == ResolvedTo(source, d.value) && ProvenanceComplete(a))
            && (d.None? ==> !a.status.OkStatus? && a.resolvedChannel.None? && a.resolvedTargetRef.None?)
  {
    var own := Dest(Some(target.channel), Some(target.targetId));
    RecipientIsWanted(own);
    WellFormedPassesDispatch(EventOverride, r.eventOverride);
    WellFormedPassesDispatch(RequestContextDefault, r.requestDefault);
    OkIsComplete(r.eventOverride, r.requestDefault, own);
    hide WellFormed, ValidateCandidate, ProvenanceComplete, NormalizeOptional;
  }

  // ---------- What is stored ----------

  /** One row is added under a new id and the reminder is replaced; nothing else of the tables changes. */
  ghost predicate StoresRow(b: Books, b': Books, r: Reminder, id: AttemptId, row: Row) {
    && id !in b.rows.data && b'.rows.data == b.rows.data[id := row]
    && b'.reminders.data == b.reminders.data[r.dedupeKey := r]
    && b'.promotedTotal == b.promotedTotal && b'.demotedTotal == b.demotedTotal && b'.openGauge == b.openGauge
    && b'.openAtStart == b.openAtStart
    && (if IsOpen(row)
        then b'.transitions == b.transitions + [(id, AssignOpen)] && b'.assignedTotal == b.assignedTotal + 1
        else b'.transitions == b.transitions && b'.assignedTotal == b.assignedTotal)
  }

  ghost predicate Fails(b: Books, b': Books, outcome: DispatchOutcome, r: Reminder, id: AttemptId, reason: A.Code,
                        now: Time, destination: Option<Resolution>)
  {
    && StoresRow(b, b', r.(status := Failed), id,
                 Row(false, reason, now, None, None, false, A.NoConfidence, destination))
    && outcome == Done(false)
  }

  /** After the adapter's answer to attempt id of reminder r, which is counted and goes to d. */
  ghost predicate Answered(b: Books, b': Books, outcome: DispatchOutcome, r: Reminder, id: AttemptId, now: Time,
                           d: Resolution, call: S.AdapterCall)
  {
    if IsProven(call) then
      && StoresRow(b, b', r.(status := Delivered), id,
                   Row(true, A.DeliveredSuccess, now, call.result.receiptRef, call.result.statusCode,
                       call.result.acceptOnly, call.result.confidence, Some(d)))
      && outcome == Done(true)
    else if IsUnproven(call) then Fails(b, b', outcome, r, id, A.AcceptedUnverifiedCode, now, Some(d))
    else if call.Got? && A.IsWeakTuple(call.result) then
      outcome.RunnerStopped? && b' == b.(reminders := b'.reminders)
      && b'.reminders.data == b.reminders.data[r.dedupeKey := r.(status := Attempted)]
    else Fails(b, b', outcome, r, id, if call.Got? then A.FailedAdapterResultInvalid else A.FailedAdapterResultMissing,
               now, Some(d))
  }

  /** After a dispatch whose destination is d. */
  ghost predicate SentTo(cfg: Setup, b: Books, b': Books, outcome: DispatchOutcome, r: Reminder, id: AttemptId,
                         now: Time, d: Resolution, scene: Scene)
  {
    if d.resolvedChannel != Some("whatsapp") then
      && StoresRow(b, b', r.(status := Delivered), id,
                   Row(true, A.DeliveredSuccess, now, Some(cfg.engine.dedupeText(r.dedupeKey)), Some("ok"), false,
                       A.ProviderConfirmed, Some(d)))
      && outcome == Done(true)
    else if scene.forceBypass || (!scene.adapterBound && !scene.allowFallback) then
      Fails(b, b', outcome, r, id, A.FailedAdapterResultMissing, now, Some(d))
    else if !scene.adapterBound then Fails(b, b', outcome, r, id, A.FailedConfigInvalidTarget, now, Some(d))
    else d.resolvedTargetRef.Some?
         && Answered(b, b', outcome, r, id, now, d, scene.call(id, d.resolvedTargetRef.value))
  }

  /** After a dispatch of reminder r, whose recipient has a target with a time zone. */
  ghost predicate Aimed(cfg: Setup, b: Books, b': Books, outcome: DispatchOutcome, r: Reminder, now: Time, scene: Scene)
    requires scene.target.Some?
  {
    var counted, id := r.(attempts := r.attempts + 1), AttemptId(r.dedupeKey, r.attempts + 1);
    var (source, d) := Wanted(r, scene.target.value);
    match d
    case Some(pair) => SentTo(cfg, b, b', outcome, counted, id, now, ResolvedTo(source, pair), scene)
    case None =>
      exists refused: Resolution ::
        && !refused.status.OkStatus? && refused.resolvedChannel.None? && refused.resolvedTargetRef.None?
        && Fails(b, b', outcome, counted, id, A.FailedConfigInvalidTarget, now, Some(refused))
  }

  /** Everything a dispatch of the reminder under k does. */
  ghost predicate Dispatched(cfg: Setup, b: Books, b': Books, outcome: DispatchOutcome, k: Key, now: Time, scene: Scene)
    requires k in b.reminders.data
  {
    var r := b.reminders.data[k];
    if scene.target.None? || scene.target.value.timezone.None? then
      Fails(b, b', outcome, r, AttemptId(k, if r.attempts == 0 then 1 else r.attempts), A.TzMissing, now, None)
    else Aimed(cfg, b, b', outcome, r, now, scene)
  }

  // ---------- The proof ----------

  lemma PersistStores(b: Books, r0: Reminder, r: Reminder, status: Status, id: AttemptId, row: Row)
    requires id !in b.rows.data && b.rows.Valid() && r0.dedupeKey == r.dedupeKey && !IsOpen(row)
    ensures var (b', outcome) := Persist(WithStatus(b, r0, Attempted), r, status, id, row);
            StoresRow(b, b', r.(status := status), id, row) && outcome == Done(row.delivered)
  {
  }

  lemma FailureStores(b: Books, r0: Reminder, r: Reminder, reason: A.Code, now: Time, d: Option<Resolution>)
    requires AttemptId(r.dedupeKey, AtLeastOne(r.attempts)) !in b.rows.data && b.rows.Valid()
    requires r0.dedupeKey == r.dedupeKey && reason != A.AcceptedUnverifiedCode
    ensures var (b', outcome) := PersistFailure(WithStatus(b, r0, Attempted), r, reason, now, d);
            Fails(b, b', outcome, r, AttemptId(r.dedupeKey, AtLeastOne(r.attempts)), reason, now, d)
  {
    PersistStores(b, r0, r, Failed, AttemptId(r.dedupeKey, AtLeastOne(r.attempts)), FailureRow(reason, now, d));
    hide Persist, WithStatus, StoresRow;
  }

  lemma AssignStores(b: Books, r0: Reminder, r: Reminder, id: AttemptId, now: Time, d: Resolution)
    requires id !in b.rows.data && b.rows.Valid() && r0.dedupeKey == r.dedupeKey
    ensures var (b', outcome) := AssignUnverified(WithStatus(b, r0, Attempted), r, id, now, d);
            Fails(b, b', outcome, r, id, A.AcceptedUnverifiedCode, now, Some(d))
  {
  }

  lemma SeamStores(b: Books, r0: Reminder, r: Reminder, token: string, now: Time, d: Resolution)
    requires AttemptId(r.dedupeKey, AtLeastOne(r.attempts)) !in b.rows.data && b.rows.Valid()
    requires r0.dedupeKey == r.dedupeKey
    ensures var (b', outcome) := FailSeam(WithStatus(b, r0, Attempted), r, token, now, d);
            Fails(b, b', outcome, r, AttemptId(r.dedupeKey, AtLeastOne(r.attempts)), A.FailedAdapterResultMissing, now,
                  Some(d))
  {
    FailSeamIsFailure(WithStatus(b, r0, Attempted), r, token, now, d);
    FailureStores(b, r0, r, A.FailedAdapterResultMissing, now, Some(d));
    hide FailSeam, PersistFailure, Fails;
  }

  lemma AnswerStores(b: Books, r: Reminder, now: Time, d: Resolution, scene: Scene)
    requires Filed(b.reminders) && r.status.Attempted? && r.attempts >= 1 && b.rows.Valid()
    requires AttemptId(r.dedupeKey, r.attempts) !in b.rows.data && !scene.forceBypass && scene.adapterBound
    requires d.resolvedTargetRef.Some? && d.resolvedTargetRef.value != []
    requires var call := scene.call(AttemptId(r.dedupeKey, r.attempts), d.resolvedTargetRef.value);
             call.Got? ==> A.ValidResult(call.result)
    ensures var id := AttemptId(r.dedupeKey, r.attempts);
            var (b', outcome) := SendWhatsApp(WithStatus(b, r, Attempted), r, now, d, scene);
            Answered(b, b', outcome, r, id, now, d, scene.call(id, d.resolvedTargetRef.value))
  {
    var id := AttemptId(r.dedupeKey, r.attempts);
    var call := scene.call(id, d.resolvedTargetRef.value);
    S.DecisionIsExact(call);
    hide S.Decide, S.IsVerifiable, Persist, PersistFailure, AssignUnverified, WithStatus, StoresRow, Fails;
    assert OrElse(d.resolvedTargetRef, "") == d.resolvedTargetRef.value;
    match S.Decide(call)
    case IntegrityFail(_) => StopStores(b, r);
    case SeamFailure(reason, _) => FailureStores(b, r, r, reason, now, Some(d));
    case AcceptedUnverified => AssignStores(b, r, r, id, now, d);
    case Delivered(a) =>
      PersistStores(b, r, r, Status.Delivered, id,
                    Row(true, a.reasonCode, now, a.receiptRef, a.statusCode, a.acceptOnly, a.confidence, Some(d)));
  }

  lemma StopStores(b: Books, r: Reminder)
    ensures var b' := WithStatus(b, r, Attempted);
            b' == b.(reminders := b'.reminders)
            && b'.reminders.data == b.reminders.data[r.dedupeKey := r.(status := Attempted)]
  {
  }

  lemma UntimedStores(b: Books, r: Reminder, now: Time)
    requires AttemptId(r.dedupeKey, AtLeastOne(r.attempts)) !in b.rows.data && b.rows.Valid()
    ensures var (b', outcome) := PersistFailure(b, r, A.TzMissing, now, None);
            Fails(b, b', outcome, r, AttemptId(r.dedupeKey, if r.attempts == 0 then 1 else r.attempts), A.TzMissing,
                  now, None)
  {
  }

  lemma SendStores(cfg: Setup, b: Books, r: Reminder, now: Time, d: Resolution, scene: Scene)
    requires Filed(b.reminders) && r.status.Attempted? && r.attempts >= 1 && b.rows.Valid()
    requires AttemptId(r.dedupeKey, r.attempts) !in b.rows.data
    requires d.status.OkStatus? && ProvenanceComplete(d) && d.resolvedTargetRef.Some? && d.resolvedTargetRef.value != []
    requires var call := scene.call(AttemptId(r.dedupeKey, r.attempts), d.resolvedTargetRef.value);
             call.Got? ==> A.ValidResult(call.result)
    ensures var (b', outcome) := SendOn(cfg, WithStatus(b, r, Attempted), r, now, d, scene);
            SentTo(cfg, b, b', outcome, r, AttemptId(r.dedupeKey, r.attempts), now, d, scene)
  {
    var id := AttemptId(r.dedupeKey, r.attempts);
    hide S.Decide, S.IsVerifiable, Persist, PersistFailure, AssignUnverified, WithStatus, StoresRow, Fails, Answered,
      FailSeam, ProvenanceComplete, Filed;
    if d.resolvedChannel != Some("whatsapp") {
      PersistStores(b, r, r, Status.Delivered, id,
                    Row(true, A.DeliveredSuccess, now, Some(cfg.engine.dedupeText(r.dedupeKey)), Some("ok"), false,
                        A.ProviderConfirmed, Some(d)));
    } else if scene.forceBypass {
      SeamStores(b, r, r, S.BYPASS_DETECTED, now, d);
    } else if !scene.adapterBound {
      SeamStores(b, r, r, S.FALLBACK_WITHOUT_FLAG, now, d);
      FailureStores(b, r, r, A.FailedConfigInvalidTarget, now, Some(d));
    } else {
      AnswerStores(b, r, now, d, scene);
    }
  }

  /** The adapter answers every attempt with a result its matrix allows, or not at all. */
  ghost predicate AnswersAreValid(scene: Scene) {
    forall id, target :: scene.call(id, target).Got? ==> A.ValidResult(scene.call(id, target).result)
  }

  lemma WantedIsPresent(r: Reminder, target: Target)
    requires WellFormed(r.eventOverride) && WellFormed(r.requestDefault)
    ensures var d := Wanted(r, target).1;
            d.Some? ==> d.value.channel.Some? && d.value.targetRef.Some? && d.value.targetRef.value != []
  {
  }

  /** The row id and the rest of a fail do not look at the status of the reminder before. */
  lemma CountedFails(b: Books, b': Books, outcome: DispatchOutcome, r: Reminder, id: AttemptId, reason: A.Code,
                     now: Time, d: Option<Resolution>)
    ensures Fails(b, b', outcome, r.(status := Attempted), id, reason, now, d) <==>
              Fails(b, b', outcome, r, id, reason, now, d)
  {
  }

  lemma CountedIsSent(cfg: Setup, b: Books, b': Books, outcome: DispatchOutcome, r: Reminder, id: AttemptId, now: Time,
                      d: Resolution, scene: Scene)
    ensures SentTo(cfg, b, b', outcome, r.(status := Attempted), id, now, d, scene) <==>
              SentTo(cfg, b, b', outcome, r, id, now, d, scene)
  {
    hide StoresRow, IsProven, IsUnproven, A.IsWeakTuple;
  }

  lemma SoundIsTidy(b: Books)
    requires Sound(b)
    ensures Filed(b.reminders) && b.rows.Valid()
  {
  }

  lemma RefusedFails(cfg: Setup, b: Books, r0: Reminder, now: Time, scene: Scene)
    requires scene.target.Some? && !Aim(r0, scene.target.value).status.OkStatus? && b.rows.Valid()
    requires AttemptId(r0.dedupeKey, r0.attempts + 1) !in b.rows.data
    ensures var a, id := Aim(r0, scene.target.value), AttemptId(r0.dedupeKey, r0.attempts + 1);
            var (b', outcome) := SendOn(cfg, WithStatus(b, Counted(r0), Attempted), Counted(r0), now, a, scene);
            Fails(b, b', outcome, r0.(attempts := r0.attempts + 1), id, A.FailedConfigInvalidTarget, now, Some(a))
  {
    var a := Aim(r0, scene.target.value);
    hide Aim, StoresRow, PersistFailure, WithStatus;
    FailureStores(b, Counted(r0), Counted(r0), A.FailedConfigInvalidTarget, now, Some(a));
    var (b', outcome) := SendOn(cfg, WithStatus(b, Counted(r0), Attempted), Counted(r0), now, a, scene);
    CountedFails(b, b', outcome, r0.(attempts := r0.attempts + 1), AttemptId(r0.dedupeKey, r0.attempts + 1),
                 A.FailedConfigInvalidTarget, now, Some(a));
  }

  lemma CountedSends(cfg: Setup, b: Books, r0: Reminder, now: Time, a: Resolution, scene: Scene)
    requires Filed(b.reminders) && b.rows.Valid() && AttemptId(r0.dedupeKey, r0.attempts + 1) !in b.rows.data
    requires AnswersAreValid(scene) && a.status.OkStatus? && ProvenanceComplete(a)
    requires a.resolvedTargetRef.Some? && a.resolvedTargetRef.value != []
    ensures var id := AttemptId(r0.dedupeKey, r0.attempts + 1);
            var (b', outcome) := SendOn(cfg, WithStatus(b, Counted(r0), Attempted), Counted(r0), now, a, scene);
            SentTo(cfg, b, b', outcome, r0.(attempts := r0.attempts + 1), id, now, a, scene)
  {
    hide SendOn, SentTo, WithStatus, ProvenanceComplete, Filed;
    SendStores(cfg, b, Counted(r0), now, a, scene);
    var (b', outcome) := SendOn(cfg, WithStatus(b, Counted(r0), Attempted), Counted(r0), now, a, scene);
    var id := AttemptId(r0.dedupeKey, r0.attempts + 1);
    CountedIsSent(cfg, b, b', outcome, r0.(attempts := r0.attempts + 1), id, now, a, scene);
  }

  lemma WantedIsAimed(r0: Reminder, target: Target)
    requires WellFormed(r0.eventOverride) && WellFormed(r0.requestDefault) && Wanted(r0, target).1.Some?
    ensures var (source, d) := Wanted(r0, target);
            var a := Aim(r0, target);
            && a == ResolvedTo(source, d.value) && a.status.OkStatus? && ProvenanceComplete(a)
            && a.resolvedTargetRef.Some? && a.resolvedTargetRef.value != []
  {
    AimIsWanted(r0, target);
    WantedIsPresent(r0, target);
    hide Wanted, Aim, WellFormed, ProvenanceComplete;
  }

  lemma AimedIsExact(cfg: Setup, b: Books, r0: Reminder, now: Time, scene: Scene)
    requires Filed(b.reminders) && b.rows.Valid() && AttemptId(r0.dedupeKey, r0.attempts + 1) !in b.rows.data
    requires WellFormed(r0.eventOverride) && WellFormed(r0.requestDefault) && AnswersAreValid(scene)
    requires scene.target.Some?
    ensures var (b', outcome) := SendOn(cfg, WithStatus(b, Counted(r0), Attempted), Counted(r0), now,
                                        Aim(r0, scene.target.value), scene);
            Aimed(cfg, b, b', outcome, r0, now, scene)
  {
    hide Wanted, Aim, SendOn, SentTo, WellFormed, Fails, WithStatus, Filed, AnswersAreValid, ProvenanceComplete;
    if Wanted(r0, scene.target.value).1.Some? {
      WantedIsAimed(r0, scene.target.value);
      CountedSends(cfg, b, r0, now, Aim(r0, scene.target.value), scene);
    } else {
      AimIsWanted(r0, scene.target.value);
      RefusedFails(cfg, b, r0, now, scene);
    }
  }

  /** A dispatch of a reminder whose destinations the engine wrote: failed without a time zone
      or a destination; by any other channel delivered to the wanted pair; by WhatsApp stored as
      the adapter answers for that very pair. The row names the pair and nothing else changes. */
  lemma DispatchIsExact(cfg: Setup, b: Books, k: Key, now: Time, scene: Scene)
    requires Sound(b) && k in b.reminders.data && IsSchedulable(b.reminders.data[k].status)
    requires WellFormed(b.reminders.data[k].eventOverride) && WellFormed(b.reminders.data[k].requestDefault)
    requires AnswersAreValid(scene)
    ensures var (b', outcome) := ProcessCandidate(cfg, b, k, now, scene); Dispatched(cfg, b, b', outcome, k, now, scene)
  {
    NoRowsWhileSchedulable(b, k);
    SoundIsTidy(b);
    hide Sound, Aimed, Fails, SendOn, PersistFailure, WellFormed, AnswersAreValid;
    if scene.target.None? || scene.target.value.timezone.None? {
      UntimedStores(b, b.reminders.data[k], now);
    } else {
      AimedIsExact(cfg, b, b.reminders.data[k], now, scene);
    }
  }
}
