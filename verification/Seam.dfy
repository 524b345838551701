/** From the gateway's answer to the daemon's decision: the normaliser, the adapter's
    mapping and the classification of what the adapter returned or threw. */
module Seam {
  import opened Text
  import opened Adapter
  import opened AdapterRuns

  // ---------- Evidence in a provider reference ----------

  const BLANK_LITERALS := {"none", "null", "n/a", "na", "placeholder", "synthetic"}

  predicate IsVerifiable(ref: Option<string>) {
    && ref.Some?
    && var token := Strip(ref.value);
       var lowered := Lower(token);
       && token != []
       && lowered !in BLANK_LITERALS
       && !StartsWith(lowered, "att-") && !StartsWith(lowered, "rcpt:att-") && !StartsWith(lowered, "local:")
  }

  // ---------- The gateway ----------

  /** A value of the gateway's JSON object: text, or anything else. */
  type Field = Option<string>

  datatype GatewayReply =
    | Json(messageId: Field, id: Field, receipt: Field, ref: Field)
    | CallFailed(stderr: string, stdout: string)
    | Unusable(token: string)

  /** The first non-blank text field, trimmed. */
  function FirstText(fields: seq<Field>): Option<string> {
    if fields == [] then None
    else if fields[0].Some? && Strip(fields[0].value) != [] then Some(Strip(fields[0].value))
    else FirstText(fields[1..])
  }

  function NormalizeJson(g: GatewayReply): Response
    requires g.Json?
  {
    var candidate := FirstText([g.messageId, g.id, g.receipt, g.ref]);
    var ref := if IsVerifiable(candidate) then candidate else None;
    Response(Success, Some("ok"), ref, None, None, if IsVerifiable(ref) then Confirmed else Accepted)
  }

  const CALL_FAILED := "BOUNDARY_GATEWAY_CALL_FAILED"

  function ClassifyFailure(lowered: string): (OutcomeClass, ErrorClass) {
    if Contains(lowered, "timeout") || Contains(lowered, "timed out") || Contains(lowered, "unavailable")
       || Contains(lowered, "rate") then (Transient, TransientClass)
    else if Contains(lowered, "blocked") || Contains(lowered, "policy") then (BlockedOutcome, PolicyClass)
    else if Contains(lowered, "suppressed") || Contains(lowered, "skipped") then (SuppressedOutcome, PolicyClass)
    else if Contains(lowered, "auth") || Contains(lowered, "invalid request") || Contains(lowered, "unsupported")
            || Contains(lowered, "unknown target") then (Permanent, PermanentClass)
    else (Transient, TransientClass)
  }

  function NormalizeFailure(message: string): Response {
    var (outcome, class_) := ClassifyFailure(Lower(message));
    var text := Strip(message);
    Response(outcome, Some(CALL_FAILED), None, Some(class_),
             Some(if message == [] then CALL_FAILED else if |text| <= 500 then text else text[..500]), NoStrength)
  }

  /** The production send function, given what the gateway call came back with. */
  function ReplyOf(g: GatewayReply): Reply {
    match g
    case Json(_, _, _, _) => Answered(NormalizeJson(g))
    case CallFailed(stderr, stdout) =>
      Answered(NormalizeFailure(if stderr != [] then stderr else if stdout != [] then stdout
                                else "gateway call failed"))
    case Unusable(_) => Raises
  }

  // ---------- Classification after the send ----------

  datatype Branch = NoBranch | BranchA | BranchB | BranchC

  datatype Classification = Classification(
    reason: Option<Code>, present: bool, valid: bool, evidenceOk: bool, branch: Branch)

  const WITHOUT_RESULT := "DELIVERED_WITHOUT_ADAPTER_RESULT"
  const FALLBACK_WITHOUT_FLAG := "FALLBACK_PATH_USED_WITHOUT_FLAG"
  const BYPASS_DETECTED := "DISPATCH_ADAPTER_BYPASS_DETECTED"
  const POST_SEND_TOKENS := {WITHOUT_RESULT, FALLBACK_WITHOUT_FLAG, BYPASS_DETECTED}

  predicate EvidenceOk(r: DeliveryResult) {
    && r.reasonCode == DeliveredSuccess
    && (r.confidence.ProviderConfirmed? || r.confidence.ProviderAccepted?)
    && r.statusCode.Some? && r.statusCode.value != []
    && IsVerifiable(r.receiptRef)
  }

  predicate IsAcceptModeCandidate(r: DeliveryResult) {
    IsWeakTuple(r) && !IsVerifiable(r.receiptRef)
  }

  function StatusToOutcome(status: DeliveryStatus): OutcomeClass {
    match status
    case DeliveredStatus => Success
    case FailedTransient => Transient
    case FailedPermanent => Permanent
    case BlockedStatus => BlockedOutcome
    case SuppressedStatus => SuppressedOutcome
  }

  function ConfidenceToStrength(c: Confidence): Strength {
    match c
    case ProviderConfirmed => Confirmed
    case ProviderAccepted => Accepted
    case NoConfidence => NoStrength
  }

  predicate MappingFieldsValid(r: DeliveryResult) {
    && StatusToOutcome(r.status) in {Success, Transient, Permanent, BlockedOutcome, SuppressedOutcome, Unknown}
    && ConfidenceToStrength(r.confidence) in {Confirmed, Accepted, NoStrength}
  }

  function Classify(result: Option<DeliveryResult>, threw: bool, token: Option<string>): Classification {
    var present := result.Some?;
    var evidence := present && EvidenceOk(result.value);
    if present && !threw && IsAcceptModeCandidate(result.value) then
      Classification(None, true, true, false, NoBranch)
    else if !(threw || token.Some? || !evidence) then
      Classification(None, present, present, evidence, NoBranch)
    else if threw || !present then
      Classification(Some(FailedAdapterResultMissing), present, false, evidence, BranchA)
    else if !MappingFieldsValid(result.value) then
      Classification(Some(FailedAdapterResultInvalid), true, false, evidence, BranchB)
    else if token.Some? && token.value != [] && token.value !in POST_SEND_TOKENS then
      Classification(Some(FailedAdapterResultUnmappable), true, true, evidence, BranchC)
    else if !evidence then
      Classification(Some(FailedAdapterResultInvalid), true, false, false, BranchB)
    else
      Classification(Some(FailedAdapterResultInvalid), true, false, evidence, BranchB)
  }

  datatype Alarm = WeakTupleLock | WeakTieBreak | ErrataInvariant | BranchNoneInRoute

  function WeakEvidenceAlarm(result: Option<DeliveryResult>, c: Classification): Option<Alarm> {
    if result.None? then None
    else
      var r := result.value;
      if r.status.DeliveredStatus? && r.confidence.ProviderAccepted? && !r.acceptOnly then Some(WeakTupleLock)
      else if IsWeakTuple(r) && c.branch != NoBranch then Some(WeakTieBreak)
      else None
  }

  function ErrataAlarm(c: Classification): Option<Alarm> {
    if (c.branch.BranchB? && c.valid) || (c.branch.BranchC? && !c.valid) then Some(ErrataInvariant) else None
  }

  datatype Verdict =
    | Delivered(result: DeliveryResult)
    | AcceptedUnverified
    | SeamFailure(reason: Code, branch: Branch)
    | IntegrityFail(alarm: Alarm)

  /** The failure route classifies again and raises an alarm when it should not have been entered. */
  function Route(result: Option<DeliveryResult>, threw: bool, token: Option<string>): Verdict {
    var c := Classify(result, threw, token);
    var weak := WeakEvidenceAlarm(result, c);
    if weak.Some? then IntegrityFail(weak.value)
    else if ErrataAlarm(c).Some? then IntegrityFail(ErrataAlarm(c).value)
    else if c.branch.NoBranch? then IntegrityFail(BranchNoneInRoute)
    else SeamFailure(if c.reason.Some? then c.reason.value else FailedAdapterResultUnmappable, c.branch)
  }

  /** What the adapter call came back with: a result, nothing, or an exception with its token. */
  datatype AdapterCall = Got(result: DeliveryResult) | GotNothing | Exploded(token: string)

  function Decide(call: AdapterCall): Verdict {
    var result := if call.Got? then Some(call.result) else None;
    var threw := call.Exploded?;
    var token := if threw then Some(call.token)
                 else if result.Some? && !EvidenceOk(result.value) then Some(WITHOUT_RESULT) else None;
    var c := Classify(result, threw, token);
    var weak := WeakEvidenceAlarm(result, c);
    if weak.Some? then IntegrityFail(weak.value)
    else if c.branch != NoBranch then Route(result, threw, token)
    else if result.Some? && IsAcceptModeCandidate(result.value) then AcceptedUnverified
    else if result.None? then Route(None, false, Some(WITHOUT_RESULT))
    else Delivered(result.value)
  }

  // ---------- What the decision is ----------

  predicate HasNoStatusCode(r: DeliveryResult) {
    r.statusCode.None? || r.statusCode.value == []
  }

  /** For every result the adapter's matrix allows, and every exception: exactly which of the
      four verdicts it is. The failure route never meets branch NONE, never raises an errata
      alarm, and never answers with branch C. */
  lemma DecisionIsExact(call: AdapterCall)
    requires call.Got? ==> ValidResult(call.result)
    ensures var v := Decide(call);
            match call
            case Exploded(_) => v == SeamFailure(FailedAdapterResultMissing, BranchA)
            case GotNothing => v == SeamFailure(FailedAdapterResultMissing, BranchA)
            case Got(r) =>
              && (v == AcceptedUnverified <==> IsWeakTuple(r) && !IsVerifiable(r.receiptRef))
              && (v == Delivered(r) <==> r.status.DeliveredStatus? && IsVerifiable(r.receiptRef) && !HasNoStatusCode(r))
              && (v == IntegrityFail(WeakTieBreak) <==>
                    IsWeakTuple(r) && IsVerifiable(r.receiptRef) && HasNoStatusCode(r))
              && (v == SeamFailure(FailedAdapterResultInvalid, BranchB) <==>
                    !IsWeakTuple(r)
                    && !(r.status.DeliveredStatus? && IsVerifiable(r.receiptRef) && !HasNoStatusCode(r)))
              && v in {AcceptedUnverified, Delivered(r), IntegrityFail(WeakTieBreak),
                       SeamFailure(FailedAdapterResultInvalid, BranchB)}
  {
  }

  /** The daemon's two entries into the failure route without an adapter result answer with
      branch A, and no decision on an adapter call ever meets branch NONE in the route or
      breaks the errata invariant. */
  lemma RouteNeverMeetsNone(token: string, call: AdapterCall)
    requires call.Got? ==> ValidResult(call.result)
    ensures Route(None, false, Some(token)) == SeamFailure(FailedAdapterResultMissing, BranchA)
    ensures Decide(call) != IntegrityFail(BranchNoneInRoute) && Decide(call) != IntegrityFail(ErrataInvariant)
  {
  }

  // ---------- Composed with the adapter ----------

  function CallOf(outcome: SendOutcome, token: string): AdapterCall {
    match outcome
    case Sent(r) => Got(r)
    case Threw(_) => Exploded(token)
  }

  // ---------- When the alarm sounds ----------

  /** A result for which the alarm sounds. */
  predicate IsAlarming(r: DeliveryResult) {
    IsWeakTuple(r) && IsVerifiable(r.receiptRef) && HasNoStatusCode(r)
  }

  /** A response the maps deliver on acceptance alone, with a verifiable receipt and no status code. */
  predicate Alarms(cfg: Settings, p: Response) {
    var rule := RuleFor(cfg, p).0;
    && rule.status.DeliveredStatus? && rule.reasonCode == DeliveredSuccess && p.strength.Accepted?
    && IsVerifiable(p.receiptRef) && (p.statusCode.None? || p.statusCode.value == [])
  }

  /** What the provider answered to this call, if it was asked and did not raise. */
  function AnswerTo(cfg: Settings, c: Cache, e: Entry): Option<Response> {
    var sent := Send(cfg, c, e.message, e.world).0.sent;
    if |sent| <= |c.sent| then None
    else
      match e.world.provider(sent[|c.sent|])
      case Raises => None
      case Answered(p) => Some(p)
  }

  predicate HasAlarmingAnswer(cfg: Settings, c: Cache, e: Entry) {
    var answer := AnswerTo(cfg, c, e);
    answer.Some? && Alarms(cfg, answer.value)
  }

  /** With the default maps these are the accepted successes with a verifiable receipt and no status code. */
  lemma DefaultMapsAlarmFor(cfg: Settings, p: Response)
    requires HasDefaultMaps(cfg)
    ensures Alarms(cfg, p) <==>
              && p.outcome.Success? && p.strength.Accepted? && IsVerifiable(p.receiptRef)
              && (p.statusCode.None? || p.statusCode.value == [])
  {
  }

  lemma MappingAlarms(cfg: Settings, m: Message, p: Response, now: Time)
    ensures Alarms(cfg, p) <==> MapResponse(cfg, m, p, now).Mapped? && IsAlarming(MapResponse(cfg, m, p, now).result)
  {
    MappingRefusesExactly(cfg, m, p, now);
  }

  lemma AskAlarms(cfg: Settings, c: Cache, m: Message, target: string, w: World)
    ensures var outbound := m.(targetRef := target);
            var outcome := Ask(cfg, c, m, target, w).1;
            outcome.Sent? && IsAlarming(outcome.result) <==>
              w.provider(outbound).Answered? && Alarms(cfg, w.provider(outbound).response)
  {
    var reply := w.provider(m.(targetRef := target));
    if reply.Answered? {
      MappingAlarms(cfg, m, reply.response, w.resultAt);
    }
  }

  /** A result is fresh and alarming exactly when the provider was asked and gave an alarming answer. */
  lemma FreshAlarms(cfg: Settings, c: Cache, e: Entry)
    requires IndexesAgree(c)
    ensures var outcome := Send(cfg, c, e.message, e.world).1;
            HasAlarmingAnswer(cfg, c, e) <==>
              (outcome.Sent? && !outcome.result.replayed && IsAlarming(outcome.result))
  {
    var m, w := NormalizeCompat(e.message), e.world;
    SendStoresAtMost(cfg, c, e.message, w);
    if && m.Some? && ValidOutbound(m.value) && e.message.attemptId !in c.byAttempt
       && NewestInWindow(Stored(c, m.value.dedupeKey), w.lookupAt, cfg.windowMs).None?
       && Preempted(cfg, m.value, w).None? {
      var target := NormalizeTarget(cfg, m.value).value;
      AskStoresAtMost(cfg, c, m.value, target, w);
      AskAlarms(cfg, c, m.value, target, w);
    }
  }

  /** A replayed result is the stored one of its attempt, changed only in the replay fields. */
  lemma ReplayIsOfItsAttempt(cfg: Settings, c: Cache, e: Entry)
    requires IndexesAgree(c)
    ensures var outcome := Send(cfg, c, e.message, e.world).1;
            outcome.Sent? && outcome.result.replayed ==>
              var a := outcome.result.attemptId;
              a in c.byAttempt && outcome.result == AsReplay(c.byAttempt[a], outcome.result.replaySource)
  {
    var m, w := NormalizeCompat(e.message), e.world;
    if m.Some? && ValidOutbound(m.value) && m.value.attemptId !in c.byAttempt {
      var stored := Stored(c, m.value.dedupeKey);
      NewestIsInWindow(stored, w.lookupAt, cfg.windowMs);
      if NewestInWindow(stored, w.lookupAt, cfg.windowMs).Some? {
        var i :| 0 <= i < |stored| && stored[i] == NewestInWindow(stored, w.lookupAt, cfg.windowMs).value;
        assert c.byAttempt[c.byDedupe[m.value.dedupeKey][i].attemptId] == stored[i];
      } else if Preempted(cfg, m.value, w).None? {
        AskStoresAtMost(cfg, c, m.value, NormalizeTarget(cfg, m.value).value, w);
      }
    }
  }

  /** The alarm for one dispatch, whatever the maps and the send function: an exception never
      sounds it, a fresh result does exactly when the provider's answer to this very call is
      alarming, and a replayed result exactly when the stored result of its attempt is. */
  lemma AlarmExactlyFor(cfg: Settings, calls: seq<Entry>, last: Entry, token: string)
    ensures var c := After(cfg, calls);
            var outcome := Send(cfg, c, last.message, last.world).1;
            var v := Decide(CallOf(outcome, token));
            && (v.IntegrityFail? ==> v.alarm.WeakTieBreak?)
            && (v.IntegrityFail? <==>
                  && outcome.Sent?
                  && if outcome.result.replayed then
                       outcome.result.attemptId in c.byAttempt && IsAlarming(c.byAttempt[outcome.result.attemptId])
                     else HasAlarmingAnswer(cfg, c, last))
  {
    CacheAgrees(cfg, calls);
    var c := After(cfg, calls);
    var outcome := Send(cfg, c, last.message, last.world).1;
    SentIsValid(cfg, c, last);
    DecisionIsExact(CallOf(outcome, token));
    FreshAlarms(cfg, c, last);
    ReplayIsOfItsAttempt(cfg, c, last);
  }

  lemma SentIsValid(cfg: Settings, c: Cache, e: Entry)
    requires IndexesAgree(c)
    ensures var outcome := Send(cfg, c, e.message, e.world).1;
            outcome.Sent? ==> ValidResult(outcome.result)
  {
    SendStoresAtMost(cfg, c, e.message, e.world);
    ReplayIsOfItsAttempt(cfg, c, e);
  }

  /** Some call of the run was for this attempt and got an alarming answer. */
  ghost predicate GotAlarming(cfg: Settings, calls: seq<Entry>, attempt: string) {
    exists i :: 0 <= i < |calls| && calls[i].message.attemptId == attempt
                && HasAlarmingAnswer(cfg, After(cfg, calls[..i]), calls[i])
  }

  lemma GotAlarmingLast(cfg: Settings, calls: seq<Entry>, last: Entry, attempt: string)
    ensures GotAlarming(cfg, calls + [last], attempt) <==>
              || GotAlarming(cfg, calls, attempt)
              || (last.message.attemptId == attempt && HasAlarmingAnswer(cfg, After(cfg, calls), last))
  {
    var run := calls + [last];
    assert forall i | 0 <= i <= |calls| :: run[..i] == calls[..i];
    assert run[..|calls|] == calls && run[|calls|] == last;
    if GotAlarming(cfg, calls, attempt) {
      var i :| 0 <= i < |calls| && calls[i].message.attemptId == attempt
          && HasAlarmingAnswer(cfg, After(cfg, calls[..i]), calls[i]);
      assert run[i] == calls[i];
    }
  }

  /** Over every run: the stored result of an attempt is alarming exactly when the provider,
      asked for that attempt somewhere in the run, gave an alarming answer. */
  lemma {:induction false} StoredAlarmsExactly(cfg: Settings, calls: seq<Entry>, attempt: string)
    ensures var c := After(cfg, calls);
            attempt in c.byAttempt && IsAlarming(c.byAttempt[attempt]) <==> GotAlarming(cfg, calls, attempt)
    decreases |calls|
  {
    if calls != [] {
      var rest, last := calls[..|calls| - 1], calls[|calls| - 1];
      assert calls == rest + [last];
      var c := After(cfg, rest);
      CacheAgrees(cfg, rest);
      StoredAlarmsExactly(cfg, rest, attempt);
      GotAlarmingLast(cfg, rest, last, attempt);
      SendStoresAtMost(cfg, c, last.message, last.world);
      FreshAlarms(cfg, c, last);
    }
  }

  /** Over every run, with any maps, any send function, any clock: the alarm sounds at a dispatch
      exactly when the result it returns is of an attempt for which the provider, at this call or
      at an earlier one, gave an alarming answer. */
  lemma AlarmSoundsExactly(cfg: Settings, calls: seq<Entry>, last: Entry, token: string)
    ensures var outcome := Send(cfg, After(cfg, calls), last.message, last.world).1;
            Decide(CallOf(outcome, token)).IntegrityFail? <==>
              outcome.Sent? && GotAlarming(cfg, calls + [last], outcome.result.attemptId)
  {
    var c := After(cfg, calls);
    var outcome := Send(cfg, c, last.message, last.world).1;
    AlarmExactlyFor(cfg, calls, last, token);
    if outcome.Sent? {
      CacheAgrees(cfg, calls);
      GotAlarmingLast(cfg, calls, last, outcome.result.attemptId);
      StoredAlarmsExactly(cfg, calls, outcome.result.attemptId);
      SendStoresAtMost(cfg, c, last.message, last.world);
      FreshAlarms(cfg, c, last);
      ReplayIsOfItsAttempt(cfg, c, last);
    }
  }

  /** After an alarming answer the alarm sounds, and again whenever the message is sent again. */
  lemma AlarmSoundsAgain(cfg: Settings, calls: seq<Entry>, e: Entry, later: World, token: string)
    requires HasAlarmingAnswer(cfg, After(cfg, calls), e)
    ensures Decide(CallOf(Send(cfg, After(cfg, calls), e.message, e.world).1, token)).IntegrityFail?
    ensures Decide(CallOf(Send(cfg, After(cfg, calls + [e]), e.message, later).1, token)).IntegrityFail?
  {
    var c, all := After(cfg, calls), calls + [e];
    assert all[..|calls|] == calls && all + [] == all;
    CacheAgrees(cfg, calls);
    FreshAlarms(cfg, c, e);
    AlarmExactlyFor(cfg, calls, e, token);
    SendStoresAtMost(cfg, c, e.message, e.world);
    AnsweredAttemptIsReplayed(cfg, all, [], e.message, later);
    AlarmExactlyFor(cfg, all, Entry(e.message, later), token);
  }

  /** There are such answers: the default maps, and a provider that accepts with a receipt. */
  lemma SomethingAlarms() returns (cfg: Settings, e: Entry)
    ensures HasDefaultMaps(cfg) && HasAlarmingAnswer(cfg, EMPTY, e)
  {
    cfg := Settings(0, map[], DEFAULT_PROVIDER_MAP, {"signal"}, false, false, None, target => true);
    var m := Message("dly-1", "att-1", 1, "", "", "signal", "ana", "normal", "tea", "key", None, None, None, None, None,
                     None);
    var answer := Response(Success, None, Some("r"), None, None, Accepted);
    e := Entry(m, World(0, 0, false, message => Answered(answer)));
    assert Strip("r") == "r";
  }

  // ---------- The production send function ----------

  /** A result for which no alarm can sound. */
  predicate IsQuiet(r: DeliveryResult) {
    ValidResult(r) && !IsAlarming(r)
  }

  ghost predicate AllQuiet(c: Cache) {
    forall a | a in c.byAttempt :: IsQuiet(c.byAttempt[a])
  }

  /** What the normaliser makes of the gateway's answer has a status code, and a receipt only
      when it is confirmed and verifiable: no map can make it alarming. */
  lemma ProductionResponsesAreQuiet(cfg: Settings, m: Message, g: GatewayReply, now: Time)
    requires ReplyOf(g).Answered?
    ensures var p := ReplyOf(g).response;
            && p.statusCode.Some? && p.statusCode.value != []
            && (p.strength.Accepted? ==> p.receiptRef.None?)
            && (p.strength.Confirmed? ==> IsVerifiable(p.receiptRef))
            && !Alarms(cfg, p)
    ensures MapResponse(cfg, m, ReplyOf(g).response, now).Mapped? ==>
              IsQuiet(MapResponse(cfg, m, ReplyOf(g).response, now).result)
  {
    MappingRefusesExactly(cfg, m, ReplyOf(g).response, now);
    MappingAlarms(cfg, m, ReplyOf(g).response, now);
  }

  ghost predicate IsProductionReply(reply: Reply) {
    exists g :: reply == ReplyOf(g)
  }

  ghost predicate IsProductionWorld(w: World) {
    forall m :: IsProductionReply(w.provider(m))
  }

  /** A run of the adapter in which every provider is the production send function. */
  ghost predicate IsProduction(calls: seq<Entry>) {
    forall e | e in calls :: IsProductionWorld(e.world)
  }

  lemma ProductionAnswersDoNotAlarm(cfg: Settings, c: Cache, e: Entry)
    requires IsProductionWorld(e.world)
    ensures !HasAlarmingAnswer(cfg, c, e)
  {
    var sent := Send(cfg, c, e.message, e.world).0.sent;
    if AnswerTo(cfg, c, e).Some? {
      assert IsProductionReply(e.world.provider(sent[|c.sent|]));
      var g :| e.world.provider(sent[|c.sent|]) == ReplyOf(g);
      ProductionResponsesAreQuiet(cfg, e.message, g, e.world.resultAt);
    }
  }

  lemma ProductionGetsNoAlarmingAnswer(cfg: Settings, calls: seq<Entry>, attempt: string)
    requires IsProduction(calls)
    ensures !GotAlarming(cfg, calls, attempt)
  {
    forall i | 0 <= i < |calls| ensures !HasAlarmingAnswer(cfg, After(cfg, calls[..i]), calls[i]) {
      assert calls[i] in calls;
      ProductionAnswersDoNotAlarm(cfg, After(cfg, calls[..i]), calls[i]);
    }
  }

  lemma ProductionStoresAreQuiet(cfg: Settings, calls: seq<Entry>)
    requires IsProduction(calls)
    ensures AllQuiet(After(cfg, calls))
  {
    CacheAgrees(cfg, calls);
    var c := After(cfg, calls);
    forall a | a in c.byAttempt ensures IsQuiet(c.byAttempt[a]) {
      StoredAlarmsExactly(cfg, calls, a);
      ProductionGetsNoAlarmingAnswer(cfg, calls, a);
    }
  }

  /** With the production send function no alarm ever sounds, whatever the maps, the gateway's
      answers and the replays: every dispatch is delivered, accepted-unverified or a seam failure. */
  lemma ProductionNeverAlarms(cfg: Settings, calls: seq<Entry>, last: Entry, token: string)
    requires IsProduction(calls + [last])
    ensures AllQuiet(After(cfg, calls))
    ensures var v := Decide(CallOf(Send(cfg, After(cfg, calls), last.message, last.world).1, token));
            v.Delivered? || v.AcceptedUnverified? || v.SeamFailure?
  {
    assert forall e | e in calls :: e in calls + [last];
    ProductionStoresAreQuiet(cfg, calls);
    var outcome := Send(cfg, After(cfg, calls), last.message, last.world).1;
    AlarmSoundsExactly(cfg, calls, last, token);
    if outcome.Sent? {
      ProductionGetsNoAlarmingAnswer(cfg, calls + [last], outcome.result.attemptId);
    }
  }

  /** A delivered verdict rests on complete evidence, and a seam failure has one of three reasons. */
  lemma DeliveredHasEvidence(call: AdapterCall)
    ensures Decide(call).Delivered? ==> call.Got? && Decide(call).result == call.result && EvidenceOk(call.result)
    ensures Decide(call).SeamFailure? ==>
              Decide(call).reason in
                {FailedAdapterResultMissing, FailedAdapterResultInvalid, FailedAdapterResultUnmappable}
  {
  }
}
