/** The gateway adapter: a closed mapping from provider responses to delivery results, and
    a replay cache over two indexes with a time window. Time is in microseconds. */
module Adapter {
  import opened Text

  type Time = int

  /** The reason codes of delivery results and attempt rows; the maps may give any other text. */
  datatype Code =
    | DeliveredSuccess
    | FailedProviderTransient | FailedProviderPermanent
    | FailedConfigInvalidTarget | FailedCapabilityUnsupported
    | SuppressedQuietHours | CaptureOnlyBlocked | TzMissing
    | FailedAdapterResultMissing | FailedAdapterResultInvalid | FailedAdapterResultUnmappable
    | AcceptedUnverifiedCode | AcceptedUnverifiedTimeout
    | OtherCode(text: string)

  datatype DeliveryStatus = DeliveredStatus | FailedTransient | FailedPermanent | SuppressedStatus | BlockedStatus
  datatype Confidence = ProviderConfirmed | ProviderAccepted | NoConfidence
  datatype ErrorClass = TransientClass | PermanentClass | PolicyClass | ConfigClass | UnknownClass
  datatype RuleSource = PolicyOverride | ProviderMap | FallbackDefault
  datatype ReplaySource = AttemptIdHit | DedupeKeyWindowHit | NoReplay
  datatype OutcomeClass = Success | Transient | Permanent | BlockedOutcome | SuppressedOutcome | Unknown
  datatype Strength = Accepted | Confirmed | NoStrength

  datatype ErrorObject = ErrorObject(code: Code, source: RuleSource, class_: ErrorClass, message: string,
                                     providerCode: Option<string>)

  datatype DeliveryResult = DeliveryResult(
    status: DeliveryStatus, reasonCode: Code, retryEligible: bool,
    receiptRef: Option<string>, statusCode: Option<string>, errorText: Option<string>,
    acceptOnly: bool, confidence: Confidence, at: Time, error: Option<ErrorObject>,
    replayed: bool, replaySource: ReplaySource,
    deliveryId: string, attemptId: string, traceId: string, causationId: string)

  datatype Response = Response(
    outcome: OutcomeClass, statusCode: Option<string>, receiptRef: Option<string>,
    errorHint: Option<ErrorClass>, message: Option<string>, strength: Strength)

  datatype Rule = Rule(status: DeliveryStatus, reasonCode: Code, retryEligible: bool, errorClass: Option<ErrorClass>)

  datatype Message = Message(
    deliveryId: string, attemptId: string, attemptIndex: int, traceId: string, causationId: string,
    channelHint: string, targetRef: string, priority: string, body: string, dedupeKey: string,
    payload: Option<string>, payloadVersion: Option<int>,
    compatPayload: Option<string>, compatPayloadVersion: Option<int>,
    metadata: Option<string>, metadataVersion: Option<int>)

  /** The maps, the window, the capabilities, and the WhatsApp target pattern as any predicate. */
  datatype Settings = Settings(
    windowMs: int, overrides: map<string, Rule>, providerMap: map<OutcomeClass, Rule>,
    channels: set<string>, supportsPriority: bool, supportsResolution: bool,
    resolver: Option<string -> Option<string>>, isWhatsAppTarget: string -> bool)

  const DEFAULT_PROVIDER_MAP: map<OutcomeClass, Rule> := map[
    Success := Rule(DeliveredStatus, DeliveredSuccess, false, None),
    Transient := Rule(FailedTransient, FailedProviderTransient, true, Some(TransientClass)),
    Permanent := Rule(FailedPermanent, FailedProviderPermanent, false, Some(PermanentClass)),
    BlockedOutcome := Rule(BlockedStatus, FailedConfigInvalidTarget, false, Some(ConfigClass)),
    SuppressedOutcome := Rule(SuppressedStatus, SuppressedQuietHours, false, Some(PolicyClass)),
    Unknown := Rule(FailedTransient, FailedProviderTransient, true, Some(UnknownClass))]

  predicate HasDefaultMaps(cfg: Settings) {
    cfg.overrides == map[] && cfg.providerMap == DEFAULT_PROVIDER_MAP
  }

  // ---------- Mapping a response ----------

  datatype Failure = TupleLockViolation | MatrixViolation | InvalidOutbound | ProviderRaised

  datatype Mapping = Mapped(result: DeliveryResult) | Refused(failure: Failure)

  function ConfidenceOf(strength: Strength): Confidence {
    match strength
    case Accepted => ProviderAccepted
    case Confirmed => ProviderConfirmed
    case NoStrength => NoConfidence
  }

  predicate IsWeak(p: Response) {
    p.outcome.Success? && p.strength.Accepted?
  }

  function RuleFor(cfg: Settings, p: Response): (Rule, RuleSource) {
    if IsWeak(p) then (Rule(DeliveredStatus, DeliveredSuccess, false, None), ProviderMap)
    else if p.statusCode.Some? && p.statusCode.value in cfg.overrides then
      (cfg.overrides[p.statusCode.value], PolicyOverride)
    else if p.outcome in cfg.providerMap then (cfg.providerMap[p.outcome], ProviderMap)
    else (Rule(FailedTransient, FailedProviderTransient, true, Some(UnknownClass)), FallbackDefault)
  }

  /** The closed matrix of status, reason, confidence, accept-only flag and error object. */
  predicate ValidResult(r: DeliveryResult) {
    && (if r.status.DeliveredStatus? then
          r.reasonCode == DeliveredSuccess && r.error.None? && !r.confidence.NoConfidence?
        else
          r.error.Some? && r.confidence.NoConfidence? && r.error.value.code == r.reasonCode)
    && !(r.confidence.ProviderConfirmed? && r.acceptOnly)
    && !(r.confidence.ProviderAccepted? && !r.acceptOnly)
    && (r.acceptOnly ==> r.status.DeliveredStatus? && r.confidence.ProviderAccepted?)
  }

  predicate IsWeakTuple(r: DeliveryResult) {
    r.status.DeliveredStatus? && r.reasonCode == DeliveredSuccess && r.confidence.ProviderAccepted? && r.acceptOnly
  }

  function MapResponse(cfg: Settings, m: Message, p: Response, now: Time): Mapping {
    var (rule, source) := RuleFor(cfg, p);
    var delivered := rule.status.DeliveredStatus?;
    var confidence := if delivered then ConfidenceOf(p.strength) else NoConfidence;
    var acceptOnly := delivered && confidence.ProviderAccepted?;
    var errorClass := if rule.errorClass.Some? then rule.errorClass.value
                      else if p.errorHint.Some? then p.errorHint.value else UnknownClass;
    var error := if delivered then None
                 else Some(ErrorObject(rule.reasonCode, source, errorClass, OrElse(p.message, "delivery failed"),
                                       p.statusCode));
    var r := DeliveryResult(rule.status, rule.reasonCode, rule.retryEligible, p.receiptRef, p.statusCode, p.message,
                            acceptOnly, confidence, now, error, false, NoReplay,
                            m.deliveryId, m.attemptId, m.traceId, m.causationId);
    if IsWeak(p) && !IsWeakTuple(r) then Refused(TupleLockViolation)
    else if !ValidResult(r) then Refused(MatrixViolation)
    else Mapped(r)
  }

  /** Whatever the maps: the tuple lock never fires, and the matrix refuses exactly the
      rules that deliver without confidence or under another reason. */
  lemma MappingRefusesExactly(cfg: Settings, m: Message, p: Response, now: Time)
    ensures var rule := RuleFor(cfg, p).0;
            var r := MapResponse(cfg, m, p, now);
            && r != Refused(TupleLockViolation)
            && (r.Refused? <==>
                  rule.status.DeliveredStatus? && (p.strength.NoStrength? || rule.reasonCode != DeliveredSuccess))
            && (r.Mapped? ==>
                  && ValidResult(r.result) && r.result.attemptId == m.attemptId && r.result.at == now
                  && !r.result.replayed)
    ensures HasDefaultMaps(cfg) ==>
              (MapResponse(cfg, m, p, now).Refused? <==> p.outcome.Success? && p.strength.NoStrength?)
  {
  }

  // ---------- The replay cache ----------

  datatype AuditEvent = AuditEvent(kind: string, attemptId: string, dedupeKey: string, replaySource: ReplaySource)

  /** The two indexes and the audit list, and, for the theorems, the messages the provider was asked to send. */
  datatype Cache = Cache(
    byAttempt: map<string, DeliveryResult>,
    byDedupe: map<string, seq<DeliveryResult>>,
    audit: seq<AuditEvent>,
    sent: seq<Message>)

  const EMPTY := Cache(map[], map[], [], [])

  datatype Reply = Answered(response: Response) | Raises

  /** What one call sees of the world: two clock readings, the runtime mode, the provider. */
  datatype World = World(lookupAt: Time, resultAt: Time, captureOnly: bool, provider: Message -> Reply)

  /** Python's int(seconds * 1000): the age in milliseconds, truncated toward zero. */
  function AgeMs(now: Time, at: Time): int {
    if now >= at then (now - at) / 1000 else -((at - now) / 1000)
  }

  function NormalizeCompat(m: Message): Option<Message> {
    if m.compatPayload.Some? && m.payload.Some? && m.payload != m.compatPayload then None
    else if m.compatPayloadVersion.Some? && m.payloadVersion.Some? && m.payloadVersion != m.compatPayloadVersion then
      None
    else Some(m.(payload := if m.compatPayload.Some? then m.compatPayload else m.payload,
                 payloadVersion := if m.compatPayloadVersion.Some? then m.compatPayloadVersion else m.payloadVersion))
  }

  predicate ValidOutbound(m: Message) {
    && m.attemptIndex >= 1
    && m.body != [] && |m.body| <= 4000
    && m.payload.Some? == m.payloadVersion.Some?
    && m.metadata.Some? == m.metadataVersion.Some?
  }

  /** The newest stored result that is not older than the window, searching from the end. */
  function NewestInWindow(results: seq<DeliveryResult>, now: Time, windowMs: int): Option<DeliveryResult>
    decreases |results|
  {
    if results == [] then None
    else
      var last := results[|results| - 1];
      if AgeMs(now, last.at) <= windowMs then Some(last)
      else NewestInWindow(results[..|results| - 1], now, windowMs)
  }

  function AsReplay(r: DeliveryResult, source: ReplaySource): DeliveryResult {
    r.(replayed := true, replaySource := source)
  }

  function Stored(c: Cache, key: string): seq<DeliveryResult> {
    if key in c.byDedupe then c.byDedupe[key] else []
  }

  function Audited(c: Cache, kind: string, r: DeliveryResult, key: string): Cache {
    c.(audit := c.audit + [AuditEvent(kind, r.attemptId, key, r.replaySource)])
  }

  function Freeze(c: Cache, r: DeliveryResult, key: string): Cache {
    c.(byAttempt := c.byAttempt[r.attemptId := r], byDedupe := c.byDedupe[key := Stored(c, key) + [r]])
  }

  function BlockedResult(m: Message, reason: Code, text: string, class_: ErrorClass, now: Time): DeliveryResult {
    DeliveryResult(BlockedStatus, reason, false, None, None, Some(text), false, NoConfidence, now,
                   Some(ErrorObject(reason, PolicyOverride, class_, text, None)), false, NoReplay,
                   m.deliveryId, m.attemptId, m.traceId, m.causationId)
  }

  function CapabilityBlock(cfg: Settings, m: Message, now: Time): Option<DeliveryResult> {
    if m.channelHint !in cfg.channels then
      Some(BlockedResult(m, FailedCapabilityUnsupported, "unsupported channel_hint: " + m.channelHint, ConfigClass,
                         now))
    else if m.priority == "high" && !cfg.supportsPriority then
      Some(BlockedResult(m, FailedCapabilityUnsupported, "priority unsupported", ConfigClass, now))
    else None
  }

  function WithoutPrefix(target: string): string {
    if StartsWith(target, "whatsapp:") then target[|"whatsapp:"|..] else target
  }

  function NormalizeTarget(cfg: Settings, m: Message): Option<string> {
    if m.channelHint != "whatsapp" then Some(m.targetRef)
    else if cfg.isWhatsAppTarget(m.targetRef) then Some(WithoutPrefix(m.targetRef))
    else if !cfg.supportsResolution || cfg.resolver.None? then None
    else
      var resolved := cfg.resolver.value(m.targetRef);
      if resolved.None? || !cfg.isWhatsAppTarget(resolved.value) then None else Some(WithoutPrefix(resolved.value))
  }

  /** What is stored without asking the provider, and under which audit kind. */
  function Preempted(cfg: Settings, m: Message, w: World): Option<(DeliveryResult, string)> {
    var block := CapabilityBlock(cfg, m, w.resultAt);
    if block.Some? then Some((block.value, "capability_blocked"))
    else if NormalizeTarget(cfg, m).None? then
      Some((BlockedResult(m, FailedCapabilityUnsupported, "target alias unresolved", ConfigClass, w.resultAt),
            "capability_blocked"))
    else if w.captureOnly then
      Some((BlockedResult(m, CaptureOnlyBlocked, "capture_only runtime mode", PolicyClass, w.resultAt),
            "capture_only_blocked"))
    else None
  }

  datatype SendOutcome = Sent(result: DeliveryResult) | Threw(failure: Failure)

  function Ask(cfg: Settings, c: Cache, m: Message, target: string, w: World): (Cache, SendOutcome) {
    var outbound := m.(targetRef := target);
    var c1 := c.(sent := c.sent + [outbound]);
    match w.provider(outbound)
    case Raises => (c1, Threw(ProviderRaised))
    case Answered(p) =>
      match MapResponse(cfg, m, p, w.resultAt)
      case Refused(f) => (c1, Threw(f))
      case Mapped(r) => (Audited(Freeze(c1, r, m.dedupeKey), "send_result", r, m.dedupeKey), Sent(r))
  }

  function Send(cfg: Settings, c: Cache, raw: Message, w: World): (Cache, SendOutcome) {
    var normalized := NormalizeCompat(raw);
    if normalized.None? || !ValidOutbound(normalized.value) then (c, Threw(InvalidOutbound))
    else
      var m := normalized.value;
      if m.attemptId in c.byAttempt then
        var r := AsReplay(c.byAttempt[m.attemptId], AttemptIdHit);
        (Audited(c, "replay_returned", r, m.dedupeKey), Sent(r))
      else
        var hit := NewestInWindow(Stored(c, m.dedupeKey), w.lookupAt, cfg.windowMs);
        if hit.Some? then
          var r := AsReplay(hit.value, DedupeKeyWindowHit);
          (Audited(c, "dedupe_hit", r, m.dedupeKey), Sent(r))
        else
          var pre := Preempted(cfg, m, w);
          if pre.Some? then
            (Audited(Freeze(c, pre.value.0, m.dedupeKey), pre.value.1, pre.value.0, m.dedupeKey), Sent(pre.value.0))
          else Ask(cfg, c, m, NormalizeTarget(cfg, m).value, w)
  }

  // ---------- The two indexes agree ----------

  ghost predicate IsCanonical(r: DeliveryResult) {
    ValidResult(r) && !r.replayed && r.replaySource.NoReplay?
  }

  /** Every result of the attempt index is canonical, filed under its attempt, and in a dedupe list. */
  ghost predicate AttemptsFiled(c: Cache) {
    forall a | a in c.byAttempt ::
      && IsCanonical(c.byAttempt[a]) && c.byAttempt[a].attemptId == a
      && exists k :: k in c.byDedupe && c.byAttempt[a] in c.byDedupe[k]
  }

  /** Every result of a dedupe list is the one the attempt index has for its attempt. */
  ghost predicate DedupesFiled(c: Cache) {
    forall k, i | k in c.byDedupe && 0 <= i < |c.byDedupe[k]| ::
      var a := c.byDedupe[k][i].attemptId;
      a in c.byAttempt && c.byAttempt[a] == c.byDedupe[k][i]
  }

  ghost predicate NoRepeats(c: Cache) {
    forall k, i, k', i' | k in c.byDedupe && 0 <= i < |c.byDedupe[k]| && k' in c.byDedupe
        && 0 <= i' < |c.byDedupe[k']| ::
      c.byDedupe[k][i].attemptId == c.byDedupe[k'][i'].attemptId ==> k == k' && i == i'
  }

  /** The attempt index and the dedupe index hold the same canonical results, each exactly once. */
  ghost predicate IndexesAgree(c: Cache) {
    AttemptsFiled(c) && DedupesFiled(c) && NoRepeats(c)
  }

  /** Later caches keep every stored result. */
  ghost predicate Extends(c: Cache, c': Cache) {
    && (forall a | a in c.byAttempt :: a in c'.byAttempt && c'.byAttempt[a] == c.byAttempt[a])
    && (forall k | k in c.byDedupe :: k in c'.byDedupe && c.byDedupe[k] <= c'.byDedupe[k])
  }

  lemma FreezeFilesAttempts(c: Cache, r: DeliveryResult, key: string)
    requires AttemptsFiled(c) && IsCanonical(r) && r.attemptId !in c.byAttempt
    ensures AttemptsFiled(Freeze(c, r, key)) && Extends(c, Freeze(c, r, key))
  {
    var c' := Freeze(c, r, key);
    assert c'.byDedupe[key][|Stored(c, key)|] == r;
    forall a | a in c'.byAttempt ensures exists k :: k in c'.byDedupe && c'.byAttempt[a] in c'.byDedupe[k] {
      if a == r.attemptId {
        assert r in c'.byDedupe[key];
      } else {
        var k :| k in c.byDedupe && c.byAttempt[a] in c.byDedupe[k];
        assert c'.byAttempt[a] in c'.byDedupe[k];
      }
    }
  }

  /** The entries of a frozen cache: those of before, and r at the end of its key's list. */
  lemma FrozenEntry(c: Cache, r: DeliveryResult, key: string, k: string, i: nat)
    requires var c' := Freeze(c, r, key); k in c'.byDedupe && i < |c'.byDedupe[k]|
    ensures var c' := Freeze(c, r, key);
            if k in c.byDedupe && i < |c.byDedupe[k]| then c'.byDedupe[k][i] == c.byDedupe[k][i]
            else k == key && i == |Stored(c, key)| && c'.byDedupe[k][i] == r
  {
  }

  lemma FreezeKeepsAgreement(c: Cache, r: DeliveryResult, key: string)
    requires IndexesAgree(c) && IsCanonical(r) && r.attemptId !in c.byAttempt
    ensures IndexesAgree(Freeze(c, r, key)) && Extends(c, Freeze(c, r, key))
  {
    var c' := Freeze(c, r, key);
    FreezeFilesAttempts(c, r, key);
    forall k, i: nat | k in c'.byDedupe && i < |c'.byDedupe[k]| {
      FrozenEntry(c, r, key, k, i);
    }
    assert DedupesFiled(c');
    FreezeNoRepeats(c, r, key);
  }

  lemma FreezeNoRepeats(c: Cache, r: DeliveryResult, key: string)
    requires DedupesFiled(c) && NoRepeats(c) && r.attemptId !in c.byAttempt
    ensures NoRepeats(Freeze(c, r, key))
  {
    var c' := Freeze(c, r, key);
    forall k, i, k', i' | k in c'.byDedupe && 0 <= i < |c'.byDedupe[k]| && k' in c'.byDedupe
        && 0 <= i' < |c'.byDedupe[k']|
                          && c'.byDedupe[k][i].attemptId == c'.byDedupe[k'][i'].attemptId
      ensures k == k' && i == i'
    {
      FrozenEntry(c, r, key, k, i);
      FrozenEntry(c, r, key, k', i');
    }
  }

  /** How one send changes the cache: not at all, or by storing its own canonical result. */
  ghost predicate StoresAtMost(c: Cache, c': Cache, m: Message, outcome: SendOutcome) {
    || (c'.byAttempt == c.byAttempt && c'.byDedupe == c.byDedupe
        && (outcome.Sent? ==> outcome.result.replayed))
    || (&& outcome.Sent? && IsCanonical(outcome.result) && outcome.result.attemptId == m.attemptId
        && m.attemptId !in c.byAttempt
        && c'.byAttempt == Freeze(c, outcome.result, m.dedupeKey).byAttempt
        && c'.byDedupe == Freeze(c, outcome.result, m.dedupeKey).byDedupe)
  }

  lemma AskStoresAtMost(cfg: Settings, c: Cache, m: Message, target: string, w: World)
    requires m.attemptId !in c.byAttempt
    ensures var (c', outcome) := Ask(cfg, c, m, target, w);
            && StoresAtMost(c, c', m, outcome)
            && (outcome.Sent? ==> !outcome.result.replayed && outcome.result.at == w.resultAt)
  {
    match w.provider(m.(targetRef := target))
    case Answered(p) => MappingRefusesExactly(cfg, m, p, w.resultAt);
    case Raises =>
  }

  lemma PreemptedIsCanonical(cfg: Settings, m: Message, w: World)
    requires Preempted(cfg, m, w).Some?
    ensures var r := Preempted(cfg, m, w).value.0;
            IsCanonical(r) && r.attemptId == m.attemptId && r.at == w.resultAt
  {
  }

  /** A send stores nothing, or its own result: and then only when no result of its key was in the window. */
  lemma SendStoresAtMost(cfg: Settings, c: Cache, raw: Message, w: World)
    ensures var (c', outcome) := Send(cfg, c, raw, w);
            && StoresAtMost(c, c', raw, outcome)
            && (outcome.Sent? && !outcome.result.replayed ==>
                  outcome.result.at == w.resultAt
                  && NewestInWindow(Stored(c, raw.dedupeKey), w.lookupAt, cfg.windowMs).None?)
  {
    var normalized := NormalizeCompat(raw);
    if normalized.Some? && normalized.value.attemptId !in c.byAttempt {
      var m := normalized.value;
      if Preempted(cfg, m, w).Some? {
        PreemptedIsCanonical(cfg, m, w);
      } else {
        AskStoresAtMost(cfg, c, m, NormalizeTarget(cfg, m).value, w);
      }
    }
  }
}
