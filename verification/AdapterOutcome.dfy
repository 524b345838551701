/** What one send of the adapter does, for every cache, message and provider, and what becomes
    of each answer of the gateway on its way to the daemon. */
module AdapterOutcome {
  import opened Text
  import opened Adapter
  import opened Seam

  // ---------- The parts of a send ----------

  /** The two payload fields contradict their aliases, or a field is out of bounds. */
  ghost predicate IsMalformed(m: Message) {
    || (m.payload.Some? && m.compatPayload.Some? && m.payload != m.compatPayload)
    || (m.payloadVersion.Some? && m.compatPayloadVersion.Some? && m.payloadVersion != m.compatPayloadVersion)
    || m.attemptIndex < 1 || |m.body| == 0 || |m.body| > 4000
    || ((m.payload.Some? || m.compatPayload.Some?) != (m.payloadVersion.Some? || m.compatPayloadVersion.Some?))
    || m.metadata.Some? != m.metadataVersion.Some?
  }

  /** An alias fills its payload field. */
  ghost function Merged(m: Message): Message {
    m.(payload := if m.payload.None? then m.compatPayload else m.payload,
       payloadVersion := if m.payloadVersion.None? then m.compatPayloadVersion else m.payloadVersion)
  }

  /** Stored at most the window and less than one millisecond before now; a result from the
      future is in every window that is not negative. */
  ghost predicate IsRecent(at: Time, now: Time, windowMs: int) {
    if at <= now then now - at < (windowMs + 1) * 1000 else now - at <= windowMs * 1000
  }

  lemma AgeIsExact(at: Time, now: Time, windowMs: int)
    ensures AgeMs(now, at) <= windowMs <==> IsRecent(at, now, windowMs)
  {
  }

  /** The last recent result of a key. */
  ghost predicate IsHit(results: seq<DeliveryResult>, now: Time, windowMs: int, i: nat) {
    && i < |results| && IsRecent(results[i].at, now, windowMs)
    && forall j | i < j < |results| :: !IsRecent(results[j].at, now, windowMs)
  }

  lemma {:induction false} HitIsNewest(results: seq<DeliveryResult>, now: Time, windowMs: int) returns (i: nat)
    ensures NewestInWindow(results, now, windowMs).Some? ==>
              IsHit(results, now, windowMs, i) && NewestInWindow(results, now, windowMs).value == results[i]
    ensures NewestInWindow(results, now, windowMs).None? ==>
              forall j | 0 <= j < |results| :: !IsRecent(results[j].at, now, windowMs)
    decreases |results|
  {
    i := 0;
    if results != [] {
      var last := |results| - 1;
      AgeIsExact(results[last].at, now, windowMs);
      i := HitIsNewest(results[..last], now, windowMs);
      if AgeMs(now, results[last].at) <= windowMs {
        i := last;
      }
    }
  }

  ghost predicate IsWithoutPrefix(target: string, bare: string) {
    if exists rest :: target == "whatsapp:" + rest then target == "whatsapp:" + bare else bare == target
  }

  lemma PrefixIsDropped(target: string)
    ensures IsWithoutPrefix(target, WithoutPrefix(target))
    ensures forall bare :: IsWithoutPrefix(target, bare) ==> bare == WithoutPrefix(target)
  {
    if StartsWith(target, "whatsapp:") {
      assert target == "whatsapp:" + WithoutPrefix(target);
      forall bare | target == "whatsapp:" + bare ensures bare == WithoutPrefix(target) {
        assert target[|"whatsapp:"|..] == bare;
      }
    }
  }

  /** The target a message goes to: by WhatsApp its own canonical target, or else the canonical
      one it resolves to; by any other channel its own. */
  ghost predicate GoesTo(cfg: Settings, m: Message, target: string) {
    if m.channelHint != "whatsapp" then target == m.targetRef
    else if cfg.isWhatsAppTarget(m.targetRef) then IsWithoutPrefix(m.targetRef, target)
    else
      && cfg.supportsResolution && cfg.resolver.Some?
      && var resolved := cfg.resolver.value(m.targetRef);
         resolved.Some? && cfg.isWhatsAppTarget(resolved.value) && IsWithoutPrefix(resolved.value, target)
  }

  lemma TargetIsExact(cfg: Settings, m: Message)
    ensures forall target :: GoesTo(cfg, m, target) <==> NormalizeTarget(cfg, m) == Some(target)
  {
    PrefixIsDropped(m.targetRef);
    if cfg.resolver.Some? && cfg.resolver.value(m.targetRef).Some? {
      PrefixIsDropped(cfg.resolver.value(m.targetRef).value);
    }
    hide IsWithoutPrefix, WithoutPrefix;
  }

  /** Why a message is answered without asking the provider, and the kind of the audit entry. */
  datatype Refusal = Refusal(reason: Code, text: string, class_: ErrorClass, kind: string)

  ghost function RefusalOf(cfg: Settings, m: Message, captureOnly: bool): Option<Refusal> {
    if m.channelHint !in cfg.channels then
      Some(Refusal(FailedCapabilityUnsupported, "unsupported channel_hint: " + m.channelHint, ConfigClass,
                   "capability_blocked"))
    else if m.priority == "high" && !cfg.supportsPriority then
      Some(Refusal(FailedCapabilityUnsupported, "priority unsupported", ConfigClass, "capability_blocked"))
    else if forall target :: !GoesTo(cfg, m, target) then
      Some(Refusal(FailedCapabilityUnsupported, "target alias unresolved", ConfigClass, "capability_blocked"))
    else if captureOnly then
      Some(Refusal(CaptureOnlyBlocked, "capture_only runtime mode", PolicyClass, "capture_only_blocked"))
    else None
  }

  ghost predicate IsRefusal(m: Message, why: Refusal, at: Time, r: DeliveryResult) {
    r == DeliveryResult(BlockedStatus, why.reason, false, None, None, Some(why.text), false, NoConfidence, at,
                        Some(ErrorObject(why.reason, PolicyOverride, why.class_, why.text, None)), false, NoReplay,
                        m.deliveryId, m.attemptId, m.traceId, m.causationId)
  }

  lemma RefusalIsExact(cfg: Settings, m: Message, w: World)
    ensures var why, pre := RefusalOf(cfg, m, w.captureOnly), Preempted(cfg, m, w);
            && (pre.Some? <==> why.Some?)
            && (pre.Some? ==> IsRefusal(m, why.value, w.resultAt, pre.value.0) && pre.value.1 == why.value.kind)
            && (pre.None? ==> NormalizeTarget(cfg, m).Some? && GoesTo(cfg, m, NormalizeTarget(cfg, m).value))
  {
    TargetIsExact(cfg, m);
    hide GoesTo, NormalizeTarget;
    if NormalizeTarget(cfg, m).Some? {
      assert GoesTo(cfg, m, NormalizeTarget(cfg, m).value);
    }
  }

  // ---------- From an answer to a result ----------

  /** The rule for an answer: a success on acceptance alone is delivered whatever the maps; then
      the override of the status code, then the map, then a retry. */
  ghost predicate IsRuled(cfg: Settings, p: Response, rule: Rule, source: RuleSource) {
    if p.outcome.Success? && p.strength.Accepted? then
      rule == Rule(DeliveredStatus, DeliveredSuccess, false, None) && source.ProviderMap?
    else if p.statusCode.Some? && p.statusCode.value in cfg.overrides then
      rule == cfg.overrides[p.statusCode.value] && source.PolicyOverride?
    else if p.outcome in cfg.providerMap then rule == cfg.providerMap[p.outcome] && source.ProviderMap?
    else rule == Rule(FailedTransient, FailedProviderTransient, true, Some(UnknownClass)) && source.FallbackDefault?
  }

  /** A result with this rule. Delivered: the answer's receipt and code, confirmed or accepted as
      the answer says. Otherwise: no confidence, and an error object. */
  ghost predicate HasColumns(m: Message, p: Response, at: Time, rule: Rule, source: RuleSource, r: DeliveryResult) {
    && r.status == rule.status && r.reasonCode == rule.reasonCode && r.retryEligible == rule.retryEligible
    && r.receiptRef == p.receiptRef && r.statusCode == p.statusCode && r.errorText == p.message && r.at == at
    && !r.replayed && r.replaySource.NoReplay?
    && r.deliveryId == m.deliveryId && r.attemptId == m.attemptId && r.traceId == m.traceId
    && r.causationId == m.causationId
    && if rule.status.DeliveredStatus? then
         && rule.reasonCode == DeliveredSuccess && r.error.None?
         && (if r.acceptOnly then p.strength.Accepted? && r.confidence.ProviderAccepted?
             else p.strength.Confirmed? && r.confidence.ProviderConfirmed?)
       else
         && !r.acceptOnly && r.confidence.NoConfidence? && r.error.Some?
         && var e := r.error.value;
            && e.code == rule.reasonCode && e.source == source && e.providerCode == p.statusCode
            && e.message == (if p.message.Some? && p.message.value != [] then p.message.value else "delivery failed")
            && (if rule.errorClass.Some? then rule.errorClass == Some(e.class_)
                else if p.errorHint.Some? then p.errorHint == Some(e.class_)
                else e.class_.UnknownClass?)
  }

  ghost predicate IsResultOf(cfg: Settings, m: Message, p: Response, at: Time, r: DeliveryResult) {
    exists rule, source :: IsRuled(cfg, p, rule, source) && HasColumns(m, p, at, rule, source, r)
  }

  lemma MappingIsExact(cfg: Settings, m: Message, p: Response, at: Time)
    ensures match MapResponse(cfg, m, p, at)
            case Mapped(r) => IsResultOf(cfg, m, p, at, r)
            case Refused(f) => f.MatrixViolation? && forall r :: !IsResultOf(cfg, m, p, at, r)
  {
    MappingRefusesExactly(cfg, m, p, at);
    var (rule, source) := RuleFor(cfg, p);
    assert IsRuled(cfg, p, rule, source);
    match MapResponse(cfg, m, p, at)
    case Mapped(r) => assert HasColumns(m, p, at, rule, source, r);
    case Refused(_) =>
  }

  /** With the default maps: status, reason, retry and error class for each class of answer; an
      override or another map may say otherwise. */
  lemma DefaultsAreExact(cfg: Settings, m: Message, p: Response, at: Time, r: DeliveryResult)
    requires HasDefaultMaps(cfg) && IsResultOf(cfg, m, p, at, r)
    ensures var class_ := if r.error.Some? then Some(r.error.value.class_) else None;
            (r.status, r.reasonCode, r.retryEligible, class_) ==
            match p.outcome
            case Success => (DeliveredStatus, DeliveredSuccess, false, None)
            case Transient => (FailedTransient, FailedProviderTransient, true, Some(TransientClass))
            case Permanent => (FailedPermanent, FailedProviderPermanent, false, Some(PermanentClass))
            case BlockedOutcome => (BlockedStatus, FailedConfigInvalidTarget, false, Some(ConfigClass))
            case SuppressedOutcome => (SuppressedStatus, SuppressedQuietHours, false, Some(PolicyClass))
            case Unknown => (FailedTransient, FailedProviderTransient, true, Some(UnknownClass))
  {
    var rule, source :| IsRuled(cfg, p, rule, source) && HasColumns(m, p, at, rule, source, r);
  }

  // ---------- One send ----------

  /** The stored result is handed out again, marked as a replay, and nothing else changes. */
  ghost predicate HandsOut(c: Cache, c': Cache, m: Message, outcome: SendOutcome, stored: DeliveryResult,
                           source: ReplaySource, kind: string)
  {
    && outcome == Sent(stored.(replayed := true, replaySource := source))
    && c' == c.(audit := c.audit + [AuditEvent(kind, stored.attemptId, m.dedupeKey, source)])
  }

  /** The result is handed out and stored under its attempt and at the end of its key's list. */
  ghost predicate Files(c: Cache, c': Cache, m: Message, outcome: SendOutcome, r: DeliveryResult, kind: string) {
    && outcome == Sent(r)
    && c' == Cache(c.byAttempt[m.attemptId := r],
                   c.byDedupe[m.dedupeKey := (if m.dedupeKey in c.byDedupe then c.byDedupe[m.dedupeKey] else []) + [r]],
                   c.audit + [AuditEvent(kind, m.attemptId, m.dedupeKey, NoReplay)], c.sent)
  }

  /** The provider is asked to send the message to this target. */
  ghost predicate AsksFor(cfg: Settings, c: Cache, c': Cache, m: Message, w: World, outcome: SendOutcome,
                          target: string)
  {
    var out := Merged(m).(targetRef := target);
    var asked := c.(sent := c.sent + [out]);
    && GoesTo(cfg, m, target)
    && match w.provider(out)
       case Raises => outcome == Threw(ProviderRaised) && c' == asked
       case Answered(p) =>
         if exists r :: IsResultOf(cfg, m, p, w.resultAt, r)
         then exists r :: IsResultOf(cfg, m, p, w.resultAt, r) && Files(asked, c', m, outcome, r, "send_result")
         else outcome == Threw(MatrixViolation) && c' == asked
  }

  ghost predicate IsFresh(cfg: Settings, c: Cache, c': Cache, m: Message, w: World, outcome: SendOutcome) {
    match RefusalOf(cfg, m, w.captureOnly)
    case Some(why) => exists r :: IsRefusal(m, why, w.resultAt, r) && Files(c, c', m, outcome, r, why.kind)
    case None => exists target :: AsksFor(cfg, c, c', m, w, outcome, target)
  }

  ghost function ResultsOf(c: Cache, key: string): seq<DeliveryResult> {
    if key in c.byDedupe then c.byDedupe[key] else []
  }

  ghost predicate HandsOutRecent(c: Cache, c': Cache, m: Message, outcome: SendOutcome, now: Time, windowMs: int) {
    var results := ResultsOf(c, m.dedupeKey);
    exists i: nat :: IsHit(results, now, windowMs, i)
                     && HandsOut(c, c', m, outcome, results[i], DedupeKeyWindowHit, "dedupe_hit")
  }

  /** One send, over any cache: malformed messages throw; a stored result of the attempt, and else
      the last recent one of the key, is handed out again; what may not be sent is refused; and
      all else is asked of the provider, whose answer is stored as the maps say. */
  ghost predicate SendsExactly(cfg: Settings, c: Cache, c': Cache, m: Message, w: World, outcome: SendOutcome) {
    if IsMalformed(m) then outcome == Threw(InvalidOutbound) && c' == c
    else if m.attemptId in c.byAttempt then
      HandsOut(c, c', m, outcome, c.byAttempt[m.attemptId], AttemptIdHit, "replay_returned")
    else if exists i: nat :: IsHit(ResultsOf(c, m.dedupeKey), w.lookupAt, cfg.windowMs, i) then
      HandsOutRecent(c, c', m, outcome, w.lookupAt, cfg.windowMs)
    else IsFresh(cfg, c, c', m, w, outcome)
  }

  lemma MalformedIsExact(m: Message)
    ensures var n := NormalizeCompat(m); IsMalformed(m) <==> n.None? || !ValidOutbound(n.value)
    ensures !IsMalformed(m) ==> NormalizeCompat(m) == Some(Merged(m))
  {
  }

  /** The two payload fields play no part in where a message goes or what its result is. */
  lemma MergedIsSent(cfg: Settings, m: Message, w: World)
    ensures NormalizeTarget(cfg, Merged(m)) == NormalizeTarget(cfg, m)
    ensures Preempted(cfg, Merged(m), w) == Preempted(cfg, m, w)
    ensures forall p, at :: MapResponse(cfg, Merged(m), p, at) == MapResponse(cfg, m, p, at)
  {
  }

  lemma AskIsExact(cfg: Settings, c: Cache, m: Message, target: string, w: World)
    requires GoesTo(cfg, m, target)
    ensures var (c', outcome) := Ask(cfg, c, Merged(m), target, w); AsksFor(cfg, c, c', m, w, outcome, target)
  {
    MergedIsSent(cfg, m, w);
    var reply := w.provider(Merged(m).(targetRef := target));
    if reply.Answered? {
      MappingIsExact(cfg, m, reply.response, w.resultAt);
    }
    hide GoesTo, IsResultOf, NormalizeTarget;
    if reply.Answered? && MapResponse(cfg, m, reply.response, w.resultAt).Mapped? {
      var r := MapResponse(cfg, m, reply.response, w.resultAt).result;
      assert IsResultOf(cfg, m, reply.response, w.resultAt, r);
      ResultIsOfAttempt(cfg, m, reply.response, w.resultAt, r);
    }
    hide MapResponse;
  }

  lemma ResultIsOfAttempt(cfg: Settings, m: Message, p: Response, at: Time, r: DeliveryResult)
    requires IsResultOf(cfg, m, p, at, r)
    ensures r.attemptId == m.attemptId && r.replaySource.NoReplay?
  {
  }

  lemma FreshIsExact(cfg: Settings, c: Cache, m: Message, w: World)
    requires !IsMalformed(m) && m.attemptId !in c.byAttempt
    requires NewestInWindow(Stored(c, m.dedupeKey), w.lookupAt, cfg.windowMs).None?
    ensures var (c', outcome) := Send(cfg, c, m, w); IsFresh(cfg, c, c', m, w, outcome)
  {
    MalformedIsExact(m);
    MergedIsSent(cfg, m, w);
    RefusalIsExact(cfg, m, w);
    hide IsMalformed, NormalizeCompat, ValidOutbound, NormalizeTarget, GoesTo, RefusalOf, Preempted, Ask, AsksFor,
      NewestInWindow;
    var pre := Preempted(cfg, m, w);
    if pre.Some? {
      assert IsRefusal(m, RefusalOf(cfg, m, w.captureOnly).value, w.resultAt, pre.value.0);
    } else {
      AskIsExact(cfg, c, m, NormalizeTarget(cfg, m).value, w);
    }
  }

  lemma SendIsExact(cfg: Settings, c: Cache, m: Message, w: World)
    ensures var (c', outcome) := Send(cfg, c, m, w); SendsExactly(cfg, c, c', m, w, outcome)
  {
    MalformedIsExact(m);
    var results := ResultsOf(c, m.dedupeKey);
    var i := HitIsNewest(results, w.lookupAt, cfg.windowMs);
    hide IsMalformed, NormalizeCompat, ValidOutbound, Preempted, Ask, IsFresh, NewestInWindow, IsRecent;
    if !IsMalformed(m) && m.attemptId !in c.byAttempt {
      if NewestInWindow(results, w.lookupAt, cfg.windowMs).Some? {
        assert IsHit(results, w.lookupAt, cfg.windowMs, i);
      } else {
        FreshIsExact(cfg, c, m, w);
      }
    }
  }

  // ---------- From the gateway to the daemon ----------

  /** The four fields in the order they are looked at: i is the first that is not blank. */
  ghost predicate IsFirst(fields: seq<Field>, i: nat) {
    && i < |fields| && fields[i].Some? && !IsBlank(fields[i].value)
    && forall j | 0 <= j < i :: fields[j].None? || IsBlank(fields[j].value)
  }

  /** A reference that a transport could have given out: no placeholder and no local id. */
  ghost predicate IsReal(ref: string) {
    var t := Lower(ref);
    && t != "" && t != "none" && t != "null" && t != "n/a" && t != "na" && t != "placeholder" && t != "synthetic"
    && !("att-" <= t) && !("rcpt:att-" <= t) && !("local:" <= t)
  }

  lemma StrippedIsVerifiable(ref: string)
    ensures IsVerifiable(Some(ref)) <==> IsReal(Strip(ref))
  {
    hide Strip;
  }

  /** A reference counts as evidence exactly when it is real once it is trimmed. */
  lemma VerifiableIsExact(ref: Option<string>)
    ensures IsVerifiable(ref) <==> ref.Some? && exists t :: IsTrimming(ref.value, t) && IsReal(t)
  {
    if ref.Some? {
      StrippedIsVerifiable(ref.value);
      hide IsVerifiable, IsReal, IsTrimming, Strip;
      StripIsTrimming(ref.value);
      if t :| IsTrimming(ref.value, t) && IsReal(t) {
        TrimmingIsStrip(ref.value, t);
      }
    }
  }

  lemma RealIsVerifiable(ref: string)
    requires IsTrimmed(ref)
    ensures IsVerifiable(Some(ref)) <==> IsReal(ref)
  {
    StrippedIsVerifiable(ref);
    TrimmedIsFixed(ref);
  }

  lemma {:induction false} FirstTextIsFirst(fields: seq<Field>) returns (i: nat)
    ensures FirstText(fields).Some? ==> IsFirst(fields, i) && IsTrimming(fields[i].value, FirstText(fields).value)
                                        && FirstText(fields).value != ""
    ensures FirstText(fields).None? ==> forall j: nat :: !IsFirst(fields, j)
    decreases |fields|
  {
    i := 0;
    if fields != [] {
      if fields[0].Some? {
        StripIsTrimming(fields[0].value);
        BlankIsEmpty(fields[0].value);
      }
      if !(fields[0].Some? && Strip(fields[0].value) != []) {
        var n := FirstTextIsFirst(fields[1..]);
        i := n + 1;
        if FirstText(fields).None? {
          forall j: nat | IsFirst(fields, j) ensures false {
            assert IsFirst(fields[1..], j - 1);
          }
        }
      }
    }
  }

  lemma FirstIsOnly(fields: seq<Field>, i: nat, j: nat)
    requires IsFirst(fields, i) && IsFirst(fields, j)
    ensures i == j
  {
  }

  /** A JSON answer is a success; its receipt is the first field that is not blank, trimmed, if
      that is a real reference, and only then it is confirmed. */
  lemma JsonIsExact(g: GatewayReply) returns (i: nat)
    requires g.Json?
    ensures var p, fields := NormalizeJson(g), [g.messageId, g.id, g.receipt, g.ref];
            && p == Response(Success, Some("ok"), p.receiptRef, None, None,
                             if p.receiptRef.Some? then Confirmed else Accepted)
            && (p.receiptRef.Some? ==>
                  IsFirst(fields, i) && IsTrimming(fields[i].value, p.receiptRef.value) && IsReal(p.receiptRef.value))
            && (p.receiptRef.None? ==>
                  forall j: nat, t :: IsFirst(fields, j) && IsTrimming(fields[j].value, t) ==> !IsReal(t))
  {
    var fields := [g.messageId, g.id, g.receipt, g.ref];
    i := FirstTextIsFirst(fields);
    var candidate := FirstText(fields);
    if candidate.Some? {
      RealIsVerifiable(candidate.value);
      forall j: nat, t | IsFirst(fields, j) && IsTrimming(fields[j].value, t) ensures t == candidate.value {
        FirstIsOnly(fields, i, j);
        TrimmingIsStrip(fields[i].value, t);
        TrimmingIsStrip(fields[i].value, candidate.value);
      }
    }
    hide IsVerifiable, IsReal, IsTrimming, IsFirst, FirstText;
  }

  /** The verdict on every result, whether or not the matrix allows it: an accepted delivery
      that is not marked so is alarming; one that is marked is open without a verifiable
      reference, and with one delivered or, lacking a status code, alarming; any other is
      delivered on complete evidence alone. */
  lemma AnyDecisionIsExact(r: DeliveryResult)
    ensures var verifiable, coded := IsVerifiable(r.receiptRef), r.statusCode.Some? && r.statusCode.value != "";
            var accepted := r.status.DeliveredStatus? && r.confidence.ProviderAccepted?;
            Decide(Got(r)) ==
              if accepted && !r.acceptOnly then IntegrityFail(WeakTupleLock)
              else if accepted && r.reasonCode == DeliveredSuccess then
                if !verifiable then AcceptedUnverified
                else if coded then Delivered(r) else IntegrityFail(WeakTieBreak)
              else if r.reasonCode == DeliveredSuccess && !r.confidence.NoConfidence? && verifiable && coded
              then Delivered(r)
              else SeamFailure(FailedAdapterResultInvalid, BranchB)
  {
    hide IsVerifiable;
  }

  /** Words of a failed call's message, and what they mean; the first line with one of them decides. */
  const FAILURES: seq<(seq<string>, OutcomeClass, ErrorClass)> := [
    (["timeout", "timed out", "unavailable", "rate"], Transient, TransientClass),
    (["blocked", "policy"], BlockedOutcome, PolicyClass),
    (["suppressed", "skipped"], SuppressedOutcome, PolicyClass),
    (["auth", "invalid request", "unsupported", "unknown target"], Permanent, PermanentClass)]

  ghost predicate HasWord(text: string, word: string) {
    exists before, after :: text == before + word + after
  }

  ghost predicate Mentions(text: string, words: seq<string>) {
    exists w | w in words :: HasWord(text, w)
  }

  lemma ContainsIsExact(text: string, word: string)
    ensures Contains(text, word) <==> HasWord(text, word)
  {
    if Contains(text, word) {
      var i :| 0 <= i <= |text| && StartsWith(text[i..], word);
      assert text == text[..i] + word + text[i + |word|..];
    }
    if before, after :| text == before + word + after {
      assert StartsWith(text[|before|..], word);
    }
  }

  /** The reply to a failed call: neither receipt nor confirmation, and at most 500 characters of
      the message. */
  lemma FailedCallIsExact(stderr: string, stdout: string)
    ensures var message := if stderr != "" then stderr else if stdout != "" then stdout else "gateway call failed";
            var r := ReplyOf(CallFailed(stderr, stdout));
            && r.Answered?
            && var p := r.response;
               && p.statusCode == Some("BOUNDARY_GATEWAY_CALL_FAILED") && p.receiptRef.None? && p.strength.NoStrength?
               && p.errorHint.Some? && p.message == Some(if |Strip(message)| <= 500 then Strip(message)
                                                         else Strip(message)[..500])
               && (p.outcome, p.errorHint.value) ==
                  (if Mentions(Lower(message), FAILURES[0].0) then (FAILURES[0].1, FAILURES[0].2)
                   else if Mentions(Lower(message), FAILURES[1].0) then (FAILURES[1].1, FAILURES[1].2)
                   else if Mentions(Lower(message), FAILURES[2].0) then (FAILURES[2].1, FAILURES[2].2)
                   else if Mentions(Lower(message), FAILURES[3].0) then (FAILURES[3].1, FAILURES[3].2)
                   else (Transient, TransientClass))
  {
    var message := if stderr != "" then stderr else if stdout != "" then stdout else "gateway call failed";
    hide Contains, Lower;
    MentionsEach(Lower(message));
    hide Mentions;
  }

  lemma MentionsEach(t: string)
    ensures Mentions(t, FAILURES[0].0) <==>
              Contains(t, "timeout") || Contains(t, "timed out") || Contains(t, "unavailable") || Contains(t, "rate")
    ensures Mentions(t, FAILURES[1].0) <==> Contains(t, "blocked") || Contains(t, "policy")
    ensures Mentions(t, FAILURES[2].0) <==> Contains(t, "suppressed") || Contains(t, "skipped")
    ensures Mentions(t, FAILURES[3].0) <==>
              || Contains(t, "auth") || Contains(t, "invalid request") || Contains(t, "unsupported")
              || Contains(t, "unknown target")
  {
    hide Contains, HasWord;
    forall w {
      ContainsIsExact(t, w);
    }
  }

  /** The message is fresh, well formed and permitted: the provider is asked. */
  ghost predicate IsAsked(cfg: Settings, c: Cache, m: Message, w: World) {
    && !IsMalformed(m) && m.attemptId !in c.byAttempt && RefusalOf(cfg, m, w.captureOnly).None?
    && forall i: nat :: !IsHit(ResultsOf(c, m.dedupeKey), w.lookupAt, cfg.windowMs, i)
  }

  /** A result that carries this receipt as proof of delivery. */
  ghost predicate Proves(r: DeliveryResult, ref: string) {
    && r.status.DeliveredStatus? && r.reasonCode == DeliveredSuccess && r.receiptRef == Some(ref)
    && r.statusCode == Some("ok") && r.confidence.ProviderConfirmed? && !r.acceptOnly
  }

  /** The answer names a reference: the first field that is not blank is this one, trimmed. */
  ghost predicate Names(g: GatewayReply, ref: string)
    requires g.Json?
  {
    var fields := [g.messageId, g.id, g.receipt, g.ref];
    IsReal(ref) && exists i: nat :: IsFirst(fields, i) && IsTrimming(fields[i].value, ref)
  }

  lemma JsonNames(g: GatewayReply)
    requires g.Json?
    ensures var p := NormalizeJson(g);
            && p == Response(Success, Some("ok"), p.receiptRef, None, None,
                             if p.receiptRef.Some? then Confirmed else Accepted)
            && (p.receiptRef.Some? ==> Names(g, p.receiptRef.value) && IsVerifiable(p.receiptRef))
            && (p.receiptRef.None? ==> forall ref :: !Names(g, ref))
  {
    var i := JsonIsExact(g);
    hide IsFirst, IsTrimming, IsReal, FirstText, IsVerifiable;
  }

  lemma AnswerIsDecided(cfg: Settings, m: Message, p: Response, at: Time, r: DeliveryResult, token: string)
    requires HasDefaultMaps(cfg) && IsResultOf(cfg, m, p, at, r) && p.statusCode.Some? && p.statusCode.value != ""
    requires IsVerifiable(p.receiptRef) <==> p.strength.Confirmed?
    ensures var v := Decide(CallOf(Sent(r), token));
            if !p.outcome.Success? then v == SeamFailure(FailedAdapterResultInvalid, BranchB)
            else if p.strength.Accepted? then v == AcceptedUnverified
            else v == Delivered(r) && r.receiptRef == p.receiptRef && r.statusCode == p.statusCode
                 && r.status.DeliveredStatus? && r.reasonCode == DeliveredSuccess && r.confidence.ProviderConfirmed?
                 && !r.acceptOnly
  {
    hide IsVerifiable;
  }

  lemma SomethingAnswers(cfg: Settings, m: Message, p: Response, at: Time) returns (r: DeliveryResult)
    requires HasDefaultMaps(cfg) && !(p.outcome.Success? && p.strength.NoStrength?)
    ensures IsResultOf(cfg, m, p, at, r)
  {
    MappingRefusesExactly(cfg, m, p, at);
    MappingIsExact(cfg, m, p, at);
    r := MapResponse(cfg, m, p, at).result;
  }

  ghost predicate DecidedFor(g: GatewayReply, v: Verdict) {
    match g
    case CallFailed(_, _) => v == SeamFailure(FailedAdapterResultInvalid, BranchB)
    case Unusable(_) => v == SeamFailure(FailedAdapterResultMissing, BranchA)
    case Json(_, _, _, _) =>
      if exists ref :: Names(g, ref) then v.Delivered? && exists ref :: Names(g, ref) && Proves(v.result, ref)
      else v == AcceptedUnverified
  }

  lemma AskedIsDecided(cfg: Settings, c: Cache, c': Cache, m: Message, w: World, g: GatewayReply, target: string,
                       outcome: SendOutcome, token: string)
    requires HasDefaultMaps(cfg) && AsksFor(cfg, c, c', m, w, outcome, target)
    requires forall out :: w.provider(out) == ReplyOf(g)
    ensures DecidedFor(g, Decide(CallOf(outcome, token)))
  {
    if g.Unusable? {
      DecisionIsExact(CallOf(outcome, token));
    } else {
      var p := ReplyOf(g).response;
      if g.Json? {
        JsonNames(g);
      }
      hide Decide, NormalizeJson, NormalizeFailure, AsksFor, Names, IsResultOf;
      AskedGets(cfg, c, c', m, w, target, outcome, p);
      AnswerIsDecided(cfg, m, p, w.resultAt, outcome.result, token);
    }
  }

  lemma AskedGets(cfg: Settings, c: Cache, c': Cache, m: Message, w: World, target: string, outcome: SendOutcome,
                  p: Response)
    requires HasDefaultMaps(cfg) && AsksFor(cfg, c, c', m, w, outcome, target)
    requires (forall out :: w.provider(out) == Answered(p)) && !(p.outcome.Success? && p.strength.NoStrength?)
    ensures outcome.Sent? && IsResultOf(cfg, m, p, w.resultAt, outcome.result)
  {
    var r := SomethingAnswers(cfg, m, p, w.resultAt);
    hide IsResultOf, GoesTo, HasDefaultMaps;
  }

  /** What the daemon decides on each answer of the gateway to a message that is sent, under the
      default maps: delivered exactly when the first field that is not blank is a real reference,
      with that reference as its receipt; else accepted without proof; a failed call or an
      unusable answer is a failure. */
  lemma GatewayIsExact(cfg: Settings, c: Cache, m: Message, w: World, g: GatewayReply, token: string)
    requires HasDefaultMaps(cfg) && IsAsked(cfg, c, m, w)
    requires forall out :: w.provider(out) == ReplyOf(g)
    ensures DecidedFor(g, Decide(CallOf(Send(cfg, c, m, w).1, token)))
  {
    SendIsExact(cfg, c, m, w);
    hide Send, IsMalformed, IsHit, AsksFor, DecidedFor, Decide, ReplyOf;
    var (c', outcome) := Send(cfg, c, m, w);
    assert IsFresh(cfg, c, c', m, w, outcome);
    var target :| AsksFor(cfg, c, c', m, w, outcome, target);
    AskedIsDecided(cfg, c, c', m, w, g, target, outcome, token);
  }
}
