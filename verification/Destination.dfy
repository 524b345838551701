/** Where a reminder is sent. The engine checks a destination when an event is
    written; the daemon normalises and checks it again when a reminder is
    dispatched. The lemmas show that the two checks agree. */
module Destination {
  import opened Text

  const TARGET_REF_MAX_LENGTH := 256
  const ALLOWED_CHANNELS := {"discord", "signal", "telegram", "whatsapp", "openclaw_auto"}

  /** One destination as stored: both parts present, or both absent. */
  datatype Dest = Dest(channel: Option<string>, targetRef: Option<string>)

  const UNSET := Dest(None, None)

  datatype Checked<+T> = Accepted(value: T) | Rejected

  // ---------- Write time: the engine ----------

  /** A payload value: None is JSON null; a value of another type is given by its text. */
  type Raw = Option<string>

  datatype Nested = NestedNull | NestedObject(channel: Raw, targetRef: Raw) | NestedMalformed

  /** The keys an intent may carry for one destination: two flat keys and a nested object. */
  datatype Payload = Payload(channel: Option<Raw>, targetRef: Option<Raw>, nested: Option<Nested>)

  /** The flat keys after lifting the nested object; flat keys win, a nested non-object is refused. */
  function Lift(p: Payload): Checked<Payload> {
    if p.channel.Some? || p.targetRef.Some? || p.nested.None? then Accepted(p)
    else
      match p.nested.value
      case NestedNull => Accepted(p.(channel := Some(None), targetRef := Some(None)))
      case NestedObject(c, t) => Accepted(p.(channel := Some(c), targetRef := Some(t)))
      case NestedMalformed => Rejected
  }

  function ValidateTuple(channel: Option<string>, targetRef: Option<string>): Checked<Dest> {
    if channel.None? && targetRef.None? then Accepted(UNSET)
    else if channel.None? || targetRef.None? then Rejected
    else if channel.value !in ALLOWED_CHANNELS then Rejected
    else if |targetRef.value| > TARGET_REF_MAX_LENGTH then Rejected
    else if HasControlCharacter(targetRef.value) then Rejected
    else Accepted(Dest(channel, targetRef))
  }

  /** The destination of the next version: the current one unless both flat keys are given. */
  function ResolveField(p: Payload, current: Dest): Checked<Dest> {
    if p.channel.Some? != p.targetRef.Some? then Rejected
    else if p.channel.None? then Accepted(current)
    else ValidateTuple(NormalizeOptional(p.channel.value), NormalizeOptional(p.targetRef.value))
  }

  /** What every stored destination looks like. */
  ghost predicate WellFormed(d: Dest) {
    || d == UNSET
    || (&& d.channel.Some? && d.targetRef.Some?
        && d.channel.value in {"discord", "signal", "telegram", "whatsapp", "openclaw_auto"}
        && IsTrimmed(d.targetRef.value) && 1 <= |d.targetRef.value| <= 256
        && forall i | 0 <= i < |d.targetRef.value| :: 32 <= d.targetRef.value[i] as int != 127)
  }

  lemma NormalizedIsPresent(value: Option<string>)
    ensures NormalizeOptional(value).Some? ==>
              IsPresent(NormalizeOptional(value)) && IsTrimmed(NormalizeOptional(value).value) &&
              NormalizeOptional(value).value != []
  {
    if value.Some? {
      StripTrims(value.value);
    }
  }

  lemma TupleAcceptsWellFormed(channel: Option<string>, targetRef: Option<string>)
    requires targetRef.Some? ==> IsTrimmed(targetRef.value) && targetRef.value != []
    ensures ValidateTuple(channel, targetRef).Accepted? <==> WellFormed(Dest(channel, targetRef))
    ensures ValidateTuple(channel, targetRef).Accepted? ==>
              ValidateTuple(channel, targetRef).value == Dest(channel, targetRef)
  {
  }

  /** Writing keeps stored destinations well formed, and accepts a full pair exactly
      when the pair of trimmed values is well formed. */
  lemma ResolveFieldWellFormed(p: Payload, current: Dest)
    requires WellFormed(current)
    ensures var r := ResolveField(p, current);
            && (r.Accepted? ==> WellFormed(r.value))
            && (p.channel.Some? && p.targetRef.Some? ==>
                  var d := Dest(NormalizeOptional(p.channel.value), NormalizeOptional(p.targetRef.value));
                  r.Accepted? == WellFormed(d) && (r.Accepted? ==> r.value == d))
  {
    if p.channel.Some? && p.targetRef.Some? {
      NormalizedIsPresent(p.targetRef.value);
      TupleAcceptsWellFormed(NormalizeOptional(p.channel.value), NormalizeOptional(p.targetRef.value));
    }
  }

  // ---------- Dispatch time: the daemon ----------

  datatype Source = EventOverride | RequestContextDefault | RecipientDefault | NoSource
  datatype ResolutionStatus = OkStatus | InvalidStatus | MissingStatus

  datatype Resolution = Resolution(
    source: Source,
    status: ResolutionStatus,
    resolvedChannel: Option<string>,
    resolvedTargetRef: Option<string>,
    attemptedChannel: Option<string>,
    attemptedTargetRef: Option<string>)

  /** One candidate: None when it is blank, otherwise a resolution that is ok or invalid. */
  function ValidateCandidate(source: Source, d: Dest): Option<Resolution> {
    var channel := NormalizeOptional(d.channel);
    var targetRef := NormalizeOptional(d.targetRef);
    var invalid := Some(Resolution(source, InvalidStatus, None, None, channel, targetRef));
    if channel.None? && targetRef.None? then None
    else if channel.None? || targetRef.None? then invalid
    else if channel.value !in ALLOWED_CHANNELS then invalid
    else if |targetRef.value| > TARGET_REF_MAX_LENGTH then invalid
    else if HasControlCharacter(targetRef.value) then invalid
    else Some(Resolution(source, OkStatus, channel, targetRef, channel, targetRef))
  }

  /** The first candidate that is not blank decides, even when it is invalid. */
  function ResolveDestination(eventOverride: Dest, requestDefault: Dest, recipient: Dest): Resolution {
    var first := ValidateCandidate(EventOverride, eventOverride);
    if first.Some? then first.value
    else
      var second := ValidateCandidate(RequestContextDefault, requestDefault);
      if second.Some? then second.value
      else
        var third := ValidateCandidate(RecipientDefault, recipient);
        if third.Some? then third.value
        else Resolution(NoSource, MissingStatus, None, None, None, None)
  }

  predicate IsPresent(v: Option<string>) {
    v.Some? && Strip(v.value) != []
  }

  predicate ProvenanceComplete(r: Resolution) {
    && r.status.OkStatus?
    && !r.source.NoSource?
    && IsPresent(r.resolvedChannel) && IsPresent(r.resolvedTargetRef)
    && IsPresent(r.attemptedChannel) && IsPresent(r.attemptedTargetRef)
  }

  lemma AllowedChannelsAreTrimmed(channel: string)
    requires channel in ALLOWED_CHANNELS
    ensures IsTrimmed(channel) && channel != []
  {
  }

  /** The dispatch-time check passes a well-formed destination unchanged. */
  lemma WellFormedPassesDispatch(source: Source, d: Dest)
    requires WellFormed(d)
    ensures ValidateCandidate(source, d) ==
            if d == UNSET then None
            else Some(Resolution(source, OkStatus, d.channel, d.targetRef, d.channel, d.targetRef))
  {
    if d != UNSET {
      AllowedChannelsAreTrimmed(d.channel.value);
      NormalizeKeepsTrimmed(d.channel);
      NormalizeKeepsTrimmed(d.targetRef);
    }
  }

  /** An override, else a request default, resolves to exactly the written pair; only a
      reminder with neither can be invalid or missing, and then because of the recipient. */
  lemma WrittenDestinationIsUsed(eventOverride: Dest, requestDefault: Dest, recipient: Dest)
    requires WellFormed(eventOverride) && WellFormed(requestDefault)
    ensures var r := ResolveDestination(eventOverride, requestDefault, recipient);
            && (eventOverride != UNSET ==>
                  r == Resolution(EventOverride, OkStatus, eventOverride.channel, eventOverride.targetRef,
                                  eventOverride.channel, eventOverride.targetRef))
            && (eventOverride == UNSET && requestDefault != UNSET ==>
                  r == Resolution(RequestContextDefault, OkStatus, requestDefault.channel, requestDefault.targetRef,
                                  requestDefault.channel, requestDefault.targetRef))
            && (!r.status.OkStatus? ==>
                  eventOverride == UNSET && requestDefault == UNSET && r.source in {RecipientDefault, NoSource})
            && (r.status.MissingStatus? <==>
                  && eventOverride == UNSET && requestDefault == UNSET
                  && NormalizeOptional(recipient.channel).None? && NormalizeOptional(recipient.targetRef).None?)
  {
    WellFormedPassesDispatch(EventOverride, eventOverride);
    WellFormedPassesDispatch(RequestContextDefault, requestDefault);
  }

  lemma OkCandidateIsComplete(source: Source, d: Dest)
    requires !source.NoSource?
    ensures var c := ValidateCandidate(source, d);
            c.Some? && c.value.status.OkStatus? ==>
              ProvenanceComplete(c.value) && WellFormed(Dest(c.value.resolvedChannel, c.value.resolvedTargetRef))
  {
    NormalizedIsPresent(d.channel);
    NormalizedIsPresent(d.targetRef);
    TupleAcceptsWellFormed(NormalizeOptional(d.channel), NormalizeOptional(d.targetRef));
  }

  /** Every resolution that is ok has complete provenance, whatever was stored: the
      fail-closed branch for incomplete provenance is never taken. */
  lemma OkIsComplete(eventOverride: Dest, requestDefault: Dest, recipient: Dest)
    ensures var r := ResolveDestination(eventOverride, requestDefault, recipient);
            r.status.OkStatus? <==> ProvenanceComplete(r)
    ensures var r := ResolveDestination(eventOverride, requestDefault, recipient);
            r.status.OkStatus? ==> WellFormed(Dest(r.resolvedChannel, r.resolvedTargetRef))
  {
    OkCandidateIsComplete(EventOverride, eventOverride);
    OkCandidateIsComplete(RequestContextDefault, requestDefault);
    OkCandidateIsComplete(RecipientDefault, recipient);
  }
}
