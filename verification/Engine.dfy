/** The scheduling engine over its in-memory store, as one state and the steps the
    public methods take. Time is a whole number of microseconds.

    Reminder and dedupe ids are the tuples they are built from. What depends on their
    text (sort order, evidence tokens) takes the text from the configuration, together
    with the time-zone conversions, as arbitrary functions. */
module Engine {
  import opened Text
  import opened OrderedDict
  import opened Sorting
  import opened Destination

  type Time = int
  type EventId = nat
  type PersonId = string

  const MINUTE: int := 60_000_000
  const HOUR: int := 60 * MINUTE
  const CAPTURE_ONLY := "capture_only"

  datatype Reason =
    | DeliveredSuccess
    | ResolverExplicit | ResolverMatched | ResolverAmbiguous | ResolverNoMatch
    | TzExplicit | TzHouseholdDefault | TzFallbackUsed | TzMissing
    | FailedProviderTransient | FailedConfigInvalidTarget | FailedRetryExhausted
    | SuppressedQuietHours | UpdatedRegenerated | CancelInvalidated
    | BlockedConfirmationRequired | RecoveryReconciled | CaptureOnlyBlocked

  datatype Config = Config(
    householdTimezone: string,
    fallbackTimezone: string,
    similarityThreshold: real,
    maxRetries: int,
    retryDelayMinutes: int,
    storeRetryLimit: int,
    windowHours: int,
    toUtc: (Time, string) -> Time,
    localHour: (Time, string) -> int,
    reminderIdText: Key -> string,
    dedupeText: Key -> string)

  // ---------- Entities ----------

  datatype Target = Target(
    channel: string, targetId: string, timezone: Option<string>, quietStart: int, quietEnd: int)

  datatype Event = Event(
    id: EventId, version: nat, title: string, startLocal: Time, timezone: string,
    participants: seq<PersonId>, audience: seq<PersonId>, offsetMinutes: int, allDay: bool,
    active: bool, eventOverride: Dest, requestDefault: Dest)

  datatype Key = Key(event: EventId, version: nat, recipient: PersonId, offset: int, trigger: Time)

  datatype Status = Scheduled | Attempted | Delivered | Failed | Suppressed | Invalidated | Blocked

  datatype Reminder = Reminder(
    dedupeKey: Key, event: EventId, version: nat, recipient: PersonId, trigger: Time, offset: int,
    status: Status, attempts: nat, next: Option<Time>, eventOverride: Dest, requestDefault: Dest)

  datatype AttemptStatus = DeliveredRow | FailedRow | SuppressedRow | BlockedRow

  datatype Attempt = Attempt(
    reminder: Key, index: nat, at: Time, status: AttemptStatus, reason: Reason,
    providerRef: Option<string>, statusCode: Option<string>, errorText: Option<string>,
    acceptOnly: bool, confidence: string)

  datatype Subject = NoSubject | EventSubject(event: Option<EventId>) | ReminderSubject(key: Key)

  datatype AuditRecord = AuditRecord(index: nat, stage: string, reason: Reason, subject: Subject)

  datatype MessageKey = MessageKey(channel: string, conversation: string, message: string)

  datatype Missing = DateTimeOrAllDay | AudienceParticipants | ReminderPreference

  datatype Result =
    | NeedsFollowUp(missing: seq<Missing>)
    | Ambiguous
    | BlockedUnconfirmed
    | BlockedDestination(event: Option<EventId>)
    | Mutated(eventId: EventId, version: nat, resolver: Reason)

  datatype Receipt = Receipt(at: Time, hash: Hash, result: Result)

  /** How a call ends: it returns a result, or an exception leaves it. */
  datatype Outcome = Returned(result: Result) | Raised

  datatype ProviderResult =
    | Bare(ok: bool)
    | Detailed(ok: bool, providerRef: Option<string>, statusCode: Option<string>,
               errorText: Option<string>, acceptOnly: bool, confidence: Option<string>)

  /** What the provider answers to an attempt; it always returns. */
  type Provider = Reminder -> ProviderResult

  // ---------- Intents ----------

  datatype Action = Create | Update | Cancel | Other(name: string)

  datatype Intent = Intent(
    key: MessageKey, action: Action, eventId: Option<EventId>, title: Option<string>,
    start: Option<Time>, timezone: Option<string>,
    participants: Option<seq<PersonId>>, audience: Option<seq<PersonId>>,
    offset: Option<int>, allDay: Option<bool>, confirmed: bool, suppliedHash: Option<string>,
    eventOverride: Payload, requestDefault: Payload)

  /** A supplied hash, or the digest of the stable fields, taken as the fields themselves. */
  datatype Hash =
    | Supplied(text: string)
    | Stable(action: Action, title: Option<string>, start: Option<Time>,
             participants: multiset<PersonId>, audience: multiset<PersonId>, offset: Option<int>,
             eventId: Option<EventId>, timezone: Option<string>,
             overrideChannel: Raw, overrideTarget: Raw, defaultChannel: Raw, defaultTarget: Raw)

  function OrEmpty(people: Option<seq<PersonId>>): seq<PersonId> {
    if people.Some? then people.value else []
  }

  function OrNull(raw: Option<Raw>): Raw {
    if raw.Some? then raw.value else None
  }

  function IntentHash(i: Intent): Hash {
    if i.suppliedHash.Some? && i.suppliedHash.value != [] then Supplied(i.suppliedHash.value)
    else Stable(i.action, i.title, i.start, multiset(OrEmpty(i.participants)), multiset(OrEmpty(i.audience)),
                i.offset, i.eventId, i.timezone,
                OrNull(i.eventOverride.channel), OrNull(i.eventOverride.targetRef),
                OrNull(i.requestDefault.channel), OrNull(i.requestDefault.targetRef))
  }

  function LiftIntent(i: Intent): Checked<Intent> {
    match Lift(i.eventOverride)
    case Rejected => Rejected
    case Accepted(o) =>
      match Lift(i.requestDefault)
      case Rejected => Rejected
      case Accepted(d) => Accepted(i.(eventOverride := o, requestDefault := d))
  }

  function MissingFields(i: Intent): seq<Missing> {
    if i.action.Cancel? then []
    else
      (if i.start.None? && !(i.allDay.Some? && i.allDay.value) then [DateTimeOrAllDay] else [])
      + (if OrEmpty(i.participants) == [] && OrEmpty(i.audience) == [] then [AudienceParticipants] else [])
      + (if i.offset.None? then [ReminderPreference] else [])
  }

  // ---------- State ----------

  /** A destination setting that an intent made explicitly, after normalisation. */
  datatype Mutation = Mutation(at: Time, eventOverride: Option<Dest>, requestDefault: Option<Dest>)

  datatype Call = Call(reminder: Key, ok: bool)

  /** The store, the engine's visible keys, and two records of the past that only the
      theorems read: the mutations of each event and the provider calls. */
  datatype State = State(
    versions: map<EventId, seq<Event>>,
    counter: nat,
    reminders: Dict<Key, Reminder>,
    targets: map<PersonId, Target>,
    audit: seq<AuditRecord>,
    receipts: Dict<MessageKey, Receipt>,
    mode: string,
    attempts: seq<Attempt>,
    visible: set<Key>,
    history: map<EventId, seq<Mutation>>,
    calls: seq<Call>)

  /** Every stored reminder is filed under its own dedupe key. */
  ghost predicate Filed(d: Dict<Key, Reminder>) {
    d.Valid() && forall k | k in d.data :: d.data[k].dedupeKey == k
  }

  function Initial(): State {
    State(map[], 0, Empty(), map[], [], Empty(), "normal", [], {}, map[], [])
  }

  function Log(s: State, stage: string, reason: Reason, subject: Subject): State {
    s.(audit := s.audit + [AuditRecord(|s.audit| + 1, stage, reason, subject)])
  }

  function SaveReminder(s: State, r: Reminder): State {
    s.(reminders := s.reminders.Put(r.dedupeKey, r))
  }

  // ---------- Receipts ----------

  /** The newest matching receipt inside the window; among equals the first stored one. */
  function FindRecent(receipts: Dict<MessageKey, Receipt>, hash: Hash, now: Time, windowHours: int): Option<Result> {
    FirstMatch(Sort(Rows(receipts), NewerFirst), hash, now - windowHours * HOUR)
  }

  function Rows(receipts: Dict<MessageKey, Receipt>): seq<Receipt> {
    RowsOf(receipts.data, receipts.keys)
  }

  function RowsOf(data: map<MessageKey, Receipt>, keys: seq<MessageKey>): seq<Receipt> {
    if keys == [] then []
    else (if keys[0] in data then [data[keys[0]]] else []) + RowsOf(data, keys[1..])
  }

  const NewerFirst: (Receipt, Receipt) -> bool := (a: Receipt, b: Receipt) => a.at >= b.at

  function FirstMatch(rows: seq<Receipt>, hash: Hash, lower: Time): Option<Result> {
    if rows == [] then None
    else if rows[0].hash == hash && rows[0].at >= lower then Some(rows[0].result)
    else FirstMatch(rows[1..], hash, lower)
  }

  // ---------- Resolution of the event an intent speaks about ----------

  function Score(i: Intent, e: Event): real {
    (if i.title == Some(e.title) then 0.5 else 0.0)
    + (if i.start == Some(e.startLocal) then 0.3 else 0.0)
    + (if (set p | p in OrEmpty(i.participants)) == (set p | p in e.participants) then 0.2 else 0.0)
  }

  predicate IsCandidate(cfg: Config, versions: map<EventId, seq<Event>>, i: Intent, id: EventId) {
    && id in versions && versions[id] != []
    && var latest := versions[id][|versions[id]| - 1];
       latest.active && Score(i, latest) >= cfg.similarityThreshold
  }

  /** The active events among the first n ids that are similar enough, in id order. */
  function Candidates(cfg: Config, versions: map<EventId, seq<Event>>, i: Intent, n: nat): seq<EventId> {
    if n == 0 then []
    else Candidates(cfg, versions, i, n - 1) + (if IsCandidate(cfg, versions, i, n) then [n] else [])
  }

  function ResolveEvent(cfg: Config, s: State, i: Intent): (Option<EventId>, Reason) {
    if i.eventId.Some? && i.eventId.value in s.versions then (i.eventId, ResolverExplicit)
    else
      var candidates := Candidates(cfg, s.versions, i, s.counter);
      if |candidates| == 1 then (Some(candidates[0]), ResolverMatched)
      else if |candidates| > 1 then (None, ResolverAmbiguous)
      else (None, ResolverNoMatch)
  }

  // ---------- Event mutations ----------

  function ResolveTimezone(cfg: Config, i: Intent, existing: string): (string, Reason) {
    if i.timezone.Some? && i.timezone.value != [] then (i.timezone.value, TzExplicit)
    else if existing != [] then (existing, TzHouseholdDefault)
    else if cfg.householdTimezone != [] then (cfg.householdTimezone, TzHouseholdDefault)
    else (cfg.fallbackTimezone, TzFallbackUsed)
  }

  function SortPeople(people: seq<PersonId>): seq<PersonId> {
    Sort(people, LessOrEqual)
  }

  function Trigger(cfg: Config, e: Event): Time {
    cfg.toUtc(e.startLocal, e.timezone) - e.offsetMinutes * MINUTE
  }

  function KeyOf(cfg: Config, e: Event, recipient: PersonId): Key {
    Key(e.id, e.version, recipient, e.offsetMinutes, Trigger(cfg, e))
  }

  function NewReminder(cfg: Config, e: Event, recipient: PersonId, status: Status): Reminder {
    Reminder(KeyOf(cfg, e, recipient), e.id, e.version, recipient, Trigger(cfg, e), e.offsetMinutes,
             status, 0, None, e.eventOverride, e.requestDefault)
  }

  predicate HasTimezone(s: State, person: PersonId) {
    person in s.targets && s.targets[person].timezone.Some?
  }

  function ScheduleOne(cfg: Config, s: State, e: Event, recipient: PersonId): State {
    if !HasTimezone(s, recipient) then
      Log(SaveReminder(s, NewReminder(cfg, e, recipient, Blocked)),
          "schedule", TzMissing, ReminderSubject(KeyOf(cfg, e, recipient)))
    else if s.reminders.Has(KeyOf(cfg, e, recipient)) then s
    else SaveReminder(s, NewReminder(cfg, e, recipient, Scheduled))
  }

  function Schedule(cfg: Config, s: State, e: Event, people: seq<PersonId>): State
    decreases |people|
  {
    if people == [] then s
    else ScheduleOne(cfg, Schedule(cfg, s, e, people[..|people| - 1]), e, people[|people| - 1])
  }

  predicate IsSchedulable(status: Status) {
    status in {Scheduled, Attempted}
  }

  predicate MustInvalidate(r: Reminder, id: EventId, newVersion: nat, now: Time) {
    r.event == id && r.version < newVersion && r.trigger > now && IsSchedulable(r.status)
  }

  function InvalidateOne(s: State, k: Key, id: EventId, newVersion: nat, now: Time, reason: Reason): State {
    if k in s.reminders.data && MustInvalidate(s.reminders.data[k], id, newVersion, now) then
      Log(SaveReminder(s, s.reminders.data[k].(status := Invalidated)), "mutation", reason, ReminderSubject(k))
    else s
  }

  function Invalidate(s: State, keys: seq<Key>, id: EventId, newVersion: nat, now: Time, reason: Reason): State
    decreases |keys|
  {
    if keys == [] then s
    else InvalidateOne(Invalidate(s, keys[..|keys| - 1], id, newVersion, now, reason),
                       keys[|keys| - 1], id, newVersion, now, reason)
  }

  function DedupeOrder(cfg: Config): (Key, Key) -> bool {
    (a, b) => LessOrEqual(cfg.dedupeText(a), cfg.dedupeText(b))
  }

  function KeysInOrder(cfg: Config, keys: seq<Key>): seq<Key> {
    Sort(keys, DedupeOrder(cfg))
  }

  function Explicit(p: Payload, resolved: Dest): Option<Dest> {
    if p.channel.Some? then Some(resolved) else None
  }

  function AppendVersion(s: State, e: Event, m: Mutation): State {
    var earlier := if e.id in s.versions then s.versions[e.id] else [];
    var past := if e.id in s.history then s.history[e.id] else [];
    s.(versions := s.versions[e.id := earlier + [e]], history := s.history[e.id := past + [m]])
  }

  datatype MutationOutcome = Made(event: Event) | BadDestination | Exception

  predicate HasEveryField(i: Intent) {
    i.title.Some? && i.start.Some? && i.participants.Some? && i.audience.Some? && i.offset.Some?
  }

  function FirstVersion(id: EventId, i: Intent, tz: string, eventOverride: Dest, requestDefault: Dest): Event
    requires HasEveryField(i)
  {
    Event(id, 1, i.title.value, i.start.value, tz, SortPeople(i.participants.value), SortPeople(i.audience.value),
          i.offset.value, i.allDay.Some? && i.allDay.value, true, eventOverride, requestDefault)
  }

  function CreateEvent(cfg: Config, s: State, i: Intent, now: Time): (State, MutationOutcome)
  {
    var (tz, tzReason) := ResolveTimezone(cfg, i, []);
    var s1 := Log(s, "timezone", tzReason, NoSubject);
    var o, d := ResolveField(i.eventOverride, UNSET), ResolveField(i.requestDefault, UNSET);
    if o.Rejected? || d.Rejected? then (s1, BadDestination)
    else
      var s2 := s1.(counter := s1.counter + 1);
      if !HasEveryField(i) then (s2, Exception)
      else
        var e := FirstVersion(s2.counter, i, tz, o.value, d.value);
        var m := Mutation(now, Explicit(i.eventOverride, o.value), Explicit(i.requestDefault, d.value));
        var s3 := s2.(versions := s2.versions[e.id := [e]], history := s2.history[e.id := [m]]);
        (Schedule(cfg, s3, e, e.audience), Made(e))
  }

  predicate HasLatest(s: State, id: EventId) {
    id in s.versions && s.versions[id] != []
  }

  function Latest(s: State, id: EventId): Event
    requires HasLatest(s, id)
  {
    s.versions[id][|s.versions[id]| - 1]
  }

  /** The version after current: what the intent gives, else what current has. */
  function Revised(id: EventId, current: Event, i: Intent, tz: string, eventOverride: Dest,
                   requestDefault: Dest): Event {
    Event(
      id, current.version + 1,
      if i.title.Some? then i.title.value else current.title,
      if i.start.Some? then i.start.value else current.startLocal,
      tz,
      SortPeople(if i.participants.Some? then i.participants.value else current.participants),
      SortPeople(if i.audience.Some? then i.audience.value else current.audience),
      if i.offset.Some? then i.offset.value else current.offsetMinutes,
      if i.allDay.Some? then i.allDay.value else current.allDay,
      true, eventOverride, requestDefault)
  }

  function UpdateEvent(cfg: Config, s: State, id: EventId, i: Intent, now: Time): (State, MutationOutcome) {
    if !HasLatest(s, id) then (s, Exception)
    else
      var current := Latest(s, id);
      var (tz, tzReason) := ResolveTimezone(cfg, i, current.timezone);
      var s1 := Log(s, "timezone", tzReason, NoSubject);
      var o := ResolveField(i.eventOverride, current.eventOverride);
      var d := ResolveField(i.requestDefault, current.requestDefault);
      if o.Rejected? || d.Rejected? then (s1, BadDestination)
      else
        var e := Revised(id, current, i, tz, o.value, d.value);
        var m := Mutation(now, Explicit(i.eventOverride, o.value), Explicit(i.requestDefault, d.value));
        var s2 := AppendVersion(s1, e, m);
        var s3 := Invalidate(s2, KeysInOrder(cfg, s2.reminders.keys), id, e.version, now, UpdatedRegenerated);
        (Schedule(cfg, s3, e, e.audience), Made(e))
  }

  function CancelEvent(cfg: Config, s: State, id: EventId, now: Time): (State, MutationOutcome) {
    if !HasLatest(s, id) then (s, Exception)
    else
      var current := Latest(s, id);
      var e := current.(version := current.version + 1, active := false);
      var s1 := AppendVersion(s, e, Mutation(now, None, None));
      (Invalidate(s1, KeysInOrder(cfg, s1.reminders.keys), id, e.version, now, CancelInvalidated), Made(e))
  }

  function Mutate(cfg: Config, s: State, i: Intent, resolved: Option<EventId>, now: Time): (State, MutationOutcome) {
    if i.action.Cancel? then
      if resolved.None? then (s, Exception) else CancelEvent(cfg, s, resolved.value, now)
    else if resolved.Some? && i.action in {Update, Create} then UpdateEvent(cfg, s, resolved.value, i, now)
    else CreateEvent(cfg, s, i, now)
  }

  // ---------- The public methods ----------

  function SaveReceipt(s: State, key: MessageKey, hash: Hash, result: Result, now: Time): (State, Outcome) {
    (s.(receipts := s.receipts.Put(key, Receipt(now, hash, result))), Returned(result))
  }

  function ProcessFresh(cfg: Config, s: State, i: Intent, hash: Hash, now: Time): (State, Outcome) {
    var s1 := Log(s, "intake", ResolverNoMatch, NoSubject);
    var missing := MissingFields(i);
    if missing != [] then SaveReceipt(s1, i.key, hash, NeedsFollowUp(missing), now)
    else
      var (resolved, code) := ResolveEvent(cfg, s1, i);
      var s2 := Log(s1, "resolver", code, EventSubject(resolved));
      if code.ResolverAmbiguous? then SaveReceipt(s2, i.key, hash, Ambiguous, now)
      else if !i.confirmed then
        SaveReceipt(Log(s2, "confirmation", BlockedConfirmationRequired, NoSubject), i.key, hash, BlockedUnconfirmed,
                    now)
      else
        var (s3, made) := Mutate(cfg, s2, i, resolved, now);
        match made
        case Made(e) => SaveReceipt(s3, i.key, hash, Mutated(e.id, e.version, code), now)
        case BadDestination =>
          SaveReceipt(Log(s3, "mutation", FailedConfigInvalidTarget, NoSubject), i.key, hash,
                      BlockedDestination(resolved), now)
        case Exception => (s3, Raised)
  }

  function ProcessIntent(cfg: Config, s: State, raw: Intent, now: Time): (State, Outcome) {
    match LiftIntent(raw)
    case Rejected => (s, Raised)
    case Accepted(i) =>
      if s.receipts.Has(i.key) then (s, Returned(s.receipts.data[i.key].result))
      else
        var hash := IntentHash(i);
        var replay := FindRecent(s.receipts, hash, now, cfg.windowHours);
        if replay.Some? then SaveReceipt(s, i.key, hash, replay.value, now)
        else ProcessFresh(cfg, s, i, hash, now)
  }

  function DueTime(r: Reminder): Time {
    if r.next.Some? then r.next.value else r.trigger
  }

  predicate IsDue(r: Reminder, now: Time) {
    IsSchedulable(r.status) && DueTime(r) <= now
  }

  predicate DueBefore(cfg: Config, a: Key, b: Key) {
    a.trigger < b.trigger
    || (a.trigger == b.trigger && LessOrEqual(cfg.reminderIdText(a), cfg.reminderIdText(b)))
  }

  function IsDueIn(reminders: Dict<Key, Reminder>, now: Time): Key -> bool {
    k => k in reminders.data && IsDue(reminders.data[k], now)
  }

  function DueOrder(cfg: Config): (Key, Key) -> bool {
    (a, b) => DueBefore(cfg, a, b)
  }

  function DueKeys(cfg: Config, reminders: Dict<Key, Reminder>, now: Time): seq<Key> {
    Sort(Filter(reminders.keys, IsDueIn(reminders, now)), DueOrder(cfg))
  }

  predicate IsQuietHour(hour: int, start: int, end: int) {
    if start < end then start <= hour < end else hour >= start || hour < end
  }

  const BLANK_TOKENS := {"none", "null", "n/a", "na", "placeholder", "synthetic"}

  predicate HasTransportRef(ref: Option<string>, idText: string, dedupeText: string) {
    && ref.Some?
    && var token := Strip(ref.value);
       var lowered := Lower(token);
       && token != []
       && lowered !in BLANK_TOKENS
       && lowered !in {Lower(dedupeText), Lower(idText), Lower("att-" + idText), Lower("rcpt:att-" + idText)}
       && !StartsWith(lowered, "att-") && !StartsWith(lowered, "rcpt:att-")
  }

  function Append(s: State, row: Attempt): State {
    s.(attempts := s.attempts + [row])
  }

  function RetryLimit(cfg: Config): int {
    if cfg.maxRetries <= cfg.storeRetryLimit then cfg.maxRetries else cfg.storeRetryLimit
  }

  /** The reply as the engine unpacks it. */
  function Unpack(p: ProviderResult): ProviderResult {
    match p
    case Bare(ok) => Detailed(ok, None, None, None, false, None)
    case Detailed(_, _, _, _, _, _) => p
  }

  /** Counts the attempt that is about to reach the provider. */
  function Counted(r: Reminder): Reminder {
    r.(status := Attempted, attempts := r.attempts + 1)
  }

  /** The reminder and its ledger row after the provider's reply to attempt r. */
  function AfterReply(cfg: Config, r: Reminder, now: Time, p: ProviderResult): (Reminder, Attempt)
    requires p.Detailed?
  {
    var dedupeText := cfg.dedupeText(r.dedupeKey);
    var evidence := HasTransportRef(p.providerRef, cfg.reminderIdText(r.dedupeKey), dedupeText);
    var confidence := OrElse(p.confidence, "none");
    if p.ok then
      (r.(status := Delivered),
       Attempt(r.dedupeKey, r.attempts, now, DeliveredRow, DeliveredSuccess,
               Some(if evidence then p.providerRef.value else dedupeText),
               Some(OrElse(p.statusCode, "ok")), None, p.acceptOnly || !evidence,
               if confidence != "none" then confidence
               else if evidence then "provider_confirmed" else "provider_accepted"))
    else
      var error := Some(OrElse(p.errorText, "provider transient failure"));
      if r.attempts > RetryLimit(cfg) then
        (r.(status := Failed),
         Attempt(r.dedupeKey, r.attempts, now, FailedRow, FailedRetryExhausted, p.providerRef,
                 Some(OrElse(p.statusCode, "retry_exhausted")), error, false, "none"))
      else
        (r.(next := Some(now + cfg.retryDelayMinutes * MINUTE)),
         Attempt(r.dedupeKey, r.attempts, now, FailedRow, FailedProviderTransient, p.providerRef,
                 Some(OrElse(p.statusCode, "transient")), error, false, "none"))
  }

  /** Stores the outcome of one provider call. */
  function Record(s: State, r: Reminder, row: Attempt, ok: bool): State {
    var s1 := Append(SaveReminder(s, r), row).(
                calls := s.calls + [Call(r.dedupeKey, ok)],
                visible := if ok then s.visible + {r.dedupeKey} else s.visible);
    var s2 := if ok then s1 else Log(s1, "delivery", FailedProviderTransient, ReminderSubject(r.dedupeKey));
    if row.reason == FailedProviderTransient then s2
    else Log(s2, "delivery", row.reason, ReminderSubject(r.dedupeKey))
  }

  /** A due reminder that has a time zone and is outside quiet hours reaches the provider. */
  function CallProvider(cfg: Config, s: State, k: Key, now: Time, provider: Provider): (State, Option<Reason>)
    requires k in s.reminders.data
    ensures s.reminders.data.Keys <= CallProvider(cfg, s, k, now, provider).0.reminders.data.Keys
  {
    var r := Counted(s.reminders.data[k]);
    if r.dedupeKey in s.visible then (SaveReminder(s, r), None)
    else
      var p := Unpack(provider(r));
      var (r2, row) := AfterReply(cfg, r, now, p);
      (Record(s, r2, row, p.ok), Some(row.reason))
  }

  /** A due reminder that is set aside without reaching the provider. */
  function SetAside(s: State, r: Reminder, now: Time, status: Status, rowStatus: AttemptStatus, reason: Reason,
                    text: string): State {
    var row := Attempt(r.dedupeKey, r.attempts + 1, now, rowStatus, reason, None, None, Some(text), false, "none");
    Log(Append(SaveReminder(s, r.(status := status)), row), "delivery", reason, ReminderSubject(r.dedupeKey))
  }

  function DeliverOne(cfg: Config, s: State, k: Key, now: Time, provider: Provider): (State, Option<Reason>)
    requires k in s.reminders.data
    ensures s.reminders.data.Keys <= DeliverOne(cfg, s, k, now, provider).0.reminders.data.Keys
  {
    var r := s.reminders.data[k];
    if !HasTimezone(s, r.recipient) then
      (SetAside(s, r, now, Blocked, BlockedRow, TzMissing, "timezone missing"), Some(TzMissing))
    else
      var target := s.targets[r.recipient];
      if IsQuietHour(cfg.localHour(now, target.timezone.value), target.quietStart, target.quietEnd) then
        (SetAside(s, r, now, Suppressed, SuppressedRow, SuppressedQuietHours, "quiet_hours"),
         Some(SuppressedQuietHours))
      else CallProvider(cfg, s, k, now, provider)
  }

  function DeliverAll(cfg: Config, s: State, keys: seq<Key>, now: Time, provider: Provider): (State, seq<(Key, Reason)>)
    requires forall k | k in keys :: k in s.reminders.data
    ensures s.reminders.data.Keys <= DeliverAll(cfg, s, keys, now, provider).0.reminders.data.Keys
    decreases |keys|
  {
    if keys == [] then (s, [])
    else
      var last := keys[|keys| - 1];
      var (s1, outcomes) := DeliverAll(cfg, s, keys[..|keys| - 1], now, provider);
      assert last in keys;
      var (s2, outcome) := DeliverOne(cfg, s1, last, now, provider);
      (s2, if outcome.Some? then outcomes + [(last, outcome.value)] else outcomes)
  }

  datatype DeliveryReport = CaptureOnly | Attempts(outcomes: seq<(Key, Reason)>)

  lemma DueKeysPresent(cfg: Config, reminders: Dict<Key, Reminder>, now: Time)
    ensures forall k :: k in DueKeys(cfg, reminders, now) <==>
                          k in reminders.keys && k in reminders.data && IsDue(reminders.data[k], now)
  {
    FilterMembers(reminders.keys, IsDueIn(reminders, now));
    SortKeepsElements(Filter(reminders.keys, IsDueIn(reminders, now)), DueOrder(cfg));
  }

  lemma DueOrderIsTotal(cfg: Config, s: seq<Key>)
    ensures TotalPreorderOn(DueOrder(cfg), s)
  {
    forall x, y | x in s && y in s ensures DueOrder(cfg)(x, y) || DueOrder(cfg)(y, x) {
      LessTotal(cfg.reminderIdText(x), cfg.reminderIdText(y));
    }
    forall x, y, z | x in s && y in s && z in s && DueOrder(cfg)(x, y) && DueOrder(cfg)(y, z)
        ensures DueOrder(cfg)(x, z) {
      if x.trigger == y.trigger == z.trigger {
        LessOrEqualTransitive(cfg.reminderIdText(x), cfg.reminderIdText(y), cfg.reminderIdText(z));
      }
    }
  }

  function Deliver(cfg: Config, s: State, now: Time, provider: Provider): (State, DeliveryReport) {
    if s.mode == CAPTURE_ONLY then (Log(s, "delivery", CaptureOnlyBlocked, NoSubject), CaptureOnly)
    else
      DueKeysPresent(cfg, s.reminders, now);
      var (s1, outcomes) := DeliverAll(cfg, s, DueKeys(cfg, s.reminders, now), now, provider);
      (s1, Attempts(outcomes))
  }

  predicate MustReconcile(r: Reminder, now: Time) {
    r.status == Attempted && r.next.Some? && r.next.value <= now
  }

  function ReconcileOne(s: State, k: Key, now: Time): State {
    if k in s.reminders.data && MustReconcile(s.reminders.data[k], now) then
      var r := s.reminders.data[k].(status := Scheduled, next := None);
      Log(SaveReminder(s, r), "recovery", RecoveryReconciled, ReminderSubject(k))
    else s
  }

  function ReconcileAll(s: State, keys: seq<Key>, now: Time): State
    decreases |keys|
  {
    if keys == [] then s
    else ReconcileOne(ReconcileAll(s, keys[..|keys| - 1], now), keys[|keys| - 1], now)
  }

  /** How many of these keys the batch moves back to scheduled. */
  function CountReconciled(s: State, keys: seq<Key>, now: Time): nat
    decreases |keys|
  {
    if keys == [] then 0
    else
      var s1, k := ReconcileAll(s, keys[..|keys| - 1], now), keys[|keys| - 1];
      CountReconciled(s, keys[..|keys| - 1], now)
      + (if k in s1.reminders.data && MustReconcile(s1.reminders.data[k], now) then 1 else 0)
  }

  datatype ReconcileReport = ReconcileReport(processed: nat, hasMore: bool, reason: Reason)

  function Reconcile(cfg: Config, s: State, now: Time, batchSize: nat): (State, ReconcileReport) {
    if s.mode == CAPTURE_ONLY then
      (Log(s, "recovery", CaptureOnlyBlocked, NoSubject), ReconcileReport(0, false, CaptureOnlyBlocked))
    else
      var keys := Take(DueKeys(cfg, s.reminders, now), batchSize);
      var s1 := ReconcileAll(s, keys, now);
      (s1, ReconcileReport(CountReconciled(s, keys, now), |DueKeys(cfg, s1.reminders, now)| > batchSize,
                           RecoveryReconciled))
  }

  function RegisterTarget(s: State, person: PersonId, t: Target): State {
    if |t.targetId| > TARGET_REF_MAX_LENGTH then s else s.(targets := s.targets[person := t])
  }

  // ---------- Runs ----------

  datatype Op =
    | Intake(intent: Intent, now: Time)
    | DeliverDue(at: Time, provider: Provider)
    | ReconcileDue(when: Time, batchSize: nat)
    | Register(person: PersonId, target: Target)
    | SetMode(mode: string)
    | Rebuild

  function Step(cfg: Config, s: State, op: Op): State {
    match op
    case Intake(i, now) => ProcessIntent(cfg, s, i, now).0
    case DeliverDue(now, provider) => Deliver(cfg, s, now, provider).0
    case ReconcileDue(now, n) => Reconcile(cfg, s, now, n).0
    case Register(person, t) => RegisterTarget(s, person, t)
    case SetMode(mode) => s.(mode := mode)
    case Rebuild => s.(visible := {})
  }

  /** The state after a whole sequence of calls. */
  function Run(cfg: Config, s: State, ops: seq<Op>): State
    decreases |ops|
  {
    if ops == [] then s else Step(cfg, Run(cfg, s, ops[..|ops| - 1]), ops[|ops| - 1])
  }
}
