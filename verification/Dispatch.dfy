/** The daemon's dispatch of one due reminder and its reconcile pass: what they store, and
    the life of an attempt that the provider accepted without proof. */
module Dispatch {
  import opened Text
  import opened OrderedDict
  import opened Sorting
  import opened Destination
  import opened Engine
  import A = Adapter
  import S = Seam

  /** att-(reminder)-(number): the primary key of the attempts table. */
  datatype AttemptId = AttemptId(reminder: Key, number: nat)

  datatype Row = Row(
    delivered: bool, reason: A.Code, at: Time, providerRef: Option<string>, statusCode: Option<string>,
    acceptOnly: bool, confidence: A.Confidence, destination: Option<Resolution>)

  datatype Transition = AssignOpen | PromoteDelivered | DemoteTimeout

  /** The reminders, the attempts table, the transitions in the audit log, and the counters
      of the process; and, for the theorems, the rows that were open when it started. */
  datatype Books = Books(
    reminders: Dict<Key, Reminder>,
    rows: Dict<AttemptId, Row>,
    transitions: seq<(AttemptId, Transition)>,
    assignedTotal: nat, promotedTotal: nat, demotedTotal: nat, openGauge: nat,
    openAtStart: nat)

  datatype Setup = Setup(engine: Config, windowMicros: int)

  const NEW_BOOKS := Books(Empty(), Empty(), [], 0, 0, 0, 0, 0)

  predicate IsOpen(row: Row) {
    !row.delivered && row.reason == A.AcceptedUnverifiedCode
  }

  predicate GoesByWhatsApp(d: Resolution) {
    d.resolvedChannel == Some("whatsapp")
  }

  /** The row's destination was resolved to the channel whatsapp. */
  predicate ViaWhatsApp(row: Row) {
    row.destination.Some? && GoesByWhatsApp(row.destination.value)
  }

  /** Complete evidence of delivery in a stored row. */
  predicate HasEvidence(row: Row) {
    && row.delivered && row.reason == A.DeliveredSuccess && !row.confidence.NoConfidence?
    && row.statusCode.Some? && row.statusCode.value != [] && S.IsVerifiable(row.providerRef)
  }

  // ---------- Dispatching one reminder ----------

  /** What one dispatch meets: the recipient's target, the adapter's answer to the outbound
      attempt, and the two switches of the dispatch path. */
  datatype Scene = Scene(
    target: Option<Target>, call: (AttemptId, string) -> S.AdapterCall,
    forceBypass: bool, adapterBound: bool, allowFallback: bool)

  datatype DispatchOutcome = Done(delivered: bool) | RunnerStopped | DuplicateRow

  function WithStatus(b: Books, r: Reminder, status: Status): Books {
    b.(reminders := b.reminders.Put(r.dedupeKey, r.(status := status)))
  }

  /** The status is committed first; a row id that is already taken then raises. */
  function Persist(b: Books, r: Reminder, status: Status, id: AttemptId, row: Row): (Books, DispatchOutcome) {
    var b1 := WithStatus(b, r, status);
    if b1.rows.Has(id) then (b1, DuplicateRow)
    else (b1.(rows := b1.rows.Put(id, row)), Done(row.delivered))
  }

  function AtLeastOne(n: nat): nat {
    if n < 1 then 1 else n
  }

  /** A row without anything from the provider. */
  function FailureRow(reason: A.Code, now: Time, d: Option<Resolution>): Row {
    Row(false, reason, now, None, None, false, A.NoConfidence, d)
  }

  function PersistFailure(b: Books, r: Reminder, reason: A.Code, now: Time, d: Option<Resolution>)
    : (Books, DispatchOutcome)
  {
    Persist(b, r, Failed, AttemptId(r.dedupeKey, AtLeastOne(r.attempts)), FailureRow(reason, now, d))
  }

  function AssignUnverified(b: Books, r: Reminder, id: AttemptId, now: Time, d: Resolution): (Books, DispatchOutcome) {
    var (b1, outcome) := Persist(b, r, Failed, id, FailureRow(A.AcceptedUnverifiedCode, now, Some(d)));
    if outcome.DuplicateRow? then (b1, outcome)
    else (b1.(assignedTotal := b1.assignedTotal + 1, transitions := b1.transitions + [(id, AssignOpen)]), Done(false))
  }

  /** Entering the failure route without an adapter result. */
  function FailSeam(b: Books, r: Reminder, token: string, now: Time, d: Resolution): (Books, DispatchOutcome) {
    match S.Route(None, false, Some(token))
    case SeamFailure(reason, _) => PersistFailure(b, r, reason, now, Some(d))
    case _ => (b, RunnerStopped)
  }

  /** Sending by WhatsApp: the decision on the adapter's answer, as stored. */
  function SendWhatsApp(b: Books, r: Reminder, now: Time, d: Resolution, scene: Scene): (Books, DispatchOutcome) {
    if scene.forceBypass then FailSeam(b, r, S.BYPASS_DETECTED, now, d)
    else if !scene.adapterBound && !scene.allowFallback then FailSeam(b, r, S.FALLBACK_WITHOUT_FLAG, now, d)
    else if !scene.adapterBound then PersistFailure(b, r, A.FailedConfigInvalidTarget, now, Some(d))
    else
      var id := AttemptId(r.dedupeKey, r.attempts);
      match S.Decide(scene.call(id, OrElse(d.resolvedTargetRef, "")))
      case IntegrityFail(_) => (b, RunnerStopped)
      case SeamFailure(reason, _) => PersistFailure(b, r, reason, now, Some(d))
      case AcceptedUnverified => AssignUnverified(b, r, id, now, d)
      case Delivered(a) =>
        Persist(b, r, Status.Delivered, id,
                Row(true, a.reasonCode, now, a.receiptRef, a.statusCode, a.acceptOnly, a.confidence, Some(d)))
  }

  /** The rest of a dispatch, once the attempt is counted. */
  function SendOn(cfg: Setup, b: Books, r: Reminder, now: Time, d: Resolution, scene: Scene): (Books, DispatchOutcome) {
    if !d.status.OkStatus? || !ProvenanceComplete(d) then
      PersistFailure(b, r, A.FailedConfigInvalidTarget, now, Some(d))
    else if GoesByWhatsApp(d) then SendWhatsApp(b, r, now, d, scene)
    else
      Persist(b, r, Status.Delivered, AttemptId(r.dedupeKey, r.attempts),
              Row(true, A.DeliveredSuccess, now, Some(cfg.engine.dedupeText(r.dedupeKey)), Some("ok"), false,
                  A.ProviderConfirmed, Some(d)))
  }

  /** Where the reminder goes: its own destinations, else the recipient's target. */
  function Aim(r: Reminder, target: Target): Resolution {
    ResolveDestination(r.eventOverride, r.requestDefault, Dest(Some(target.channel), Some(target.targetId)))
  }

  function ProcessCandidate(cfg: Setup, b: Books, k: Key, now: Time, scene: Scene): (Books, DispatchOutcome)
    requires k in b.reminders.data
  {
    var r0 := b.reminders.data[k];
    if scene.target.None? || scene.target.value.timezone.None? then PersistFailure(b, r0, A.TzMissing, now, None)
    else
      SendOn(cfg, WithStatus(b, Counted(r0), Attempted), Counted(r0), now, Aim(r0, scene.target.value), scene)
  }

  // ---------- The reconcile pass ----------

  const RECONCILE_LIMIT := 100

  function Reschedule(b: Books, keys: seq<Key>, now: Time): Books
    decreases |keys|
  {
    if keys == [] then b else RescheduleOne(Reschedule(b, keys[..|keys| - 1], now), keys[|keys| - 1], now)
  }

  function RescheduleOne(b: Books, k: Key, now: Time): Books {
    if k in b.reminders.data && MustReconcile(b.reminders.data[k], now) then
      b.(reminders := b.reminders.Put(k, b.reminders.data[k].(status := Scheduled, next := None)))
    else b
  }

  function IsOpenIn(rows: Dict<AttemptId, Row>): AttemptId -> bool {
    id => id in rows.data && IsOpen(rows.data[id])
  }

  function OlderFirst(rows: Dict<AttemptId, Row>): (AttemptId, AttemptId) -> bool {
    (a, b) => a in rows.data && b in rows.data && rows.data[a].at <= rows.data[b].at
  }

  function OpenIds(rows: Dict<AttemptId, Row>): seq<AttemptId> {
    Sort(Filter(rows.keys, IsOpenIn(rows)), OlderFirst(rows))
  }

  predicate IsClosed(b: Books, id: AttemptId) {
    (id, PromoteDelivered) in b.transitions || (id, DemoteTimeout) in b.transitions
  }

  function Promoted(row: Row): Row {
    row.(delivered := true, reason := A.DeliveredSuccess, statusCode := Some(OrElse(row.statusCode, "ok")),
         acceptOnly := false, confidence := A.ProviderConfirmed)
  }

  function Demoted(row: Row): Row {
    row.(delivered := false, reason := A.AcceptedUnverifiedTimeout, providerRef := None, statusCode := None,
         acceptOnly := false, confidence := A.NoConfidence)
  }

  /** Closing an open row one way or the other, with its reminder. */
  function Closed(b: Books, id: AttemptId, row: Row, promoted: bool): Books
    requires id.reminder in b.reminders.data
  {
    var t := if promoted then PromoteDelivered else DemoteTimeout;
    WithStatus(b.(rows := b.rows.Put(id, row)), b.reminders.data[id.reminder], if promoted then Delivered else Failed)
      .(promotedTotal := b.promotedTotal + (if promoted then 1 else 0),
        demotedTotal := b.demotedTotal + (if promoted then 0 else 1),
        transitions := b.transitions + [(id, t)])
  }

  /** One open row: promoted on verifiable evidence, demoted when its window is over, else
      left open. Also says whether it counts as open. */
  function SettleRow(cfg: Setup, b: Books, id: AttemptId, now: Time): (Books, bool)
    requires id in b.rows.data
  {
    var row := b.rows.data[id];
    var k := id.reminder;
    if k !in b.reminders.data || IsClosed(b, id) then (b, false)
    else if S.IsVerifiable(row.providerRef) then (Closed(b, id, Promoted(row), true), false)
    else if now >= row.at + cfg.windowMicros then (Closed(b, id, Demoted(row), false), false)
    else (b, true)
  }

  function CountOpen(n: nat, settled: (Books, bool)): (Books, nat) {
    (settled.0, if settled.1 then n + 1 else n)
  }

  function SettleAll(cfg: Setup, b: Books, ids: seq<AttemptId>, now: Time): (Books, nat)
    requires forall id | id in ids :: id in b.rows.data
    ensures SettleAll(cfg, b, ids, now).0.rows.data.Keys == b.rows.data.Keys
    decreases |ids|
  {
    if ids == [] then (b, 0)
    else
      var (b1, n) := SettleAll(cfg, b, ids[..|ids| - 1], now);
      assert ids[|ids| - 1] in ids;
      CountOpen(n, SettleRow(cfg, b1, ids[|ids| - 1], now))
  }

  lemma OpenIdsPresent(rows: Dict<AttemptId, Row>)
    ensures forall id :: id in OpenIds(rows) <==> id in rows.keys && id in rows.data && IsOpen(rows.data[id])
    ensures |OpenIds(rows)| == |Filter(rows.keys, IsOpenIn(rows))|
  {
    FilterMembers(rows.keys, IsOpenIn(rows));
    SortKeepsElements(Filter(rows.keys, IsOpenIn(rows)), OlderFirst(rows));
  }

  function RunReconcile(cfg: Setup, b: Books, now: Time): Books {
    var b1 := Reschedule(b, Take(DueKeys(cfg.engine, b.reminders, now), RECONCILE_LIMIT), now);
    OpenIdsPresent(b1.rows);
    var (b2, open) := SettleAll(cfg, b1, OpenIds(b1.rows), now);
    b2.(openGauge := open)
  }

  // ---------- Runs ----------

  /** Dispatches and reconciles by the daemon, receipts that arrive late for an open row, and
      what the engine process does meanwhile: new reminders, and invalidation of live ones.
      Restart is the end of the process and the start of the next one over the same store. */
  datatype Move =
    | DispatchOne(key: Key, at: Time, scene: Scene)
    | ReconcilePass(now: Time)
    | LateReceipt(id: AttemptId, ref: Option<string>, code: Option<string>)
    | NewReminders(reminder: Reminder)
    | DropReminder(dropped: Key)
    | Restart

  /** The counters start from zero; the tables stay. */
  function Restarted(b: Books): Books {
    b.(assignedTotal := 0, promotedTotal := 0, demotedTotal := 0, openGauge := 0,
       openAtStart := |Filter(b.rows.keys, IsOpenIn(b.rows))|)
  }

  function Play(cfg: Setup, b: Books, move: Move): Books {
    match move
    case DispatchOne(k, now, scene) =>
      if k in b.reminders.data && IsDue(b.reminders.data[k], now) then ProcessCandidate(cfg, b, k, now, scene).0 else b
    case ReconcilePass(now) => RunReconcile(cfg, b, now)
    case LateReceipt(id, ref, code) =>
      if id in b.rows.data && IsOpen(b.rows.data[id]) then
        b.(rows := b.rows.Put(id, b.rows.data[id].(providerRef := ref, statusCode := code)))
      else b
    case NewReminders(r) =>
      if r.dedupeKey !in b.reminders.data && r.attempts == 0 && r.status.Scheduled? then
        b.(reminders := b.reminders.Put(r.dedupeKey, r))
      else b
    case DropReminder(k) =>
      if k in b.reminders.data && IsSchedulable(b.reminders.data[k].status) then
        WithStatus(b, b.reminders.data[k], Invalidated)
      else b
    case Restart => Restarted(b)
  }

  function After(cfg: Setup, moves: seq<Move>): Books
    decreases |moves|
  {
    if moves == [] then NEW_BOOKS else Play(cfg, After(cfg, moves[..|moves| - 1]), moves[|moves| - 1])
  }
}
