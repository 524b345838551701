/** The daemon's dispatches through its one adapter: every dispatch meets the replay cache
    that the dispatches before it left. */
module DispatchRuns {
  import opened Text
  import opened Destination
  import opened Engine
  import opened Dispatch
  import opened DispatchTheorems
  import opened DispatchOutcome
  import R = AdapterRuns
  import E = EngineTheorems

  /** The settings of the daemon and of its adapter, and the texts of outbound messages. */
  datatype Gateway = Gateway(
    setup: Setup, settings: A.Settings, attemptText: AttemptId -> string, deliveryText: AttemptId -> string)

  /** What a dispatch meets besides the books and the cache. */
  datatype Meeting = Meeting(
    target: Option<Target>, world: A.World, failToken: string, body: string, trace: string, causation: string,
    cycle: string, forceBypass: bool, adapterBound: bool, allowFallback: bool)

  /** One daemon process: the books, and the calls its adapter has had since it started. */
  datatype Process = Process(books: Books, calls: seq<R.Entry>)

  function Outbound(g: Gateway, id: AttemptId, target: string, m: Meeting): A.Message {
    A.Message(g.deliveryText(id), g.attemptText(id), id.number, m.trace, m.causation, "whatsapp", target, "normal",
              m.body, g.setup.engine.dedupeText(id.reminder), None, None, None, None, Some(m.cycle), Some(1))
  }

  function EntryFor(g: Gateway, id: AttemptId, target: string, m: Meeting): R.Entry {
    R.Entry(Outbound(g, id, target, m), m.world)
  }

  /** What the adapter answers to this entry, with the cache as it is. */
  function Answer(g: Gateway, calls: seq<R.Entry>, e: R.Entry, failToken: string): S.AdapterCall {
    S.CallOf(A.Send(g.settings, R.After(g.settings, calls), e.message, e.world).1, failToken)
  }

  function SceneOf(g: Gateway, calls: seq<R.Entry>, m: Meeting): Scene {
    Scene(m.target, (id, target) => Answer(g, calls, EntryFor(g, id, target, m), m.failToken),
          m.forceBypass, m.adapterBound, m.allowFallback)
  }

  function CallsMade(g: Gateway, p: Process, r: Reminder, m: Meeting): seq<R.Entry> {
    match Asked(r, SceneOf(g, p.calls, m))
    case None => []
    case Some(asked) => [EntryFor(g, asked.0, asked.1, m)]
  }

  /** Dispatches of this process, and everything else that moves the books. */
  datatype Act = Send(key: Key, at: Time, meeting: Meeting) | Other(move: Move)

  /** The move that an act is. A process has no dispatch besides its own. */
  function MoveOf(g: Gateway, p: Process, act: Act): Option<Move> {
    match act
    case Send(k, now, m) => Some(DispatchOne(k, now, SceneOf(g, p.calls, m)))
    case Other(move) => if move.DispatchOne? then None else Some(move)
  }

  /** A restart loses the cache, which is kept in memory only. */
  function CallsAfter(g: Gateway, p: Process, act: Act): seq<R.Entry> {
    match act
    case Send(k, now, m) =>
      if k in p.books.reminders.data && IsDue(p.books.reminders.data[k], now)
      then p.calls + CallsMade(g, p, p.books.reminders.data[k], m) else p.calls
    case Other(move) => if move.Restart? then [] else p.calls
  }

  function Perform(g: Gateway, p: Process, act: Act): Process {
    var move := MoveOf(g, p, act);
    Process(if move.Some? then Play(g.setup, p.books, move.value) else p.books, CallsAfter(g, p, act))
  }

  function After(g: Gateway, acts: seq<Act>): Process
    decreases |acts|
  {
    if acts == [] then Process(NEW_BOOKS, []) else Perform(g, After(g, acts[..|acts| - 1]), acts[|acts| - 1])
  }

  // ---------- Nothing new for the books ----------

  function MovesOf(g: Gateway, acts: seq<Act>): seq<Move>
    decreases |acts|
  {
    if acts == [] then []
    else
      var rest := acts[..|acts| - 1];
      var move := MoveOf(g, After(g, rest), acts[|acts| - 1]);
      MovesOf(g, rest) + if move.Some? then [move.value] else []
  }

  /** The books of such a run are the books of a run of moves: all that is proved of those holds. */
  lemma {:induction false} BooksOfMoves(g: Gateway, acts: seq<Act>)
    ensures After(g, acts).books == Dispatch.After(g.setup, MovesOf(g, acts))
    ensures Sound(After(g, acts).books)
    decreases |acts|
  {
    if acts != [] {
      var rest, last := acts[..|acts| - 1], acts[|acts| - 1];
      BooksOfMoves(g, rest);
      var move := MoveOf(g, After(g, rest), last);
      if move.Some? {
        OneMove(g.setup, MovesOf(g, rest), move.value);
      } else {
        assert MovesOf(g, rest) + [] == MovesOf(g, rest);
      }
    }
    ReachableBooksAreSound(g.setup, MovesOf(g, acts));
  }

  // ---------- What a dispatch sends and stores ----------

  ghost predicate SceneIsValid(g: Gateway, p: Process, m: Meeting) {
    AnswersAreValid(SceneOf(g, p.calls, m))
  }

  lemma ScenesAreValid(g: Gateway, p: Process, m: Meeting)
    ensures SceneIsValid(g, p, m)
  {
    R.CacheAgrees(g.settings, p.calls);
    forall id, target | SceneOf(g, p.calls, m).call(id, target).Got?
      ensures A.ValidResult(SceneOf(g, p.calls, m).call(id, target).result)
    {
      S.SentIsValid(g.settings, R.After(g.settings, p.calls), EntryFor(g, id, target, m));
    }
  }

  /** The calls of the adapter before and after a dispatch of the reminder under k. */
  ghost predicate CallsFor(g: Gateway, r: Reminder, m: Meeting, calls: seq<R.Entry>, calls': seq<R.Entry>) {
    if m.target.None? || m.target.value.timezone.None? || m.forceBypass || !m.adapterBound then calls' == calls
    else
      match Wanted(r, m.target.value).1
      case None => calls' == calls
      case Some(pair) =>
        if pair.channel != Some("whatsapp") then calls' == calls
        else
          pair.targetRef.Some?
          && var id := AttemptId(r.dedupeKey, r.attempts + 1);
             calls' == calls + [R.Entry(A.Message(
                                          g.deliveryText(id), g.attemptText(id), r.attempts + 1, m.trace, m.causation,
                                          "whatsapp", pair.targetRef.value, "normal", m.body,
                                          g.setup.engine.dedupeText(r.dedupeKey), None, None, None, None,
                                          Some(m.cycle), Some(1)),
                                        m.world)]
  }

  lemma CallsAreFor(g: Gateway, p: Process, r: Reminder, m: Meeting)
    requires WellFormed(r.eventOverride) && WellFormed(r.requestDefault)
    ensures CallsFor(g, r, m, p.calls, p.calls + CallsMade(g, p, r, m))
  {
    assert p.calls + [] == p.calls;
    if m.target.Some? {
      AimIsWanted(r, m.target.value);
      WantedIsPresent(r, m.target.value);
      hide Aim, Wanted, WellFormed, ProvenanceComplete;
    }
  }

  /** Over every run of the daemon: a dispatch of a due reminder whose destinations the engine
      wrote calls the adapter at most once, exactly when it goes by WhatsApp and the adapter may
      be used; the message has the channel and the target of the stored row, and the tables
      become what DispatchIsExact says for the adapter's answer. */
  lemma SendIsExact(g: Gateway, acts: seq<Act>, k: Key, now: Time, m: Meeting)
    requires var b := After(g, acts).books;
             && k in b.reminders.data && IsSchedulable(b.reminders.data[k].status)
             && DueTime(b.reminders.data[k]) <= now
             && WellFormed(b.reminders.data[k].eventOverride) && WellFormed(b.reminders.data[k].requestDefault)
    ensures var p, p' := After(g, acts), After(g, acts + [Send(k, now, m)]);
            && CallsFor(g, p.books.reminders.data[k], m, p.calls, p'.calls)
            && exists outcome ::
                 Dispatched(g.setup, p.books, p'.books, outcome, k, now, SceneOf(g, p.calls, m))
  {
    BooksOfMoves(g, acts);
    var p := After(g, acts);
    ScenesAreValid(g, p, m);
    CallsAreFor(g, p, p.books.reminders.data[k], m);
    assert (acts + [Send(k, now, m)])[..|acts|] == acts;
    hide Sound, WellFormed, Dispatched, CallsFor, AnswersAreValid, CallsMade, SceneOf;
    DispatchIsExact(g.setup, p.books, k, now, SceneOf(g, p.calls, m));
    hide ProcessCandidate;
    var outcome := ProcessCandidate(g.setup, p.books, k, now, SceneOf(g, p.calls, m)).1;
    assert Dispatched(g.setup, p.books, After(g, acts + [Send(k, now, m)]).books, outcome, k, now,
                      SceneOf(g, p.calls, m));
  }

  /** The daemon's reminder has the destinations that some run of the engine gave it. */
  ghost predicate IsWritten(g: Gateway, ops: seq<Op>, r: Reminder) {
    && r.dedupeKey in E.After(g.setup.engine, ops).reminders.data
    && r.eventOverride == E.After(g.setup.engine, ops).reminders.data[r.dedupeKey].eventOverride
    && r.requestDefault == E.After(g.setup.engine, ops).reminders.data[r.dedupeKey].requestDefault
  }

  /** So it is for every due reminder that the engine made, whatever intents it came from. */
  lemma EngineReminderIsSent(g: Gateway, ops: seq<Op>, acts: seq<Act>, k: Key, now: Time, m: Meeting)
    requires var b := After(g, acts).books;
             && k in b.reminders.data && IsSchedulable(b.reminders.data[k].status)
             && DueTime(b.reminders.data[k]) <= now && IsWritten(g, ops, b.reminders.data[k])
    ensures var p, p' := After(g, acts), After(g, acts + [Send(k, now, m)]);
            && CallsFor(g, p.books.reminders.data[k], m, p.calls, p'.calls)
            && exists outcome ::
                 Dispatched(g.setup, p.books, p'.books, outcome, k, now, SceneOf(g, p.calls, m))
  {
    E.ReachableDestinationsAreWellFormed(g.setup.engine, ops, After(g, acts).books.reminders.data[k].dedupeKey);
    hide WellFormed, Dispatched, CallsFor, CallsMade, SceneOf, Perform;
    SendIsExact(g, acts, k, now, m);
  }

  // ---------- When a dispatch stops the runner ----------

  /** Over every run of the daemon, with any send function: a dispatch stops the runner exactly
      when it calls the adapter and gets a result of an attempt for which the provider, at this
      call or at an earlier one of the same process, gave an alarming answer. */
  lemma DispatchStopsExactly(g: Gateway, acts: seq<Act>, k: Key, now: Time, m: Meeting)
    requires k in After(g, acts).books.reminders.data
    ensures var p := After(g, acts);
            var asked := Asked(p.books.reminders.data[k], SceneOf(g, p.calls, m));
            ProcessCandidate(g.setup, p.books, k, now, SceneOf(g, p.calls, m)).1.RunnerStopped? <==>
              && asked.Some?
              && var e := EntryFor(g, asked.value.0, asked.value.1, m);
                 var outcome := A.Send(g.settings, R.After(g.settings, p.calls), e.message, e.world).1;
                 outcome.Sent? && S.GotAlarming(g.settings, p.calls + [e], outcome.result.attemptId)
  {
    BooksOfMoves(g, acts);
    var p := After(g, acts);
    var asked := Asked(p.books.reminders.data[k], SceneOf(g, p.calls, m));
    StopsOnlyOnAlarm(g.setup, p.books, k, now, SceneOf(g, p.calls, m));
    if asked.Some? {
      S.AlarmSoundsExactly(g.settings, p.calls, EntryFor(g, asked.value.0, asked.value.1, m), m.failToken);
    }
  }

  // ---------- With the production send function ----------

  ghost predicate IsProductionAct(act: Act) {
    act.Send? ==> S.IsProductionWorld(act.meeting.world)
  }

  ghost predicate IsProductionRun(acts: seq<Act>) {
    forall act | act in acts :: IsProductionAct(act)
  }

  lemma {:induction false} CallsAreProduction(g: Gateway, acts: seq<Act>)
    requires IsProductionRun(acts)
    ensures S.IsProduction(After(g, acts).calls)
    decreases |acts|
  {
    if acts != [] {
      var rest, last := acts[..|acts| - 1], acts[|acts| - 1];
      assert acts == rest + [last] && last in acts;
      assert forall act | act in rest :: act in acts;
      CallsAreProduction(g, rest);
    }
  }

  /** Over every production run no dispatch stops the runner: each leaves its reminder delivered
      or failed, with its outcome stored. */
  lemma ProductionNeverStops(g: Gateway, acts: seq<Act>, k: Key, now: Time, m: Meeting)
    requires IsProductionRun(acts) && S.IsProductionWorld(m.world)
    requires var b := After(g, acts).books; k in b.reminders.data && IsDue(b.reminders.data[k], now)
    ensures var p := After(g, acts);
            var (b', outcome) := ProcessCandidate(g.setup, p.books, k, now, SceneOf(g, p.calls, m));
            && outcome.Done? && Sound(b') && k in b'.reminders.data
            && b'.reminders.data[k].status in {Delivered, Failed} && RowId(b'.reminders.data[k]) in b'.rows.data
  {
    BooksOfMoves(g, acts);
    CallsAreProduction(g, acts);
    var p := After(g, acts);
    var asked := Asked(p.books.reminders.data[k], SceneOf(g, p.calls, m));
    StopsOnlyOnAlarm(g.setup, p.books, k, now, SceneOf(g, p.calls, m));
    if asked.Some? {
      var e := EntryFor(g, asked.value.0, asked.value.1, m);
      assert S.IsProduction(p.calls + [e]);
      S.ProductionNeverAlarms(g.settings, p.calls, e, m.failToken);
    }
    var b', outcome := DispatchStaysSound(g.setup, p.books, k, now, SceneOf(g, p.calls, m));
    assert outcome.Done? ==> OutcomeStored(b', k);
  }

  /** Whatever production calls the adapter has had, no answer to a further one is alarming. */
  lemma ProductionSceneIsQuiet(g: Gateway, calls: seq<R.Entry>, m: Meeting, id: AttemptId, target: string)
    requires S.IsProduction(calls) && S.IsProductionWorld(m.world)
    ensures !S.Decide(SceneOf(g, calls, m).call(id, target)).IntegrityFail?
  {
    var e := EntryFor(g, id, target, m);
    assert S.IsProduction(calls + [e]);
    S.ProductionNeverAlarms(g.settings, calls, e, m.failToken);
  }
}
