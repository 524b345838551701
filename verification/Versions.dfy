/** The SQLite store under several engines at once. A mutation reads the current version in
    one step and appends the next in another; any steps of other engines may come between. */
module Versions {
  import opened Text
  import opened OrderedDict
  import opened Destination
  import opened Engine
  import opened EngineEffects

  /** The row of an event: the version that is current, and whether the event is active. */
  datatype Head = Head(version: nat, active: bool)

  /** The tables events and event_versions; the second has no status column. */
  datatype Tables = Tables(heads: Dict<EventId, Head>, rows: map<(EventId, nat), Event>)

  function WithoutStatus(e: Event): Event {
    e.(active := true)
  }

  /** How a transaction ends: committed, rolled back by the version guard, or rolled back by
      a missing event or a key that is taken. */
  datatype Ending = Committed | Conflict | Refused

  function Insert(t: Tables, e: Event): (Tables, Ending) {
    if (e.id, e.version) in t.rows then (t, Refused)
    else (Tables(t.heads.Put(e.id, Head(e.version, e.active)), t.rows[(e.id, e.version) := WithoutStatus(e)]),
          Committed)
  }

  function SaveNew(t: Tables, e: Event): (Tables, Ending) {
    if t.heads.Has(e.id) then (t, Refused) else Insert(t, e)
  }

  /** The guard: the stored version must be the one before e. */
  function AppendNext(t: Tables, e: Event): (Tables, Ending) {
    if !t.heads.Has(e.id) then (t, Refused)
    else if t.heads.data[e.id].version + 1 != e.version then (t, Conflict)
    else Insert(t, e)
  }

  function LatestEvent(t: Tables, id: EventId): Option<Event> {
    if t.heads.Has(id) && (id, t.heads.data[id].version) in t.rows then
      Some(t.rows[(id, t.heads.data[id].version)].(active := t.heads.data[id].active))
    else None
  }

  function MaxId(ids: seq<EventId>): (m: nat)
    ensures forall id | id in ids :: id <= m
    decreases |ids|
  {
    if ids == [] then 0
    else
      var rest := MaxId(ids[..|ids| - 1]);
      assert ids == ids[..|ids| - 1] + [ids[|ids| - 1]];
      if ids[|ids| - 1] > rest then ids[|ids| - 1] else rest
  }

  function NextEventId(t: Tables): EventId {
    MaxId(t.heads.keys) + 1
  }

  // ---------- Engines ----------

  datatype Change =
    | Revise(intent: Intent, timezone: string, eventOverride: Dest, requestDefault: Dest)
    | CancelIt

  function Built(current: Event, c: Change): Event {
    match c
    case Revise(i, tz, o, d) => Revised(current.id, current, i, tz, o, d)
    case CancelIt => Cancelled(current)
  }

  /** What an engine holds between its read and its write. */
  datatype Local = Idle | Updating(current: Event, change: Change) | Creating(event: Event)

  /** A mutation that was answered with success, and the version it was built from. */
  datatype Report = Report(engine: nat, from: Option<(Event, Change)>, made: Event)

  datatype World = World(tables: Tables, locals: map<nat, Local>, reports: seq<Report>)

  datatype Op =
    | ReadLatest(reader: nat, id: EventId, change: Change)
    | ReadNextId(creator: nat, draft: Event)
    | Write(writer: nat)
    | Lose(lost: nat)

  function LocalOf(w: World, engine: nat): Local {
    if engine in w.locals then w.locals[engine] else Idle
  }

  /** The write that engine would make now. */
  function Attempt(w: World, engine: nat): (Tables, Ending) {
    match LocalOf(w, engine)
    case Idle => (w.tables, Refused)
    case Updating(current, change) => AppendNext(w.tables, Built(current, change))
    case Creating(e) => SaveNew(w.tables, e)
  }

  function Step(w: World, op: Op): World {
    match op
    case ReadLatest(engine, id, change) =>
      var current := LatestEvent(w.tables, id);
      if current.None? then w else w.(locals := w.locals[engine := Updating(current.value, change)])
    case ReadNextId(engine, draft) =>
      w.(locals := w.locals[engine := Creating(draft.(id := NextEventId(w.tables), version := 1, active := true))])
    case Lose(engine) => w.(locals := w.locals[engine := Idle])
    case Write(engine) =>
      var (t, ending) := Attempt(w, engine);
      World(t, w.locals[engine := Idle],
            if !ending.Committed? then w.reports
            else match LocalOf(w, engine)
                 case Updating(current, change) =>
                   w.reports + [Report(engine, Some((current, change)), Built(current, change))]
                 case Creating(e) => w.reports + [Report(engine, None, e)]
                 case Idle => w.reports)
  }

  function After(ops: seq<Op>): World
    decreases |ops|
  {
    if ops == [] then World(Tables(Empty(), map[]), map[], []) else Step(After(ops[..|ops| - 1]), ops[|ops| - 1])
  }

  // ---------- Invariant ----------

  /** Versions of every event are 1 to its current one, and no others are stored. */
  ghost predicate Contiguous(t: Tables) {
    && t.heads.Valid()
    && (forall id, v :: (id, v) in t.rows <==> t.heads.Has(id) && 1 <= v <= t.heads.data[id].version)
    && (forall key | key in t.rows :: t.rows[key].id == key.0 && t.rows[key].version == key.1)
    && (forall id | id in t.heads.data :: t.heads.data[id].version >= 1)
  }

  /** What was read is stored, and is the latest as long as its version is current. */
  ghost predicate WasRead(t: Tables, e: Event) {
    && (e.id, e.version) in t.rows && t.rows[(e.id, e.version)] == WithoutStatus(e)
    && t.heads.Has(e.id) && e.version <= t.heads.data[e.id].version
    && (e.version == t.heads.data[e.id].version ==> LatestEvent(t, e.id) == Some(e))
  }

  ghost predicate LocalOk(t: Tables, local: Local) {
    match local
    case Idle => true
    case Updating(current, _) => WasRead(t, current)
    case Creating(e) => e.version == 1
  }

  /** A report names a stored version; one built from another names the version before it. */
  ghost predicate ReportOk(t: Tables, r: Report) {
    && (r.made.id, r.made.version) in t.rows && t.rows[(r.made.id, r.made.version)] == WithoutStatus(r.made)
    && match r.from
       case None => r.made.version == 1
       case Some((current, change)) =>
         && r.made == Built(current, change) && current.id == r.made.id && current.version + 1 == r.made.version
         && (current.id, current.version) in t.rows && t.rows[(current.id, current.version)] == WithoutStatus(current)
  }

  ghost predicate ReportedOnce(reports: seq<Report>) {
    forall i, j | 0 <= i < j < |reports| ::
      (reports[i].made.id, reports[i].made.version) != (reports[j].made.id, reports[j].made.version)
  }

  ghost predicate Reported(reports: seq<Report>, key: (EventId, nat)) {
    exists r :: r in reports && (r.made.id, r.made.version) == key
  }

  ghost predicate LocalsOk(t: Tables, locals: map<nat, Local>) {
    forall engine | engine in locals :: LocalOk(t, locals[engine])
  }

  ghost predicate ReportsOk(t: Tables, reports: seq<Report>) {
    forall r | r in reports :: ReportOk(t, r)
  }

  ghost predicate AllReported(t: Tables, reports: seq<Report>) {
    forall key | key in t.rows :: Reported(reports, key)
  }

  ghost predicate Sound(w: World) {
    && Contiguous(w.tables) && LocalsOk(w.tables, w.locals) && ReportsOk(w.tables, w.reports)
    && AllReported(w.tables, w.reports) && ReportedOnce(w.reports)
  }

  // ---------- Steps ----------

  /** t' is t with one more version of one event. */
  ghost predicate Extends(t: Tables, t': Tables, e: Event) {
    && (e.id, e.version) !in t.rows
    && t'.rows == t.rows[(e.id, e.version) := WithoutStatus(e)]
    && t'.heads == t.heads.Put(e.id, Head(e.version, e.active))
    && e.version == (if t.heads.Has(e.id) then t.heads.data[e.id].version else 0) + 1
  }

  lemma AttemptExtends(w: World, engine: nat)
    requires Sound(w)
    ensures var (t, ending) := Attempt(w, engine);
            && (!ending.Committed? ==> t == w.tables)
            && (ending.Committed? ==>
                  match LocalOf(w, engine)
                  case Idle => false
                  case Updating(current, change) => Extends(w.tables, t, Built(current, change))
                  case Creating(e) => Extends(w.tables, t, e))
  {
    if engine in w.locals {
      assert LocalOk(w.tables, w.locals[engine]);
    }
  }

  lemma ExtendedIsContiguous(t: Tables, t': Tables, e: Event)
    requires Contiguous(t) && Extends(t, t', e)
    ensures Contiguous(t')
  {
  }

  lemma ExtendedKeepsRead(t: Tables, t': Tables, e: Event, read: Event)
    requires Contiguous(t) && Extends(t, t', e) && WasRead(t, read)
    ensures WasRead(t', read)
  {
  }

  lemma ExtendedKeepsLocal(t: Tables, t': Tables, e: Event, local: Local)
    requires Contiguous(t) && Extends(t, t', e)
    ensures LocalOk(t, local) ==> LocalOk(t', local)
  {
    if LocalOk(t, local) && local.Updating? {
      ExtendedKeepsRead(t, t', e, local.current);
    }
  }

  lemma ExtendedKeepsReport(t: Tables, t': Tables, e: Event, r: Report)
    requires Extends(t, t', e)
    ensures ReportOk(t, r) ==> ReportOk(t', r) && (r.made.id, r.made.version) != (e.id, e.version)
  {
  }

  lemma ExtendedKeepsLocals(t: Tables, t': Tables, e: Event, locals: map<nat, Local>, engine: nat)
    requires Contiguous(t) && Extends(t, t', e) && LocalsOk(t, locals)
    ensures LocalsOk(t', locals[engine := Idle])
  {
    forall local {
      ExtendedKeepsLocal(t, t', e, local);
    }
  }

  lemma ExtendedKeepsReports(t: Tables, t': Tables, reports: seq<Report>, r: Report)
    requires Extends(t, t', r.made) && ReportsOk(t, reports) && ReportedOnce(reports) && ReportOk(t', r)
    ensures ReportsOk(t', reports + [r]) && ReportedOnce(reports + [r])
  {
    forall x | x in reports {
      ExtendedKeepsReport(t, t', r.made, x);
    }
  }

  lemma ExtendedIsReported(t: Tables, t': Tables, reports: seq<Report>, r: Report)
    requires Extends(t, t', r.made) && AllReported(t, reports)
    ensures AllReported(t', reports + [r])
  {
    forall key | key in t'.rows ensures Reported(reports + [r], key) {
      if key == (r.made.id, r.made.version) {
        assert r in reports + [r];
      } else {
        assert Reported(reports, key);
        assert forall x | x in reports :: x in reports + [r];
      }
    }
  }

  lemma WriteStaysSound(w: World, engine: nat, t: Tables, r: Report)
    requires Sound(w) && Extends(w.tables, t, r.made) && ReportOk(t, r)
    ensures Sound(World(t, w.locals[engine := Idle], w.reports + [r]))
  {
    ExtendedIsContiguous(w.tables, t, r.made);
    ExtendedKeepsLocals(w.tables, t, r.made, w.locals, engine);
    ExtendedKeepsReports(w.tables, t, w.reports, r);
    ExtendedIsReported(w.tables, t, w.reports, r);
  }

  lemma LocalStaysSound(w: World, engine: nat, local: Local)
    requires Sound(w) && LocalOk(w.tables, local)
    ensures Sound(w.(locals := w.locals[engine := local]))
  {
  }

  lemma StepStaysSound(w: World, op: Op)
    requires Sound(w)
    ensures Sound(Step(w, op))
  {
    match op
    case ReadLatest(engine, id, change) =>
      var current := LatestEvent(w.tables, id);
      if current.Some? {
        LocalStaysSound(w, engine, Updating(current.value, change));
      }
    case ReadNextId(engine, draft) =>
      LocalStaysSound(w, engine, Creating(draft.(id := NextEventId(w.tables), version := 1, active := true)));
    case Lose(engine) => LocalStaysSound(w, engine, Idle);
    case Write(engine) =>
      AttemptExtends(w, engine);
      var (t, ending) := Attempt(w, engine);
      if ending.Committed? {
        var local := LocalOf(w, engine);
        assert LocalOk(w.tables, local);
        var r := if local.Creating? then Report(engine, None, local.event)
                 else Report(engine, Some((local.current, local.change)), Built(local.current, local.change));
        WriteStaysSound(w, engine, t, r);
      } else {
        LocalStaysSound(w, engine, Idle);
      }
  }

  lemma {:induction false} ReachableIsSound(ops: seq<Op>)
    ensures Sound(After(ops))
    decreases |ops|
  {
    if ops != [] {
      ReachableIsSound(ops[..|ops| - 1]);
      StepStaysSound(After(ops[..|ops| - 1]), ops[|ops| - 1]);
    }
  }

  // ---------- Results ----------

  /** The versions of an event are 1 to n without gaps. */
  lemma VersionsHaveNoGaps(ops: seq<Op>, id: EventId, v: nat)
    ensures var t := After(ops).tables;
            (id, v) in t.rows <==> t.heads.Has(id) && 1 <= v <= t.heads.data[id].version
  {
    ReachableIsSound(ops);
  }

  /** No lost update, for any interleaving: each stored version was reported by one mutation,
      and every version after the first was built from exactly the version before it. */
  lemma NoLostUpdate(ops: seq<Op>, id: EventId, v: nat) returns (r: Report)
    requires (id, v) in After(ops).tables.rows
    ensures r in After(ops).reports && (r.made.id, r.made.version) == (id, v)
    ensures ReportOk(After(ops).tables, r) && (r.from.None? <==> v == 1)
  {
    ReachableIsSound(ops);
    r := StoredIsReported(After(ops), id, v);
  }

  lemma StoredIsReported(w: World, id: EventId, v: nat) returns (r: Report)
    requires Sound(w) && (id, v) in w.tables.rows
    ensures r in w.reports && (r.made.id, r.made.version) == (id, v)
    ensures ReportOk(w.tables, r) && (r.from.None? <==> v == 1)
  {
    assert Reported(w.reports, (id, v));
    r :| r in w.reports && (r.made.id, r.made.version) == (id, v);
    assert ReportOk(w.tables, r);
  }

  /** What a read of the event returns is a reported version, with its status. */
  ghost predicate ReadsReported(w: World, id: EventId) {
    exists r :: r in w.reports && r.made.id == id && LatestEvent(w.tables, id) == Some(r.made)
  }

  lemma ExtendedIsRead(t: Tables, t': Tables, e: Event, id: EventId)
    requires Extends(t, t', e) && t.heads.Valid()
    ensures LatestEvent(t', e.id) == Some(e)
    ensures id != e.id ==> LatestEvent(t', id) == LatestEvent(t, id)
  {
  }

  lemma WriteReports(w: World, engine: nat) returns (r: Option<Report>)
    requires Sound(w)
    ensures var w' := Step(w, Write(engine));
            if r.Some? then w'.reports == w.reports + [r.value] && Extends(w.tables, w'.tables, r.value.made)
            else w'.reports == w.reports && w'.tables == w.tables
  {
    AttemptExtends(w, engine);
    hide Sound, Extends, Attempt;
    var w' := Step(w, Write(engine));
    r := if |w'.reports| > |w.reports| then Some(w'.reports[|w.reports|]) else None;
  }

  lemma ReadStaysReported(w: World, w': World, id: EventId)
    requires ReadsReported(w, id) && w.reports <= w'.reports && LatestEvent(w'.tables, id) == LatestEvent(w.tables, id)
    ensures ReadsReported(w', id)
  {
    var r :| r in w.reports && r.made.id == id && LatestEvent(w.tables, id) == Some(r.made);
    assert r in w'.reports;
  }

  lemma SoundHeads(w: World)
    requires Sound(w)
    ensures w.tables.heads.Valid()
  {
  }

  lemma StepReadsReported(w: World, op: Op, id: EventId)
    requires Sound(w) && (w.tables.heads.Has(id) ==> ReadsReported(w, id))
    ensures Step(w, op).tables.heads.Has(id) ==> ReadsReported(Step(w, op), id)
  {
    var w' := Step(w, op);
    var made: Option<Report> := None;
    SoundHeads(w);
    hide Sound, LatestEvent, ReadsReported;
    if op.Write? {
      made := WriteReports(w, op.writer);
    }
    hide Attempt;
    if made.Some? {
      ExtendedIsRead(w.tables, w'.tables, made.value.made, id);
      if id == made.value.made.id {
        LastIsReported(w', id, made.value);
      } else if w.tables.heads.Has(id) {
        ReadStaysReported(w, w', id);
      }
    } else if w.tables.heads.Has(id) {
      ReadStaysReported(w, w', id);
    }
  }

  lemma LastIsReported(w: World, id: EventId, r: Report)
    requires r in w.reports && r.made.id == id && LatestEvent(w.tables, id) == Some(r.made)
    ensures ReadsReported(w, id)
  {
  }

  lemma ReportsAreNotNewer(w: World, id: EventId)
    requires Sound(w) && w.tables.heads.Has(id)
    ensures forall r | r in w.reports && r.made.id == id :: r.made.version <= w.tables.heads.data[id].version
    ensures LatestEvent(w.tables, id).Some?
              && LatestEvent(w.tables, id).value.version == w.tables.heads.data[id].version
  {
    forall r | r in w.reports && r.made.id == id ensures r.made.version <= w.tables.heads.data[id].version {
      assert ReportOk(w.tables, r);
    }
  }

  /** Whatever the engines do, the event that a read returns is the newest version that was
      reported for it, active or cancelled as that one is. */
  lemma {:induction false} ReadIsLastReport(ops: seq<Op>, id: EventId)
    requires After(ops).tables.heads.Has(id)
    ensures ReadsReported(After(ops), id)
    ensures var t := After(ops).tables;
            && LatestEvent(t, id).Some? && LatestEvent(t, id).value.version == t.heads.data[id].version
            && forall r | r in After(ops).reports && r.made.id == id :: r.made.version <= t.heads.data[id].version
    decreases |ops|
  {
    hide Sound, ReadsReported, LatestEvent, Step;
    ReachableIsSound(ops);
    ReportsAreNotNewer(After(ops), id);
    if ops != [] {
      var rest := ops[..|ops| - 1];
      ReachableIsSound(rest);
      if After(rest).tables.heads.Has(id) {
        ReadIsLastReport(rest, id);
      }
      StepReadsReported(After(rest), ops[|ops| - 1], id);
    }
  }

  /** Two successful mutations never report the same version of an event. */
  lemma VersionsAreReportedOnce(ops: seq<Op>, i: nat, j: nat)
    requires i < j < |After(ops).reports|
    ensures var rs := After(ops).reports;
            (rs[i].made.id, rs[i].made.version) != (rs[j].made.id, rs[j].made.version)
  {
    ReachableIsSound(ops);
  }

  /** An update succeeds exactly when the event is still as the engine read it; otherwise the
      guard refuses it, and the tables stay untouched. The guard is the only way it fails. */
  lemma UpdateSucceedsExactly(ops: seq<Op>, engine: nat)
    requires LocalOf(After(ops), engine).Updating?
    ensures var w := After(ops);
            var current := LocalOf(w, engine).current;
            var (t, ending) := Attempt(w, engine);
            && (ending.Committed? <==> LatestEvent(w.tables, current.id) == Some(current))
            && (!ending.Committed? ==> ending.Conflict? && Step(w, Write(engine)).tables == w.tables)
  {
    ReachableIsSound(ops);
    GuardIsExact(After(ops), engine);
  }

  lemma GuardIsExact(w: World, engine: nat)
    requires Sound(w) && LocalOf(w, engine).Updating?
    ensures var current := LocalOf(w, engine).current;
            var (t, ending) := Attempt(w, engine);
            && (ending.Committed? <==> LatestEvent(w.tables, current.id) == Some(current))
            && (!ending.Committed? ==> ending.Conflict? && t == w.tables)
  {
    assert LocalOk(w.tables, LocalOf(w, engine));
    var current, change := LocalOf(w, engine).current, LocalOf(w, engine).change;
    StillLatest(w.tables, current);
    AppendEnds(w.tables, current, Built(current, change));
  }

  lemma StillLatest(t: Tables, e: Event)
    requires Contiguous(t) && WasRead(t, e)
    ensures LatestEvent(t, e.id) == Some(e) <==> t.heads.data[e.id].version == e.version
  {
  }

  lemma AppendEnds(t: Tables, current: Event, e: Event)
    requires Contiguous(t) && WasRead(t, current) && e.id == current.id && e.version == current.version + 1
    ensures var (t', ending) := AppendNext(t, e);
            && (ending.Committed? <==> t.heads.data[e.id].version == current.version)
            && (!ending.Committed? ==> ending.Conflict? && t' == t)
  {
    if t.heads.data[e.id].version + 1 == e.version {
      assert (e.id, e.version) !in t.rows;
    } else {
      assert AppendNext(t, e) == (t, Conflict);
    }
  }

  /** A create succeeds exactly when no other create took its id in between. */
  lemma CreateSucceedsExactly(ops: seq<Op>, engine: nat)
    requires LocalOf(After(ops), engine).Creating?
    ensures var w := After(ops);
            var e := LocalOf(w, engine).event;
            var (t, ending) := Attempt(w, engine);
            && (ending.Committed? <==> !w.tables.heads.Has(e.id))
            && (!ending.Committed? ==> ending.Refused? && Step(w, Write(engine)).tables == w.tables)
  {
    ReachableIsSound(ops);
    assert LocalOk(After(ops).tables, LocalOf(After(ops), engine));
  }

  lemma OneMore(ops: seq<Op>, op: Op)
    ensures After(ops + [op]) == Step(After(ops), op)
  {
    assert (ops + [op])[..|ops|] == ops;
  }

  lemma ReadersShareId(first: Event, second: Event)
    ensures var w := After([ReadNextId(0, first), ReadNextId(1, second)]);
            && w.tables == Tables(Empty(), map[])
            && LocalOf(w, 0) == Creating(first.(id := 1, version := 1, active := true))
            && LocalOf(w, 1) == Creating(second.(id := 1, version := 1, active := true))
  {
    var both := [ReadNextId(0, first), ReadNextId(1, second)];
    OneMore([], both[0]);
    OneMore([both[0]], both[1]);
    assert [] + [both[0]] == [both[0]] && [both[0]] + [both[1]] == both;
  }

  /** The witness: of two engines that read the next id before either of them writes, the
      second to write is refused. */
  lemma SecondCreateIsRefused(first: Event, second: Event)
    ensures var w := After([ReadNextId(0, first), ReadNextId(1, second), Write(0)]);
            && LocalOf(w, 1) == Creating(second.(id := 1, version := 1, active := true))
            && Attempt(w, 1) == (w.tables, Refused)
  {
    hide After;
    var both := [ReadNextId(0, first), ReadNextId(1, second)];
    ReadersShareId(first, second);
    OneMore(both, Write(0));
    assert both + [Write(0)] == [ReadNextId(0, first), ReadNextId(1, second), Write(0)];
  }

  /** A stored version is never changed or removed by any later step of any engine. */
  lemma {:induction false} VersionsAreWriteOnce(ops: seq<Op>, later: seq<Op>, key: (EventId, nat))
    requires key in After(ops).tables.rows
    ensures key in After(ops + later).tables.rows && After(ops + later).tables.rows[key] == After(ops).tables.rows[key]
    decreases |later|
  {
    if later == [] {
      assert ops + later == ops;
    } else {
      var all := ops + later;
      assert all[..|all| - 1] == ops + later[..|later| - 1];
      VersionsAreWriteOnce(ops, later[..|later| - 1], key);
    }
  }

  // ---------- The store ----------

  class SqliteEvents {
    var heads: Dict<EventId, Head>
    var rows: map<(EventId, nat), Event>

    ghost function View(): Tables
      reads this
    {
      Tables(heads, rows)
    }

    constructor ()
      ensures View() == After([]).tables
    {
      heads, rows := Empty(), map[];
    }

    method NextId() returns (id: EventId)
      ensures id == NextEventId(View()) && !(id in heads.keys)
    {
      var maxNum := 0;
      for n := 0 to |heads.keys|
        invariant maxNum == MaxId(heads.keys[..n])
      {
        assert heads.keys[..n + 1][..n] == heads.keys[..n];
        maxNum := if heads.keys[n] > maxNum then heads.keys[n] else maxNum;
      }
      assert heads.keys[..|heads.keys|] == heads.keys;
      id := maxNum + 1;
    }

    method GetLatest(id: EventId) returns (e: Option<Event>)
      ensures e == LatestEvent(View(), id)
    {
      if !heads.Has(id) || (id, heads.data[id].version) !in rows {
        return None;
      }
      var head := heads.data[id];
      e := Some(rows[(id, head.version)].(active := head.active));
    }

    /** Both inserts in one transaction; a taken key rolls both back. */
    method SaveNewEvent(e: Event) returns (ending: Ending)
      modifies this
      ensures (View(), ending) == SaveNew(old(View()), e)
    {
      if heads.Has(e.id) {
        return Refused;
      }
      ending := InsertVersion(e, heads);
    }

    /** The guarded update first, then the insert; a failure rolls back to the heads before. */
    method AppendEventVersion(e: Event) returns (ending: Ending)
      modifies this
      ensures (View(), ending) == AppendNext(old(View()), e)
    {
      if !heads.Has(e.id) {
        return Refused;
      }
      if heads.data[e.id].version != e.version - 1 {
        return Conflict;
      }
      ending := InsertVersion(e, heads);
    }

    method InsertVersion(e: Event, before: Dict<EventId, Head>) returns (ending: Ending)
      requires before == heads
      modifies this
      ensures (View(), ending) == Insert(old(View()), e)
    {
      heads := heads.Put(e.id, Head(e.version, e.active));
      if (e.id, e.version) in rows {
        heads := before;
        return Refused;
      }
      rows := rows[(e.id, e.version) := WithoutStatus(e)];
      return Committed;
    }
  }
}
