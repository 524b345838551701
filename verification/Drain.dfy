/** How soon a due reminder is dispatched: over any run of the daemon's cycles, with whatever
    other processes do to the tables in between. */
module Drain {
  import opened Text
  import opened Sorting
  import opened Destination
  import opened Engine
  import opened Dispatch
  import opened DispatchTheorems
  import opened Runtime
  import Tables = EngineTables

  // ---------- The dispatch half of a cycle ----------

  /** What a batch does to the reminders: its own are delivered or failed unless the runner was
      stopped, and every other is as it was. */
  ghost predicate BatchDone(before: map<Key, Reminder>, after: map<Key, Reminder>, stopped: bool, keys: seq<Key>) {
    && after.Keys == before.Keys
    && (forall x | x in before && x !in keys :: after[x] == before[x])
    && (!stopped ==> forall k | k in keys :: k in after && after[k].status in {Delivered, Failed})
  }

  ghost predicate Drains(b: Books, p: Progress, keys: seq<Key>) {
    Sound(p.0) && BatchDone(b.reminders.data, p.0.reminders.data, p.2, keys)
  }

  lemma OneMoreDone(before: map<Key, Reminder>, mid: map<Key, Reminder>, after: map<Key, Reminder>, stopped: bool,
                    rest: seq<Key>, last: Key)
    requires BatchDone(before, mid, false, rest) && last in before && last !in rest
    requires after.Keys == mid.Keys && forall x | x in mid && x != last :: after[x] == mid[x]
    requires !stopped ==> after[last].status in {Delivered, Failed}
    ensures BatchDone(before, after, stopped, rest + [last])
  {
  }

  lemma NextDrains(cfg: Setup, b: Books, rest: seq<Key>, sofar: Progress, last: Key, w: World)
    requires last in b.reminders.data && IsSchedulable(b.reminders.data[last].status) && last !in rest
    ensures Drains(b, sofar, rest) ==> Drains(b, DispatchNext(cfg, sofar, last, w), rest + [last])
  {
    if Drains(b, sofar, rest) && !sofar.2 {
      assert sofar.0.reminders.data[last] == b.reminders.data[last];
      var b', outcome := DispatchStaysSound(cfg, sofar.0, last, w.dispatchAt(last), w.scene(last));
      var next := DispatchNext(cfg, sofar, last, w);
      OneMoreDone(b.reminders.data, sofar.0.reminders.data, next.0.reminders.data, next.2, rest, last);
    }
  }

  /** A batch that does not stop the runner takes all its reminders out of the due set and
      leaves every other reminder as it was. */
  lemma {:induction false} DispatchAllDrains(cfg: Setup, b: Books, keys: seq<Key>, w: World)
    requires Sound(b) && Distinct(keys)
    requires forall k | k in keys :: k in b.reminders.data && IsSchedulable(b.reminders.data[k].status)
    ensures Drains(b, DispatchAll(cfg, b, keys, w), keys)
    decreases |keys|
  {
    if keys != [] {
      var rest, last := keys[..|keys| - 1], keys[|keys| - 1];
      assert keys == rest + [last] && last in keys && last !in rest;
      assert forall k | k in rest :: k in keys;
      DispatchAllDrains(cfg, b, rest, w);
      NextDrains(cfg, b, rest, DispatchAll(cfg, b, rest, w), last, w);
    }
  }

  /** No answer that the scenes of this cycle can give is alarming. */
  ghost predicate IsQuiet(w: World) {
    forall k, id, target :: !S.Decide(w.scene(k).call(id, target)).IntegrityFail?
  }

  lemma QuietNextRuns(cfg: Setup, b: Books, rest: seq<Key>, sofar: Progress, last: Key, w: World)
    requires last in b.reminders.data && IsSchedulable(b.reminders.data[last].status) && last !in rest
    requires IsQuiet(w) && Drains(b, sofar, rest) && !sofar.2
    ensures !DispatchNext(cfg, sofar, last, w).2
  {
    hide S.Decide, ProcessCandidate, Asked;
    var b1, outcome := DispatchStaysSound(cfg, sofar.0, last, w.dispatchAt(last), w.scene(last));
    StopsOnlyOnAlarm(cfg, sofar.0, last, w.dispatchAt(last), w.scene(last));
  }

  lemma {:induction false} QuietBatchRuns(cfg: Setup, b: Books, keys: seq<Key>, w: World)
    requires Sound(b) && Distinct(keys) && IsQuiet(w)
    requires forall k | k in keys :: k in b.reminders.data && IsSchedulable(b.reminders.data[k].status)
    ensures !DispatchAll(cfg, b, keys, w).2
    decreases |keys|
  {
    if keys != [] {
      var rest, last := keys[..|keys| - 1], keys[|keys| - 1];
      assert keys == rest + [last] && last in keys && last !in rest;
      assert forall k | k in rest :: k in keys;
      QuietBatchRuns(cfg, b, rest, w);
      DispatchAllDrains(cfg, b, rest, w);
      QuietNextRuns(cfg, b, rest, DispatchAll(cfg, b, rest, w), last, w);
    }
  }

  /** A cycle whose answers are quiet does not stop the runner. */
  lemma QuietCycleRuns(cfg: Setup, tickMs: int, rt: Runtime, w: World)
    requires tickMs > 0 && Sound(rt.books) && IsQuiet(w)
    ensures !RunCycle(cfg, tickMs, rt, w).1.Stopped?
  {
    var keys := ListCandidates(cfg, rt.books, w.listAt);
    CandidatesAreDue(cfg, rt.books, w.listAt);
    Tables.DueKeysDistinct(cfg.engine, rt.books.reminders, w.listAt);
    QuietBatchRuns(cfg, rt.books, keys, w);
  }

  // ---------- The reconcile half ----------

  /** A reminder waits for no retry and triggers when its key says. */
  predicate IsPlain(r: Reminder, k: Key) {
    r.next.None? && r.trigger == k.trigger
  }

  /** The engine makes such reminders, and the daemon never sets a retry time. */
  lemma EngineMakesPlain(cfg: Config, e: Event, recipient: string, status: Status)
    ensures var r := NewReminder(cfg, e, recipient, status); IsPlain(r, r.dedupeKey)
  {
  }

  ghost predicate Plain(b: Books) {
    forall k | k in b.reminders.data && IsSchedulable(b.reminders.data[k].status) :: IsPlain(b.reminders.data[k], k)
  }

  /** Live reminders stay as they are, dispatched ones stay dispatched, no other comes to life. */
  ghost predicate KeepsLive(b: Books, b': Books) {
    && b'.reminders.data.Keys == b.reminders.data.Keys
    && forall x | x in b.reminders.data ::
         && (IsSchedulable(b.reminders.data[x].status) ==> b'.reminders.data[x] == b.reminders.data[x])
         && (!IsSchedulable(b.reminders.data[x].status) ==> !IsSchedulable(b'.reminders.data[x].status))
         && (b.reminders.data[x].status in {Delivered, Failed} ==> b'.reminders.data[x].status in {Delivered, Failed})
  }

  lemma {:induction false} RescheduleIsIdle(b: Books, keys: seq<Key>, now: Time)
    requires Plain(b)
    ensures Reschedule(b, keys, now) == b
    decreases |keys|
  {
    if keys != [] {
      RescheduleIsIdle(b, keys[..|keys| - 1], now);
    }
  }

  lemma RowIsDispatched(b: Books, id: AttemptId)
    requires Sound(b) && id in b.rows.data
    ensures Filed(b.reminders) && id.reminder in b.reminders.data
    ensures b.reminders.data[id.reminder].status in {Delivered, Failed}
  {
    assert AttemptOk(b, id);
  }

  lemma SameKeepsLive(b: Books)
    ensures KeepsLive(b, b)
  {
  }

  lemma ClosedKeepsLive(b: Books, id: AttemptId, row: Row, promoted: bool)
    requires Filed(b.reminders) && id.reminder in b.reminders.data
    requires b.reminders.data[id.reminder].status in {Delivered, Failed}
    ensures KeepsLive(b, Closed(b, id, row, promoted))
  {
  }

  lemma SettleRowKeepsLive(cfg: Setup, b: Books, id: AttemptId, now: Time)
    requires Sound(b) && id in b.rows.data
    ensures KeepsLive(b, SettleRow(cfg, b, id, now).0)
  {
    hide Sound, KeepsLive, Closed, Promoted, Demoted;
    RowIsDispatched(b, id);
    ClosedKeepsLive(b, id, Promoted(b.rows.data[id]), true);
    ClosedKeepsLive(b, id, Demoted(b.rows.data[id]), false);
    SameKeepsLive(b);
  }

  lemma {:induction false} SettleAllKeepsLive(cfg: Setup, b: Books, ids: seq<AttemptId>, now: Time)
    requires Sound(b) && Distinct(ids)
    requires forall id | id in ids :: id in b.rows.data && IsOpen(b.rows.data[id])
    ensures KeepsLive(b, SettleAll(cfg, b, ids, now).0)
    decreases |ids|
  {
    if ids != [] {
      var rest, last := ids[..|ids| - 1], ids[|ids| - 1];
      assert ids == rest + [last] && last in ids;
      assert forall id | id in rest :: id in ids;
      SettleAllKeepsLive(cfg, b, rest, now);
      var b1, n := SettleAllStaysSound(cfg, b, rest, now);
      SettleRowKeepsLive(cfg, b1, last, now);
    }
  }

  /** A reconcile pass leaves every live reminder exactly as it is. */
  lemma ReconcileKeepsLive(cfg: Setup, b: Books, now: Time)
    requires Sound(b) && Plain(b)
    ensures Sound(RunReconcile(cfg, b, now)) && KeepsLive(b, RunReconcile(cfg, b, now))
  {
    ReconcileStaysSound(cfg, b, now);
    RescheduleIsIdle(b, Take(DueKeys(cfg.engine, b.reminders, now), RECONCILE_LIMIT), now);
    OpenIdsPresent(b.rows);
    FilterMembers(b.rows.keys, IsOpenIn(b.rows));
    SortDistinct(Filter(b.rows.keys, IsOpenIn(b.rows)), OlderFirst(b.rows));
    SettleAllKeepsLive(cfg, b, OpenIds(b.rows), now);
  }

  // ---------- One cycle ----------

  /** After a cycle in normal mode: the batch is dispatched, the rest of the line is as it was. */
  ghost predicate Cycled(b: Books, keys: seq<Key>, b': Books) {
    && Sound(b') && Plain(b') && b'.reminders.data.Keys == b.reminders.data.Keys
    && (forall x | x in keys :: x in b'.reminders.data && b'.reminders.data[x].status in {Delivered, Failed})
    && (forall x | x in b.reminders.data && x !in keys ::
          if IsSchedulable(b.reminders.data[x].status) then b'.reminders.data[x] == b.reminders.data[x]
          else !IsSchedulable(b'.reminders.data[x].status))
  }

  lemma DrainedIsPlain(b: Books, p: Progress, keys: seq<Key>)
    requires Plain(b) && Drains(b, p, keys) && !p.2
    ensures Plain(p.0)
  {
  }

  lemma CycleDispatchesBatch(cfg: Setup, tickMs: int, rt: Runtime, w: World) returns (next: Runtime)
    requires tickMs > 0 && Sound(rt.books) && Plain(rt.books)
    requires w.mode != CAPTURE_ONLY && !RunCycle(cfg, tickMs, rt, w).1.Stopped?
    ensures next == RunCycle(cfg, tickMs, rt, w).0
    ensures Cycled(rt.books, ListCandidates(cfg, rt.books, w.listAt), next.books)
  {
    next := RunCycle(cfg, tickMs, rt, w).0;
    var keys := ListCandidates(cfg, rt.books, w.listAt);
    CandidatesAreDue(cfg, rt.books, w.listAt);
    Tables.DueKeysDistinct(cfg.engine, rt.books.reminders, w.listAt);
    DispatchAllDrains(cfg, rt.books, keys, w);
    var p := DispatchAll(cfg, rt.books, keys, w);
    DrainedIsPlain(rt.books, p, keys);
    ReconcileKeepsLive(cfg, p.0, w.reconcileAt);
    DrainedThenKept(rt.books, p, keys, next.books);
  }

  lemma DrainedThenKept(b: Books, p: Progress, keys: seq<Key>, b': Books)
    requires Drains(b, p, keys) && !p.2 && Plain(p.0)
    ensures Sound(b') && (b' == p.0 || KeepsLive(p.0, b')) ==> Cycled(b, keys, b')
  {
  }

  // ---------- The line ahead of a reminder ----------

  /** The live reminders that come before k in (trigger, id) order. */
  ghost function Ahead(cfg: Setup, b: Books, k: Key): set<Key> {
    set x | x in b.reminders.data && x != k && IsSchedulable(b.reminders.data[x].status) && DueBefore(cfg.engine, x, k)
  }

  /** When k is due, so is the whole line ahead of it. */
  lemma LineIsDue(cfg: Setup, b: Books, k: Key, now: Time)
    requires Filed(b.reminders) && Plain(b) && k in DueKeys(cfg.engine, b.reminders, now)
    ensures Ahead(cfg, b, k) == set x | x in DueKeys(cfg.engine, b.reminders, now) && x != k
              && DueBefore(cfg.engine, x, k)
  {
    DueKeysPresent(cfg.engine, b.reminders, now);
  }

  lemma {:induction false} DistinctSize(s: seq<Key>)
    requires Distinct(s)
    ensures |set x | x in s| == |s|
  {
    if s != [] {
      assert Distinct(s[1..]) && s[0] !in s[1..];
      DistinctSize(s[1..]);
      assert (set x | x in s) == {s[0]} + (set x | x in s[1..]);
    }
  }

  lemma DueInOrder(cfg: Setup, b: Books, now: Time)
    requires Filed(b.reminders)
    ensures var due := DueKeys(cfg.engine, b.reminders, now);
            && Distinct(due) && SortedBy(due, DueOrder(cfg.engine))
            && forall x | x in due :: x in b.reminders.data && IsSchedulable(b.reminders.data[x].status)
  {
    var filtered := Filter(b.reminders.keys, IsDueIn(b.reminders, now));
    DueOrderIsTotal(cfg.engine, filtered);
    SortSorts(filtered, DueOrder(cfg.engine));
    Tables.DueKeysDistinct(cfg.engine, b.reminders, now);
  }

  lemma ListedIsAhead(cfg: Setup, b: Books, now: Time, k: Key, x: Key)
    requires Filed(b.reminders) && k in DueKeys(cfg.engine, b.reminders, now)
    requires x in ListCandidates(cfg, b, now) && k !in ListCandidates(cfg, b, now)
    ensures x in Ahead(cfg, b, k)
  {
    var due, batch := DueKeys(cfg.engine, b.reminders, now), ListCandidates(cfg, b, now);
    DueInOrder(cfg, b, now);
    var i :| 0 <= i < |due| && due[i] == k;
    var j :| 0 <= j < |batch| && batch[j] == x;
    assert batch == due[..|batch|] && due[j] == x;
    assert |batch| <= i;
    assert DueOrder(cfg.engine)(due[j], due[i]);
  }

  /** A due reminder that a batch misses has a whole batch ahead of it. */
  lemma MissedMeansFullBatch(cfg: Setup, b: Books, now: Time, k: Key)
    requires Filed(b.reminders) && k in DueKeys(cfg.engine, b.reminders, now) && k !in ListCandidates(cfg, b, now)
    ensures var batch := set x | x in ListCandidates(cfg, b, now);
            |batch| == BATCH && batch <= Ahead(cfg, b, k)
  {
    var due, batch := DueKeys(cfg.engine, b.reminders, now), ListCandidates(cfg, b, now);
    DueInOrder(cfg, b, now);
    assert |due| > BATCH && batch == due[..BATCH];
    assert Distinct(batch);
    DistinctSize(batch);
    forall x | x in batch ensures x in Ahead(cfg, b, k) {
      ListedIsAhead(cfg, b, now, k, x);
    }
  }

  lemma SubsetSize(a: set<Key>, b: set<Key>)
    requires a <= b
    ensures |a| <= |b|
  {
    assert b == a + (b - a);
  }

  lemma BatchLeavesLine(cfg: Setup, b: Books, keys: seq<Key>, b': Books, k: Key)
    requires Cycled(b, keys, b') && k !in keys
    ensures Ahead(cfg, b', k) <= Ahead(cfg, b, k) - set x | x in keys
  {
  }

  /** A cycle that misses k brings it a whole batch nearer. */
  lemma CycleBringsNearer(cfg: Setup, b: Books, now: Time, b': Books, k: Key)
    requires Filed(b.reminders) && k in DueKeys(cfg.engine, b.reminders, now) && k !in ListCandidates(cfg, b, now)
    requires Cycled(b, ListCandidates(cfg, b, now), b')
    ensures |Ahead(cfg, b', k)| + BATCH <= |Ahead(cfg, b, k)|
  {
    MissedMeansFullBatch(cfg, b, now, k);
    BatchLeavesLine(cfg, b, ListCandidates(cfg, b, now), b', k);
    SubsetSize(Ahead(cfg, b', k), Ahead(cfg, b, k) - set x | x in ListCandidates(cfg, b, now));
  }

  // ---------- Between the cycles ----------

  /** What may happen while k waits: late receipts, dropped reminders, restarts of the daemon,
      and new reminders as the engine makes them, none of them ahead of k. */
  ghost predicate LeavesLine(cfg: Setup, move: Move, k: Key) {
    match move
    case LateReceipt(_, _, _) => true
    case DropReminder(_) => true
    case Restart => true
    case NewReminders(r) =>
      && IsPlain(r, r.dedupeKey)
      && (r.dedupeKey == k || !DueBefore(cfg.engine, r.dedupeKey, k))
    case _ => false
  }

  ghost predicate AllLeaveLine(cfg: Setup, moves: seq<Move>, k: Key) {
    forall m | m in moves :: LeavesLine(cfg, m, k)
  }

  /** The line ahead of k is no longer than it was, and k is as it was unless it was dropped. */
  ghost predicate KeepsPlace(cfg: Setup, b: Books, b': Books, k: Key, dropped: bool) {
    && k in b.reminders.data && k in b'.reminders.data && Ahead(cfg, b', k) <= Ahead(cfg, b, k)
    && (!dropped ==> b'.reminders.data[k] == b.reminders.data[k])
    && (b'.reminders.data[k] == b.reminders.data[k] || !IsSchedulable(b'.reminders.data[k].status))
    && (!IsSchedulable(b.reminders.data[k].status) ==> b'.reminders.data[k] == b.reminders.data[k])
  }

  lemma MoveKeepsPlace(cfg: Setup, b: Books, move: Move, k: Key) returns (b': Books)
    requires Sound(b) && Plain(b) && k in b.reminders.data && LeavesLine(cfg, move, k)
    ensures b' == Play(cfg, b, move) && Sound(b') && Plain(b')
    ensures KeepsPlace(cfg, b, b', k, move == DropReminder(k))
  {
    PlayStaysSound(cfg, b, move);
    b' := Play(cfg, b, move);
  }

  lemma {:induction false} MovesKeepPlace(cfg: Setup, b: Books, moves: seq<Move>, k: Key) returns (b': Books)
    requires Sound(b) && Plain(b) && k in b.reminders.data && AllLeaveLine(cfg, moves, k)
    ensures b' == PlayAll(cfg, b, moves) && Sound(b') && Plain(b')
    ensures KeepsPlace(cfg, b, b', k, DropReminder(k) in moves)
    decreases |moves|
  {
    b' := b;
    if moves != [] {
      var rest, last := moves[..|moves| - 1], moves[|moves| - 1];
      assert moves == rest + [last] && last in moves;
      assert forall m | m in rest :: m in moves;
      var b1 := MovesKeepPlace(cfg, b, rest, k);
      b' := MoveKeepsPlace(cfg, b1, last, k);
    }
  }

  // ---------- The bound ----------

  /** Normal mode, no runner stop, k's trigger reached when the batch is listed, and nothing
      put ahead of k from outside. */
  ghost predicate RunsSmoothly(cfg: Setup, tickMs: int, rt: Runtime, round: Round, k: Key)
    requires tickMs > 0
  {
    && AllLeaveLine(cfg, round.meanwhile, k)
    && round.world.mode != CAPTURE_ONLY && k.trigger <= round.world.listAt
    && !RunRound(cfg, tickMs, rt, round).1.Stopped?
  }

  ghost predicate Runs(cfg: Setup, tickMs: int, rt: Runtime, rounds: seq<Round>, k: Key)
    requires tickMs > 0
    decreases |rounds|
  {
    rounds == [] ||
    (&& RunsSmoothly(cfg, tickMs, rt, rounds[0], k)
     && Runs(cfg, tickMs, RunRound(cfg, tickMs, rt, rounds[0]).0, rounds[1..], k))
  }

  lemma PlainIsListed(cfg: Setup, b: Books, k: Key, now: Time)
    requires Sound(b) && Plain(b) && k in b.reminders.data && k.trigger <= now
    ensures Filed(b.reminders)
    ensures IsSchedulable(b.reminders.data[k].status) <==> k in DueKeys(cfg.engine, b.reminders, now)
  {
    Tables.DueKeysDistinct(cfg.engine, b.reminders, now);
  }

  /** One round: k is dropped, or dispatched, or a whole batch nearer. */
  lemma RoundBringsNearer(cfg: Setup, tickMs: int, rt: Runtime, round: Round, k: Key) returns (next: Runtime)
    requires tickMs > 0 && Sound(rt.books) && Plain(rt.books)
    requires k in rt.books.reminders.data && IsSchedulable(rt.books.reminders.data[k].status)
    requires RunsSmoothly(cfg, tickMs, rt, round, k)
    ensures next == RunRound(cfg, tickMs, rt, round).0 && Sound(next.books) && Plain(next.books)
    ensures k in next.books.reminders.data
    ensures IsSchedulable(next.books.reminders.data[k].status) ==>
              |Ahead(cfg, next.books, k)| + BATCH <= |Ahead(cfg, rt.books, k)|
    ensures !IsSchedulable(next.books.reminders.data[k].status) ==>
              DropReminder(k) in round.meanwhile || next.books.reminders.data[k].status in {Delivered, Failed}
  {
    hide Sound, Plain, Ahead, DueKeys, RunCycle;
    var b := MovesKeepPlace(cfg, rt.books, round.meanwhile, k);
    next := CycleDispatchesBatch(cfg, tickMs, rt.(books := b), round.world);
    SubsetSize(Ahead(cfg, b, k), Ahead(cfg, rt.books, k));
    PlainIsListed(cfg, b, k, round.world.listAt);
    if IsSchedulable(next.books.reminders.data[k].status) {
      CycleBringsNearer(cfg, b, round.world.listAt, next.books, k);
    }
  }

  /** k is delivered or failed, or some round dropped it from outside. */
  ghost predicate LeftTheLine(rt: Runtime, rounds: seq<Round>, k: Key) {
    && k in rt.books.reminders.data && !IsSchedulable(rt.books.reminders.data[k].status)
    && (rt.books.reminders.data[k].status in {Delivered, Failed}
        || exists r :: r in rounds && DropReminder(k) in r.meanwhile)
  }

  /** After the first n of these rounds k has left the line. */
  ghost predicate LeavesBy(cfg: Setup, tickMs: int, rt: Runtime, rounds: seq<Round>, n: nat, k: Key)
    requires tickMs > 0
  {
    n <= |rounds| && LeftTheLine(Cycles(cfg, tickMs, rt, rounds[..n]), rounds[..n], k)
  }

  lemma FirstRoundFirst(cfg: Setup, tickMs: int, rt: Runtime, rounds: seq<Round>, n: nat, k: Key)
    requires tickMs > 0 && rounds != []
    ensures LeavesBy(cfg, tickMs, RunRound(cfg, tickMs, rt, rounds[0]).0, rounds[1..], n, k) ==>
              LeavesBy(cfg, tickMs, rt, rounds, n + 1, k)
  {
    if n < |rounds| {
      assert rounds[..n + 1][1..] == rounds[1..][..n] && rounds[..n + 1][0] == rounds[0];
      assert forall r | r in rounds[1..][..n] :: r in rounds[..n + 1];
    }
  }

  lemma LeavesAtOnce(cfg: Setup, tickMs: int, rt: Runtime, rounds: seq<Round>, next: Runtime, k: Key)
    requires tickMs > 0 && rounds != [] && next == RunRound(cfg, tickMs, rt, rounds[0]).0
    requires k in next.books.reminders.data && !IsSchedulable(next.books.reminders.data[k].status)
    requires DropReminder(k) in rounds[0].meanwhile || next.books.reminders.data[k].status in {Delivered, Failed}
    ensures LeavesBy(cfg, tickMs, rt, rounds, 1, k)
  {
    assert rounds[..1] == [rounds[0]] && rounds[0] in rounds[..1] && rounds[..1][1..] == [];
    assert Cycles(cfg, tickMs, rt, rounds[..1]) == Cycles(cfg, tickMs, next, []);
  }

  /** k is in the line, and there are rounds enough for it. */
  ghost predicate Waits(cfg: Setup, tickMs: int, rt: Runtime, rounds: seq<Round>, k: Key)
    requires tickMs > 0
  {
    && Sound(rt.books) && Plain(rt.books)
    && k in rt.books.reminders.data && IsSchedulable(rt.books.reminders.data[k].status)
    && Runs(cfg, tickMs, rt, rounds, k) && |rounds| > |Ahead(cfg, rt.books, k)| / BATCH
  }

  /** How many cycles the line ahead of k needs, and one more for k. */
  ghost function Bound(cfg: Setup, rt: Runtime, k: Key): nat {
    |Ahead(cfg, rt.books, k)| / BATCH + 1
  }

  lemma RoundAdvances(cfg: Setup, tickMs: int, rt: Runtime, rounds: seq<Round>, k: Key) returns (next: Runtime)
    requires tickMs > 0 && Waits(cfg, tickMs, rt, rounds, k)
    ensures rounds != [] && next == RunRound(cfg, tickMs, rt, rounds[0]).0
    ensures || LeavesBy(cfg, tickMs, rt, rounds, 1, k)
            || (Waits(cfg, tickMs, next, rounds[1..], k) && Bound(cfg, next, k) < Bound(cfg, rt, k))
  {
    next := RoundBringsNearer(cfg, tickMs, rt, rounds[0], k);
    if !IsSchedulable(next.books.reminders.data[k].status) {
      LeavesAtOnce(cfg, tickMs, rt, rounds, next, k);
    }
  }

  lemma BoundIsPositive(cfg: Setup, rt: Runtime, k: Key)
    ensures 1 <= Bound(cfg, rt, k)
  {
  }

  lemma {:induction false} DrainsWithin(cfg: Setup, tickMs: int, rt: Runtime, rounds: seq<Round>, k: Key)
    returns (n: nat)
    requires tickMs > 0
    ensures || !Waits(cfg, tickMs, rt, rounds, k)
            || (1 <= n <= Bound(cfg, rt, k) && LeavesBy(cfg, tickMs, rt, rounds, n, k))
    decreases |rounds|
  {
    hide *;
    BoundIsPositive(cfg, rt, k);
    n := 1;
    if Waits(cfg, tickMs, rt, rounds, k) {
      var next := RoundAdvances(cfg, tickMs, rt, rounds, k);
      if !LeavesBy(cfg, tickMs, rt, rounds, 1, k) {
        var later := DrainsWithin(cfg, tickMs, next, rounds[1..], k);
        FirstRoundFirst(cfg, tickMs, rt, rounds, later, k);
        n := later + 1;
      }
    }
  }

  /** The same with quiet answers in place of a runner that does not stop. */
  ghost predicate IsQuietRound(cfg: Setup, round: Round, k: Key) {
    && AllLeaveLine(cfg, round.meanwhile, k)
    && round.world.mode != CAPTURE_ONLY && k.trigger <= round.world.listAt && IsQuiet(round.world)
  }

  lemma QuietRoundRuns(cfg: Setup, tickMs: int, rt: Runtime, round: Round, k: Key) returns (next: Runtime)
    requires tickMs > 0 && Sound(rt.books) && Plain(rt.books) && k in rt.books.reminders.data
    requires IsQuietRound(cfg, round, k)
    ensures RunsSmoothly(cfg, tickMs, rt, round, k)
    ensures next == RunRound(cfg, tickMs, rt, round).0 && Sound(next.books) && Plain(next.books)
    ensures k in next.books.reminders.data
  {
    var b := MovesKeepPlace(cfg, rt.books, round.meanwhile, k);
    QuietCycleRuns(cfg, tickMs, rt.(books := b), round.world);
    next := CycleDispatchesBatch(cfg, tickMs, rt.(books := b), round.world);
  }

  /** Rounds with quiet answers run smoothly, whatever the books: the drain bound holds for them. */
  lemma {:induction false} QuietRoundsRun(cfg: Setup, tickMs: int, rt: Runtime, rounds: seq<Round>, k: Key)
    requires tickMs > 0 && Sound(rt.books) && Plain(rt.books) && k in rt.books.reminders.data
    requires forall round | round in rounds :: IsQuietRound(cfg, round, k)
    ensures Runs(cfg, tickMs, rt, rounds, k)
    decreases |rounds|
  {
    if rounds != [] {
      assert rounds[0] in rounds;
      var next := QuietRoundRuns(cfg, tickMs, rt, rounds[0], k);
      assert forall round | round in rounds[1..] :: round in rounds;
      QuietRoundsRun(cfg, tickMs, next, rounds[1..], k);
    }
  }

  // ---------- From empty books ----------

  ghost predicate AllPlain(moves: seq<Move>) {
    forall m | m in moves && m.NewReminders? :: IsPlain(m.reminder, m.reminder.dedupeKey)
  }

  /** r is filed, with whatever status. */
  ghost predicate IsFiled(b: Books, r: Reminder) {
    r.dedupeKey in b.reminders.data
        && b.reminders.data[r.dedupeKey] == r.(status := b.reminders.data[r.dedupeKey].status)
  }

  lemma PersistFiles(b: Books, r: Reminder, status: Status, id: AttemptId, row: Row)
    ensures IsFiled(Persist(b, r, status, id, row).0, r)
  {
  }

  lemma FailureFiles(b: Books, r: Reminder, reason: A.Code, now: Time, d: Option<Resolution>)
    ensures IsFiled(PersistFailure(b, r, reason, now, d).0, r)
  {
    PersistFiles(b, r, Failed, AttemptId(r.dedupeKey, AtLeastOne(r.attempts)), FailureRow(reason, now, d));
  }

  lemma FailSeamFiles(b: Books, r: Reminder, token: string, now: Time, d: Resolution)
    requires IsFiled(b, r)
    ensures IsFiled(FailSeam(b, r, token, now, d).0, r)
  {
    match S.Route(None, false, Some(token))
    case SeamFailure(reason, _) => FailureFiles(b, r, reason, now, Some(d));
    case _ =>
  }

  lemma AssignFiles(b: Books, r: Reminder, id: AttemptId, now: Time, d: Resolution)
    ensures IsFiled(AssignUnverified(b, r, id, now, d).0, r)
  {
    PersistFiles(b, r, Failed, id, FailureRow(A.AcceptedUnverifiedCode, now, Some(d)));
  }

  lemma SendWhatsAppFiles(b: Books, r: Reminder, now: Time, d: Resolution, scene: Scene)
    requires IsFiled(b, r)
    ensures IsFiled(SendWhatsApp(b, r, now, d, scene).0, r)
  {
    if scene.forceBypass {
      FailSeamFiles(b, r, S.BYPASS_DETECTED, now, d);
    } else if !scene.adapterBound {
      FailSeamFiles(b, r, S.FALLBACK_WITHOUT_FLAG, now, d);
      FailureFiles(b, r, A.FailedConfigInvalidTarget, now, Some(d));
    } else {
      var id := AttemptId(r.dedupeKey, r.attempts);
      match S.Decide(scene.call(id, OrElse(d.resolvedTargetRef, "")))
      case IntegrityFail(_) =>
      case SeamFailure(reason, _) => FailureFiles(b, r, reason, now, Some(d));
      case AcceptedUnverified => AssignFiles(b, r, id, now, d);
      case Delivered(a) =>
        PersistFiles(b, r, Status.Delivered, id,
                     Row(true, a.reasonCode, now, a.receiptRef, a.statusCode, a.acceptOnly, a.confidence, Some(d)));
    }
  }

  lemma SendOnFiles(cfg: Setup, b: Books, r: Reminder, now: Time, d: Resolution, scene: Scene)
    requires IsFiled(b, r)
    ensures IsFiled(SendOn(cfg, b, r, now, d, scene).0, r)
  {
    SendWhatsAppFiles(b, r, now, d, scene);
  }

  lemma DispatchKeepsTimes(cfg: Setup, b: Books, k: Key, now: Time, scene: Scene)
    requires k in b.reminders.data && b.reminders.data[k].dedupeKey == k
    ensures var r, b' := b.reminders.data[k], ProcessCandidate(cfg, b, k, now, scene).0;
            && k in b'.reminders.data
            && b'.reminders.data[k].next == r.next && b'.reminders.data[k].trigger == r.trigger
  {
    if scene.target.Some? && scene.target.value.timezone.Some? {
      var r := Counted(b.reminders.data[k]);
      SendOnFiles(cfg, WithStatus(b, r, Attempted), r, now, Aim(b.reminders.data[k], scene.target.value), scene);
    }
  }

  lemma DispatchKeepsPlain(cfg: Setup, b: Books, k: Key, now: Time, scene: Scene) returns (b': Books)
    requires Sound(b) && Plain(b) && k in b.reminders.data && IsSchedulable(b.reminders.data[k].status)
    ensures b' == ProcessCandidate(cfg, b, k, now, scene).0 && Plain(b')
  {
    var after, outcome := DispatchStaysSound(cfg, b, k, now, scene);
    DispatchKeepsTimes(cfg, b, k, now, scene);
    b' := after;
  }

  lemma PlayKeepsPlain(cfg: Setup, b: Books, move: Move)
    requires Sound(b) && Plain(b) && (move.NewReminders? ==> IsPlain(move.reminder, move.reminder.dedupeKey))
    ensures Plain(Play(cfg, b, move))
  {
    match move
    case DispatchOne(k, now, scene) =>
      if k in b.reminders.data && IsDue(b.reminders.data[k], now) {
        var b' := DispatchKeepsPlain(cfg, b, k, now, scene);
      }
    case ReconcilePass(now) => ReconcileKeepsLive(cfg, b, now);
    case _ =>
  }

  lemma {:induction false} ReachableBooksArePlain(cfg: Setup, moves: seq<Move>)
    requires AllPlain(moves)
    ensures Plain(After(cfg, moves))
    decreases |moves|
  {
    if moves != [] {
      var rest, last := moves[..|moves| - 1], moves[|moves| - 1];
      assert moves == rest + [last] && last in moves;
      assert forall m | m in rest :: m in moves;
      ReachableBooksArePlain(cfg, rest);
      ReachableBooksAreSound(cfg, rest);
      PlayKeepsPlain(cfg, After(cfg, rest), last);
    }
  }

  /** From any reachable books, over any run of whole cycles: a reminder with p live reminders
      ahead of it is delivered or failed within p / 100 + 1 cycles, unless it is dropped from
      outside first. All of the p are due as soon as the reminder itself is. */
  lemma DrainBound(cfg: Setup, tickMs: int, moves: seq<Move>, rt: Runtime, rounds: seq<Round>, k: Key) returns (n: nat)
    requires tickMs > 0 && rt.books == After(cfg, moves) && AllPlain(moves)
    requires k in rt.books.reminders.data && IsSchedulable(rt.books.reminders.data[k].status)
    requires Runs(cfg, tickMs, rt, rounds, k) && |rounds| > |Ahead(cfg, rt.books, k)| / BATCH
    ensures 1 <= n <= |Ahead(cfg, rt.books, k)| / BATCH + 1
    ensures n <= |rounds| && LeftTheLine(Cycles(cfg, tickMs, rt, rounds[..n]), rounds[..n], k)
    ensures forall now | k in DueKeys(cfg.engine, rt.books.reminders, now) ::
              Ahead(cfg, rt.books, k) <= set x | x in DueKeys(cfg.engine, rt.books.reminders, now)
  {
    ReachableBooksAreSound(cfg, moves);
    ReachableBooksArePlain(cfg, moves);
    n := DrainsWithin(cfg, tickMs, rt, rounds, k);
    forall now | k in DueKeys(cfg.engine, rt.books.reminders, now) {
      LineIsDue(cfg, rt.books, k, now);
    }
  }

  /** With quiet answers nothing needs to be said of the runner: such rounds drain the line. */
  lemma QuietDrainBound(cfg: Setup, tickMs: int, moves: seq<Move>, rt: Runtime, rounds: seq<Round>, k: Key)
    returns (n: nat)
    requires tickMs > 0 && rt.books == After(cfg, moves) && AllPlain(moves)
    requires k in rt.books.reminders.data && IsSchedulable(rt.books.reminders.data[k].status)
    requires forall round | round in rounds :: IsQuietRound(cfg, round, k)
    requires |rounds| > |Ahead(cfg, rt.books, k)| / BATCH
    ensures 1 <= n <= |Ahead(cfg, rt.books, k)| / BATCH + 1
    ensures n <= |rounds| && LeftTheLine(Cycles(cfg, tickMs, rt, rounds[..n]), rounds[..n], k)
  {
    ReachableBooksAreSound(cfg, moves);
    ReachableBooksArePlain(cfg, moves);
    QuietRoundsRun(cfg, tickMs, rt, rounds, k);
    n := DrainBound(cfg, tickMs, moves, rt, rounds, k);
  }
}
