/** The daemon's cycle: a batch of due reminders, then a reconcile at most once per tick boundary. */
module Runtime {
  import opened Sorting
  import opened Engine
  import opened Dispatch
  import T = DispatchCallbacks

  const BATCH := 100

  /** What one cycle meets: its start in milliseconds, the runtime mode, the clock readings
      of the store queries, and the scene of each dispatch. */
  datatype World = World(
    startMs: int, mode: string, listAt: Time, dispatchAt: Key -> Time, scene: Key -> Scene, reconcileAt: Time)

  datatype Runtime = Runtime(books: Books, cycles: nat, lastBoundaryMs: int, healthy: bool)

  datatype Summary =
    | Summary(scanned: nat, processed: nat, blocked: nat, success: bool, reconciled: bool)
    | Stopped

  /** Floor to a multiple of the tick. */
  function BoundaryMs(nowMs: int, tickMs: int): int
    requires tickMs > 0
  {
    nowMs / tickMs * tickMs
  }

  /** The books, the deliveries so far, and whether the runner was stopped. */
  type Progress = (Books, nat, bool)

  function Tally(delivered: nat, dispatched: (Books, DispatchOutcome)): Progress {
    (dispatched.0, if dispatched.1 == Done(true) then delivered + 1 else delivered, !dispatched.1.Done?)
  }

  function DispatchNext(cfg: Setup, sofar: Progress, k: Key, w: World): Progress {
    if sofar.2 || k !in sofar.0.reminders.data then sofar
    else Tally(sofar.1, ProcessCandidate(cfg, sofar.0, k, w.dispatchAt(k), w.scene(k)))
  }

  /** Dispatches keys in order until one stops the runner; counts deliveries. */
  function DispatchAll(cfg: Setup, b: Books, keys: seq<Key>, w: World): Progress
    decreases |keys|
  {
    if keys == [] then (b, 0, false)
    else DispatchNext(cfg, DispatchAll(cfg, b, keys[..|keys| - 1], w), keys[|keys| - 1], w)
  }

  function ListCandidates(cfg: Setup, b: Books, now: Time): seq<Key> {
    Take(DueKeys(cfg.engine, b.reminders, now), BATCH)
  }

  lemma CandidatesAreDue(cfg: Setup, b: Books, now: Time)
    ensures forall k | k in ListCandidates(cfg, b, now) ::
              k in b.reminders.data && IsDue(b.reminders.data[k], now)
  {
    DueKeysPresent(cfg.engine, b.reminders, now);
  }

  function RunCycle(cfg: Setup, tickMs: int, rt: Runtime, w: World): (Runtime, Summary)
    requires tickMs > 0
  {
    var boundary := BoundaryMs(w.startMs, tickMs);
    var keys := ListCandidates(cfg, rt.books, w.listAt);
    var (b1, delivered, stopped) := if w.mode == CAPTURE_ONLY then (rt.books, 0, false)
        else DispatchAll(cfg, rt.books, keys, w);
    if stopped then (rt.(books := b1, cycles := rt.cycles + 1), Stopped)
    else
      var reconcile := boundary > rt.lastBoundaryMs;
      var b2 := if reconcile then RunReconcile(cfg, b1, w.reconcileAt) else b1;
      var blocked := if w.mode == CAPTURE_ONLY then |keys| else 0;
      var success := w.mode != [] && (w.mode == CAPTURE_ONLY || delivered == |keys|);
      (Runtime(b2, rt.cycles + 1, if reconcile then boundary else rt.lastBoundaryMs, rt.healthy || success),
       Summary(|keys|, delivered, blocked, success, reconcile))
  }

  // ---------- Runs of cycles ----------

  /** What happens to the books from outside, and then one cycle. */
  datatype Round = Round(meanwhile: seq<Move>, world: World)

  function PlayAll(cfg: Setup, b: Books, moves: seq<Move>): Books
    decreases |moves|
  {
    if moves == [] then b else Play(cfg, PlayAll(cfg, b, moves[..|moves| - 1]), moves[|moves| - 1])
  }

  function RunRound(cfg: Setup, tickMs: int, rt: Runtime, round: Round): (Runtime, Summary)
    requires tickMs > 0
  {
    RunCycle(cfg, tickMs, rt.(books := PlayAll(cfg, rt.books, round.meanwhile)), round.world)
  }

  function Cycles(cfg: Setup, tickMs: int, rt: Runtime, rounds: seq<Round>): Runtime
    requires tickMs > 0
    decreases |rounds|
  {
    if rounds == [] then rt else Cycles(cfg, tickMs, RunRound(cfg, tickMs, rt, rounds[0]).0, rounds[1..])
  }

  // ---------- Reconciles are at most one per boundary ----------

  lemma BoundaryMovesForward(cfg: Setup, tickMs: int, rt: Runtime, round: Round)
    requires tickMs > 0
    ensures var (next, summary) := RunRound(cfg, tickMs, rt, round);
            && rt.lastBoundaryMs <= next.lastBoundaryMs
            && (summary.Summary? && summary.reconciled ==>
                  && rt.lastBoundaryMs < next.lastBoundaryMs <= round.world.startMs < next.lastBoundaryMs + tickMs
                  && exists q :: next.lastBoundaryMs == q * tickMs)
            && (summary.Summary? && !summary.reconciled ==> next.lastBoundaryMs == rt.lastBoundaryMs)
  {
    BoundaryIsFloor(round.world.startMs, tickMs);
  }

  /** Whatever the clock does, the boundary of the last reconcile never goes back and each
      reconcile moves it strictly forward, to a multiple of the tick: so a reconcile never
      runs twice for one boundary. */
  lemma {:induction false} ReconcileOncePerBoundary(cfg: Setup, tickMs: int, rt: Runtime, rounds: seq<Round>,
                                                    round: Round)
    requires tickMs > 0
    ensures var after := Cycles(cfg, tickMs, rt, rounds);
            var (next, summary) := RunRound(cfg, tickMs, after, round);
            && rt.lastBoundaryMs <= after.lastBoundaryMs <= next.lastBoundaryMs
            && (summary.Summary? && summary.reconciled ==>
                  && after.lastBoundaryMs < next.lastBoundaryMs <= round.world.startMs < next.lastBoundaryMs + tickMs
                  && exists q :: next.lastBoundaryMs == q * tickMs)
            && (summary.Summary? && !summary.reconciled ==> next.lastBoundaryMs == after.lastBoundaryMs)
    decreases |rounds|
  {
    BoundaryMovesForward(cfg, tickMs, Cycles(cfg, tickMs, rt, rounds), round);
    if rounds != [] {
      BoundaryMovesForward(cfg, tickMs, rt, rounds[0]);
      ReconcileOncePerBoundary(cfg, tickMs, RunRound(cfg, tickMs, rt, rounds[0]).0, rounds[1..], round);
    }
  }

  lemma BoundaryIsFloor(nowMs: int, tickMs: int)
    requires tickMs > 0
    ensures BoundaryMs(nowMs, tickMs) <= nowMs < BoundaryMs(nowMs, tickMs) + tickMs
    ensures exists q :: BoundaryMs(nowMs, tickMs) == q * tickMs
  {
    var q := nowMs / tickMs;
    assert nowMs == q * tickMs + nowMs % tickMs;
  }

  // ---------- The runtime object ----------

  lemma NextByOutcome(cfg: Setup, b: Books, b': Books, outcome: DispatchOutcome, delivered: nat, k: Key, w: World)
    requires k in b.reminders.data && (b', outcome) == ProcessCandidate(cfg, b, k, w.dispatchAt(k), w.scene(k))
    ensures DispatchNext(cfg, (b, delivered, false), k, w) == Tally(delivered, (b', outcome))
  {
  }

  class DaemonRuntime {
    const cfg: Setup
    const tickMs: int
    const tables: T.DispatchTables
    var cycleSeq: nat
    var lastReconcileBoundaryMs: int
    var healthUp: bool

    ghost predicate Valid() {
      tickMs > 0 && tables.cfg == cfg
    }

    ghost function View(): Runtime
      reads this, tables
    {
      Runtime(tables.View(), cycleSeq, lastReconcileBoundaryMs, healthUp)
    }

    constructor (cfg: Setup, tickMs: int, tables: T.DispatchTables)
      requires tickMs > 0 && tables.cfg == cfg
      ensures Valid() && this.cfg == cfg && this.tickMs == tickMs && this.tables == tables
      ensures View() == Runtime(tables.View(), 0, 0, false)
    {
      this.cfg, this.tickMs, this.tables := cfg, tickMs, tables;
      cycleSeq, lastReconcileBoundaryMs, healthUp := 0, 0, false;
    }

    method DispatchCandidate(k: Key, w: World, delivered: nat) returns (count: nat, stopped: bool)
      requires Valid()
      modifies tables
      ensures (tables.View(), count, stopped) == DispatchNext(cfg, (old(tables.View()), delivered, false), k, w)
    {
      count, stopped := delivered, false;
      if k in tables.reminders.data {
        ghost var before := tables.View();
        var outcome := tables.ProcessCandidate(k, w.dispatchAt(k), w.scene(k));
        if outcome == Done(true) {
          count := count + 1;
        }
        stopped := !outcome.Done?;
        NextByOutcome(cfg, before, tables.View(), outcome, delivered, k, w);
      }
    }

    /** Dispatches the candidates in order; stops where the runner is stopped. */
    method DispatchCandidates(keys: seq<Key>, w: World) returns (delivered: nat, stopped: bool)
      requires Valid()
      modifies tables
      ensures (tables.View(), delivered, stopped) == DispatchAll(cfg, old(tables.View()), keys, w)
    {
      delivered, stopped := 0, false;
      var n := 0;
      while n < |keys| && !stopped
        invariant 0 <= n <= |keys|
        invariant (tables.View(), delivered, stopped) == DispatchAll(cfg, old(tables.View()), keys[..n], w)
      {
        assert keys[..n + 1][..n] == keys[..n];
        delivered, stopped := DispatchCandidate(keys[n], w, delivered);
        n := n + 1;
      }
      StoppedStays(cfg, old(tables.View()), keys, n, w);
    }

    method RunOneCycle(w: World) returns (summary: Summary)
      requires Valid()
      modifies this, tables
      ensures (View(), summary) == RunCycle(cfg, tickMs, old(View()), w)
    {
      cycleSeq := cycleSeq + 1;
      var boundary := BoundaryMs(w.startMs, tickMs);
      var keys := Take(DueKeys(cfg.engine, tables.reminders, w.listAt), BATCH);
      var delivered, stopped := 0, false;
      var blocked := 0;
      if w.mode == CAPTURE_ONLY {
        blocked := |keys|;
      } else {
        delivered, stopped := DispatchCandidates(keys, w);
      }
      if stopped {
        return Stopped;
      }
      var reconcile := boundary > lastReconcileBoundaryMs;
      if reconcile {
        tables.RunReconcile(w.reconcileAt);
        lastReconcileBoundaryMs := boundary;
      }
      var success := w.mode != [] && (w.mode == CAPTURE_ONLY || delivered == |keys|);
      if success && !healthUp {
        healthUp := true;
      }
      return Summary(|keys|, delivered, blocked, success, reconcile);
    }
  }

  lemma {:induction false} StoppedStays(cfg: Setup, b: Books, keys: seq<Key>, n: nat, w: World)
    requires n <= |keys|
    ensures n == |keys| || DispatchAll(cfg, b, keys[..n], w).2 ==>
              DispatchAll(cfg, b, keys, w) == DispatchAll(cfg, b, keys[..n], w)
    decreases |keys|
  {
    if n == |keys| {
      assert keys[..n] == keys;
    } else if DispatchAll(cfg, b, keys[..n], w).2 {
      var rest := keys[..|keys| - 1];
      assert rest[..n] == keys[..n];
      StoppedStays(cfg, b, rest, n, w);
    }
  }
}
