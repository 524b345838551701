/** The deferral counter of the daemon: for each reminder, how often it was passed over. */
module Fairness {
  import opened Text

  const ALLOWED_BLOCKING_REASONS := {
    "CAPTURE_ONLY_BLOCKED", "TZ_MISSING", "FAILED_CONFIG_INVALID_TARGET", "SUPPRESSED_QUIET_HOURS",
    "FAILED_PROVIDER_PERMANENT", "ACCEPTED_UNVERIFIED_OPEN_WINDOW"
  }

  type RowId = string

  /** One loop: the eligible rows in order, those processed, and why rows were blocked. */
  datatype Loop = Loop(eligible: seq<RowId>, processed: seq<RowId>, blockedBy: map<RowId, string>) {
    predicate Serves(id: RowId) {
      id in eligible && id in processed
    }

    predicate Excuses(id: RowId) {
      id in blockedBy && blockedBy[id] in ALLOWED_BLOCKING_REASONS
    }
  }

  type Counters = map<RowId, nat>

  function CountOf(c: Counters, id: RowId): nat {
    if id in c then c[id] else 0
  }

  function RecordRow(c: Counters, loop: Loop, id: RowId): Counters {
    if id in loop.processed then c[id := 0]
    else if loop.Excuses(id) then c
    else c[id := CountOf(c, id) + 1]
  }

  function RecordRows(c: Counters, loop: Loop, rows: seq<RowId>): Counters
    decreases |rows|
  {
    if rows == [] then c else RecordRow(RecordRows(c, loop, rows[..|rows| - 1]), loop, rows[|rows| - 1])
  }

  function Recorded(history: seq<Loop>): Counters
    decreases |history|
  {
    if history == [] then map[]
    else RecordRows(Recorded(history[..|history| - 1]), history[|history| - 1], history[|history| - 1].eligible)
  }

  // ---------- What the history says ----------

  /** The number of loops up to and including the last one that served the row. */
  function LastServed(history: seq<Loop>, id: RowId): (n: nat)
    ensures n <= |history|
    decreases |history|
  {
    if history == [] then 0
    else if history[|history| - 1].Serves(id) then |history|
    else LastServed(history[..|history| - 1], id)
  }

  /** LastServed is just after a serving loop, and no later loop serves the row. */
  lemma {:induction false} LastServedIsLast(history: seq<Loop>, id: RowId)
    ensures var n := LastServed(history, id);
            && (n > 0 ==> history[n - 1].Serves(id))
            && forall i | n <= i < |history| :: !history[i].Serves(id)
    decreases |history|
  {
    if history != [] && !history[|history| - 1].Serves(id) {
      var rest := history[..|history| - 1];
      LastServedIsLast(rest, id);
      assert forall i | 0 <= i < |rest| :: rest[i] == history[i];
    }
  }

  /** The loop blocked the row for one of the six reasons that do not count against it. */
  predicate IsExcused(loop: Loop, id: RowId) {
    && id in loop.blockedBy
    && var reason := loop.blockedBy[id];
       || reason == "CAPTURE_ONLY_BLOCKED" || reason == "TZ_MISSING" || reason == "FAILED_CONFIG_INVALID_TARGET"
       || reason == "SUPPRESSED_QUIET_HOURS" || reason == "FAILED_PROVIDER_PERMANENT"
       || reason == "ACCEPTED_UNVERIFIED_OPEN_WINDOW"
  }

  /** How often a loop passes over a row that it does not process. */
  function PassedOver(loop: Loop, id: RowId): nat {
    if IsExcused(loop, id) then 0 else multiset(loop.eligible)[id]
  }

  function PassedOverIn(loops: seq<Loop>, id: RowId): nat
    decreases |loops|
  {
    if loops == [] then 0 else PassedOverIn(loops[..|loops| - 1], id) + PassedOver(loops[|loops| - 1], id)
  }

  lemma {:induction false} RowsEffect(c: Counters, loop: Loop, rows: seq<RowId>, id: RowId)
    ensures CountOf(RecordRows(c, loop, rows), id) ==
            if id !in rows then CountOf(c, id)
            else if id in loop.processed then 0
            else if IsExcused(loop, id) then CountOf(c, id)
            else CountOf(c, id) + multiset(rows)[id]
    decreases |rows|
  {
    if rows != [] {
      var rest, last := rows[..|rows| - 1], rows[|rows| - 1];
      assert rows == rest + [last];
      RowsEffect(c, loop, rest, id);
      assert multiset(rows)[id] == multiset(rest)[id] + if last == id then 1 else 0;
      assert id !in rest ==> multiset(rest)[id] == 0;
    }
  }

  /** The counter of a row is the number of times it was eligible, not processed and not
      excused since the last loop that processed it. */
  lemma {:induction false} CounterIsHistory(history: seq<Loop>, id: RowId)
    ensures CountOf(Recorded(history), id) == PassedOverIn(history[LastServed(history, id)..], id)
    decreases |history|
  {
    if history != [] {
      var rest, last := history[..|history| - 1], history[|history| - 1];
      CounterIsHistory(rest, id);
      RowsEffect(Recorded(rest), last, last.eligible, id);
      var n := LastServed(history, id);
      if last.Serves(id) {
        assert history[n..] == [];
      } else {
        var tail := history[n..];
        assert tail[..|tail| - 1] == rest[n..] && tail[|tail| - 1] == last;
        assert id !in last.eligible ==> multiset(last.eligible)[id] == 0;
      }
    }
  }

  /** The loops that pass over the row. */
  function LoopsDeferring(loops: seq<Loop>, id: RowId): set<nat> {
    set i: nat | i < |loops| && id in loops[i].eligible && id !in loops[i].processed && !IsExcused(loops[i], id)
  }

  predicate IsDistinct(s: seq<RowId>) {
    forall i, j | 0 <= i < j < |s| :: s[i] != s[j]
  }

  lemma {:induction false} OccursOnce(s: seq<RowId>, id: RowId)
    requires IsDistinct(s)
    ensures multiset(s)[id] == if id in s then 1 else 0
  {
    if s != [] {
      assert s == [s[0]] + s[1..];
      OccursOnce(s[1..], id);
    }
  }

  lemma LoopsDeferringGrows(rest: seq<Loop>, last: Loop, id: RowId)
    ensures LoopsDeferring(rest + [last], id) ==
            LoopsDeferring(rest, id)
            + (if id in last.eligible && id !in last.processed && !IsExcused(last, id) then {|rest|} else {})
  {
    var loops := rest + [last];
    assert loops[|rest|] == last && forall i: nat | i < |rest| :: loops[i] == rest[i];
  }

  lemma {:induction false} PassedOverCountsLoops(loops: seq<Loop>, id: RowId)
    requires forall loop | loop in loops :: IsDistinct(loop.eligible) && !loop.Serves(id)
    ensures PassedOverIn(loops, id) == |LoopsDeferring(loops, id)|
    decreases |loops|
  {
    if loops == [] {
      assert LoopsDeferring(loops, id) == {};
    } else {
      var rest, last := loops[..|loops| - 1], loops[|loops| - 1];
      assert last in loops && forall loop | loop in rest :: loop in loops;
      PassedOverCountsLoops(rest, id);
      OccursOnce(last.eligible, id);
      assert loops == rest + [last];
      LoopsDeferringGrows(rest, last, id);
    }
  }

  /** With distinct eligible rows, the counter is the number of loops since the row was last
      processed in which it was eligible, unprocessed and not excused. */
  lemma CounterCountsLoops(history: seq<Loop>, id: RowId)
    requires forall loop | loop in history :: IsDistinct(loop.eligible)
    ensures CountOf(Recorded(history), id) == |LoopsDeferring(history[LastServed(history, id)..], id)|
  {
    CounterIsHistory(history, id);
    LastServedIsLast(history, id);
    var tail := history[LastServed(history, id)..];
    forall loop | loop in tail ensures IsDistinct(loop.eligible) && !loop.Serves(id) {
      var i :| 0 <= i < |tail| && tail[i] == loop;
      assert history[LastServed(history, id) + i] == loop;
    }
    PassedOverCountsLoops(tail, id);
  }

  // ---------- The object ----------

  class FairnessTracker {
    var deferralByRow: Counters

    constructor ()
      ensures deferralByRow == Recorded([])
    {
      deferralByRow := map[];
    }

    method RecordLoop(loop: Loop)
      modifies this
      ensures deferralByRow == RecordRows(old(deferralByRow), loop, loop.eligible)
    {
      var processed := set id | id in loop.processed;
      for n := 0 to |loop.eligible|
        invariant deferralByRow == RecordRows(old(deferralByRow), loop, loop.eligible[..n])
      {
        assert loop.eligible[..n + 1][..n] == loop.eligible[..n];
        var id := loop.eligible[n];
        var reason := if id in loop.blockedBy then Some(loop.blockedBy[id]) else None;
        if id in processed {
          deferralByRow := deferralByRow[id := 0];
        } else if reason.Some? && reason.value in ALLOWED_BLOCKING_REASONS {
        } else {
          deferralByRow := deferralByRow[id := (if id in deferralByRow then deferralByRow[id] else 0) + 1];
        }
      }
      assert loop.eligible[..|loop.eligible|] == loop.eligible;
    }

    method DeferralTickCount(id: RowId) returns (count: nat)
      ensures count == CountOf(deferralByRow, id)
    {
      count := if id in deferralByRow then deferralByRow[id] else 0;
    }
  }
}
