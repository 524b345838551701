/** The reconnect budget of the daemon: how long it waits after each failure, when it gives
    up, and what clears the count. */
module Reconnect {
  import opened Text

  datatype Strategy = Fixed | Linear | ExponentialCapped

  datatype Settings = Settings(strategy: Strategy, baseMs: int, maxAttempts: int, capMs: Option<int>) {
    /** What the configuration check lets through. */
    predicate Valid() {
      baseMs > 0 && maxAttempts > 0 && (strategy.ExponentialCapped? ==> capMs.Some? && capMs.value > 0)
    }
  }

  function Pow2(n: nat): nat {
    if n == 0 then 1 else 2 * Pow2(n - 1)
  }

  function Min(a: int, b: int): int {
    if a <= b then a else b
  }

  /** The wait before attempt n; absent when the exponential strategy has no cap. */
  function DelayMs(cfg: Settings, n: nat): Option<int>
    requires n >= 1
  {
    match cfg.strategy
    case Fixed => Some(cfg.baseMs)
    case Linear => Some(cfg.baseMs * n)
    case ExponentialCapped =>
      if cfg.capMs.None? then None else Some(Min(cfg.baseMs * Pow2(n - 1), cfg.capMs.value))
  }

  datatype State = State(attempts: nat, exhausted: bool, resetPending: bool)

  const START := State(0, false, false)

  datatype Op = Failure | ReconnectSuccess | CycleSuccess

  /** Wait so long, or stop with an error; the two successes answer nothing. */
  datatype Reply = Wait(ms: int) | GiveUp | Silent

  function Step(cfg: Settings, s: State, op: Op): (State, Reply) {
    match op
    case Failure =>
      if s.exhausted then (s, GiveUp)
      else
        var s1 := s.(attempts := s.attempts + 1);
        if s1.attempts > cfg.maxAttempts then (s1.(exhausted := true), GiveUp)
        else if DelayMs(cfg, s1.attempts).None? then (s1, GiveUp)
        else (s1, Wait(DelayMs(cfg, s1.attempts).value))
    case ReconnectSuccess => (s.(resetPending := true), Silent)
    case CycleSuccess => (if s.resetPending then s.(attempts := 0, resetPending := false) else s, Silent)
  }

  function Run(cfg: Settings, ops: seq<Op>): State
    decreases |ops|
  {
    if ops == [] then START else Step(cfg, Run(cfg, ops[..|ops| - 1]), ops[|ops| - 1]).0
  }

  /** The waiting that the failures of a run were answered with. */
  function Waited(cfg: Settings, ops: seq<Op>): int
    decreases |ops|
  {
    if ops == [] then 0
    else
      var rest := ops[..|ops| - 1];
      var reply := Step(cfg, Run(cfg, rest), ops[|ops| - 1]).1;
      Waited(cfg, rest) + if reply.Wait? then reply.ms else 0
  }

  // ---------- What the history alone says ----------

  /** The connection came back and no cycle has succeeded since. */
  ghost predicate Pending(ops: seq<Op>) {
    exists i :: 0 <= i < |ops| && ops[i] == ReconnectSuccess && forall j | i < j < |ops| :: ops[j] != CycleSuccess
  }

  /** A cycle succeeded at i while a reconnect was pending. */
  ghost predicate ResetsAt(ops: seq<Op>, i: nat)
    requires i < |ops|
  {
    ops[i] == CycleSuccess && Pending(ops[..i])
  }

  /** Failures since the last reset. */
  ghost function SinceReset(ops: seq<Op>): nat
    decreases |ops|
  {
    if ops == [] then 0
    else if ResetsAt(ops, |ops| - 1) then 0
    else SinceReset(ops[..|ops| - 1]) + if ops[|ops| - 1] == Failure then 1 else 0
  }

  lemma PendingStep(ops: seq<Op>, op: Op)
    ensures Pending(ops + [op]) <==> op == ReconnectSuccess || (Pending(ops) && op != CycleSuccess)
  {
    var all := ops + [op];
    if op == ReconnectSuccess {
      assert all[|ops|] == ReconnectSuccess;
    } else if Pending(ops) && op != CycleSuccess {
      var i :| 0 <= i < |ops| && ops[i] == ReconnectSuccess && forall j | i < j < |ops| :: ops[j] != CycleSuccess;
      assert all[i] == ReconnectSuccess;
    } else if Pending(all) {
      var i :| 0 <= i < |all| && all[i] == ReconnectSuccess && forall j | i < j < |all| :: all[j] != CycleSuccess;
      assert ops[i] == ReconnectSuccess && all[|ops|] == op;
      forall j | i < j < |ops| ensures ops[j] != CycleSuccess {
        assert all[j] == ops[j];
      }
    }
  }

  lemma {:induction false} RunFollowsHistory(cfg: Settings, ops: seq<Op>)
    requires cfg.Valid()
    ensures Run(cfg, ops).resetPending <==> Pending(ops)
    ensures !Run(cfg, ops).exhausted ==> Run(cfg, ops).attempts == SinceReset(ops) <= cfg.maxAttempts
    decreases |ops|
  {
    if ops != [] {
      var rest, last := ops[..|ops| - 1], ops[|ops| - 1];
      assert ops == rest + [last];
      RunFollowsHistory(cfg, rest);
      PendingStep(rest, last);
    }
  }

  /** Giving up happens exactly at the first failure that makes max + 1 since a reset. */
  lemma {:induction false} ExhaustedExactly(cfg: Settings, ops: seq<Op>)
    requires cfg.Valid()
    ensures Run(cfg, ops).exhausted <==> exists k :: 0 <= k <= |ops| && SinceReset(ops[..k]) == cfg.maxAttempts + 1
    decreases |ops|
  {
    if ops != [] {
      var rest, last := ops[..|ops| - 1], ops[|ops| - 1];
      ExhaustedExactly(cfg, rest);
      RunFollowsHistory(cfg, rest);
      RunFollowsHistory(cfg, ops);
      assert ops[..|ops|] == ops;
      assert forall k | 0 <= k <= |rest| :: rest[..k] == ops[..k];
    }
  }

  /** Nothing clears it: after giving up, every further failure is refused, whatever succeeded meanwhile. */
  lemma {:induction false} ExhaustedIsForever(cfg: Settings, ops: seq<Op>, later: seq<Op>)
    requires Run(cfg, ops).exhausted
    ensures Run(cfg, ops + later).exhausted && Step(cfg, Run(cfg, ops + later), Failure).1 == GiveUp
    decreases |later|
  {
    if later == [] {
      assert ops + later == ops;
    } else {
      ExhaustedIsForever(cfg, ops, later[..|later| - 1]);
      assert (ops + later)[..|ops + later| - 1] == ops + later[..|later| - 1];
    }
  }

  /** The answer to a failure depends only on the failures since the last reset. */
  lemma FailureIsAnswered(cfg: Settings, ops: seq<Op>)
    requires cfg.Valid() && !Run(cfg, ops).exhausted
    ensures Step(cfg, Run(cfg, ops), Failure).1 ==
            if SinceReset(ops) < cfg.maxAttempts then Wait(DelayMs(cfg, SinceReset(ops) + 1).value) else GiveUp
  {
    RunFollowsHistory(cfg, ops);
  }

  // ---------- Delays ----------

  lemma {:induction false} Pow2Grows(a: nat, b: nat)
    requires a <= b
    ensures 1 <= Pow2(a) <= Pow2(b)
    decreases b
  {
    if a < b {
      Pow2Grows(a, b - 1);
    } else if a > 0 {
      Pow2Grows(a - 1, b - 1);
    }
  }

  /** Delays are positive, never decrease, and respect the cap. */
  lemma DelaysGrow(cfg: Settings, a: nat, b: nat)
    requires cfg.Valid() && 1 <= a <= b
    ensures DelayMs(cfg, a).Some? && DelayMs(cfg, b).Some?
    ensures 1 <= DelayMs(cfg, a).value <= DelayMs(cfg, b).value
    ensures cfg.strategy.ExponentialCapped? ==> DelayMs(cfg, b).value <= cfg.capMs.value
  {
    Pow2Grows(a - 1, b - 1);
    MulGrows(cfg.baseMs, Pow2(a - 1), Pow2(b - 1));
    MulGrows(cfg.baseMs, a, b);
  }

  lemma MulGrows(m: int, a: int, b: int)
    requires m > 0 && 1 <= a <= b
    ensures 1 <= m * a <= m * b
  {
  }

  /** The delays one by one: all the base, or one base more each time, or twice the one before
      until the cap is met and the cap from then on. */
  lemma DelaysFollow(cfg: Settings, n: nat)
    requires cfg.Valid() && n >= 1
    ensures DelayMs(cfg, 1).Some? && DelayMs(cfg, n).Some? && DelayMs(cfg, n + 1).Some?
    ensures DelayMs(cfg, 1).value ==
            if cfg.strategy.ExponentialCapped? && cfg.capMs.value < cfg.baseMs then cfg.capMs.value else cfg.baseMs
    ensures var before := DelayMs(cfg, n).value;
            DelayMs(cfg, n + 1).value ==
            match cfg.strategy
            case Fixed => before
            case Linear => before + cfg.baseMs
            case ExponentialCapped => if 2 * before < cfg.capMs.value then 2 * before else cfg.capMs.value
  {
    Pow2Grows(0, n - 1);
    assert cfg.baseMs * Pow2(n) == 2 * (cfg.baseMs * Pow2(n - 1));
    assert cfg.baseMs * (n + 1) == cfg.baseMs * n + cfg.baseMs;
  }

  function TotalMs(cfg: Settings, n: nat): int
    requires cfg.Valid()
  {
    if n == 0 then 0 else TotalMs(cfg, n - 1) + DelayMs(cfg, n).value
  }

  lemma {:induction false} TotalFixed(cfg: Settings, n: nat)
    requires cfg.Valid() && cfg.strategy.Fixed?
    ensures TotalMs(cfg, n) == n * cfg.baseMs
  {
    if n > 0 {
      TotalFixed(cfg, n - 1);
      Distribute(n - 1, 1, cfg.baseMs);
    }
  }

  lemma {:induction false} TotalLinear(cfg: Settings, n: nat)
    requires cfg.Valid() && cfg.strategy.Linear?
    ensures 2 * TotalMs(cfg, n) == n * (n + 1) * cfg.baseMs
  {
    if n > 0 {
      TotalLinear(cfg, n - 1);
      assert n * (n + 1) == (n - 1) * n + 2 * n;
      Distribute((n - 1) * n, 2 * n, cfg.baseMs);
      assert 2 * n * cfg.baseMs == 2 * (cfg.baseMs * n);
    }
  }

  lemma Distribute(a: int, b: int, m: int)
    ensures (a + b) * m == a * m + b * m
  {
  }

  lemma {:induction false} TotalDoubles(cfg: Settings, n: nat)
    requires cfg.Valid() && cfg.strategy.ExponentialCapped?
    ensures TotalMs(cfg, n) <= (Pow2(n) - 1) * cfg.baseMs
    ensures n == 0 || cfg.baseMs * Pow2(n - 1) <= cfg.capMs.value ==> TotalMs(cfg, n) == (Pow2(n) - 1) * cfg.baseMs
  {
    if n > 0 {
      TotalDoubles(cfg, n - 1);
      Distribute(Pow2(n - 1) - 1, Pow2(n - 1), cfg.baseMs);
      if n > 1 {
        Pow2Grows(n - 2, n - 1);
        MulGrows(cfg.baseMs, Pow2(n - 2), Pow2(n - 1));
      }
    }
  }

  lemma {:induction false} TotalCapped(cfg: Settings, n: nat)
    requires cfg.Valid() && cfg.strategy.ExponentialCapped?
    ensures TotalMs(cfg, n) <= n * cfg.capMs.value
  {
    if n > 0 {
      TotalCapped(cfg, n - 1);
      Distribute(n - 1, 1, cfg.capMs.value);
    }
  }

  /** The total over n failures, by strategy; doubling is exact until the cap is met. */
  lemma TotalByStrategy(cfg: Settings, n: nat)
    requires cfg.Valid()
    ensures cfg.strategy.Fixed? ==> TotalMs(cfg, n) == n * cfg.baseMs
    ensures cfg.strategy.Linear? ==> 2 * TotalMs(cfg, n) == n * (n + 1) * cfg.baseMs
    ensures cfg.strategy.ExponentialCapped? ==>
              && TotalMs(cfg, n) <= Min((Pow2(n) - 1) * cfg.baseMs, n * cfg.capMs.value)
              && (n == 0 || cfg.baseMs * Pow2(n - 1) <= cfg.capMs.value ==>
                    TotalMs(cfg, n) == (Pow2(n) - 1) * cfg.baseMs)
  {
    match cfg.strategy
    case Fixed => TotalFixed(cfg, n);
    case Linear => TotalLinear(cfg, n);
    case ExponentialCapped =>
      TotalDoubles(cfg, n);
      TotalCapped(cfg, n);
  }

  function Failures(ops: seq<Op>): nat
    decreases |ops|
  {
    if ops == [] then 0 else Failures(ops[..|ops| - 1]) + if ops[|ops| - 1] == Failure then 1 else 0
  }

  ghost predicate HasNoReset(ops: seq<Op>) {
    forall i | 0 <= i < |ops| :: !ResetsAt(ops, i)
  }

  lemma NoResetBefore(ops: seq<Op>)
    requires ops != [] && HasNoReset(ops)
    ensures HasNoReset(ops[..|ops| - 1]) && !ResetsAt(ops, |ops| - 1)
  {
    var rest := ops[..|ops| - 1];
    assert forall i | 0 <= i < |rest| :: rest[..i] == ops[..i] && rest[i] == ops[i];
    assert forall i | 0 <= i < |rest| :: !ResetsAt(ops, i) ==> !ResetsAt(rest, i);
  }

  lemma {:induction false} NoResetCounts(ops: seq<Op>)
    requires HasNoReset(ops)
    ensures SinceReset(ops) == Failures(ops)
    decreases |ops|
  {
    if ops != [] {
      NoResetBefore(ops);
      NoResetCounts(ops[..|ops| - 1]);
    }
  }

  /** Without a reset, n failures are answered with exactly the first n delays, and those
      beyond the budget with none; the daemon has given up once n exceeds the budget. */
  lemma {:induction false} BudgetIsSpent(cfg: Settings, ops: seq<Op>)
    requires cfg.Valid() && HasNoReset(ops)
    ensures Waited(cfg, ops) == TotalMs(cfg, Min(Failures(ops), cfg.maxAttempts))
    ensures Run(cfg, ops).exhausted <==> Failures(ops) > cfg.maxAttempts
    decreases |ops|
  {
    if ops != [] {
      var rest := ops[..|ops| - 1];
      NoResetBefore(ops);
      BudgetIsSpent(cfg, rest);
      NoResetCounts(rest);
      RunFollowsHistory(cfg, rest);
    }
  }

  // ---------- The object ----------

  class ReconnectState {
    var attempts: nat
    var exhausted: bool
    var resetPendingCycleSuccess: bool

    ghost function View(): State
      reads this
    {
      State(attempts, exhausted, resetPendingCycleSuccess)
    }

    constructor ()
      ensures View() == START
    {
      attempts, exhausted, resetPendingCycleSuccess := 0, false, false;
    }

    method RegisterFailure(cfg: Settings) returns (reply: Reply)
      modifies this
      ensures (View(), reply) == Step(cfg, old(View()), Failure)
    {
      if exhausted {
        return GiveUp;
      }
      attempts := attempts + 1;
      if attempts > cfg.maxAttempts {
        exhausted := true;
        return GiveUp;
      }
      var delay := DelayMs(cfg, attempts);
      return if delay.Some? then Wait(delay.value) else GiveUp;
    }

    method RegisterReconnectSuccess()
      modifies this
      ensures forall cfg :: View() == Step(cfg, old(View()), ReconnectSuccess).0
    {
      resetPendingCycleSuccess := true;
    }

    method RegisterCycleSuccess()
      modifies this
      ensures forall cfg :: View() == Step(cfg, old(View()), CycleSuccess).0
    {
      if resetPendingCycleSuccess {
        attempts := 0;
        resetPendingCycleSuccess := false;
      }
    }
  }
}
