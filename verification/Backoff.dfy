/** Retry arithmetic of the work queue: the int64 backoff delay of `Requeue`, the two-level
    retry budget (`RetryCount` inside `RetryCycle`) that `Requeue` shares with the worker loop,
    and the time an always-failing item takes until its template is paused.

    Durations are nanoseconds. Integers are unbounded here, so the one place where the Go code
    can leave the int64 range, the product of the initial delay and a power of two, wraps
    explicitly through `Wrap64`. */
module Backoff {
  import opened Common

  const INT64_LIMIT: int := 0x8000_0000_0000_0000   // 2^63
  const MAX_SHIFT: nat := 30

  /** Retry configuration of a queue; `maxCycles == 0` means unlimited cycles. */
  datatype Config = Config(maxRetries: int, initialDelay: int, maxDelay: int, maxCycles: int)

  // ---------- int64 arithmetic ----------

  /** Two's complement wrap-around of a 64-bit product. */
  function Wrap64(x: int): (r: int)
    ensures -INT64_LIMIT <= r < INT64_LIMIT
    ensures -INT64_LIMIT <= x < INT64_LIMIT <==> r == x
  {
    (x + INT64_LIMIT) % (2 * INT64_LIMIT) - INT64_LIMIT
  }

  function Pow2(k: nat): (p: nat)
    ensures p >= 1
  {
    if k == 0 then 1 else 2 * Pow2(k - 1)
  }

  function Min(a: int, b: int): int { if a <= b then a else b }

  /** The capped exponent for the attempt that raised RetryCount to `retryCount`. */
  function Shift(retryCount: nat): nat
    requires retryCount >= 1
  {
    if retryCount - 1 > MAX_SHIFT then MAX_SHIFT else retryCount - 1
  }

  /** Backoff delay as `Requeue` computes it, wrap-around included. */
  function Delay(initial: int, max: int, retryCount: nat): int
    requires retryCount >= 1
  {
    var product := Wrap64(initial * Pow2(Shift(retryCount)));
    if product > max then max else product
  }

  /** The delay the design asks for: capped exponential growth over the integers. */
  function IdealDelay(initial: int, max: int, k: nat): int {
    Min(initial * Pow2(if k > MAX_SHIFT then MAX_SHIFT else k), max)
  }

  predicate Fits(x: int) { -INT64_LIMIT <= x < INT64_LIMIT }

  /** Every product that a cycle of `maxRetries` retries computes fits in an int64. */
  ghost predicate NeverOverflows(initial: int, maxRetries: int) {
    forall c: nat | 1 <= c <= maxRetries :: Fits(initial * Pow2(Shift(c)))
  }

  lemma Pow2Monotone(j: nat, k: nat)
    requires j <= k
    ensures Pow2(j) <= Pow2(k)
    decreases k
  {
    if j < k { Pow2Monotone(j, k - 1); }
  }

  lemma ScaleMonotone(x: nat, a: nat, b: nat)
    requires a <= b
    ensures 0 <= x * a <= x * b
  {
  }

  lemma Pow2Thirty()
    ensures Pow2(MAX_SHIFT) == 0x4000_0000
  {
    assert Pow2(10) == 1024;
    Pow2Add(10, 10);
    Pow2Add(20, 10);
  }

  lemma {:induction false} Pow2Add(j: nat, k: nat)
    ensures Pow2(j + k) == Pow2(j) * Pow2(k)
  {
    if k > 0 { Pow2Add(j, k - 1); }
  }

  /** Overflow is decided by the last retry of a cycle alone. */
  lemma NoOverflowIff(initial: int, maxRetries: int)
    ensures NeverOverflows(initial, maxRetries)
            <==> maxRetries < 1 || Fits(initial * Pow2(Shift(maxRetries)))
  {
    if maxRetries >= 1 && Fits(initial * Pow2(Shift(maxRetries))) {
      forall c: nat | 1 <= c <= maxRetries
        ensures Fits(initial * Pow2(Shift(c)))
      {
        Pow2Monotone(Shift(c), Shift(maxRetries));
        FitsBelow(initial, Pow2(Shift(c)), Pow2(Shift(maxRetries)));
      }
    }
  }

  lemma FitsBelow(x: int, a: nat, b: nat)
    requires a <= b && Fits(x * b)
    ensures Fits(x * a)
  {
    if x >= 0 { ScaleMonotone(x, a, b); } else { ScaleMonotone(-x, a, b); }
  }

  /** 2^33 ns, about 8.6 s. */
  const CAP_LIMIT: int := 0x2_0000_0000

  /** The cap of 30 protects every retry count exactly when the initial delay is below 2^33 ns; with
      fewer than 31 retries per cycle a larger delay can still be safe. */
  lemma CapSufficesIff(initial: int)
    ensures (forall maxRetries: nat :: NeverOverflows(initial, maxRetries))
            <==> -CAP_LIMIT <= initial < CAP_LIMIT
  {
    Pow2Thirty();
    if -CAP_LIMIT <= initial < CAP_LIMIT {
      forall maxRetries: nat
        ensures NeverOverflows(initial, maxRetries)
      {
        if maxRetries >= 1 {
          Pow2Monotone(Shift(maxRetries), MAX_SHIFT);
          FitsBelow(initial, Pow2(Shift(maxRetries)), 0x4000_0000);
        }
        NoOverflowIff(initial, maxRetries);
      }
    } else {
      NoOverflowIff(initial, 31);
      assert !NeverOverflows(initial, 31);
    }
  }

  /** Without overflow the computed delay is the ideal one, positive and bounded by the maximum. */
  lemma DelayIsIdeal(initial: nat, max: nat, maxRetries: int, retryCount: nat)
    requires NeverOverflows(initial, maxRetries)
    requires 1 <= retryCount <= maxRetries
    ensures Delay(initial, max, retryCount) == IdealDelay(initial, max, retryCount - 1)
    ensures 0 <= Delay(initial, max, retryCount) <= max
    ensures initial > 0 && max > 0 ==> Delay(initial, max, retryCount) > 0
  {
    assert Fits(initial * Pow2(Shift(retryCount)));
    ScaleMonotone(initial, 1, Pow2(Shift(retryCount)));
  }

  /** Within a cycle the delays never shrink. */
  lemma DelayNonDecreasing(initial: nat, max: nat, maxRetries: int, a: nat, b: nat)
    requires NeverOverflows(initial, maxRetries)
    requires 1 <= a <= b <= maxRetries
    ensures Delay(initial, max, a) <= Delay(initial, max, b)
  {
    DelayIsIdeal(initial, max, maxRetries, a);
    DelayIsIdeal(initial, max, maxRetries, b);
    Pow2Monotone(Shift(a), Shift(b));
    ScaleMonotone(initial, Pow2(Shift(a)), Pow2(Shift(b)));
  }

  /** For any single retry, the delay is the ideal one exactly when the product fits or wraps to
      something the maximum still cuts off. */
  lemma DelayIsIdealIff(initial: nat, max: nat, retryCount: nat)
    requires retryCount >= 1
    requires max < INT64_LIMIT
    ensures Delay(initial, max, retryCount) == IdealDelay(initial, max, retryCount - 1)
            <==> (initial * Pow2(Shift(retryCount)) < INT64_LIMIT
                  || Wrap64(initial * Pow2(Shift(retryCount))) >= max)
  {
    ScaleMonotone(initial, 1, Pow2(Shift(retryCount)));
  }

  /** A duration in nanoseconds; the product with a second wraps like every int64 product. */
  function Seconds(n: int): int { Wrap64(n * SECOND) }

  function Max(a: int, b: int): int { if a >= b then a else b }

  /** The queue configuration for the given settings, all of them clamped from below only. */
  function Configured(retries: int, initialSeconds: int, maxSeconds: int, cycles: int): Config {
    Config(Max(retries, 1), Seconds(Max(initialSeconds, 1)), Seconds(Max(maxSeconds, 60)), Max(cycles, 0))
  }

  /** No number of configured retries overflows if and only if the clamped initial delay, which may
      itself have wrapped, is below 2^33 ns either way; for settings that do not wrap this means at
      most eight seconds. */
  lemma EightSecondsIff(initialSeconds: int, maxSeconds: int, cycles: int)
    ensures (forall retries: nat :: var cfg := Configured(retries, initialSeconds, maxSeconds, cycles);
               NeverOverflows(cfg.initialDelay, cfg.maxRetries))
            <==> -CAP_LIMIT <= Seconds(Max(initialSeconds, 1)) < CAP_LIMIT
    ensures initialSeconds * SECOND < INT64_LIMIT ==>
              (-CAP_LIMIT <= Seconds(Max(initialSeconds, 1)) < CAP_LIMIT <==> initialSeconds <= 8)
  {
    var initial := Seconds(Max(initialSeconds, 1));
    CapSufficesIff(initial);
    if forall maxRetries: nat :: NeverOverflows(initial, maxRetries) {
      forall retries: nat
        ensures NeverOverflows(Configured(retries, initialSeconds, maxSeconds, cycles).initialDelay,
                               Configured(retries, initialSeconds, maxSeconds, cycles).maxRetries)
      {
        assert NeverOverflows(initial, Max(retries, 1));
      }
    } else {
      var retries: nat :| !NeverOverflows(initial, retries);
      assert Configured(retries, initialSeconds, maxSeconds, cycles).maxRetries == retries;
    }
  }

  /** With nine seconds the 31st retry is scheduled in the past. */
  lemma NineSecondsOverflow(maxSeconds: nat, cycles: int)
    requires maxSeconds * SECOND < INT64_LIMIT
    ensures var cfg := Configured(31, 9, maxSeconds, cycles);
            cfg.maxRetries == 31 && Delay(cfg.initialDelay, cfg.maxDelay, 31) < 0
  {
    Pow2Thirty();
  }

  // ---------- the two-level retry budget ----------

  /** RetryCount and RetryCycle of a work item. */
  datatype Budget = Budget(count: nat, cycle: nat)

  datatype Verdict = GiveUp | Retry(next: Budget, delay: int)

  /** What `Requeue` decides for an item that failed with budget `b`. */
  function RequeueVerdict(cfg: Config, b: Budget): Verdict {
    if b.count + 1 > cfg.maxRetries then
      if cfg.maxCycles > 0 && b.cycle >= cfg.maxCycles then GiveUp
      else Retry(Budget(0, b.cycle + 1), cfg.maxDelay)
    else
      Retry(Budget(b.count + 1, b.cycle), Delay(cfg.initialDelay, cfg.maxDelay, b.count + 1))
  }

  /** The worker's own check, made before it would call `Requeue`. */
  predicate WorkerPauses(cfg: Config, b: Budget) {
    cfg.maxCycles > 0 && b.cycle >= cfg.maxCycles
  }

  /** Failures in one cycle: `maxRetries` backoffs and one cooldown. */
  function CycleLength(cfg: Config): (n: nat)
    ensures n >= 1
  {
    if cfg.maxRetries < 0 then 1 else cfg.maxRetries + 1
  }

  /** Budgets that occur on items the queue made itself. */
  predicate Reachable(cfg: Config, b: Budget) {
    && b.count < CycleLength(cfg)
    && (cfg.maxCycles > 0 ==> b.cycle < cfg.maxCycles || (b.cycle == cfg.maxCycles && b.count == 0))
  }

  /** `Requeue` never takes its own give-up branch when the worker asks first, and what it
      produces from a reachable budget is again reachable. */
  lemma WorkerNeverGivesUp(cfg: Config, b: Budget)
    requires !WorkerPauses(cfg, b)
    ensures RequeueVerdict(cfg, b).Retry?
    ensures Reachable(cfg, b) ==> Reachable(cfg, RequeueVerdict(cfg, b).next)
  {
  }

  /** `Requeue` itself drops an item exactly if the worker would pause it and its retries are used up. */
  lemma GivesUpIff(cfg: Config, b: Budget)
    ensures RequeueVerdict(cfg, b).GiveUp? <==> WorkerPauses(cfg, b) && b.count >= cfg.maxRetries
  {
  }

  /** Failures left before the pause, the decreasing measure of the retry loop. */
  function Remaining(cfg: Config, b: Budget): int {
    (cfg.maxCycles - b.cycle) * CycleLength(cfg) - b.count
  }

  /** `b` cycles of length `n` exceed `a < b` cycles by at least one whole cycle. */
  lemma {:induction false} CyclesApart(a: nat, b: nat, n: nat)
    requires a < b
    ensures a * n + n <= b * n
  {
    if b > a + 1 { CyclesApart(a, b - 1, n); }
    assert b * n == (b - 1) * n + n;
  }

  lemma RemainingDecreases(cfg: Config, b: Budget)
    requires Reachable(cfg, b) && cfg.maxCycles > 0 && !WorkerPauses(cfg, b)
    ensures RequeueVerdict(cfg, b).Retry?
    ensures Remaining(cfg, RequeueVerdict(cfg, b).next) == Remaining(cfg, b) - 1
    ensures Remaining(cfg, b) >= 1
  {
    CyclesApart(0, cfg.maxCycles - b.cycle, CycleLength(cfg));
    var n := CycleLength(cfg);
    assert (cfg.maxCycles - b.cycle) * n == (cfg.maxCycles - (b.cycle + 1)) * n + n;
  }

  /** Position of a budget in the sequence of requeues of an item that started fresh. */
  function Spent(cfg: Config, b: Budget): nat {
    b.cycle * CycleLength(cfg) + b.count
  }

  /** Budget after `k` requeues of a fresh item by a worker that never pauses it. */
  function AfterRequeues(cfg: Config, k: nat): Budget {
    if k == 0 then Budget(0, 0)
    else
      var b := AfterRequeues(cfg, k - 1);
      var verdict := RequeueVerdict(cfg, b);
      if verdict.Retry? then verdict.next else b
  }

  lemma SpentStep(cfg: Config, b: Budget)
    requires Reachable(cfg, b) && RequeueVerdict(cfg, b).Retry?
    ensures Spent(cfg, RequeueVerdict(cfg, b).next) == Spent(cfg, b) + 1
  {
    var n := CycleLength(cfg);
    assert (b.cycle + 1) * n == b.cycle * n + n;
  }

  lemma PausesWhenSpent(cfg: Config, b: Budget)
    requires Reachable(cfg, b)
    ensures cfg.maxCycles > 0 ==> (WorkerPauses(cfg, b) <==> Spent(cfg, b) == cfg.maxCycles * CycleLength(cfg))
  {
    if cfg.maxCycles > 0 && b.cycle < cfg.maxCycles {
      CyclesApart(b.cycle, cfg.maxCycles, CycleLength(cfg));
    }
  }

  /** Up to the end of the budget, `k` requeues reach exactly the budget at position `k`. */
  lemma {:induction false} AfterRequeuesSpent(cfg: Config, k: nat)
    requires cfg.maxCycles <= 0 || k <= cfg.maxCycles * CycleLength(cfg)
    ensures Reachable(cfg, AfterRequeues(cfg, k))
    ensures Spent(cfg, AfterRequeues(cfg, k)) == k
    ensures cfg.maxCycles > 0 ==>
              (WorkerPauses(cfg, AfterRequeues(cfg, k)) <==> k == cfg.maxCycles * CycleLength(cfg))
  {
    if k == 0 {
      PausesWhenSpent(cfg, Budget(0, 0));
    } else {
      AfterRequeuesSpent(cfg, k - 1);
      var b := AfterRequeues(cfg, k - 1);
      WorkerNeverGivesUp(cfg, b);
      SpentStep(cfg, b);
      PausesWhenSpent(cfg, AfterRequeues(cfg, k));
    }
  }

  /** Exact budget: after `k` failures that were all requeued, the worker pauses on the next failure
      if and only if `k` is the whole budget, so failure `maxCycles * CycleLength + 1` and no other
      leaves the retry loop; until then `Requeue` never gives up by itself. */
  lemma PausesExactly(cfg: Config, k: nat)
    requires cfg.maxCycles > 0 && k <= cfg.maxCycles * CycleLength(cfg)
    ensures WorkerPauses(cfg, AfterRequeues(cfg, k)) <==> k == cfg.maxCycles * CycleLength(cfg)
    ensures k < cfg.maxCycles * CycleLength(cfg) ==> RequeueVerdict(cfg, AfterRequeues(cfg, k)).Retry?
  {
    AfterRequeuesSpent(cfg, k);
  }

  /** With `maxCycles == 0` no number of failures ever pauses the template. */
  lemma UnlimitedNeverPauses(cfg: Config, k: nat)
    requires cfg.maxCycles <= 0
    ensures !WorkerPauses(cfg, AfterRequeues(cfg, k))
    ensures RequeueVerdict(cfg, AfterRequeues(cfg, k)).Retry?
    ensures Spent(cfg, AfterRequeues(cfg, k)) == k
  {
    AfterRequeuesSpent(cfg, k);
  }

  /** The settings in their own terms: a template whose attempts all fail is paused after
      cycles * (retries + 1) requeues, and not before; with zero or negative cycles never. Each wait lasts
      at most the maximal delay, the wait between two cycles exactly that long, and the first wait of a
      cycle the initial delay. */
  lemma SettingsMean(retries: int, initialSeconds: int, maxSeconds: int, cycles: int, k: nat)
    requires 1 <= retries && 60 <= maxSeconds && maxSeconds * SECOND < INT64_LIMIT
    requires cycles <= 0 || k <= cycles * (retries + 1)
    ensures var cfg := Configured(retries, initialSeconds, maxSeconds, cycles);
            var b := AfterRequeues(cfg, k);
            && (WorkerPauses(cfg, b) <==> cycles > 0 && k == cycles * (retries + 1))
            && (!WorkerPauses(cfg, b) ==>
                  && RequeueVerdict(cfg, b).Retry? && RequeueVerdict(cfg, b).delay <= maxSeconds * SECOND
                  && (b.count == retries ==> RequeueVerdict(cfg, b).delay == maxSeconds * SECOND)
                  && (b.count == 0 && 1 <= initialSeconds <= maxSeconds ==>
                        RequeueVerdict(cfg, b).delay == initialSeconds * SECOND))
  {
    var cfg := Configured(retries, initialSeconds, maxSeconds, cycles);
    AfterRequeuesSpent(cfg, k);
    if !WorkerPauses(cfg, AfterRequeues(cfg, k)) { WorkerNeverGivesUp(cfg, AfterRequeues(cfg, k)); }
  }

  /** Settings below their minimum count as the minimum: one retry, one second, a minute, no limit. */
  lemma SettingsClamped(retries: int, initialSeconds: int, maxSeconds: int, cycles: int)
    ensures retries < 1 ==>
              Configured(retries, initialSeconds, maxSeconds, cycles)
              == Configured(1, initialSeconds, maxSeconds, cycles)
    ensures initialSeconds < 1 ==>
              Configured(retries, initialSeconds, maxSeconds, cycles)
              == Configured(retries, 1, maxSeconds, cycles)
    ensures maxSeconds < 60 ==>
              Configured(retries, initialSeconds, maxSeconds, cycles)
              == Configured(retries, initialSeconds, 60, cycles)
    ensures cycles < 0 ==>
              Configured(retries, initialSeconds, maxSeconds, cycles)
              == Configured(retries, initialSeconds, maxSeconds, 0)
  {
  }

  // ---------- total time until the pause ----------

  /** Sum of the ideal delays of the first `n` backoffs of a cycle. */
  function BackoffSum(cfg: Config, n: nat): int {
    if n == 0 then 0
    else BackoffSum(cfg, n - 1) + IdealDelay(cfg.initialDelay, cfg.maxDelay, n - 1)
  }

  lemma {:induction false} BackoffSumBounds(cfg: Config, n: nat)
    requires cfg.initialDelay >= 0 && cfg.maxDelay >= 0
    ensures 0 <= BackoffSum(cfg, n) <= n * cfg.maxDelay
  {
    if n > 0 {
      BackoffSumBounds(cfg, n - 1);
      ScaleMonotone(cfg.initialDelay, 1, Pow2(if n - 1 > MAX_SHIFT then MAX_SHIFT else n - 1));
      OneMoreCycle(n - 1, cfg.maxDelay);
    }
  }

  /** Delays of one full cycle: all backoffs and the cooldown. */
  function CycleTime(cfg: Config): int {
    BackoffSum(cfg, CycleLength(cfg) - 1) + cfg.maxDelay
  }

  /** Delay accumulated after the requeues that lead to budget `b`. */
  function Elapsed(cfg: Config, b: Budget): int {
    b.cycle * CycleTime(cfg) + BackoffSum(cfg, b.count)
  }

  lemma OneMoreCycle(cycles: nat, time: int)
    ensures (cycles + 1) * time == cycles * time + time
  {
  }

  lemma ElapsedStep(cfg: Config, b: Budget)
    requires Reachable(cfg, b) && !WorkerPauses(cfg, b)
    requires cfg.initialDelay >= 0 && cfg.maxDelay >= 0
    requires NeverOverflows(cfg.initialDelay, cfg.maxRetries)
    ensures RequeueVerdict(cfg, b).Retry?
    ensures Elapsed(cfg, RequeueVerdict(cfg, b).next) == Elapsed(cfg, b) + RequeueVerdict(cfg, b).delay
  {
    if b.count + 1 > cfg.maxRetries {
      assert b.count == CycleLength(cfg) - 1;
      OneMoreCycle(b.cycle, CycleTime(cfg));
    } else {
      DelayIsIdeal(cfg.initialDelay, cfg.maxDelay, cfg.maxRetries, b.count + 1);
    }
  }

  /** The worker loop on an item whose every attempt fails: dequeue, fail, and either requeue or
      pause. `attempts` counts the failures including the pausing one, `waited` sums the delays. */
  method RunUntilPaused(cfg: Config) returns (attempts: nat, waited: int)
    requires cfg.maxCycles > 0
    requires cfg.initialDelay >= 0 && cfg.maxDelay >= 0
    requires NeverOverflows(cfg.initialDelay, cfg.maxRetries)
    ensures attempts == cfg.maxCycles * CycleLength(cfg) + 1
    ensures waited == cfg.maxCycles * CycleTime(cfg)
    ensures cfg.maxCycles * cfg.maxDelay <= waited <= cfg.maxCycles * (CycleLength(cfg) * cfg.maxDelay)
  {
    var item := Budget(0, 0);
    attempts, waited := 1, 0;
    while !WorkerPauses(cfg, item)
      invariant Reachable(cfg, item)
      invariant attempts + Remaining(cfg, item) == cfg.maxCycles * CycleLength(cfg) + 1
      invariant waited == Elapsed(cfg, item)
      decreases Remaining(cfg, item)
    {
      RemainingDecreases(cfg, item);
      ElapsedStep(cfg, item);
      var verdict := RequeueVerdict(cfg, item);
      item := verdict.next;
      waited := waited + verdict.delay;
      attempts := attempts + 1;
    }
    assert item == Budget(0, cfg.maxCycles);
    TotalTimeBounds(cfg);
  }

  lemma CycleTimeBounds(cfg: Config)
    requires cfg.initialDelay >= 0 && cfg.maxDelay >= 0
    ensures 0 <= cfg.maxDelay <= CycleTime(cfg) <= CycleLength(cfg) * cfg.maxDelay
  {
    var n := CycleLength(cfg);
    BackoffSumBounds(cfg, n - 1);
    OneMoreCycle(n - 1, cfg.maxDelay);
  }

  lemma TotalTimeBounds(cfg: Config)
    requires cfg.maxCycles >= 0 && cfg.initialDelay >= 0 && cfg.maxDelay >= 0
    ensures cfg.maxCycles * cfg.maxDelay <= cfg.maxCycles * CycleTime(cfg)
            <= cfg.maxCycles * (CycleLength(cfg) * cfg.maxDelay)
  {
    CycleTimeBounds(cfg);
    var most := CycleLength(cfg) * cfg.maxDelay;
    ScaleMonotone(cfg.maxCycles, cfg.maxDelay, CycleTime(cfg));
    ScaleMonotone(cfg.maxCycles, CycleTime(cfg), most);
  }
}
