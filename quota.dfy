/**
 * The simulation quota: a daily allowance plus a rollover pool of unused
 * simulations carried over from earlier days, capped at three days' worth.
 */
module Quota {

  function Max(a: int, b: int): int { if a >= b then a else b }
  function Min(a: int, b: int): int { if a <= b then a else b }

  /** The daily allowance not yet used today, never below zero. */
  function UnusedToday(dailyLimit: int, dailyUsed: int): (u: int)
    ensures u >= 0
    ensures u == 0 <==> dailyUsed >= dailyLimit
    ensures dailyUsed < dailyLimit ==> u == dailyLimit - dailyUsed
  {
    Max(0, dailyLimit - dailyUsed)
  }

  /** `calculateRollover`: the unused part of today's allowance joins the pool, which holds at most three days' worth. */
  function CalculateRollover(dailyLimit: int, dailyUsed: int, currentRollover: int): (r: int)
    ensures r <= 3 * dailyLimit
    ensures dailyUsed >= dailyLimit ==> r == Min(currentRollover, 3 * dailyLimit)
    ensures currentRollover <= 3 * dailyLimit ==>
              currentRollover <= r <= currentRollover + UnusedToday(dailyLimit, dailyUsed)
    ensures r == currentRollover + UnusedToday(dailyLimit, dailyUsed) || r == 3 * dailyLimit
  {
    Min(currentRollover + UnusedToday(dailyLimit, dailyUsed), dailyLimit * 3)
  }

  /** `getAvailableSimulations`: what is left of today's allowance plus the pool. */
  function AvailableSimulations(dailyLimit: int, dailyUsed: int, rollover: int): (n: int)
    ensures n >= rollover
    ensures dailyUsed >= dailyLimit ==> n == rollover
    ensures dailyUsed < dailyLimit ==> n == dailyLimit - dailyUsed + rollover
  {
    UnusedToday(dailyLimit, dailyUsed) + rollover
  }

  /** The record `deductSimulation` returns. */
  datatype Deduction = Deduction(success: bool, newDailyUsed: int, newRollover: int)

  /** `deductSimulation`: take one simulation, from today's allowance while any is left, else from the pool. */
  function DeductSimulation(dailyLimit: int, dailyUsed: int, rollover: int): (d: Deduction)
    ensures !d.success <==> AvailableSimulations(dailyLimit, dailyUsed, rollover) <= 0
    ensures !d.success ==> d.newDailyUsed == dailyUsed && d.newRollover == rollover
    ensures d.success && dailyUsed < dailyLimit ==>
              d.newDailyUsed == dailyUsed + 1 && d.newRollover == rollover
    ensures d.success && dailyUsed >= dailyLimit ==>
              d.newDailyUsed == dailyUsed && d.newRollover == rollover - 1
  {
    var available := AvailableSimulations(dailyLimit, dailyUsed, rollover);
    if available <= 0 then Deduction(false, dailyUsed, rollover)
    else if dailyUsed < dailyLimit then Deduction(true, dailyUsed + 1, rollover)
    else Deduction(true, dailyUsed, rollover - 1)
  }

  /** A successful deduction lowers the number of available simulations by exactly one; a failed one changes nothing. */
  lemma DeductionConsumesOne(dailyLimit: int, dailyUsed: int, rollover: int)
    ensures var d := DeductSimulation(dailyLimit, dailyUsed, rollover);
            AvailableSimulations(dailyLimit, d.newDailyUsed, d.newRollover)
              == AvailableSimulations(dailyLimit, dailyUsed, rollover) - (if d.success then 1 else 0)
  {
  }

  /** The outcome of `n` deductions in a row: how many succeeded, and the final counters. */
  datatype Run = Run(successes: nat, dailyUsed: int, rollover: int)

  function DeductTimes(dailyLimit: int, dailyUsed: int, rollover: int, n: nat): Run
    decreases n
  {
    if n == 0 then Run(0, dailyUsed, rollover)
    else
      var d := DeductSimulation(dailyLimit, dailyUsed, rollover);
      var rest := DeductTimes(dailyLimit, d.newDailyUsed, d.newRollover, n - 1);
      Run(rest.successes + (if d.success then 1 else 0), rest.dailyUsed, rest.rollover)
  }

  /**
   * `n` requests succeed exactly as often as there were simulations available
   * (never more than `n`), and each success uses up one of them.
   */
  lemma {:induction false} DeductTimesCount(dailyLimit: int, dailyUsed: int, rollover: int, n: nat)
    decreases n
    ensures var a := AvailableSimulations(dailyLimit, dailyUsed, rollover);
            var run := DeductTimes(dailyLimit, dailyUsed, rollover, n);
            && run.successes == Min(n, Max(0, a))
            && AvailableSimulations(dailyLimit, run.dailyUsed, run.rollover) == a - run.successes
  {
    if n > 0 {
      var d := DeductSimulation(dailyLimit, dailyUsed, rollover);
      DeductionConsumesOne(dailyLimit, dailyUsed, rollover);
      DeductTimesCount(dailyLimit, d.newDailyUsed, d.newRollover, n - 1);
    }
  }

  /** With the daily allowance spent and two in the pool, two requests succeed and the third fails. */
  lemma TwoFromThePool()
    ensures var first := DeductSimulation(3, 3, 2);
            var second := DeductSimulation(3, first.newDailyUsed, first.newRollover);
            var third := DeductSimulation(3, second.newDailyUsed, second.newRollover);
            first.success && second.success && !third.success
            && third.newDailyUsed == 3 && third.newRollover == 0
  {
  }

  /** Limit 3, one used, eight in the pool: two unused join the pool and the cap of nine applies. */
  lemma RolloverCapExample()
    ensures CalculateRollover(3, 1, 8) == 9
  {
  }
}
