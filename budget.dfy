/** The time budget both harnesses check after each object they read
    cleanly: the run stops at the first check whose clock reading shows
    more than 120 seconds since the start. */
module Budget {
  import opened Common

  const TestDuration: nat := 120_000_000_000  // 120 s, in nanoseconds

  /** The last budget check so far saw at most the test duration (and
      with it every earlier one, as lemma BudgetChecks shows). */
  ghost predicate WithinBudget(gap: nat -> nat, budgetTicks: seq<nat>)
  {
    budgetTicks != [] ==> Time(gap, budgetTicks[|budgetTicks| - 1]) <= TestDuration
  }

  /** `checks` budget checks were made, by the clock readings `budgetTicks`
      taken in that order, and the run stopped at the first check that saw
      more than the test duration: the last check saw more than it exactly
      when the run ended on the budget (`spent`), and the one before saw at
      most it. */
  ghost predicate BudgetKept(gap: nat -> nat, budgetTicks: seq<nat>, checks: nat, spent: bool)
  {
    && |budgetTicks| == checks
    && Ascending(budgetTicks)
    && (budgetTicks != [] ==>
          (Time(gap, budgetTicks[|budgetTicks| - 1]) > TestDuration <==> spent))
    && (spent ==>
          |budgetTicks| > 0 && (|budgetTicks| > 1 ==> Time(gap, budgetTicks[|budgetTicks| - 2]) <= TestDuration))
  }

  /** In a run that kept its budget, a check saw more than the test
      duration exactly when it was the last one of a run that ended on the
      budget. */
  lemma BudgetChecks(gap: nat -> nat, budgetTicks: seq<nat>, checks: nat, spent: bool)
    requires BudgetKept(gap, budgetTicks, checks, spent)
    ensures forall j :: 0 <= j < |budgetTicks| ==>
              (Time(gap, budgetTicks[j]) > TestDuration <==> spent && j == |budgetTicks| - 1)
  {
    var n := |budgetTicks|;
    if spent && n > 1 {
      AscendingBounded(gap, budgetTicks, n - 2, TestDuration);
    } else if !spent && n > 0 {
      AscendingBounded(gap, budgetTicks, n - 1, TestDuration);
    }
  }

  /** A run that ended on a budget check whose reading `checkTick`, taken
      after the earlier ones, saw more than the test duration kept the
      budget. */
  lemma BudgetSpentKept(gap: nat -> nat, budgetTicks: seq<nat>, checkTick: nat)
    requires WithinBudget(gap, budgetTicks) && Ascending(budgetTicks + [checkTick])
    requires TestDuration < Time(gap, checkTick)
    ensures BudgetKept(gap, budgetTicks + [checkTick], |budgetTicks| + 1, true)
  {
    var ticks := budgetTicks + [checkTick];
    assert ticks[|ticks| - 1] == checkTick;
    if budgetTicks != [] {
      assert ticks[|ticks| - 2] == budgetTicks[|budgetTicks| - 1];
    }
  }

  /** A run that ended otherwise than on the budget, after checks that
      all passed and were taken before some later reading `tick`, kept the
      budget. */
  lemma BudgetHeld(gap: nat -> nat, budgetTicks: seq<nat>, tick: nat)
    requires WithinBudget(gap, budgetTicks) && Ascending(budgetTicks + [tick])
    ensures BudgetKept(gap, budgetTicks, |budgetTicks|, false)
  {
    AscendingInit(budgetTicks, tick);
  }
}
