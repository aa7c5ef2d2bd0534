/** The loops of `main` in go/main.go, proved against the specification in
    module GoHarness: reading one object while metering it, and the
    uncapped loop over the objects of the run. */
module GoRun {
  import opened Common
  import opened Windows
  import opened Budget
  import opened GoHarness

  /** One data Read of the inner `for` loop: count its bytes into the
      meter. */
  method DrainStep(calls: seq<Read>, k: nat, gap: nat -> nat, tick0: nat, now0: nat,
                   m0: Meter, ghost l0: Ledger, ghost received: seq<nat>)
    returns (tick: nat, now: nat, m: Meter, ghost l: Ledger)
    requires k < |calls| && calls[k].status == Data
    requires now0 == Time(gap, tick0) && m0.windowStart <= now0
    requires l0.received == received + Counts(calls[..k]) && Accounted(m0, l0)
    ensures tick0 <= tick && now0 <= now && now == Time(gap, tick) && m.windowStart <= now
    ensures Tally(tick, m) == CountStep(gap, Tally(tick0, m0), calls[k].count)
    ensures l.received == received + Counts(calls[..k + 1])
    ensures Accounted(m, l) && l0.starts <= l.starts
  {
    CountsSnoc(calls, k);
    tick, now, m, l := CountChunk(calls[k].count, gap, tick0, now0, m0, l0);
    assert l.received == received + Counts(calls[..k + 1]) by {
      assert l.received == l0.received + [calls[k].count];
    }
  }

  /** The inner `for` loop: call Read until it returns `io.EOF` (whose byte
      count is dropped) or another error (which ends the process), counting
      the bytes of each data Read. Past the end of `calls` Read keeps
      answering `io.EOF`. */
  method Drain(calls: seq<Read>, gap: nat -> nat, tick0: nat, now0: nat, m0: Meter, ghost l0: Ledger)
    returns (k: nat, tick: nat, now: nat, m: Meter, ghost l: Ledger)
    requires now0 == Time(gap, tick0) && m0.windowStart <= now0 && Accounted(m0, l0)
    ensures k == FirstStop(calls)
    ensures tick0 <= tick && now0 <= now && now == Time(gap, tick) && m.windowStart <= now
    ensures Tally(tick, m) == DrainTally(gap, Tally(tick0, m0), calls)
    ensures l.received == l0.received + Counts(calls[..k])
    ensures Accounted(m, l) && l0.starts <= l.starts
  {
    k, tick, now, m, l := 0, tick0, now0, m0, l0;
    while k < |calls| && calls[k].status == Data
      invariant k <= FirstStop(calls)
      invariant tick0 <= tick && now0 <= now && now == Time(gap, tick) && m.windowStart <= now
      invariant DrainTally(gap, Tally(tick, m), calls[k..]) == DrainTally(gap, Tally(tick0, m0), calls)
      invariant l.received == l0.received + Counts(calls[..k])
      invariant Accounted(m, l) && l0.starts <= l.starts
    {
      assert calls[k..][1..] == calls[k + 1..];
      tick, now, m, l := DrainStep(calls, k, gap, tick, now, m, l, l0.received);
      k := k + 1;
    }
  }

  /** The reading half of the closure of pass n, once `Name(n, offset)` is
      open and its fetch counted: read the object through. A read error
      ends the run, with the report as the process leaves it. */
  method ReadThrough(reader: string -> OpenOutcome<Read>, gap: nat -> nat, offset: nat, n: nat,
                     m0: Meter, ghost l0: Ledger, stats: FetchStats, ghost openTicks: seq<nat>,
                     ghost budgetTicks: seq<nat>, tick0: nat, now0: nat)
    returns (stop: Option<Report>, m: Meter, ghost l: Ledger, tick: nat, now: nat)
    requires reader(Name(n, offset)).Opened?
    requires CleanPrefix(reader, offset, n) && Metering(reader, gap, offset, n, m0, l0)
    requires |budgetTicks| == n && WithinBudget(gap, budgetTicks) && Ascending(budgetTicks + [tick0])
    requires Timed(gap, stats, openTicks) && |openTicks| == n + 1
    requires now0 == Time(gap, tick0) && m0.windowStart <= now0
    ensures tick0 <= tick
    ensures Tally(tick, m) == DrainTally(gap, Tally(tick0, m0), reader(Name(n, offset)).items)
    ensures stop.Some? <==> Broken(reader(Name(n, offset)).items)
    ensures stop.Some? ==> stop.value == Report(ReadFailed, n + 1, m, stats, None)
    ensures stop.Some? ==> Completed(reader, gap, offset, stop.value, l, openTicks, budgetTicks)
    ensures stop.None? ==>
              Clean(reader, Name(n, offset)) && Metering(reader, gap, offset, n + 1, m, l)
              && now == Time(gap, tick) && m.windowStart <= now
  {
    var calls := reader(Name(n, offset)).items;
    var k: nat;
    k, tick, now, m, l := Drain(calls, gap, tick0, now0, m0, l0);
    assert l.received == Received(reader, offset, n + 1);
    if k < |calls| && calls[k].status == ReadError {
      StopOnRead(reader, gap, offset, n, m, l, stats, openTicks, budgetTicks, tick0);
      stop := Some(Report(ReadFailed, n + 1, m, stats, None));
    } else {
      stop := None;
    }
  }

  /** After a successful open: `totalFetchTime += time.Since(openStart)`
      and `totalFetchCount++`. `openTick` is the number of the reading
      `openStart` came from, the reading just before this one. */
  method CountFetch(gap: nat -> nat, openStart: nat, ghost openTick: nat, stats0: FetchStats,
                    ghost openTicks0: seq<nat>, tick0: nat, now0: nat)
    returns (stats: FetchStats, ghost openTicks: seq<nat>, tick: nat, now: nat)
    requires openStart == Time(gap, openTick) && tick0 == openTick + 1 && now0 == Time(gap, tick0)
    requires Timed(gap, stats0, openTicks0)
    requires openTicks0 != [] ==> openTicks0[|openTicks0| - 1] < openTick
    ensures stats == FetchStats(stats0.totalTime + gap(openTick), stats0.count + 1)
    ensures openTicks == openTicks0 + [openTick] && Timed(gap, stats, openTicks)
    ensures tick == tick0 + 1 && now == Time(gap, tick)
  {
    var sinceOpen;  // time.Since(openStart)
    sinceOpen, tick, now := ReadClock(gap, tick0, now0);
    assert sinceOpen - openStart == gap(openTick);
    TimedAdd(gap, stats0, openTicks0, openTick);
    stats := FetchStats(stats0.totalTime + (sinceOpen - openStart), stats0.count + 1);
    openTicks := openTicks0 + [openTick];
  }

  /** The rest of the closure of pass n once `Name(n, offset)` is open:
      count the fetch whose open started at reading `openTick`, then read
      the object. */
  method FetchAndRead(reader: string -> OpenOutcome<Read>, gap: nat -> nat, offset: nat, n: nat,
                      m0: Meter, ghost l0: Ledger, stats0: FetchStats, ghost openTicks0: seq<nat>,
                      ghost budgetTicks: seq<nat>, openStart: nat, ghost openTick: nat, tick0: nat, now0: nat)
    returns (stop: Option<Report>, m: Meter, ghost l: Ledger, stats: FetchStats, ghost openTicks: seq<nat>,
             tick: nat, now: nat)
    requires reader(Name(n, offset)).Opened?
    requires CleanPrefix(reader, offset, n) && Metering(reader, gap, offset, n, m0, l0)
    requires |budgetTicks| == n && WithinBudget(gap, budgetTicks) && Ascending(budgetTicks + [openTick])
    requires Timed(gap, stats0, openTicks0) && |openTicks0| == n
    requires openTicks0 != [] ==> openTicks0[|openTicks0| - 1] < openTick
    requires openStart == Time(gap, openTick) && tick0 == openTick + 1 && now0 == Time(gap, tick0)
    requires m0.windowStart <= openStart
    ensures stats == FetchStats(stats0.totalTime + gap(openTick), stats0.count + 1)
    ensures openTicks == openTicks0 + [openTick]
    ensures Tally(tick, m) == DrainTally(gap, Tally(openTick + 2, m0), reader(Name(n, offset)).items)
    ensures stop.Some? <==> Broken(reader(Name(n, offset)).items)
    ensures stop.Some? ==> stop.value == Report(ReadFailed, n + 1, m, stats, None)
    ensures stop.Some? ==> Completed(reader, gap, offset, stop.value, l, openTicks, budgetTicks)
    ensures stop.None? ==>
              Clean(reader, Name(n, offset)) && Metering(reader, gap, offset, n + 1, m, l)
              && Timed(gap, stats, openTicks) && |openTicks| == n + 1 && openTicks[n] < tick
              && openTick < tick && now == Time(gap, tick) && m.windowStart <= now
  {
    stats, openTicks, tick, now := CountFetch(gap, openStart, openTick, stats0, openTicks0, tick0, now0);
    TimeMonotone(gap, openTick, tick);
    ghost var countedAt := tick;
    AscendingLater(budgetTicks, openTick, tick);
    stop, m, l, tick, now := ReadThrough(reader, gap, offset, n, m0, l0, stats, openTicks, budgetTicks, tick, now);
    assert openTick < countedAt <= tick;
  }

  /** The closure of pass n: time the open of `Name(n, offset)`, count the
      fetch, and read the object. An open error or a read error ends the
      run, with the report as the process leaves it. */
  method Visit(reader: string -> OpenOutcome<Read>, gap: nat -> nat, offset: nat, n: nat,
               m0: Meter, ghost l0: Ledger, stats0: FetchStats, ghost openTicks0: seq<nat>,
               ghost budgetTicks: seq<nat>, tick0: nat, now0: nat)
    returns (stop: Option<Report>, m: Meter, ghost l: Ledger, stats: FetchStats, ghost openTicks: seq<nat>,
             tick: nat, now: nat)
    requires Running(reader, gap, offset, n, m0, l0, stats0, openTicks0, budgetTicks, tick0, now0)
    requires exists t :: TestDuration < Time(gap, t)
    requires tick0 <= Deadline(gap) + 1
    ensures stop.Some? ==> Completed(reader, gap, offset, stop.value, l, openTicks, budgetTicks)
    ensures stop.Some? ==>
              Finish(stop.value, openTicks, budgetTicks)
              == RunFrom(reader, gap, offset, n, tick0, m0, stats0, openTicks0, budgetTicks)
    ensures stop.None? ==>
              Clean(reader, Name(n, offset)) && Metering(reader, gap, offset, n + 1, m, l)
              && Timed(gap, stats, openTicks) && |openTicks| == n + 1 && openTicks[n] < tick
              && tick0 < tick && now == Time(gap, tick) && m.windowStart <= now
    ensures stop.None? ==>
              stats == FetchStats(stats0.totalTime + gap(tick0), stats0.count + 1)
              && openTicks == openTicks0 + [tick0]
              && RunFrom(reader, gap, offset, n, tick0, m0, stats0, openTicks0, budgetTicks)
                 == CheckFrom(reader, gap, offset, n, Tally(tick, m), stats, openTicks, budgetTicks)
  {
    var filename := Name(n, offset);
    var openStart;  // time.Now()
    openStart, tick, now := ReadClock(gap, tick0, now0);
    if reader(filename).OpenError? {
      StopOnOpen(reader, gap, offset, n, m0, l0, stats0, openTicks0, budgetTicks, tick0);
      RunFromOpenFailed(reader, gap, offset, n, tick0, m0, stats0, openTicks0, budgetTicks);
      return Some(Report(OpenFailed, n, m0, stats0, None)), m0, l0, stats0, openTicks0, tick, now;
    }
    stop, m, l, stats, openTicks, tick, now :=
      FetchAndRead(reader, gap, offset, n, m0, l0, stats0, openTicks0, budgetTicks, openStart, tick0, tick, now);
    RunFromOpened(reader, gap, offset, n, tick0, m0, stats0, openTicks0, budgetTicks, tick, m, stats, openTicks);
  }

  /** What one pass of the loop decided. */
  datatype Step = Continue | Stop(report: Report)

  /** The end of pass n, after `Name(n, offset)` was read cleanly: check the
      time budget with the next clock reading, reading `tick0`. The loop
      breaks exactly when that reading exceeds the test duration, and the
      summary follows: the average fetch time, then one more reading for the
      elapsed time. The run started at reading 0, so a reading is also the
      elapsed time. */
  method CheckBudget(reader: string -> OpenOutcome<Read>, gap: nat -> nat, offset: nat, n: nat,
                     m: Meter, ghost l: Ledger, stats: FetchStats, ghost openTicks: seq<nat>,
                     ghost budgetTicks0: seq<nat>, tick0: nat, now0: nat)
    returns (step: Step, ghost budgetTicks: seq<nat>, tick: nat, now: nat)
    requires CleanPrefix(reader, offset, n)
    requires |budgetTicks0| == n && WithinBudget(gap, budgetTicks0) && Ascending(budgetTicks0 + [tick0])
    requires Clean(reader, Name(n, offset)) && Metering(reader, gap, offset, n + 1, m, l)
    requires Timed(gap, stats, openTicks) && |openTicks| == n + 1 && openTicks[n] < tick0
    requires now0 == Time(gap, tick0) && m.windowStart <= now0
    ensures budgetTicks == budgetTicks0 + [tick0]
    ensures step.Stop? <==> Time(gap, tick0) > TestDuration
    ensures step.Stop? ==>
              stats.count >= 1
              && step.report == Report(BudgetSpent, n + 1, m, stats,
                                       Some(Summary(AverageFetch(stats), Time(gap, tick0 + 1))))
    ensures step.Continue? ==>
              tick == tick0 + 1 && Running(reader, gap, offset, n + 1, m, l, stats, openTicks, budgetTicks, tick, now)
    ensures step.Stop? ==> Completed(reader, gap, offset, step.report, l, openTicks, budgetTicks)
  {
    var reading;  // time.Since(start)
    reading, tick, now := ReadClock(gap, tick0, now0);
    budgetTicks := budgetTicks0 + [tick0];
    if reading > TestDuration {
      var average := stats.totalTime / stats.count;
      var elapsed;  // time.Since(start) in the last line
      elapsed, tick, now := ReadClock(gap, tick, now);
      StopOnBudget(reader, gap, offset, n, m, l, stats, openTicks, budgetTicks0, tick0, elapsed);
      return Stop(Report(BudgetSpent, n + 1, m, stats, Some(Summary(average, elapsed)))), budgetTicks, tick, now;
    }
    KeepRunning(reader, gap, offset, n, m, l, stats, openTicks, budgetTicks0, tick0, tick, now);
    step := Continue;
  }

  /** Pass n of the loop: the closure that opens and reads `Name(n, offset)`,
      then the budget check. A pass that stops the run returns the final
      report; one that does not returns the number of the next pass, before
      the deadline. Either way the run goes on to the end `fin` the run from
      pass n has. */
  method Iterate(reader: string -> OpenOutcome<Read>, gap: nat -> nat, offset: nat, n: nat,
                 m0: Meter, ghost l0: Ledger, stats0: FetchStats, ghost openTicks0: seq<nat>,
                 ghost budgetTicks0: seq<nat>, tick0: nat, now0: nat, ghost fin: Finish)
    returns (next: nat, step: Step, m: Meter, ghost l: Ledger, stats: FetchStats, ghost openTicks: seq<nat>,
             ghost budgetTicks: seq<nat>, tick: nat, now: nat)
    requires Running(reader, gap, offset, n, m0, l0, stats0, openTicks0, budgetTicks0, tick0, now0)
    requires exists t :: TestDuration < Time(gap, t)
    requires tick0 <= Deadline(gap) + 1
    requires RunFrom(reader, gap, offset, n, tick0, m0, stats0, openTicks0, budgetTicks0) == fin
    ensures next == n + 1
    ensures step.Continue? ==>
              Running(reader, gap, offset, next, m, l, stats, openTicks, budgetTicks, tick, now)
              && tick0 < tick <= Deadline(gap) + 1
    ensures step.Continue? ==> RunFrom(reader, gap, offset, next, tick, m, stats, openTicks, budgetTicks) == fin
    ensures step.Stop? ==> Completed(reader, gap, offset, step.report, l, openTicks, budgetTicks)
    ensures step.Stop? ==> Finish(step.report, openTicks, budgetTicks) == fin
  {
    next := n + 1;
    var stop;
    stop, m, l, stats, openTicks, tick, now := Visit(reader, gap, offset, n, m0, l0, stats0, openTicks0,
                                                     budgetTicks0, tick0, now0);
    if stop.Some? {
      return next, Stop(stop.value), m, l, stats, openTicks, budgetTicks0, tick, now;
    }
    AscendingLater(budgetTicks0, tick0, tick);
    ghost var checkTick := tick;
    step, budgetTicks, tick, now := CheckBudget(reader, gap, offset, n, m, l, stats, openTicks, budgetTicks0, tick, now);
    if step.Stop? {
      CheckFromStops(reader, gap, offset, n, checkTick, m, stats, openTicks, budgetTicks0);
    } else {
      CheckFromContinues(reader, gap, offset, n, checkTick, m, stats, openTicks, budgetTicks0, next, tick, budgetTicks);
    }
  }

  /** The benchmark run of `main`, after the store has been resolved and the
      offset parsed: two clock readings (the start and the first window
      start), then passes of the loop until the budget check says stop or an
      error ends the process. The loop has no cap, so it ends only because
      the clock eventually passes the test duration. The ghost results are
      the ledger of the meter, the clock readings taken before each open and
      those taken by the budget checks. */
  method Run(reader: string -> OpenOutcome<Read>, gap: nat -> nat, offset: nat)
    returns (r: Report, ghost l: Ledger, ghost openTicks: seq<nat>, ghost budgetTicks: seq<nat>)
    requires offset < U64
    requires exists t :: TestDuration < Time(gap, t)
    ensures Finish(r, openTicks, budgetTicks) == RunSpec(reader, gap, offset)
    ensures Reported(reader, offset, r)
    ensures Completed(reader, gap, offset, r, l, openTicks, budgetTicks)
  {
    var start, windowStart, tick, now;
    start, tick, now := ReadClock(gap, 0, 0);              // time.Now(), reading 0
    windowStart, tick, now := ReadClock(gap, tick, now);  // time.Now()
    var meter := Meter(0, 0, windowStart, []);
    var stats := FetchStats(0, 0);
    l, openTicks, budgetTicks := Ledger([], [], [], [windowStart]), [], [];
    StartRunning(reader, gap, offset, windowStart, tick, now);
    ghost var fin := RunSpec(reader, gap, offset);

    var i: nat := 0;
    var step := Continue;
    while step.Continue?
      invariant step.Continue? ==>
                  Running(reader, gap, offset, i, meter, l, stats, openTicks, budgetTicks, tick, now)
                  && tick <= Deadline(gap) + 1
                  && RunFrom(reader, gap, offset, i, tick, meter, stats, openTicks, budgetTicks) == fin
      invariant step.Stop? ==>
                  Completed(reader, gap, offset, step.report, l, openTicks, budgetTicks)
                  && Finish(step.report, openTicks, budgetTicks) == fin
      decreases if step.Continue? then Deadline(gap) + 2 - tick else 0
    {
      i, step, meter, l, stats, openTicks, budgetTicks, tick, now :=
        Iterate(reader, gap, offset, i, meter, l, stats, openTicks, budgetTicks, tick, now, fin);
    }
    r := step.report;
  }
}
