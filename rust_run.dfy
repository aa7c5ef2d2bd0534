/** The loops of `main` in src/main.rs, proved against the specification in
    module RustHarness: draining one object stream while metering it, and
    the for loop over the objects of the run. */
module RustRun {
  import opened Common
  import opened Windows
  import opened Budget
  import opened RustHarness

  /** One chunk of the `while let` loop: count its bytes into the meter. */
  method DrainStep(items: seq<Item>, k: nat, gap: nat -> nat, tick0: nat, now0: nat,
                   m0: Meter, ghost l0: Ledger, ghost received: seq<nat>)
    returns (tick: nat, now: nat, m: Meter, ghost l: Ledger)
    requires k < |items| && items[k].Chunk?
    requires now0 == Time(gap, tick0) && m0.windowStart <= now0
    requires l0.received == received + Lengths(items[..k]) && Accounted(m0, l0)
    ensures tick0 <= tick && now0 <= now && now == Time(gap, tick) && m.windowStart <= now
    ensures Tally(tick, m) == CountStep(gap, Tally(tick0, m0), items[k].len)
    ensures l.received == received + Lengths(items[..k + 1])
    ensures Accounted(m, l) && l0.starts <= l.starts
  {
    LengthsSnoc(items, k);
    tick, now, m, l := CountChunk(items[k].len, gap, tick0, now0, m0, l0);
    assert l.received == received + Lengths(items[..k + 1]) by {
      assert l.received == l0.received + [Size(items[k])];
    }
  }

  /** The `while let Some(item) = reader.try_next().await?` loop: pull items
      until the stream ends or yields an error, counting each chunk. */
  method Drain(items: seq<Item>, gap: nat -> nat, tick0: nat, now0: nat, m0: Meter, ghost l0: Ledger)
    returns (k: nat, tick: nat, now: nat, m: Meter, ghost l: Ledger)
    requires now0 == Time(gap, tick0) && m0.windowStart <= now0 && Accounted(m0, l0)
    ensures k == FirstError(items)
    ensures tick0 <= tick && now0 <= now && now == Time(gap, tick) && m.windowStart <= now
    ensures Tally(tick, m) == DrainTally(gap, Tally(tick0, m0), items)
    ensures l.received == l0.received + Lengths(items[..k])
    ensures Accounted(m, l) && l0.starts <= l.starts
  {
    k, tick, now, m, l := 0, tick0, now0, m0, l0;
    while k < |items| && items[k].Chunk?
      invariant k <= FirstError(items)
      invariant tick0 <= tick && now0 <= now && now == Time(gap, tick) && m.windowStart <= now
      invariant DrainTally(gap, Tally(tick, m), items[k..]) == DrainTally(gap, Tally(tick0, m0), items)
      invariant l.received == l0.received + Lengths(items[..k])
      invariant Accounted(m, l) && l0.starts <= l.starts
    {
      assert items[k..][1..] == items[k + 1..];
      tick, now, m, l := DrainStep(items, k, gap, tick, now, m, l, l0.received);
      k := k + 1;
    }
  }

  /** The first half of pass n of the for loop: open object `Name(n)` and
      drain it. An open error or a stream error ends the run, with the
      report as the program leaves it. */
  method Visit(reader: string -> OpenOutcome<Item>, gap: nat -> nat, n: nat,
               m0: Meter, ghost l0: Ledger, ghost budgetTicks: seq<nat>, tick0: nat, now0: nat)
    returns (stop: Option<Report>, m: Meter, ghost l: Ledger, tick: nat, now: nat)
    requires n < Iterations && Running(reader, gap, n, m0, l0, budgetTicks, tick0, now0)
    ensures stop.Some? ==> Completed(reader, gap, stop.value, l, budgetTicks)
    ensures stop.Some? ==> Finish(stop.value, budgetTicks) == RunFrom(reader, gap, n, tick0, m0, budgetTicks)
    ensures stop.None? ==>
              Clean(reader, Name(n)) && Metering(reader, gap, n + 1, m, l)
              && tick0 <= tick && now == Time(gap, tick) && m.windowStart <= now
              && RunFrom(reader, gap, n, tick0, m0, budgetTicks) == CheckFrom(reader, gap, n, Tally(tick, m), budgetTicks)
  {
    var filename := Name(n);
    tick, now, m, l := tick0, now0, m0, l0;
    var outcome := reader(filename);
    if outcome.OpenError? {
      StopOnOpen(reader, gap, n, m0, l0, budgetTicks, tick0);
      return Some(Report(OpenFailed(filename), n, m0, None)), m, l, tick, now;
    }
    var items := outcome.items;
    var k: nat;
    k, tick, now, m, l := Drain(items, gap, tick, now, m, l);
    assert l.received == Received(reader, n + 1);
    if k < |items| {
      StopOnStream(reader, gap, n, budgetTicks, m, l, tick0);
      stop := Some(Report(StreamFailed, n + 1, m, None));
    } else {
      stop := None;
    }
  }

  /** What one pass of the for loop decided. */
  datatype Step = Continue | Stop(report: Report)

  /** The second half of pass n, after `Name(n)` drained cleanly: check the
      time budget with the next clock reading, reading `tick0`. The run stops
      exactly when that reading exceeds the test duration, and the summary
      line then reads the clock once more. The run started at reading 0, so
      a reading is also the elapsed time. */
  method CheckBudget(reader: string -> OpenOutcome<Item>, gap: nat -> nat, n: nat,
                     m: Meter, ghost l: Ledger, ghost budgetTicks0: seq<nat>, tick0: nat, now0: nat)
    returns (step: Step, ghost budgetTicks: seq<nat>, tick: nat, now: nat)
    requires n < Iterations && CleanPrefix(reader, n)
    requires |budgetTicks0| == n && WithinBudget(gap, budgetTicks0) && Ascending(budgetTicks0 + [tick0])
    requires Clean(reader, Name(n)) && Metering(reader, gap, n + 1, m, l)
    requires now0 == Time(gap, tick0) && m.windowStart <= now0
    ensures budgetTicks == budgetTicks0 + [tick0]
    ensures step.Stop? <==> Time(gap, tick0) > TestDuration
    ensures step.Stop? ==> step.report == Report(BudgetSpent, n + 1, m, Some(Time(gap, tick0 + 1)))
    ensures step.Continue? ==> tick == tick0 + 1 && Running(reader, gap, n + 1, m, l, budgetTicks, tick, now)
    ensures step.Stop? ==> Completed(reader, gap, step.report, l, budgetTicks)
  {
    var reading;  // start.elapsed()
    reading, tick, now := ReadClock(gap, tick0, now0);
    budgetTicks := budgetTicks0 + [tick0];
    if reading > TestDuration {
      var elapsed;  // start.elapsed() in the summary line
      elapsed, tick, now := ReadClock(gap, tick, now);
      StopOnBudget(reader, gap, n, budgetTicks0, m, l, tick0, elapsed);
      return Stop(Report(BudgetSpent, n + 1, m, Some(elapsed))), budgetTicks, tick, now;
    }
    KeepRunning(reader, gap, n, budgetTicks0, m, l, tick0, tick, now);
    step := Continue;
  }

  /** Pass n of the for loop: open and drain `Name(n)`, then check the time
      budget. A pass that stops the run returns the final report; one that
      does not returns the number of the next pass. Either way the run goes
      on to the end `fin` the run from pass n has. `now` is the time the next
      reading will show. */
  method Iterate(reader: string -> OpenOutcome<Item>, gap: nat -> nat, n: nat,
                 m0: Meter, ghost l0: Ledger, ghost budgetTicks0: seq<nat>, tick0: nat, now0: nat,
                 ghost fin: Finish)
    returns (next: nat, step: Step, m: Meter, ghost l: Ledger, ghost budgetTicks: seq<nat>, tick: nat, now: nat)
    requires n < Iterations && Running(reader, gap, n, m0, l0, budgetTicks0, tick0, now0)
    requires RunFrom(reader, gap, n, tick0, m0, budgetTicks0) == fin
    ensures next == n + 1
    ensures step.Continue? ==> Running(reader, gap, next, m, l, budgetTicks, tick, now)
    ensures step.Continue? ==> RunFrom(reader, gap, next, tick, m, budgetTicks) == fin
    ensures step.Stop? ==> Completed(reader, gap, step.report, l, budgetTicks)
    ensures step.Stop? ==> Finish(step.report, budgetTicks) == fin
  {
    next := n + 1;
    var stop;
    stop, m, l, tick, now := Visit(reader, gap, n, m0, l0, budgetTicks0, tick0, now0);
    if stop.Some? {
      return next, Stop(stop.value), m, l, budgetTicks0, tick, now;
    }
    AscendingLater(budgetTicks0, tick0, tick);
    CheckFromUnfold(reader, gap, n, tick, m, budgetTicks0);
    step, budgetTicks, tick, now := CheckBudget(reader, gap, n, m, l, budgetTicks0, tick, now);
  }

  /** The for loop of `main`, from the top of pass n0: at most 1000 passes,
      then the summary line's reading of the clock. */
  method Loop(reader: string -> OpenOutcome<Item>, gap: nat -> nat, n0: nat,
              m0: Meter, ghost l0: Ledger, ghost budgetTicks0: seq<nat>, tick0: nat, now0: nat)
    returns (r: Report, ghost l: Ledger, ghost budgetTicks: seq<nat>)
    requires n0 <= Iterations && Running(reader, gap, n0, m0, l0, budgetTicks0, tick0, now0)
    ensures Finish(r, budgetTicks) == RunFrom(reader, gap, n0, tick0, m0, budgetTicks0)
    ensures Completed(reader, gap, r, l, budgetTicks)
  {
    ghost var fin := RunFrom(reader, gap, n0, tick0, m0, budgetTicks0);
    var i, meter, tick, now := n0, m0, tick0, now0;
    l, budgetTicks := l0, budgetTicks0;
    while i < Iterations
      invariant i <= Iterations && Running(reader, gap, i, meter, l, budgetTicks, tick, now)
      invariant RunFrom(reader, gap, i, tick, meter, budgetTicks) == fin
    {
      var step;
      i, step, meter, l, budgetTicks, tick, now := Iterate(reader, gap, i, meter, l, budgetTicks, tick, now, fin);
      if step.Stop? {
        return step.report, l, budgetTicks;
      }
    }
    StopAll(reader, gap, i, meter, l, budgetTicks, tick, now);
    RunFromEnd(reader, gap, tick, meter, budgetTicks);
    var elapsed;  // start.elapsed() in the summary line
    elapsed, tick, now := ReadClock(gap, tick, now);
    r := Report(AllOpened, i, meter, Some(elapsed));
  }

  /** The benchmark run of `main`, after the store has been resolved: two
      clock readings (the start and the first window start), then the for
      loop. The ghost results are the ledger of the meter and the clock
      readings taken by the budget checks. */
  method Run(reader: string -> OpenOutcome<Item>, gap: nat -> nat)
    returns (r: Report, ghost l: Ledger, ghost budgetTicks: seq<nat>)
    ensures Finish(r, budgetTicks) == RunSpec(reader, gap)
    ensures Reported(reader, r)
    ensures Completed(reader, gap, r, l, budgetTicks)
  {
    var start, windowStart, tick, now;
    start, tick, now := ReadClock(gap, 0, 0);              // Instant::now(), reading 0
    windowStart, tick, now := ReadClock(gap, tick, now);  // Instant::now()
    StartRunning(reader, gap, windowStart, tick, now);
    r, l, budgetTicks := Loop(reader, gap, 0, Meter(0, 0, windowStart, []), Ledger([], [], [], [windowStart]), [], tick, now);
  }
}
