/** The benchmark loop of go/main.go: open the objects of blocks offset,
    offset + 100, offset + 200, ... one after the other, time each open,
    drain each object with Read while keeping a running total and a
    five-second rate window, and stop once 120 seconds have passed at the
    end of an object. The loop condition is constant-true, so there is no
    cap on the number of objects; any open or read error ends the process.

    As for the Rust harness, the clock is an input (`gap(t)` is how far it
    advances between reading t and reading t + 1, in nanoseconds) and so is
    the store: `reader(name)` is what `store.OpenObject(ctx, name)` yields,
    the object's successive Read results or an open error. */
module GoHarness {
  import opened Common
  import opened Windows
  import opened Budget
  import Keys

  const Stride: nat := 100
  const U64: nat := 0x1_0000_0000_0000_0000    // 2^64, the range of uint64

  /** What one call of `reader.Read(buffer)` returns besides its byte
      count: no error, `io.EOF`, or another error. */
  datatype Status = Data | Eof | ReadError

  /** One call of `reader.Read(buffer)`: the byte count and the error. Past
      the end of the sequence an object keeps answering `io.EOF`. */
  datatype Read = Read(count: nat, status: Status)

  /** The block of iteration i: `uint64(i*100) + blockOffset`, where both the
      conversion and the addition wrap around modulo 2^64 (the body spells
      out Stride and U64 so that the solver sees linear arithmetic). */
  function BlockNumber(i: nat, offset: nat): (b: nat)
    ensures b < U64
  {
    (i * 100 + offset) % 0x1_0000_0000_0000_0000
  }

  /** The name of the object of iteration i: `fmt.Sprintf("%010d", blockNum)`,
      with no extension (the store adds it). */
  function Name(i: nat, offset: nat): (name: string)
    ensures |name| >= Keys.Width
  {
    Keys.Padded(BlockNumber(i, offset))
  }

  /** Below the wrap-around, the block of iteration i is exactly
      `i * 100 + offset`. */
  lemma BlockNumberExact(i: nat, offset: nat)
    requires i * Stride + offset < U64
    ensures BlockNumber(i, offset) == i * Stride + offset
  {
  }

  /** Each iteration asks for the block 100 after the previous one, modulo
      2^64. */
  lemma BlockNumberNext(i: nat, offset: nat)
    ensures BlockNumber(i + 1, offset) == (BlockNumber(i, offset) + Stride) % U64
  {
    var x := i * Stride + offset;
    assert (i + 1) * Stride + offset == x + Stride;
    assert x == (x / U64) * U64 + x % U64;
    assert (x + Stride) % U64 == (x % U64 + Stride) % U64 by {
      assert x + Stride == (x / U64) * U64 + (x % U64 + Stride);
    }
  }

  /** Below the wrap-around, later iterations ask for strictly larger
      blocks. */
  lemma BlockNumbersIncrease(i: nat, j: nat, offset: nat)
    requires i < j && j * Stride + offset < U64
    ensures BlockNumber(i, offset) + Stride <= BlockNumber(j, offset)
  {
    assert i * Stride + Stride <= j * Stride;
  }

  /** The name is at least ten digits and parses back to the block number;
      below 10^10 it is exactly ten. */
  lemma NameRoundTrip(i: nat, offset: nat)
    ensures |Name(i, offset)| >= Keys.Width
    ensures Keys.AllDigits(Name(i, offset)) && Keys.ParseDecimal(Name(i, offset)) == BlockNumber(i, offset)
    ensures BlockNumber(i, offset) < Keys.Pow10(Keys.Width) ==> |Name(i, offset)| == Keys.Width
  {
    var b := BlockNumber(i, offset);
    Keys.PaddedRoundTrip(b);
    Keys.ZeroPadShape(Keys.Decimal(b), Keys.Width);
    if b < Keys.Pow10(Keys.Width) {
      Keys.BlockFileNameShape(b);
    }
  }

  /** Index of the first Read that does not return data, or the length when
      every Read does: how far the inner `for` loop gets before `io.EOF` or
      an error. */
  function FirstStop(calls: seq<Read>): (e: nat)
    ensures e <= |calls|
    ensures forall k :: 0 <= k < e ==> calls[k].status == Data
    ensures e < |calls| ==> calls[e].status != Data
  {
    if calls == [] || calls[0].status != Data then 0 else 1 + FirstStop(calls[1..])
  }

  /** FirstStop is the only index with its two properties. */
  lemma FirstStopUnique(calls: seq<Read>, k: nat)
    requires k <= |calls| && forall i :: 0 <= i < k ==> calls[i].status == Data
    requires k < |calls| ==> calls[k].status != Data
    ensures k == FirstStop(calls)
  {
  }

  /** The object's Reads hit an error other than `io.EOF`. */
  predicate Broken(calls: seq<Read>)
  {
    FirstStop(calls) < |calls| && calls[FirstStop(calls)].status == ReadError
  }

  /** The byte count of each Read, in order. */
  function Counts(calls: seq<Read>): seq<nat>
  {
    if calls == [] then [] else Counts(calls[..|calls| - 1]) + [calls[|calls| - 1].count]
  }

  /** One more Read adds its byte count at the end. */
  lemma CountsSnoc(calls: seq<Read>, k: nat)
    requires k < |calls|
    ensures Counts(calls[..k + 1]) == Counts(calls[..k]) + [calls[k].count]
  {
    assert calls[..k + 1][..k] == calls[..k];
  }

  /** The byte counts the harness adds from one opened object: those of the
      Reads before the first `io.EOF` or error. */
  function ObjectBytes(o: OpenOutcome<Read>): seq<nat>
  {
    if o.Opened? then Counts(o.items[..FirstStop(o.items)]) else []
  }

  /** The bytes of the Read that reports `io.EOF`, and everything after it,
      are never counted: only the data Reads before it are. */
  lemma EofBytesIgnored(data: seq<Read>, count: nat, rest: seq<Read>)
    requires forall k :: 0 <= k < |data| ==> data[k].status == Data
    ensures ObjectBytes(Opened(data + [Read(count, Eof)] + rest)) == Counts(data)
    ensures !Broken(data + [Read(count, Eof)] + rest)
  {
    var calls := data + [Read(count, Eof)] + rest;
    var e := FirstStop(calls);
    assert calls[|data|].status == Eof;
    assert forall k :: 0 <= k < |data| ==> calls[k] == data[k];
    assert e == |data|;
    assert calls[..e] == data;
  }

  /** The object opened under `name` was read to its end without an
      error. */
  predicate Clean(reader: string -> OpenOutcome<Read>, name: string)
  {
    reader(name).Opened? && !Broken(reader(name).items)
  }

  /** Every byte count added from the first n objects of the run, in
      order. */
  ghost function Received(reader: string -> OpenOutcome<Read>, offset: nat, n: nat): seq<nat>
  {
    if n == 0 then [] else Received(reader, offset, n - 1) + ObjectBytes(reader(Name(n - 1, offset)))
  }

  /** The fetch statistics: `totalFetchTime` and `totalFetchCount`. */
  datatype FetchStats = FetchStats(totalTime: nat, count: nat)

  /** The duration of each open, given the clock reading `openStart` of
      each: the open is timed from that reading to the next one. */
  ghost function OpenDurations(gap: nat -> nat, openTicks: seq<nat>): seq<nat>
  {
    if openTicks == [] then []
    else OpenDurations(gap, openTicks[..|openTicks| - 1]) + [gap(openTicks[|openTicks| - 1])]
  }

  /** The fetch statistics count one fetch per open in `openTicks` (the
      readings taken just before each open, in increasing order) and add up
      their durations. */
  ghost predicate Timed(gap: nat -> nat, stats: FetchStats, openTicks: seq<nat>)
  {
    && stats.count == |openTicks|
    && stats.totalTime == Sum(OpenDurations(gap, openTicks))
    && Ascending(openTicks)
  }

  /** The average fetch time of the summary: `totalFetchTime /
      time.Duration(totalFetchCount)`, an integer division of non-negative
      durations. */
  function AverageFetch(stats: FetchStats): (average: nat)
    requires stats.count >= 1
    ensures average * stats.count <= stats.totalTime < (average + 1) * stats.count
  {
    stats.totalTime / stats.count
  }

  /** Why the run stopped. */
  datatype End =
    | BudgetSpent                  // the time check after an object said stop
    | OpenFailed                   // `cli.NoError` after OpenObject ended the process
    | ReadFailed                   // `cli.NoError` after Read ended the process

  /** The two values of the final summary the program computes from its
      counters: the average fetch time and the elapsed time of the last
      line. */
  datatype Summary = Summary(averageFetch: nat, elapsed: nat)

  /** The final state of the run: how many objects were opened (the first
      `fetched` names of the run), the accumulators, and the summary, which
      only a run that was not ended by an error prints. */
  datatype Report = Report(end: End, fetched: nat, meter: Meter, stats: FetchStats, summary: Option<Summary>)

  /** The first n objects of the run opened and were read cleanly. */
  ghost predicate CleanPrefix(reader: string -> OpenOutcome<Read>, offset: nat, n: nat)
  {
    forall j :: 0 <= j < n ==> Clean(reader, Name(j, offset))
  }

  /** The meter accounts for every byte count added from the first n
      objects, in order, with the first window started at the second
      reading of the clock. */
  ghost predicate Metering(reader: string -> OpenOutcome<Read>, gap: nat -> nat, offset: nat, n: nat,
                           m: Meter, l: Ledger)
  {
    l.received == Received(reader, offset, n) && Accounted(m, l) && l.starts[0] == Time(gap, 1)
  }

  /** The state at the top of iteration n of the loop: the objects opened so
      far were read cleanly, each was counted and timed as a fetch and
      passed the budget check, the budget checks' readings `budgetTicks`
      were taken in order and before the next reading `tick`, and the meter
      accounts for the bytes counted. `now` is the time the next reading
      will show. */
  ghost predicate Running(reader: string -> OpenOutcome<Read>, gap: nat -> nat, offset: nat, n: nat,
                          m: Meter, l: Ledger, stats: FetchStats, openTicks: seq<nat>,
                          budgetTicks: seq<nat>, tick: nat, now: nat)
  {
    && CleanPrefix(reader, offset, n) && Metering(reader, gap, offset, n, m, l)
    && Timed(gap, stats, openTicks) && |openTicks| == n
    && (openTicks != [] ==> openTicks[|openTicks| - 1] < tick)
    && |budgetTicks| == n && WithinBudget(gap, budgetTicks) && Ascending(budgetTicks + [tick])
    && now == Time(gap, tick) && m.windowStart <= now
  }

  /** How a finished run ended: at the first object that failed to open,
      inside the first object whose Reads hit an
      error, or at a budget check after at least one object; every other
      object opened was read cleanly. */
  ghost predicate EndedAsReported(reader: string -> OpenOutcome<Read>, offset: nat, r: Report)
  {
    && (r.end.OpenFailed? ==> reader(Name(r.fetched, offset)).OpenError?)
    && (r.end.ReadFailed? ==>
          r.fetched > 0 && reader(Name(r.fetched - 1, offset)).Opened?
          && !Clean(reader, Name(r.fetched - 1, offset)))
    && (r.end.BudgetSpent? ==> r.fetched > 0)
    && (forall j :: 0 <= j < r.fetched && !(r.end.ReadFailed? && j == r.fetched - 1) ==>
          Clean(reader, Name(j, offset)))
  }

  /** What the returned report promises on its own: the run ended as
      reported, its total counts every byte counted from the objects it
      opened, the samples plus the open window add up to that total, one
      fetch was counted per object opened, and the summary is printed exactly
      after a budget stop, dividing the total fetch time by a fetch count of
      at least one and showing more than the test duration as elapsed. */
  ghost predicate Reported(reader: string -> OpenOutcome<Read>, offset: nat, r: Report)
  {
    && EndedAsReported(reader, offset, r)
    && r.meter.totalBytes == Sum(Received(reader, offset, r.fetched))
    && Sum(r.meter.samples) + r.meter.windowBytes == r.meter.totalBytes
    && r.stats.count == r.fetched
    && (r.summary.Some? <==> r.end.BudgetSpent?)
    && (r.end.BudgetSpent? ==>
          r.stats.count >= 1
          && r.summary.value.averageFetch == AverageFetch(r.stats)
          && r.summary.value.elapsed > TestDuration)
  }

  /** What a finished run promises: the report's own promises, the meter's
      ledger accounts for every byte counted from every object opened, every
      object opened was timed as one fetch, and the budget was kept. `l` is
      the ledger of the meter, `openTicks` the clock readings taken before
      each open and `budgetTicks` those taken by the budget checks. */
  ghost predicate Completed(reader: string -> OpenOutcome<Read>, gap: nat -> nat, offset: nat, r: Report,
                            l: Ledger, openTicks: seq<nat>, budgetTicks: seq<nat>)
  {
    && Reported(reader, offset, r)
    && Metering(reader, gap, offset, r.fetched, r.meter, l)
    && Timed(gap, r.stats, openTicks) && |openTicks| == r.fetched
    && BudgetKept(gap, budgetTicks, r.fetched - (if r.end.ReadFailed? then 1 else 0), r.end.BudgetSpent?)
  }

  /** Timing one more open adds its duration and counts one more fetch. */
  lemma TimedAdd(gap: nat -> nat, stats: FetchStats, openTicks: seq<nat>, t: nat)
    requires Timed(gap, stats, openTicks)
    requires openTicks != [] ==> openTicks[|openTicks| - 1] < t
    ensures Timed(gap, FetchStats(stats.totalTime + gap(t), stats.count + 1), openTicks + [t])
  {
    var ts := openTicks + [t];
    assert ts[..|ts| - 1] == openTicks;
    SumSnoc(OpenDurations(gap, openTicks), gap(t));
    AscendingSnoc(openTicks, t);
  }

  /** The state before the first iteration. */
  lemma StartRunning(reader: string -> OpenOutcome<Read>, gap: nat -> nat, offset: nat,
                     windowStart: nat, tick: nat, now: nat)
    requires windowStart == Time(gap, 1) && now == Time(gap, tick) && windowStart <= now
    ensures Running(reader, gap, offset, 0, Meter(0, 0, windowStart, []),
                    Ledger([], [], [], [windowStart]), FetchStats(0, 0), [], [], tick, now)
  {
  }

  /** An object read cleanly that passed the budget check, whose reading
      `checkTick` saw at most the test duration, extends the run by one. */
  lemma KeepRunning(reader: string -> OpenOutcome<Read>, gap: nat -> nat, offset: nat, n: nat,
                    m: Meter, l: Ledger, stats: FetchStats, openTicks: seq<nat>,
                    budgetTicks: seq<nat>, checkTick: nat, tick: nat, now: nat)
    requires CleanPrefix(reader, offset, n) && |budgetTicks| == n && Ascending(budgetTicks + [checkTick])
    requires Clean(reader, Name(n, offset)) && Metering(reader, gap, offset, n + 1, m, l)
    requires Timed(gap, stats, openTicks) && |openTicks| == n + 1 && openTicks[n] < tick
    requires now == Time(gap, tick) && m.windowStart <= now
    requires Time(gap, checkTick) <= TestDuration && checkTick < tick
    ensures Running(reader, gap, offset, n + 1, m, l, stats, openTicks, budgetTicks + [checkTick], tick, now)
  {
    AscendingSnoc(budgetTicks + [checkTick], tick);
  }

  /** The run after an object failed to open; `tick` is a reading after the
      earlier budget checks. */
  lemma StopOnOpen(reader: string -> OpenOutcome<Read>, gap: nat -> nat, offset: nat, n: nat,
                   m: Meter, l: Ledger, stats: FetchStats, openTicks: seq<nat>,
                   budgetTicks: seq<nat>, tick: nat)
    requires CleanPrefix(reader, offset, n) && Metering(reader, gap, offset, n, m, l)
    requires Timed(gap, stats, openTicks) && |openTicks| == n
    requires |budgetTicks| == n && WithinBudget(gap, budgetTicks) && Ascending(budgetTicks + [tick])
    requires reader(Name(n, offset)).OpenError?
    ensures Completed(reader, gap, offset, Report(OpenFailed, n, m, stats, None), l, openTicks, budgetTicks)
  {
    BudgetHeld(gap, budgetTicks, tick);
    WindowedTotal(l.received, l.closed, l.open, m.samples, m.windowBytes);
  }

  /** The run after a Read of an object returned an error; `tick` is a
      reading after the earlier budget checks. */
  lemma StopOnRead(reader: string -> OpenOutcome<Read>, gap: nat -> nat, offset: nat, n: nat,
                   m: Meter, l: Ledger, stats: FetchStats, openTicks: seq<nat>,
                   budgetTicks: seq<nat>, tick: nat)
    requires CleanPrefix(reader, offset, n)
    requires |budgetTicks| == n && WithinBudget(gap, budgetTicks) && Ascending(budgetTicks + [tick])
    requires reader(Name(n, offset)).Opened? && !Clean(reader, Name(n, offset))
    requires Metering(reader, gap, offset, n + 1, m, l)
    requires Timed(gap, stats, openTicks) && |openTicks| == n + 1
    ensures Completed(reader, gap, offset, Report(ReadFailed, n + 1, m, stats, None), l, openTicks, budgetTicks)
  {
    BudgetHeld(gap, budgetTicks, tick);
    WindowedTotal(l.received, l.closed, l.open, m.samples, m.windowBytes);
  }

  /** The run after the budget check, whose reading `checkTick` came after
      the earlier ones, saw more than the test duration; `elapsed` is read
      no earlier. */
  lemma StopOnBudget(reader: string -> OpenOutcome<Read>, gap: nat -> nat, offset: nat, n: nat,
                     m: Meter, l: Ledger, stats: FetchStats, openTicks: seq<nat>,
                     budgetTicks: seq<nat>, checkTick: nat, elapsed: nat)
    requires CleanPrefix(reader, offset, n)
    requires |budgetTicks| == n && WithinBudget(gap, budgetTicks) && Ascending(budgetTicks + [checkTick])
    requires Clean(reader, Name(n, offset)) && Metering(reader, gap, offset, n + 1, m, l)
    requires Timed(gap, stats, openTicks) && |openTicks| == n + 1
    requires TestDuration < Time(gap, checkTick) <= elapsed
    ensures stats.count >= 1
    ensures Completed(reader, gap, offset,
                      Report(BudgetSpent, n + 1, m, stats, Some(Summary(AverageFetch(stats), elapsed))),
                      l, openTicks, budgetTicks + [checkTick])
  {
    var r := Report(BudgetSpent, n + 1, m, stats, Some(Summary(AverageFetch(stats), elapsed)));
    assert BudgetKept(gap, budgetTicks + [checkTick], r.fetched, true) by {
      BudgetSpentKept(gap, budgetTicks, checkTick);
    }
    assert CleanPrefix(reader, offset, n + 1);
    assert EndedAsReported(reader, offset, r);
    assert Reported(reader, offset, r) by {
      WindowedTotal(l.received, l.closed, l.open, m.samples, m.windowBytes);
    }
  }

  /** The outcome of a run: its final report, the clock readings taken
      before each open, and those its budget checks were taken at. */
  datatype Finish = Finish(report: Report, openTicks: seq<nat>, budgetTicks: seq<nat>)

  /** The clock and the meter after the inner `for` loop read `calls` from
      `t`: every data Read before the first `io.EOF` or error is counted, in
      order, and each reads the clock at least once. */
  ghost function DrainTally(gap: nat -> nat, t: Tally, calls: seq<Read>): (r: Tally)
    ensures t.tick <= r.tick
    decreases |calls|
  {
    if calls == [] || calls[0].status != Data then t
    else DrainTally(gap, CountStep(gap, t, calls[0].count), calls[1..])
  }

  /** One more Read in front adds its byte count in front. */
  lemma {:induction false} CountsCons(x: Read, calls: seq<Read>)
    ensures Counts([x] + calls) == [x.count] + Counts(calls)
    decreases |calls|
  {
    if calls != [] {
      var front := calls[..|calls| - 1];
      assert ([x] + calls)[..|calls|] == [x] + front;
      CountsCons(x, front);
    }
  }

  /** Reading an object through adds to the total exactly the bytes of the
      data Reads before the first `io.EOF` or error, reads the clock at
      least once per data Read, and only appends to the closed windows. */
  lemma {:induction false} DrainTallyCounts(gap: nat -> nat, t: Tally, calls: seq<Read>)
    ensures DrainTally(gap, t, calls).meter.totalBytes
            == t.meter.totalBytes + Sum(Counts(calls[..FirstStop(calls)]))
    ensures t.tick + FirstStop(calls) <= DrainTally(gap, t, calls).tick
    ensures t.meter.samples <= DrainTally(gap, t, calls).meter.samples
    decreases |calls|
  {
    if calls != [] && calls[0].status == Data {
      var rest := calls[1..];
      var e := FirstStop(calls);
      DrainTallyCounts(gap, CountStep(gap, t, calls[0].count), rest);
      assert calls[..e] == [calls[0]] + rest[..e - 1];
      CountsCons(calls[0], rest[..e - 1]);
      SumConcat([calls[0].count], Counts(rest[..e - 1]));
    }
  }

  /** A clock reading past the test duration. The loop has no cap: it ends
      because the clock gets there, so the run is only defined for a clock
      that does. */
  ghost function Deadline(gap: nat -> nat): (d: nat)
    requires exists t :: TestDuration < Time(gap, t)
    ensures TestDuration < Time(gap, d) && d >= 1
  {
    var t :| TestDuration < Time(gap, t); t
  }

  /** A reading that saw at most the test duration was taken before any
      reading past it. */
  lemma BeforeDeadline(gap: nat -> nat, deadline: nat, t: nat)
    requires TestDuration < Time(gap, deadline) && Time(gap, t) <= TestDuration
    ensures t < deadline
  {
    if deadline <= t {
      TimeMonotone(gap, deadline, t);
    }
  }

  /** The run from the top of pass n of the loop, computed from the clock,
      with `tick` the next reading, `m` the meter, `stats` the fetch
      statistics and `openTicks`, `budgetTicks` the readings taken so far
      before the opens and by the budget checks. The closure reads the clock
      as `openStart`, opens `Name(n, offset)`, reads the clock again to time
      the fetch, and counts the data Reads before the first `io.EOF` or
      error; a clean object goes on to the budget check. */
  ghost function RunFrom(reader: string -> OpenOutcome<Read>, gap: nat -> nat, offset: nat, n: nat,
                         tick: nat, m: Meter, stats: FetchStats, openTicks: seq<nat>,
                         budgetTicks: seq<nat>): Finish
    requires exists t :: TestDuration < Time(gap, t)
    requires tick <= Deadline(gap) + 1
    decreases Deadline(gap) + 2 - tick, 1
  {
    if reader(Name(n, offset)).OpenError? then
      Finish(Report(OpenFailed, n, m, stats, None), openTicks, budgetTicks)
    else
      var counted := FetchStats(stats.totalTime + gap(tick), stats.count + 1);
      var drained := DrainTally(gap, Tally(tick + 2, m), reader(Name(n, offset)).items);
      if Broken(reader(Name(n, offset)).items) then
        Finish(Report(ReadFailed, n + 1, drained.meter, counted, None), openTicks + [tick], budgetTicks)
      else CheckFrom(reader, gap, offset, n, drained, counted, openTicks + [tick], budgetTicks)
  }

  /** The rest of the run after object n was read cleanly, leaving the
      clock and the meter at `drained`: the budget check takes the next
      reading; above the test duration the loop breaks and the summary
      divides the fetch time and reads the clock once more, otherwise the
      loop goes on. */
  ghost function CheckFrom(reader: string -> OpenOutcome<Read>, gap: nat -> nat, offset: nat, n: nat,
                           drained: Tally, stats: FetchStats, openTicks: seq<nat>,
                           budgetTicks: seq<nat>): Finish
    requires exists t :: TestDuration < Time(gap, t)
    requires stats.count >= 1
    decreases if drained.tick <= Deadline(gap) + 2 then Deadline(gap) + 2 - drained.tick else 0, 0
  {
    if Time(gap, drained.tick) > TestDuration then
      Finish(Report(BudgetSpent, n + 1, drained.meter, stats,
                    Some(Summary(AverageFetch(stats), Time(gap, drained.tick + 1)))),
             openTicks, budgetTicks + [drained.tick])
    else
      BeforeDeadline(gap, Deadline(gap), drained.tick);
      RunFrom(reader, gap, offset, n + 1, drained.tick + 1, drained.meter, stats, openTicks,
              budgetTicks + [drained.tick])
  }

  /** A pass whose open fails ends the run there, with nothing counted. */
  lemma RunFromOpenFailed(reader: string -> OpenOutcome<Read>, gap: nat -> nat, offset: nat, n: nat,
                          tick: nat, m: Meter, stats: FetchStats, openTicks: seq<nat>, budgetTicks: seq<nat>)
    requires exists t :: TestDuration < Time(gap, t)
    requires tick <= Deadline(gap) + 1 && reader(Name(n, offset)).OpenError?
    ensures RunFrom(reader, gap, offset, n, tick, m, stats, openTicks, budgetTicks)
            == Finish(Report(OpenFailed, n, m, stats, None), openTicks, budgetTicks)
  {
  }

  /** A pass whose open succeeds, starting at reading `tick`, counts one
      fetch timed from `tick` to the reading after it and leaves the clock
      and the meter at `Tally(drainedTick, m)` once the object is read. The
      run ends there on a read error, and goes on to the budget check
      otherwise. */
  lemma RunFromOpened(reader: string -> OpenOutcome<Read>, gap: nat -> nat, offset: nat, n: nat,
                      tick: nat, m0: Meter, stats0: FetchStats, openTicks0: seq<nat>, budgetTicks: seq<nat>,
                      drainedTick: nat, m: Meter, stats: FetchStats, openTicks: seq<nat>)
    requires exists t :: TestDuration < Time(gap, t)
    requires tick <= Deadline(gap) + 1 && reader(Name(n, offset)).Opened?
    requires stats == FetchStats(stats0.totalTime + gap(tick), stats0.count + 1) && openTicks == openTicks0 + [tick]
    requires Tally(drainedTick, m) == DrainTally(gap, Tally(tick + 2, m0), reader(Name(n, offset)).items)
    ensures Broken(reader(Name(n, offset)).items) ==>
              RunFrom(reader, gap, offset, n, tick, m0, stats0, openTicks0, budgetTicks)
              == Finish(Report(ReadFailed, n + 1, m, stats, None), openTicks, budgetTicks)
    ensures !Broken(reader(Name(n, offset)).items) ==>
              RunFrom(reader, gap, offset, n, tick, m0, stats0, openTicks0, budgetTicks)
              == CheckFrom(reader, gap, offset, n, Tally(drainedTick, m), stats, openTicks, budgetTicks)
  {
  }

  /** A budget check after a clean object, taken at reading `checkTick`
      with the meter at `m`, that saw more than the test duration ends the
      run, with the summary showing the next reading. */
  lemma CheckFromStops(reader: string -> OpenOutcome<Read>, gap: nat -> nat, offset: nat, n: nat,
                       checkTick: nat, m: Meter, stats: FetchStats, openTicks: seq<nat>, budgetTicks: seq<nat>)
    requires exists t :: TestDuration < Time(gap, t)
    requires stats.count >= 1 && TestDuration < Time(gap, checkTick)
    ensures CheckFrom(reader, gap, offset, n, Tally(checkTick, m), stats, openTicks, budgetTicks)
            == Finish(Report(BudgetSpent, n + 1, m, stats, Some(Summary(AverageFetch(stats), Time(gap, checkTick + 1)))),
                      openTicks, budgetTicks + [checkTick])
  {
  }

  /** A budget check that saw at most the test duration was taken before
      the deadline, and the run goes on with pass `next` from the reading
      after it, with the check recorded in `budgetTicks`. */
  lemma CheckFromContinues(reader: string -> OpenOutcome<Read>, gap: nat -> nat, offset: nat, n: nat,
                           checkTick: nat, m: Meter, stats: FetchStats, openTicks: seq<nat>,
                           budgetTicks0: seq<nat>, next: nat, tick: nat, budgetTicks: seq<nat>)
    requires exists t :: TestDuration < Time(gap, t)
    requires stats.count >= 1 && Time(gap, checkTick) <= TestDuration
    requires next == n + 1 && tick == checkTick + 1 && budgetTicks == budgetTicks0 + [checkTick]
    ensures tick <= Deadline(gap)
    ensures CheckFrom(reader, gap, offset, n, Tally(checkTick, m), stats, openTicks, budgetTicks0)
            == RunFrom(reader, gap, offset, next, tick, m, stats, openTicks, budgetTicks)
  {
    BeforeDeadline(gap, Deadline(gap), checkTick);
  }

  /** The whole run of `main`: reading 0 is `start`, reading 1 starts the
      first window, and the loop begins at reading 2. */
  ghost function RunSpec(reader: string -> OpenOutcome<Read>, gap: nat -> nat, offset: nat): Finish
    requires exists t :: TestDuration < Time(gap, t)
  {
    RunFrom(reader, gap, offset, 0, 2, Meter(0, 0, Time(gap, 1), []), FetchStats(0, 0), [], [])
  }
}
