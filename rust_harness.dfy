/** The benchmark loop of src/main.rs: open the objects of blocks 0, 100,
    200, ... one after the other, drain each stream while keeping a running
    total and a five-second rate window, and stop after 1000 objects or once
    120 seconds have passed at the end of an object. Any error aborts the run.

    The clock is an input: `gap(t)` is how far it advances between reading t
    and reading t + 1 (nanoseconds), the readings being taken in the order the
    program takes them. The store is an input too: `reader(name)` is what
    `store.object_reader(name)` yields, which for a resolved store is
    `Store.ObjectReader(store, get, name)`. */
module RustHarness {
  import opened Common
  import opened Windows
  import opened Budget
  import Keys

  const Iterations: nat := 1000
  const Stride: nat := 100

  /** One item pulled from an object stream by `try_next`. */
  datatype Item = Chunk(len: nat) | StreamError

  /** Why the run stopped. */
  datatype End =
    | AllOpened                    // the 1000 iterations of the for loop ran out
    | BudgetSpent                  // the time check after an object said stop
    | OpenFailed(filename: string) // opening failed, reported with the file name
    | StreamFailed                 // a stream yielded an error

  /** The final state of the run: how many objects were opened (the first
      `openCount` names of the run), the accumulators, and the elapsed time of
      the summary line (printed only when the run did not fail). */
  datatype Report = Report(end: End, openCount: nat, meter: Meter, elapsed: Option<nat>)

  /** Index of the first error of a stream, or its length when it has none:
      how far `while let Some(item) = reader.try_next().await?` gets. */
  function FirstError(items: seq<Item>): (e: nat)
    ensures e <= |items|
    ensures forall k :: 0 <= k < e ==> items[k].Chunk?
    ensures e < |items| ==> items[e].StreamError?
  {
    if items == [] || items[0].StreamError? then 0 else 1 + FirstError(items[1..])
  }

  /** FirstError is the only index with its two properties. */
  lemma FirstErrorUnique(items: seq<Item>, k: nat)
    requires k <= |items| && forall i :: 0 <= i < k ==> items[i].Chunk?
    requires k < |items| ==> items[k].StreamError?
    ensures k == FirstError(items)
  {
  }

  function Size(item: Item): nat
  {
    if item.Chunk? then item.len else 0
  }

  /** The size of each item, in order. */
  function Lengths(items: seq<Item>): seq<nat>
  {
    if items == [] then [] else Lengths(items[..|items| - 1]) + [Size(items[|items| - 1])]
  }

  /** One more item adds its size at the end. */
  lemma LengthsSnoc(items: seq<Item>, k: nat)
    requires k < |items|
    ensures Lengths(items[..k + 1]) == Lengths(items[..k]) + [Size(items[k])]
  {
    assert items[..k + 1][..k] == items[..k];
  }

  /** The chunk lengths the harness counts from one opened object: those
      before the first error. */
  function ObjectBytes(o: OpenOutcome<Item>): seq<nat>
  {
    if o.Opened? then Lengths(o.items[..FirstError(o.items)]) else []
  }

  /** The name the for loop asks for in iteration j: that of block 100 * j
      (the body spells out Stride so that the solver sees linear
      arithmetic). */
  function Name(j: nat): (name: string)
    ensures |name| >= Keys.Width + |Keys.Extension|
  {
    Keys.BlockFileName(j * 100)
  }

  /** Within the run every name is ten digits spelling the block number,
      followed by the extension. */
  lemma NameShape(j: nat)
    requires j < Iterations
    ensures |Name(j)| == Keys.Width + |Keys.Extension|
    ensures Keys.AllDigits(Name(j)[..Keys.Width]) && Keys.ParseDecimal(Name(j)[..Keys.Width]) == j * Stride
    ensures Name(j)[Keys.Width..] == Keys.Extension
  {
    assert Keys.Pow10(Keys.Width) == 10_000_000_000;
    Keys.BlockFileNameShape(j * Stride);
  }

  /** The run never asks for the same object twice. */
  lemma NamesDistinct(j: nat, k: nat)
    requires j < Iterations && k < Iterations && j != k
    ensures Name(j) != Name(k)
  {
    NameShape(j);
    NameShape(k);
  }

  /** The object opened under `name` yields no error. */
  predicate Clean(reader: string -> OpenOutcome<Item>, name: string)
  {
    reader(name).Opened? && FirstError(reader(name).items) == |reader(name).items|
  }

  /** Every chunk length received from the first n objects of the run, in
      order. */
  ghost function Received(reader: string -> OpenOutcome<Item>, n: nat): seq<nat>
  {
    if n == 0 then [] else Received(reader, n - 1) + ObjectBytes(reader(Name(n - 1)))
  }

  /** The first n objects of the run opened and drained cleanly. */
  ghost predicate CleanPrefix(reader: string -> OpenOutcome<Item>, n: nat)
  {
    n <= Iterations && forall j :: 0 <= j < n ==> Clean(reader, Name(j))
  }

  /** The meter accounts for every chunk received from the first n objects,
      in order, with the first window started at the second reading of the
      clock. */
  ghost predicate Metering(reader: string -> OpenOutcome<Item>, gap: nat -> nat, n: nat, m: Meter, l: Ledger)
  {
    l.received == Received(reader, n) && Accounted(m, l) && l.starts[0] == Time(gap, 1)
  }

  /** The state of the run at the top of iteration n of the for loop: the
      objects opened so far drained cleanly and each passed the budget check,
      the budget checks' readings `budgetTicks` were taken in order and
      before the next reading `tick`, and the meter accounts for the chunks
      received. `now` is the time the next reading will show. */
  ghost predicate Running(reader: string -> OpenOutcome<Item>, gap: nat -> nat, n: nat,
                          m: Meter, l: Ledger, budgetTicks: seq<nat>, tick: nat, now: nat)
  {
    && CleanPrefix(reader, n) && Metering(reader, gap, n, m, l)
    && |budgetTicks| == n && WithinBudget(gap, budgetTicks) && Ascending(budgetTicks + [tick])
    && now == Time(gap, tick) && m.windowStart <= now
  }

  /** How a finished run ended: with all 1000 objects opened, at the first
      object that failed to open (whose name it reports), or inside the first
      object whose stream broke; every object before that one opened and
      drained cleanly. */
  ghost predicate EndedAsReported(reader: string -> OpenOutcome<Item>, r: Report)
  {
    && r.openCount <= Iterations
    && (r.end.AllOpened? ==> r.openCount == Iterations)
    && (r.end.OpenFailed? ==>
          r.openCount < Iterations && r.end.filename == Name(r.openCount) && reader(r.end.filename).OpenError?)
    && (r.end.StreamFailed? ==>
          r.openCount > 0 && reader(Name(r.openCount - 1)).Opened? && !Clean(reader, Name(r.openCount - 1)))
    && (forall j :: 0 <= j < r.openCount && !(r.end.StreamFailed? && j == r.openCount - 1) ==>
          Clean(reader, Name(j)))
  }

  /** What the returned report promises on its own: the run ended as
      reported, its total counts every chunk received from the objects it
      opened, the samples plus the open window add up to that total, and the
      summary line is printed exactly when no error occurred, showing more
      than the test duration after a budget stop. */
  ghost predicate Reported(reader: string -> OpenOutcome<Item>, r: Report)
  {
    && EndedAsReported(reader, r)
    && r.meter.totalBytes == Sum(Received(reader, r.openCount))
    && Sum(r.meter.samples) + r.meter.windowBytes == r.meter.totalBytes
    && (r.elapsed.Some? <==> r.end.AllOpened? || r.end.BudgetSpent?)
    && (r.end.BudgetSpent? ==> r.elapsed.value > TestDuration)
  }

  /** What a finished run promises: the report's own promises, the meter's
      ledger accounts for every chunk of every object opened, and the budget
      was kept. `l` is the ledger of the meter and `budgetTicks` the clock
      readings taken by the budget checks. */
  ghost predicate Completed(reader: string -> OpenOutcome<Item>, gap: nat -> nat, r: Report,
                            l: Ledger, budgetTicks: seq<nat>)
  {
    && Reported(reader, r)
    && Metering(reader, gap, r.openCount, r.meter, l)
    && BudgetKept(gap, budgetTicks, r.openCount - (if r.end.StreamFailed? then 1 else 0), r.end.BudgetSpent?)
  }

  /** The outcome of a run: its final report, and the clock readings its
      budget checks were taken at. */
  datatype Finish = Finish(report: Report, budgetTicks: seq<nat>)

  /** The clock and the meter after the `while let` loop drained `items`
      from `t`: every chunk before the first error is counted, in order. */
  ghost function DrainTally(gap: nat -> nat, t: Tally, items: seq<Item>): Tally
    decreases |items|
  {
    if items == [] || items[0].StreamError? then t
    else DrainTally(gap, CountStep(gap, t, items[0].len), items[1..])
  }

  /** One more item in front adds its size in front. */
  lemma {:induction false} LengthsCons(x: Item, items: seq<Item>)
    ensures Lengths([x] + items) == [Size(x)] + Lengths(items)
    decreases |items|
  {
    if items != [] {
      var front := items[..|items| - 1];
      assert ([x] + items)[..|items|] == [x] + front;
      LengthsCons(x, front);
    }
  }

  /** Draining adds to the total exactly the bytes of the chunks before the
      first error, reads the clock at least once per chunk, and only appends
      to the closed windows. */
  lemma {:induction false} DrainTallyCounts(gap: nat -> nat, t: Tally, items: seq<Item>)
    ensures DrainTally(gap, t, items).meter.totalBytes
            == t.meter.totalBytes + Sum(Lengths(items[..FirstError(items)]))
    ensures t.tick + FirstError(items) <= DrainTally(gap, t, items).tick
    ensures t.meter.samples <= DrainTally(gap, t, items).meter.samples
    decreases |items|
  {
    if items != [] && items[0].Chunk? {
      var rest := items[1..];
      var e := FirstError(items);
      DrainTallyCounts(gap, CountStep(gap, t, items[0].len), rest);
      assert items[..e] == [items[0]] + rest[..e - 1];
      LengthsCons(items[0], rest[..e - 1]);
      SumConcat([items[0].len], Lengths(rest[..e - 1]));
    }
  }

  /** The run from the top of iteration n of the for loop, computed from the
      clock, with `tick` the next reading, `m` the meter and `budgetTicks`
      the readings of the budget checks so far: open `Name(n)` and count the
      chunks before its first error into the meter; a clean object goes on
      to the budget check. After the 1000th object the summary line reads
      the clock once more. */
  ghost function RunFrom(reader: string -> OpenOutcome<Item>, gap: nat -> nat, n: nat,
                         tick: nat, m: Meter, budgetTicks: seq<nat>): Finish
    requires n <= Iterations
    decreases Iterations - n, 1
  {
    if n == Iterations then Finish(Report(AllOpened, n, m, Some(Time(gap, tick))), budgetTicks)
    else if reader(Name(n)).OpenError? then Finish(Report(OpenFailed(Name(n)), n, m, None), budgetTicks)
    else
      var drained := DrainTally(gap, Tally(tick, m), reader(Name(n)).items);
      if !Clean(reader, Name(n)) then Finish(Report(StreamFailed, n + 1, drained.meter, None), budgetTicks)
      else CheckFrom(reader, gap, n, drained, budgetTicks)
  }

  /** The rest of the run after object n drained cleanly, leaving the clock
      and the meter at `drained`: the budget check takes the next reading;
      above the test duration the run ends and the summary line reads the
      clock once more, otherwise the for loop goes on. */
  ghost function CheckFrom(reader: string -> OpenOutcome<Item>, gap: nat -> nat, n: nat,
                           drained: Tally, budgetTicks: seq<nat>): Finish
    requires n < Iterations
    decreases Iterations - n, 0
  {
    if Time(gap, drained.tick) > TestDuration then
      Finish(Report(BudgetSpent, n + 1, drained.meter, Some(Time(gap, drained.tick + 1))),
             budgetTicks + [drained.tick])
    else RunFrom(reader, gap, n + 1, drained.tick + 1, drained.meter, budgetTicks + [drained.tick])
  }

  /** The budget check after a clean object, taken at reading `tick` with
      the meter at `m`, ends the run or goes on with the next object. */
  lemma CheckFromUnfold(reader: string -> OpenOutcome<Item>, gap: nat -> nat, n: nat,
                        tick: nat, m: Meter, budgetTicks: seq<nat>)
    requires n < Iterations
    ensures Time(gap, tick) > TestDuration ==>
              CheckFrom(reader, gap, n, Tally(tick, m), budgetTicks)
              == Finish(Report(BudgetSpent, n + 1, m, Some(Time(gap, tick + 1))), budgetTicks + [tick])
    ensures Time(gap, tick) <= TestDuration ==>
              CheckFrom(reader, gap, n, Tally(tick, m), budgetTicks)
              == RunFrom(reader, gap, n + 1, tick + 1, m, budgetTicks + [tick])
  {
  }

  /** After the 1000th object the run ends, and the summary line shows the
      time of the next reading. */
  lemma RunFromEnd(reader: string -> OpenOutcome<Item>, gap: nat -> nat, tick: nat, m: Meter, budgetTicks: seq<nat>)
    ensures RunFrom(reader, gap, Iterations, tick, m, budgetTicks)
            == Finish(Report(AllOpened, Iterations, m, Some(Time(gap, tick))), budgetTicks)
  {
  }

  /** The whole run of `main`: reading 0 is `start`, reading 1 starts the
      first window, and the for loop begins at reading 2. */
  ghost function RunSpec(reader: string -> OpenOutcome<Item>, gap: nat -> nat): Finish
  {
    RunFrom(reader, gap, 0, 2, Meter(0, 0, Time(gap, 1), []), [])
  }

  /** The state before the first iteration. */
  lemma StartRunning(reader: string -> OpenOutcome<Item>, gap: nat -> nat, windowStart: nat, tick: nat, now: nat)
    requires windowStart == Time(gap, 1) && now == Time(gap, tick) && windowStart <= now
    ensures Running(reader, gap, 0, Meter(0, 0, windowStart, []), Ledger([], [], [], [windowStart]), [], tick, now)
  {
  }

  /** An object that drained cleanly and passed the budget check, whose
      reading `checkTick` saw at most the test duration, extends the run by
      one. */
  lemma KeepRunning(reader: string -> OpenOutcome<Item>, gap: nat -> nat, n: nat, budgetTicks: seq<nat>,
                    m: Meter, l: Ledger, checkTick: nat, tick: nat, now: nat)
    requires CleanPrefix(reader, n) && n < Iterations
    requires |budgetTicks| == n && Ascending(budgetTicks + [checkTick])
    requires Clean(reader, Name(n)) && Metering(reader, gap, n + 1, m, l)
    requires now == Time(gap, tick) && m.windowStart <= now
    requires Time(gap, checkTick) <= TestDuration && checkTick < tick
    ensures Running(reader, gap, n + 1, m, l, budgetTicks + [checkTick], tick, now)
  {
    AscendingSnoc(budgetTicks + [checkTick], tick);
  }

  /** The run after an object failed to open; `tick` is the next reading. */
  lemma StopOnOpen(reader: string -> OpenOutcome<Item>, gap: nat -> nat, n: nat,
                   m: Meter, l: Ledger, budgetTicks: seq<nat>, tick: nat)
    requires CleanPrefix(reader, n) && Metering(reader, gap, n, m, l) && n < Iterations
    requires |budgetTicks| == n && WithinBudget(gap, budgetTicks) && Ascending(budgetTicks + [tick])
    requires reader(Name(n)).OpenError?
    ensures Completed(reader, gap, Report(OpenFailed(Name(n)), n, m, None), l, budgetTicks)
  {
    BudgetHeld(gap, budgetTicks, tick);
    WindowedTotal(l.received, l.closed, l.open, m.samples, m.windowBytes);
  }

  /** The run after the stream of an object yielded an error; `tick` is
      the reading before the object was opened. */
  lemma StopOnStream(reader: string -> OpenOutcome<Item>, gap: nat -> nat, n: nat, budgetTicks: seq<nat>,
                     m: Meter, l: Ledger, tick: nat)
    requires CleanPrefix(reader, n) && n < Iterations
    requires |budgetTicks| == n && WithinBudget(gap, budgetTicks) && Ascending(budgetTicks + [tick])
    requires reader(Name(n)).Opened? && !Clean(reader, Name(n))
    requires Metering(reader, gap, n + 1, m, l)
    ensures Completed(reader, gap, Report(StreamFailed, n + 1, m, None), l, budgetTicks)
  {
    BudgetHeld(gap, budgetTicks, tick);
    WindowedTotal(l.received, l.closed, l.open, m.samples, m.windowBytes);
  }

  /** The run after the budget check, whose reading `checkTick` came after
      the earlier ones, saw more than the test duration; `elapsed` is read
      no earlier. */
  lemma StopOnBudget(reader: string -> OpenOutcome<Item>, gap: nat -> nat, n: nat, budgetTicks: seq<nat>,
                     m: Meter, l: Ledger, checkTick: nat, elapsed: nat)
    requires CleanPrefix(reader, n) && n < Iterations
    requires |budgetTicks| == n && WithinBudget(gap, budgetTicks) && Ascending(budgetTicks + [checkTick])
    requires Clean(reader, Name(n)) && Metering(reader, gap, n + 1, m, l)
    requires TestDuration < Time(gap, checkTick) <= elapsed
    ensures Completed(reader, gap, Report(BudgetSpent, n + 1, m, Some(elapsed)), l, budgetTicks + [checkTick])
  {
    var r := Report(BudgetSpent, n + 1, m, Some(elapsed));
    BudgetSpentKept(gap, budgetTicks, checkTick);
    assert BudgetKept(gap, budgetTicks + [checkTick], r.openCount, true);
    WindowedTotal(l.received, l.closed, l.open, m.samples, m.windowBytes);
    assert Reported(reader, r);
  }

  /** The run after all 1000 iterations; `tick` is the next reading. */
  lemma StopAll(reader: string -> OpenOutcome<Item>, gap: nat -> nat, n: nat,
                m: Meter, l: Ledger, budgetTicks: seq<nat>, tick: nat, elapsed: nat)
    requires CleanPrefix(reader, n) && Metering(reader, gap, n, m, l) && n == Iterations
    requires |budgetTicks| == n && WithinBudget(gap, budgetTicks) && Ascending(budgetTicks + [tick])
    ensures Completed(reader, gap, Report(AllOpened, n, m, Some(elapsed)), l, budgetTicks)
  {
    BudgetHeld(gap, budgetTicks, tick);
    WindowedTotal(l.received, l.closed, l.open, m.samples, m.windowBytes);
  }
}
