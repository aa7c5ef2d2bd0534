# object-store-rs read benchmark, modelled in Dafny

object-store-rs is a read-throughput benchmark for numbered block objects
(`0000000000.dbin.zst`, `0000000100.dbin.zst`, ...). The objects sit in an
object store: a Google Cloud Storage bucket or a local directory. The model
covers three parts of it.

- **Store resolution and key joining** (`src/store.rs`, module `Store`). A
  parsed store URL resolves to a backend and a base path. An object key
  is joined onto that base. These are pure functions on strings, with
  the error cases as values of a `Resolution` datatype.
- **The Rust harness** (`src/main.rs`, modules `RustHarness` and `RustRun`).
  It opens at most 1000 objects, for blocks 0, 100, 200, .... It drains
  each stream while keeping a running total and a five-second rate
  window. After each object it checks a 120-second budget.
  - The loops are imperative methods with loop invariants.
  - Each method is proved against specification predicates stated in
    `RustHarness`, such as `Running` and `Completed`.
- **The Go harness** (`go/main.go`, modules `GoHarness` and `GoRun`). It
  does the same accounting, plus a block offset with 64-bit wrap-around.
  It also times each open and counts fetches.
  - Its loop has no iteration cap.
  - A `Read` that reports `io.EOF` has its bytes dropped.

Two modules are shared by both harnesses:
- `Keys`: zero-padded decimal names, and their parse-back round trip.
- `Windows`: the rate-window accounting, with a ghost `Ledger` that records
  every chunk and every window.

`Common` holds small shared values:
- `Option`;
- the outcome of opening an object;
- byte sums;
- the clock.

**Clock.** The clock is an input `gap: nat -> nat`. Reading `t` of a run
shows `Time(gap, t)` nanoseconds, and the next reading comes `gap(t)`
later, so any monotone clock has this form. `Common.ReadClock` is one
reading. Every `Instant::now()`, `elapsed()`, `time.Now()` and
`time.Since(...)` of the source is one call to it, in the source's order.

**Store.** The backend is an input as well:
- the Rust harness takes `reader(name)`, which for a resolved store is
  `Store.ObjectReader(store, get, name)`;
- the Go harness takes `reader(name)`, standing for `store.OpenObject`.

Either yields the object's stream of items, or an open error.

**Behaviours of the code worth noting**, all modelled as written:
- `join_path` trims every leading `/` from the key, not just one.
- `join_path` always inserts one `/`. An empty base gives `"/x"`, not
  `"x"`, and a base ending in `/` gives a doubled separator, before
  `Path::from` normalises the string.
- A gs base loses exactly one leading `/`.
- Both harnesses test the window before adding the chunk. After a flush
  the window holds just that chunk.
- The Go loop has no 1000-iteration cap.

## Model

| member | source | states |
|---|---|---|
| Store.NewStore | src/store.rs:30-59 | `s3` resolves to the unimplemented outcome exactly when the scheme is s3; a gs URL without host fails with "No bucket" exactly then; any scheme other than s3/gs/file fails with an error naming that scheme, and only those do; a gs URL with a host resolves if and only if the client for that bucket builds, and a file URL if and only if the client for its path builds; a client failure names exactly the backend of the URL, which could not be built; a resolved gs store uses the host as bucket and `GsBase` of the path as base; a resolved file store has an empty base |
| Store.GsBase | src/store.rs:44-47 | a path starting with `/` loses exactly that one character; any other path is kept verbatim |
| Store.TrimLeadingSlashes | src/store.rs:73 | the trimmed key is no longer than the key and never starts with `/` |
| Store.TrimShape | src/store.rs:73 | the trimmed key is a suffix of the key, never starts with `/`, and everything cut off was `/` |
| Store.TrimSplits | src/store.rs:73 | the key is a run of slashes followed by its trimmed form |
| Store.TrimIdempotent | src/store.rs:73 | trimming twice is trimming once |
| Store.JoinPath | src/store.rs:72-74 | the base is a proper prefix of the joined path |
| Store.JoinPathAfterBase | src/store.rs:72-74 | the joined path is the base, then one `/`, then the trimmed key |
| Store.JoinPathShape | src/store.rs:72-74 | the joined path starts with the base and `/`; the rest is a suffix of the key that does not start with `/`, and only slashes of the key were dropped |
| Store.JoinPathIgnoresLeadingSlashes | src/store.rs:73 | any number of extra leading slashes on a key gives the same joined path |
| Store.ObjectReader | src/store.rs:63-67 | a key that does not start with `/` is asked of the backend at `base + "/" + key` |
| Store.ObjectReaderIgnoresLeadingSlashes | src/store.rs:63-70 | `object_reader` for `"/"*n + key` and for `key` asks the backend for the same path |
| Store.JoinPathPlainKey | src/store.rs:73 | a key not starting with `/` comes unchanged after `base + "/"` |
| Store.JoinPathSameIff | src/store.rs:72-74 | two keys join to the same path under one base if and only if their trimmed forms are equal |
| Store.FileStorePath | src/store.rs:50-56 | a buildable file URL resolves, and every key is looked up at `"/"` followed by the trimmed key |
| Store.GsBaseStripsOnce | src/store.rs:44-47 | the gs base of `"//a"` is `"/a"`, while trimming gives `"a"`; an empty base joins `"///x"` to `"/x"` |
| Keys.Decimal | src/main.rs:32 | the decimal spelling of any number is non-empty |
| Keys.Zeros | src/main.rs:32 | the padding of k zeros has length k |
| Keys.ZeroPad | src/main.rs:32 | padding to width w gives length max(w, length of the string) |
| Keys.Padded | go/main.go:50 | the padded name has length max(10, number of digits) |
| Keys.BlockFileName | src/main.rs:32 | the name is at least 19 characters long: ten for the padded digits and nine for `.dbin.zst` |
| Keys.DecimalDigits | src/main.rs:32 | the decimal spelling is non-empty digits, with no leading zero unless it is `"0"`, and its last digit is that of `n % 10` |
| Keys.DecimalLength | src/main.rs:32 | a number below `10^k` has at most k digits |
| Keys.DecimalRoundTrip | src/main.rs:32 | parsing the decimal spelling gives the number back |
| Keys.ZerosShape | src/main.rs:32 | the padding of k zeros has length k and only `'0'` |
| Keys.ZeroPadShape | src/main.rs:32 | padding to width w gives length max(w, length) and is zeros followed by the original string |
| Keys.ParseZeros | src/main.rs:32 | a run of zeros parses to 0 |
| Keys.ParseLeadingZeros | src/main.rs:32 | leading zeros do not change the parsed value |
| Keys.PaddedRoundTrip | go/main.go:50 | the zero-padded name is all digits and parses back to the block number |
| Keys.PaddedInjective | go/main.go:50 | two blocks get the same padded name if and only if they are equal |
| Keys.BlockFileNameParts | src/main.rs:32 | for every block number the name ends in `.dbin.zst`, and what comes before it is at least ten characters, all digits, that parse back to the block number |
| Keys.BlockFileNameShape | src/main.rs:32 | below `10^10` the name is exactly ten digits then `.dbin.zst`, and the digits parse back to the block number |
| Keys.FirstExample | src/main.rs:31-32 | block 0 is named `0000000000.dbin.zst` |
| Keys.PaddedExample | src/main.rs:31-32 | block 12345 is named `0000012345.dbin.zst` |
| Common.ReadClock | src/main.rs:40-43 | a reading shows the current time of the clock and advances it by the gap of that reading, keeping `now` the time of the next reading |
| Common.TimeMonotone | src/main.rs:40-44 | a later reading never shows an earlier time |
| Common.AscendingBounded | src/main.rs:50 | in readings taken in order, a bound on one reading's time bounds every earlier reading |
| Windows.WindowedTotal | src/main.rs:41-47 | the emitted samples plus the open window add up to every byte received |
| Windows.MeteredFlush | src/main.rs:40-44 | a flush emits the window as a sample, opens an empty window, and moves the window start to a reading more than 5 s after the previous start |
| Windows.AccountedAdd | src/main.rs:46-47 | adding a chunk adds it to the total and to the open window, keeping the accounting |
| Windows.WindowWithinTotal | src/main.rs:46-47 | the window bytes never exceed the total bytes |
| Windows.CountChunk | src/main.rs:40-47 | the window is checked before the chunk is added. On a flush the old window becomes a sample, the window holds just this chunk, and the window start becomes the time of the reading after the test, appended to the ledger's starts. Otherwise the chunk is added to the window and the window start is unchanged. The total grows by the chunk; the accounting invariant is kept and the clock moves forward. The new clock and meter are one step of `CountStep`, the clock-driven reference definition of counting a chunk |
| Budget.BudgetChecks | src/main.rs:50-52 | in a run that kept its budget, a budget check saw more than 120 s exactly when it was the last check of a run that ended on the budget |
| Budget.BudgetSpentKept | src/main.rs:50-52 | a run that stops at a check above 120 s, taken after the earlier checks, which all saw at most 120 s, kept the budget |
| Budget.BudgetHeld | go/main.go:79-81 | a run that ended otherwise than on the budget, after checks that all saw at most 120 s and came before a later reading, kept the budget with one check per clean object |
| RustHarness.FirstError | src/main.rs:39 | the index where the `while let` loop stops: every earlier item is a chunk, and the item there, if any, is an error |
| RustHarness.FirstErrorUnique | src/main.rs:39 | that index is the only one with those two properties |
| RustHarness.Name | src/main.rs:30-32 | the name of iteration j is at least 19 characters long, room for ten digits and `.dbin.zst` |
| RustHarness.NameShape | src/main.rs:30-32 | for iteration j below 1000 the name is ten digits that parse to `j * 100`, then `.dbin.zst`, so blocks 0, 100, 200, ... are asked for in increasing order |
| RustHarness.NamesDistinct | src/main.rs:30-32 | no two iterations open the same object |
| RustHarness.LengthsCons | src/main.rs:39-47 | one more item in front of a stream puts its size in front of the sizes |
| RustHarness.DrainTallyCounts | src/main.rs:39-47 | draining a stream by the reference fold adds to the total exactly the bytes of the chunks before the first error, reads the clock at least once per chunk, and only appends to the samples |
| RustHarness.RunFromEnd | src/main.rs:53-59 | after the 1000th object the reference run ends with every object opened and a summary showing the next reading |
| RustHarness.CheckFromUnfold | src/main.rs:50-52 | in the reference run, a budget check above 120 s ends the run with a summary showing the next reading, and one at most 120 s goes on with the next object at the next reading, the check recorded |
| RustHarness.StartRunning | src/main.rs:22-28 | the initial zero accumulators satisfy the loop invariant |
| RustHarness.KeepRunning | src/main.rs:50-52 | a clean object whose budget check, taken after the earlier ones, saw at most 120 s extends the invariant by one object and one check |
| RustHarness.StopOnOpen | src/main.rs:34-37 | an open error ends the run reporting that file name, with everything before it clean and accounted |
| RustHarness.StopOnStream | src/main.rs:39 | a stream error ends the run inside that object, with its earlier chunks counted |
| RustHarness.StopOnBudget | src/main.rs:50-59 | a budget check above 120 s ends the run after that object, and the summary shows more than 120 s |
| RustHarness.StopAll | src/main.rs:30-59 | after 1000 clean objects the run ends with all of them accounted |
| RustRun.DrainStep | src/main.rs:40-47 | one chunk moves the clock and the meter by exactly one `CountStep` and extends the received bytes by its length |
| RustRun.Drain | src/main.rs:39-48 | the loop stops at the first error (or the end); the clock and the meter it leaves are those of the reference fold `DrainTally` of `CountStep` over the stream, so every flush is where the clock puts it; the ledger has received exactly the chunk lengths before the error, in order; the window starts only grow |
| RustRun.Visit | src/main.rs:31-48 | opening and draining object n either ends the run with the report of the reference run from that pass, or leaves the object clean with the meter accounting for n + 1 objects and the reference run continuing at the budget check from the clock and meter reached |
| RustRun.CheckBudget | src/main.rs:50-59 | the check is one more clock reading, recorded among the budget ticks. It stops the run exactly when the time of that reading exceeds 120 s, and the report then is a budget stop after n + 1 objects whose summary shows the next reading. Otherwise the invariant is kept and the clock moves one reading on |
| RustRun.Iterate | src/main.rs:30-53 | pass n either keeps the loop invariant for pass n + 1, with the reference run from there giving the same outcome as from pass n, or ends the run as `Completed` with the outcome of the reference run |
| RustRun.Loop | src/main.rs:30-59 | the for loop from pass n0 ends with exactly the report and budget-check readings of the reference run from pass n0, and the run is `Completed` |
| RustRun.Run | src/main.rs:22-60 | the report and the budget-check readings are exactly those of the reference run `RunSpec` computed from the clock and the store. The run ends at an open error, a stream error, the budget or after 1000 objects; every earlier object was clean; the total is every byte received; samples plus window equal the total; the summary is printed exactly when no error occurred. One budget check was made per clean object, at clock readings in increasing order, and the run ended on the budget exactly when the last check saw more than 120 s, every earlier one having seen at most 120 s |
| GoHarness.BlockNumber | go/main.go:49 | the block number is below 2^64 |
| GoHarness.BlockNumberExact | go/main.go:49 | without wrap-around the block is exactly `i * 100 + offset` |
| GoHarness.BlockNumberNext | go/main.go:48-49 | each iteration asks for the previous block plus 100, modulo 2^64 |
| GoHarness.BlockNumbersIncrease | go/main.go:48-49 | without wrap-around later iterations ask for blocks at least 100 larger |
| GoHarness.Name | go/main.go:49-50 | the name of iteration i has at least ten characters |
| GoHarness.NameRoundTrip | go/main.go:50 | the name has at least ten digits and parses back to the block number; below 10^10 it has exactly ten |
| GoHarness.FirstStop | go/main.go:61-66 | the index where the inner loop stops: every earlier Read returned data, and the Read there, if any, did not |
| GoHarness.FirstStopUnique | go/main.go:61-66 | that index is the only one with those two properties |
| GoHarness.EofBytesIgnored | go/main.go:62-65 | the bytes of the Read that returns `io.EOF`, and everything after it, are never counted, and the object is not broken |
| GoHarness.AverageFetch | go/main.go:86 | the average fetch time is the floor of the total fetch time over the fetch count: `average * count <= total < (average + 1) * count` |
| GoHarness.TimedAdd | go/main.go:58-59 | one more timed open adds one fetch and its duration |
| GoHarness.StartRunning | go/main.go:34-43 | the initial zero counters satisfy the loop invariant |
| GoHarness.KeepRunning | go/main.go:79-81 | a clean object whose budget check, taken after the earlier ones, saw at most 120 s extends the invariant by one object and one check |
| GoHarness.StopOnOpen | go/main.go:53-55 | an open error ends the run at that object, with no summary; the report names the cause, not the file |
| GoHarness.StopOnRead | go/main.go:62-66 | a read error ends the run inside that object, with no summary |
| GoHarness.StopOnBudget | go/main.go:79-86 | a budget stop has at least one fetch, so the average-fetch division is defined, and the summary shows more than 120 s |
| GoHarness.DrainTally | go/main.go:61-76 | the reference fold of `CountStep` over the data Reads before the first `io.EOF` or error never moves the clock back |
| GoHarness.CountsCons | go/main.go:61-76 | one more Read in front puts its byte count in front of the counts |
| GoHarness.DrainTallyCounts | go/main.go:61-76 | reading an object through by the reference fold adds to the total exactly the bytes of the data Reads before the first `io.EOF` or error, reads the clock at least once per data Read, and only appends to the samples |
| GoHarness.Deadline | go/main.go:79-81 | for a clock that passes 120 s, a reading that shows more than 120 s |
| GoHarness.BeforeDeadline | go/main.go:79-81 | a budget check that saw at most 120 s was taken before any reading past 120 s, which bounds the uncapped loop |
| GoHarness.RunFromOpenFailed | go/main.go:52-55 | in the reference run, a pass whose open fails ends the run there with nothing more counted |
| GoHarness.RunFromOpened | go/main.go:56-77 | in the reference run, a pass whose open succeeds at reading t counts one fetch lasting `gap(t)`, records t among the open readings, reads the object through from reading t + 2, and then ends at a read error or goes on to the budget check |
| GoHarness.CheckFromStops | go/main.go:79-86 | in the reference run, a budget check above 120 s ends the run with a summary of the average fetch and the next reading, the check recorded |
| GoHarness.CheckFromContinues | go/main.go:79-82 | in the reference run, a budget check at most 120 s was taken before the deadline and goes on with the next pass at the next reading, the check recorded |
| GoRun.DrainStep | go/main.go:68-75 | one data Read moves the clock and the meter by exactly one `CountStep` and extends the received bytes by its count |
| GoRun.Drain | go/main.go:61-76 | the inner loop stops at the first non-data Read; the clock and the meter it leaves are those of the reference fold `DrainTally` of `CountStep` over the Reads, so every flush is where the clock puts it; the ledger has received exactly the counts of the data Reads before it, in order; the window starts only grow |
| GoRun.ReadThrough | go/main.go:61-77 | reading an opened object leaves the clock and meter of the reference fold, and ends the run exactly when the object is broken, with a read-failure report after n + 1 objects; otherwise the object is clean with n + 1 objects accounted |
| GoRun.CountFetch | go/main.go:58-59 | the fetch count grows by one and the total fetch time by the duration of this open |
| GoRun.FetchAndRead | go/main.go:56-77 | after an open at reading t, the fetch is counted with duration `gap(t)` and t recorded, the object is read from reading t + 2 with the clock and meter of the reference fold, and the run ends at a read error exactly when the object is broken |
| GoRun.Visit | go/main.go:52-77 | the closure of pass n either ends the run with the report and open readings of the reference run from that pass, or counts one fetch timed from the pass's first reading, leaves the object clean, and the reference run continues at the budget check from the clock, meter and statistics reached |
| GoRun.CheckBudget | go/main.go:79-95 | the check is one more clock reading, recorded among the budget ticks. It stops the run exactly when the time of that reading exceeds 120 s, with a budget-stop report whose summary holds the average fetch time and the next reading; otherwise the invariant is kept and the clock moves one reading on |
| GoRun.Iterate | go/main.go:48-82 | pass n either keeps the loop invariant for pass n + 1, before the deadline, with the reference run from there giving the same outcome as from pass n, or ends the run as `Completed` with the outcome of the reference run |
| GoRun.Run | go/main.go:34-95 | the report, the open readings and the budget-check readings are exactly those of the reference run `RunSpec` computed from the clock, the store and the offset. The run ends only at an open error, a read error or the budget, never by a cap. Every earlier object was clean. The total is every byte counted. Each open was counted and timed once. The summary appears exactly after a budget stop, with at least one fetch. One budget check was made per clean object, at clock readings in increasing order, and only the last check of a budget stop saw more than 120 s |

## Left out

- URL parsing, `std::fs::canonicalize` and turning a bare path into a
  `file://` URL (src/store.rs:16-28) are not modelled. They are foreign
  parsing and filesystem I/O; the model takes a parsed (scheme, host, path)
  record.
- `Path::from` normalisation of the joined string (src/store.rs:73) is
  foreign code. The model stops at the formatted string.
- The GCS and local-filesystem backends, their builders, and
  `dstore.NewStore` are not modelled. `OpenObject` and the store's
  extension handling are left out too. Whether a client builds is the
  input `builds`. What an open yields is the input `reader` (or `get`).
- The async runtime (`tokio`, `BoxStream`, `try_next`) is modelled as a
  finite sequence of items pulled in order.
- `bytes_rate`, `bytesRate` and `percentageOfTotalTime` are floating-point
  helpers. `humansize`/`humanize` formatting and all printing are left out
  too. The model keeps the integers they are computed from: the samples,
  the totals, the average fetch time and the elapsed time.
- `readBlockOffset` (go/main.go:102-107) is a foreign parser. The offset is
  an input below 2^64.
- Argument checks, `os.Exit`, `process::exit` and `cli.NoError` exits are
  not modelled as process exits. An error ends the run with a report
  naming its cause.
- `defer reader.Close()` (go/main.go:56) has no observable effect in the
  model.
- Go's read buffer size (go/main.go:27) is not modelled. It only bounds the
  count of each Read, which is an input.
- RustRun.Run: does not model overflow of the `usize` byte total. The
  accumulators are unbounded.
- GoRun.Run: does not model overflow of the `int` byte totals or of the
  `time.Duration` fetch total. The accumulators are unbounded.
- GoRun.Run: requires that the clock eventually passes 120 s. The
  uncapped loop needs this to end, and otherwise it would never stop.
