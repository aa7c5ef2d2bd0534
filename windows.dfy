/** The rolling throughput window both benchmark programs keep while they
    drain objects: a running byte total, and a window that is flushed (its
    byte count emitted as a sample) when it has been open longer than five
    seconds at the arrival of a chunk. */
module Windows {
  import opened Common

  const WindowPeriod: nat := 5_000_000_000  // 5 s, in nanoseconds

  /** The accumulators both programs keep in local variables: the running
      total, the bytes and start time of the open window, and the samples
      printed at each flush (the byte counts the rate helper turns into a
      rate). */
  datatype Meter = Meter(totalBytes: nat, windowBytes: nat, windowStart: nat, samples: seq<nat>)

  /** All chunk lengths of a sequence of windows, in order. */
  function Flatten(windows: seq<seq<nat>>): seq<nat>
  {
    if windows == [] then [] else Flatten(windows[..|windows| - 1]) + windows[|windows| - 1]
  }

  /** The rate-window accounting of both harnesses. `received` lists every
      chunk length added so far, in order, cut into the windows already closed
      by a flush (`closed`) followed by the window still open (`open`). Flush
      j emitted `samples[j]`, the bytes of closed window j, and `window` is
      what the open window holds. */
  ghost predicate Windowed(received: seq<nat>, closed: seq<seq<nat>>, open: seq<nat>,
                           samples: seq<nat>, window: nat)
  {
    && received == Flatten(closed) + open
    && |samples| == |closed|
    && (forall j :: 0 <= j < |closed| ==> samples[j] == Sum(closed[j]))
    && window == Sum(open)
  }

  /** Adding a chunk to the open window keeps the accounting. */
  lemma WindowedAdd(received: seq<nat>, closed: seq<seq<nat>>, open: seq<nat>,
                    samples: seq<nat>, window: nat, x: nat)
    requires Windowed(received, closed, open, samples, window)
    ensures Windowed(received + [x], closed, open + [x], samples, window + x)
  {
    SumSnoc(open, x);
  }

  /** A flush emits the open window as a sample and opens an empty one. */
  lemma WindowedFlush(received: seq<nat>, closed: seq<seq<nat>>, open: seq<nat>,
                      samples: seq<nat>, window: nat)
    requires Windowed(received, closed, open, samples, window)
    ensures Windowed(received, closed + [open], [], samples + [window], 0)
  {
    assert (closed + [open])[..|closed|] == closed;
  }

  /** Every byte received is either in an emitted sample or in the open
      window: the sum of all samples plus the open window is the total. */
  lemma {:induction false} WindowedTotal(received: seq<nat>, closed: seq<seq<nat>>, open: seq<nat>,
                                         samples: seq<nat>, window: nat)
    requires Windowed(received, closed, open, samples, window)
    ensures Sum(samples) + window == Sum(received)
    decreases |closed|
  {
    SumConcat(Flatten(closed), open);
    if closed != [] {
      var n := |closed| - 1;
      var earlier := Flatten(closed[..n]);
      WindowedTotal(earlier + closed[n], closed[..n], closed[n], samples[..n], samples[n]);
      assert samples == samples[..n] + [samples[n]];
      SumSnoc(samples[..n], samples[n]);
    }
  }

  /** The bookkeeping behind the meter: every chunk length received so far,
      in order; the same lengths cut into the windows closed by a flush and
      the window still open; and the start time of every window. */
  datatype Ledger = Ledger(received: seq<nat>, closed: seq<seq<nat>>, open: seq<nat>, starts: seq<nat>)

  /** The meter agrees with its ledger: the total is the sum of everything
      received, the samples and the open window cut it into windows, and the
      window start moved only at a flush, each time to a reading taken more
      than one period after the previous start. */
  ghost predicate Metered(m: Meter, l: Ledger)
  {
    && m.totalBytes == Sum(l.received)
    && Windowed(l.received, l.closed, l.open, m.samples, m.windowBytes)
    && |l.starts| == |m.samples| + 1 && l.starts[|l.starts| - 1] == m.windowStart
    && (forall j :: 0 <= j < |l.starts| - 1 ==> l.starts[j] + WindowPeriod < l.starts[j + 1])
  }

  /** Metered, between two chunks: besides, every flush happened with a chunk
      in hand, and that chunk opened the next window. */
  ghost predicate Accounted(m: Meter, l: Ledger)
  {
    Metered(m, l) && (l.closed != [] ==> l.open != [])
  }

  /** The flush branch keeps the meter consistent. */
  lemma MeteredFlush(m: Meter, l: Ledger, restart: nat)
    requires Metered(m, l)
    requires m.windowStart + WindowPeriod < restart
    ensures Metered(m.(samples := m.samples + [m.windowBytes], windowBytes := 0, windowStart := restart),
                    Ledger(l.received, l.closed + [l.open], [], l.starts + [restart]))
  {
    WindowedFlush(l.received, l.closed, l.open, m.samples, m.windowBytes);
    var s := l.starts + [restart];
    forall j | 0 <= j < |s| - 1
      ensures s[j] + WindowPeriod < s[j + 1]
    {
      if j < |l.starts| - 1 {
        assert s[j] == l.starts[j] && s[j + 1] == l.starts[j + 1];
      }
    }
  }

  /** Counting a chunk keeps the meter consistent, and leaves the open window
      non-empty. */
  lemma AccountedAdd(m: Meter, l: Ledger, len: nat)
    requires Metered(m, l)
    ensures Accounted(m.(totalBytes := m.totalBytes + len, windowBytes := m.windowBytes + len),
                      l.(received := l.received + [len], open := l.open + [len]))
  {
    WindowedAdd(l.received, l.closed, l.open, m.samples, m.windowBytes, len);
    SumSnoc(l.received, len);
  }

  /** The window never holds more than the total: it counts a suffix of the
      chunks the total counts. */
  lemma WindowWithinTotal(m: Meter, l: Ledger)
    requires Metered(m, l)
    ensures m.windowBytes <= m.totalBytes
  {
    SumConcat(Flatten(l.closed), l.open);
  }

  /** The clock and the meter between two chunks: `tick` is the next
      reading and `meter` the accumulators. */
  datatype Tally = Tally(tick: nat, meter: Meter)

  /** The effect of counting a chunk of `len` bytes, as a function of the
      clock: one reading for the window test; when that reading shows more
      than a period since the window started, the window becomes a sample
      and a second reading starts the next one; then the chunk goes into the
      total and the window. */
  ghost function CountStep(gap: nat -> nat, t: Tally, len: nat): Tally
  {
    var m := t.meter;
    if Time(gap, t.tick) - m.windowStart > WindowPeriod then
      Tally(t.tick + 2, Meter(m.totalBytes + len, len, Time(gap, t.tick + 1), m.samples + [m.windowBytes]))
    else
      Tally(t.tick + 1, m.(totalBytes := m.totalBytes + len, windowBytes := m.windowBytes + len))
  }

  /** The body of the inner loop of both programs, for a chunk of `len`
      bytes: read the clock; if more than a period has passed since the
      window started, emit the window's bytes and restart the window at a
      fresh reading; then add the chunk to the total and to the window.
      `now` is the time the next reading will show. */
  method CountChunk(len: nat, gap: nat -> nat, tick0: nat, now0: nat, m0: Meter, ghost l0: Ledger)
    returns (tick: nat, now: nat, m: Meter, ghost l: Ledger)
    requires now0 == Time(gap, tick0) && m0.windowStart <= now0 && Accounted(m0, l0)
    ensures tick0 < tick && now0 <= now && now == Time(gap, tick) && m.windowStart <= now
    ensures m.totalBytes == m0.totalBytes + len
    ensures now0 - m0.windowStart > WindowPeriod ==>
              m.samples == m0.samples + [m0.windowBytes] && m.windowBytes == len
              && m.windowStart == Time(gap, tick0 + 1) && l.starts == l0.starts + [m.windowStart]
    ensures now0 - m0.windowStart <= WindowPeriod ==>
              m.samples == m0.samples && m.windowBytes == m0.windowBytes + len
              && m.windowStart == m0.windowStart && l.starts == l0.starts
    ensures l.received == l0.received + [len] && Accounted(m, l) && l.starts[0] == l0.starts[0]
    ensures Tally(tick, m) == CountStep(gap, Tally(tick0, m0), len)
  {
    var reading;  // the clock, read for the time since the window started
    reading, tick, now := ReadClock(gap, tick0, now0);
    var flush := reading - m0.windowStart > WindowPeriod;
    var restart := now;
    if flush {
      restart, tick, now := ReadClock(gap, tick, now);  // the new window start
    }
    assert now0 <= restart <= now && now == Time(gap, tick);
    m, l := m0, l0;
    if flush {
      MeteredFlush(m, l, restart);
      m := m.(samples := m.samples + [m.windowBytes], windowBytes := 0, windowStart := restart);
      l := Ledger(l.received, l.closed + [l.open], [], l.starts + [restart]);
    }
    AccountedAdd(m, l, len);
    m := m.(totalBytes := m.totalBytes + len, windowBytes := m.windowBytes + len);
    l := l.(received := l.received + [len], open := l.open + [len]);
  }
}
