/** Values shared by the store model and both benchmark harnesses: an optional
    value, the outcome of opening an object, byte sums and the monotone
    clock with its readings. */
module Common {

  datatype Option<+T> = None | Some(value: T)

  /** What the backend answers when an object is opened: the stream of items it
      will yield, in order, or a failure (object missing, transport fault). */
  datatype OpenOutcome<+T> = Opened(items: seq<T>) | OpenError

  /** Sum of a sequence of byte counts, accumulated from the left. */
  function Sum(s: seq<nat>): nat
  {
    if s == [] then 0 else Sum(s[..|s| - 1]) + s[|s| - 1]
  }

  lemma SumSnoc(s: seq<nat>, x: nat)
    ensures Sum(s + [x]) == Sum(s) + x
  {
    assert (s + [x])[..|s|] == s;
  }

  lemma {:induction false} SumConcat(a: seq<nat>, b: seq<nat>)
    ensures Sum(a + b) == Sum(a) + Sum(b)
    decreases |b|
  {
    if b == [] {
      assert a + b == a;
    } else {
      var b' := b[..|b| - 1];
      var x := b[|b| - 1];
      assert b == b' + [x];
      assert a + b == (a + b') + [x];
      SumConcat(a, b');
      SumSnoc(a + b', x);
      SumSnoc(b', x);
    }
  }

  /** Clock readings listed in the order they were taken. */
  ghost predicate Ascending(ticks: seq<nat>)
  {
    forall j, k :: 0 <= j < k < |ticks| ==> ticks[j] < ticks[k]
  }

  /** A later reading extends the list. */
  lemma AscendingSnoc(ticks: seq<nat>, t: nat)
    requires Ascending(ticks) && (ticks != [] ==> ticks[|ticks| - 1] < t)
    ensures Ascending(ticks + [t])
  {
    var ts := ticks + [t];
    forall j, k | 0 <= j < k < |ts|
      ensures ts[j] < ts[k]
    {
      if k == |ticks| && j < k - 1 {
        assert ticks[j] < ticks[k - 1];
      }
    }
  }

  /** The clock of a run, given by how far it advances between readings:
      reading number t (counting from 0, the run's start) shows Time(gap, t),
      and reading t + 1 comes gap(t) later. Any monotone clock (Rust's Instant,
      the monotonic part of Go's time.Time) is of this form. */
  ghost function Time(gap: nat -> nat, t: nat): nat
  {
    if t == 0 then 0 else Time(gap, t - 1) + gap(t - 1)
  }

  /** One reading of the clock: the time it shows, and the clock moved on
      to the next reading. `now` is the time reading `tick` shows. */
  method ReadClock(gap: nat -> nat, tick0: nat, now0: nat) returns (reading: nat, tick: nat, now: nat)
    requires now0 == Time(gap, tick0)
    ensures reading == now0 && tick == tick0 + 1
    ensures now == reading + gap(tick0) && now == Time(gap, tick)
  {
    reading, tick, now := now0, tick0 + 1, now0 + gap(tick0);
  }

  /** Later readings never show an earlier time. */
  lemma {:induction false} TimeMonotone(gap: nat -> nat, t: nat, u: nat)
    requires t <= u
    ensures Time(gap, t) <= Time(gap, u)
    decreases u
  {
    if t < u {
      TimeMonotone(gap, t, u - 1);
    }
  }

  /** Readings in order stay in order without the last one. */
  lemma AscendingInit(ticks: seq<nat>, t: nat)
    requires Ascending(ticks + [t])
    ensures Ascending(ticks)
  {
    forall j, k | 0 <= j < k < |ticks|
      ensures ticks[j] < ticks[k]
    {
      assert (ticks + [t])[j] == ticks[j] && (ticks + [t])[k] == ticks[k];
    }
  }

  /** A list in order before reading t is in order before any later one. */
  lemma AscendingLater(ticks: seq<nat>, t: nat, u: nat)
    requires Ascending(ticks + [t]) && t <= u
    ensures Ascending(ticks + [u])
  {
    AscendingInit(ticks, t);
    if ticks != [] {
      assert (ticks + [t])[|ticks| - 1] < (ticks + [t])[|ticks|];
    }
    AscendingSnoc(ticks, u);
  }

  /** In readings taken in order, a bound on the time shown by reading k
      bounds every earlier one. */
  lemma AscendingBounded(gap: nat -> nat, ticks: seq<nat>, k: nat, bound: nat)
    requires Ascending(ticks) && k < |ticks| && Time(gap, ticks[k]) <= bound
    ensures forall j :: 0 <= j <= k ==> Time(gap, ticks[j]) <= bound
  {
    forall j | 0 <= j <= k
      ensures Time(gap, ticks[j]) <= bound
    {
      TimeMonotone(gap, ticks[j], ticks[k]);
    }
  }
}
