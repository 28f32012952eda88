/**
 * A fixed-window moving-average accumulator.
 *
 * The structure keeps the full, append-only history of the values added to
 * it, a window size `n` chosen once at construction, and a running `sum`
 * together with a cursor `startIdx` that mark the last `min(|list|, n)`
 * values as "the window". Adding a value updates the sum incrementally:
 * the new value goes in and, once the window is full, the value leaving the
 * window comes out and the cursor moves on. The moving average divides the
 * sum by `n`, also while fewer than `n` values have been added.
 *
 * Values are modelled as `real`, so the running sum is exact.
 */
module MovingAverage {

  /** The two failures the structure signals. */
  datatype Error =
    | InvalidArgument(windowSize: int)   // construction with a window size below 1
    | IndexOutOfBounds(index: int)       // positional read outside the history

  datatype Result<T> = Ok(value: T) | Err(error: Error)

  // ---------------------------------------------------------------------------
  // Specification functions
  // ---------------------------------------------------------------------------

  function Min(a: int, b: int): int { if a <= b then a else b }

  function Max(a: int, b: int): int { if a >= b then a else b }

  /** The exact sum of a sequence of values. */
  function Sum(s: seq<real>): real
  {
    if s == [] then 0.0 else s[0] + Sum(s[1..])
  }

  /** Appending a value adds it to the sum. */
  lemma {:induction false} SumAppend(s: seq<real>, d: real)
    ensures Sum(s + [d]) == Sum(s) + d
  {
    if s == [] {
      assert s + [d] == [d];
    } else {
      assert (s + [d])[1..] == s[1..] + [d];
      SumAppend(s[1..], d);
    }
  }

  /** The last `min(|s|, n)` values of `s`: the window the average is taken over. */
  function Window(s: seq<real>, n: nat): (w: seq<real>)
    ensures |w| == Min(|s|, n)
  {
    if |s| <= n then s else s[|s| - n..]
  }

  /** A window one longer over a history one longer ends in the new value. */
  lemma WindowSnoc(s: seq<real>, k: nat, d: real)
    ensures Window(s + [d], k + 1) == Window(s, k) + [d]
  {
    var w := Window(s, k);
    assert (s + [d])[|s| - |w|..] == s[|s| - |w|..] + [d];
  }

  /**
   * An independent reference for the window sum: walk back from the newest
   * value, taking at most `k` of them.
   */
  function SumOfLast(s: seq<real>, k: nat): real
    decreases |s|
  {
    if k == 0 || s == [] then 0.0 else SumOfLast(s[..|s| - 1], k - 1) + s[|s| - 1]
  }

  /** The sum of the window is the sum of the last `n` values, counted one by one. */
  lemma {:induction false} WindowSumIsSumOfLast(s: seq<real>, n: nat)
    ensures Sum(Window(s, n)) == SumOfLast(s, n)
    decreases |s|
  {
    if n == 0 || s == [] {
      assert Window(s, n) == [];
    } else {
      var init, d := s[..|s| - 1], s[|s| - 1];
      assert init + [d] == s;
      WindowSnoc(init, n - 1, d);
      assert Window(s, n) == Window(init, n - 1) + [d];
      SumAppend(Window(init, n - 1), d);
      WindowSumIsSumOfLast(init, n - 1);
      assert SumOfLast(s, n) == SumOfLast(init, n - 1) + d;
    }
  }

  // ---------------------------------------------------------------------------
  // The bookkeeping of the accumulator, as values
  // ---------------------------------------------------------------------------

  /** The three mutable parts of the accumulator: history, cursor and running sum. */
  datatype Snapshot = Snapshot(list: seq<real>, startIdx: int, sum: real)

  /**
   * The invariant the accumulator keeps: the cursor leaves exactly the last
   * `min(|list|, n)` values in the window, and `sum` is their exact sum.
   */
  predicate Inv(s: Snapshot, n: int)
  {
    && n >= 1
    && 0 <= s.startIdx <= |s.list|
    && |s.list| - s.startIdx == Min(|s.list|, n)
    && s.sum == Sum(s.list[s.startIdx..])
  }

  /** What a freshly constructed accumulator holds. */
  function Initial(): Snapshot
  {
    Snapshot([], 0, 0.0)
  }

  /** The cursor is determined by the length of the history. */
  lemma CursorFromLength(s: Snapshot, n: int)
    requires Inv(s, n)
    ensures s.startIdx == Max(0, |s.list| - n)
    ensures s.list[s.startIdx..] == Window(s.list, n)
  {
  }

  /**
   * The read of the evicted value is in bounds whenever it happens: once the
   * history holds at least `n` values, the cursor is `|list| - n`, an index
   * into the history, and the value there is the oldest one in the window.
   */
  lemma EvictedIndexInBounds(s: Snapshot, n: int)
    requires Inv(s, n)
    requires |s.list| > n - 1
    ensures s.startIdx == |s.list| - n
    ensures 0 <= s.startIdx < |s.list|
    ensures s.list[s.startIdx] == Window(s.list, n)[0]
  {
  }

  /**
   * One `add(d)`: add `d` to the sum; if the window was already full, take the
   * value at the cursor out of the sum and advance the cursor; then append `d`.
   */
  function Step(s: Snapshot, n: int, d: real): (r: Snapshot)
    requires Inv(s, n)
    ensures Inv(r, n)
    ensures r.list == s.list + [d]
    ensures r.startIdx == if |s.list| >= n then s.startIdx + 1 else s.startIdx
    ensures r.sum == Sum(Window(r.list, n))
  {
    var sum := s.sum + d;
    if |s.list| > n - 1 then
      var r := Snapshot(s.list + [d], s.startIdx + 1, sum - s.list[s.startIdx]);
      assert s.list[s.startIdx..] == [s.list[s.startIdx]] + s.list[s.startIdx + 1..];
      assert r.list[r.startIdx..] == s.list[s.startIdx + 1..] + [d];
      SumAppend(s.list[s.startIdx + 1..], d);
      CursorFromLength(r, n);
      r
    else
      var r := Snapshot(s.list + [d], s.startIdx, sum);
      assert r.list[r.startIdx..] == s.list[s.startIdx..] + [d];
      SumAppend(s.list[s.startIdx..], d);
      CursorFromLength(r, n);
      r
  }

  /** The state after adding the values `ds`, in order, to a fresh accumulator. */
  function Replay(ds: seq<real>, n: int): (r: Snapshot)
    requires n >= 1
    ensures Inv(r, n)
    ensures r.list == ds
    decreases |ds|
  {
    if ds == [] then
      Initial()
    else
      var init, d := ds[..|ds| - 1], ds[|ds| - 1];
      assert init + [d] == ds;
      Step(Replay(init, n), n, d)
  }

  /**
   * After any run of adds, the cursor sits `n` values back from the end (or at
   * 0) and the running sum equals the sum of the last `min(|ds|, n)` values
   * added, recomputed independently from the history.
   */
  lemma ReplayWindow(ds: seq<real>, n: int)
    requires n >= 1
    ensures Replay(ds, n).startIdx == Max(0, |ds| - n)
    ensures Replay(ds, n).sum == SumOfLast(ds, n)
  {
    var r := Replay(ds, n);
    CursorFromLength(r, n);
    WindowSumIsSumOfLast(ds, n);
  }

  /**
   * The invariant pins the whole state down: any state satisfying it is the
   * one reached by adding its history, one value at a time, from empty.
   */
  lemma InvDeterminesState(s: Snapshot, n: int)
    requires Inv(s, n)
    ensures s == Replay(s.list, n)
  {
  }

  lemma DivideThenMultiply(x: real, n: int)
    requires n >= 1
    ensures (x / (n as real)) * (n as real) == x
  {
  }

  /** The moving average: the window sum divided by `n`, whatever the history's length. */
  function Average(s: Snapshot, n: int): (avg: real)
    requires Inv(s, n)
    ensures avg == Sum(Window(s.list, n)) / (n as real)
    ensures avg * (n as real) == Sum(Window(s.list, n))
    ensures |s.list| < n ==> avg == Sum(s.list) / (n as real)
  {
    CursorFromLength(s, n);
    DivideThenMultiply(s.sum, n);
    s.sum / (n as real)
  }

  // ---------------------------------------------------------------------------
  // The accumulator object
  // ---------------------------------------------------------------------------

  class DataStructureImpl {
    /** The window size, fixed at construction. */
    const n: int
    /** Every value ever added, oldest first. */
    var list: seq<real>
    /** The index of the oldest value still inside the window. */
    var startIdx: int
    /** The running sum of the window. */
    var sum: real

    function State(): Snapshot
      reads this
    {
      Snapshot(list, startIdx, sum)
    }

    ghost predicate Valid()
      reads this
    {
      Inv(State(), n)
    }

    /** Construction with an accepted window size; `Create` handles the rejected ones. */
    constructor (n: int)
      requires n >= 1
      ensures Valid()
      ensures this.n == n && list == [] && startIdx == 0 && sum == 0.0
    {
      this.n := n;
      list := [];
      startIdx := 0;
      sum := 0.0;
    }

    /** Construction: a window size below 1 is rejected, any other yields an empty accumulator. */
    static method Create(n: int) returns (r: Result<DataStructureImpl>)
      ensures r.Err? <==> n < 1
      ensures r.Err? ==> r.error == InvalidArgument(n)
      ensures r.Ok? ==> fresh(r.value) && r.value.Valid() && r.value.n == n
      ensures r.Ok? ==> r.value.State() == Initial()
    {
      if n < 1 {
        return Err(InvalidArgument(n));
      }
      var ds := new DataStructureImpl(n);
      return Ok(ds);
    }

    /** The moving average of the last `n` values added, always divided by `n`. */
    method GetMovingAverage() returns (avg: real)
      requires Valid()
      ensures avg * (n as real) == sum
      ensures avg == Average(State(), n)
    {
      avg := sum / (n as real);
      DivideThenMultiply(sum, n);
    }

    /** Appends `d` to the history and slides the window over it. */
    method Add(d: real)
      requires Valid()
      modifies this
      ensures Valid()
      ensures State() == Step(old(State()), n, d)
      ensures list == old(list) + [d]
      ensures startIdx == if |old(list)| >= n then old(startIdx) + 1 else old(startIdx)
      ensures sum == Sum(Window(list, n))
    {
      ghost var before := State();
      sum := sum + d;
      if |list| > n - 1 {
        EvictedIndexInBounds(before, n);
        sum := sum - list[startIdx];
        startIdx := startIdx + 1;
      }
      list := list + [d];
      assert State() == Step(before, n, d);
    }

    /** The `i`-th value ever added, or `IndexOutOfBounds` outside the history. */
    method Get(i: int) returns (r: Result<real>)
      requires Valid()
      ensures r.Ok? <==> 0 <= i < |list|
      ensures r.Ok? ==> r.value == list[i]
      ensures r.Err? ==> r.error == IndexOutOfBounds(i)
    {
      if 0 <= i < |list| {
        r := Ok(list[i]);
      } else {
        r := Err(IndexOutOfBounds(i));
      }
    }
  }

  // ---------------------------------------------------------------------------
  // Properties over whole runs
  // ---------------------------------------------------------------------------

  /** History permanence: adding more values never changes an earlier position. */
  lemma HistoryIsPermanent(ds: seq<real>, more: seq<real>, n: int, i: int)
    requires n >= 1
    requires 0 <= i < |ds|
    ensures Replay(ds + more, n).list[i] == Replay(ds, n).list[i] == ds[i]
  {
  }

  /** While the window is not yet full, the average under-reports the mean of the history. */
  lemma UnderFilledAverage(ds: seq<real>, n: int)
    requires n >= 1
    requires |ds| < n
    ensures Average(Replay(ds, n), n) == Sum(ds) / (n as real)
  {
  }

  /** Five values into a window of five, then a sixth that pushes the first one out. */
  method ScenarioFullWindow()
  {
    var five := new DataStructureImpl(5);
    five.Add(1.0);
    assert five.startIdx == 0 && five.sum == 1.0;
    five.Add(2.0);
    assert five.startIdx == 0 && five.sum == 3.0;
    five.Add(3.0);
    assert five.startIdx == 0 && five.sum == 6.0;
    five.Add(4.0);
    assert five.startIdx == 0 && five.sum == 10.0;
    five.Add(5.0);
    assert five.startIdx == 0 && five.sum == 15.0;
    assert five.list == [1.0, 2.0, 3.0, 4.0, 5.0];
    var avg := five.GetMovingAverage();
    assert avg == 3.0;
    var third := five.Get(2);
    assert third == Ok(3.0);
    five.Add(6.0);
    assert five.startIdx == 1 && five.sum == 15.0 + 6.0 - 1.0 == 20.0;
    avg := five.GetMovingAverage();
    assert avg == 4.0;
    var sixth := five.Get(5);
    assert sixth == Ok(6.0);
    var first := five.Get(0);
    assert first == Ok(1.0);
    var missing := five.Get(6);
    assert missing == Err(IndexOutOfBounds(6));
  }

  /** Two values into a window of five: the average still divides by five. */
  method ScenarioUnderFilled()
  {
    var sparse := new DataStructureImpl(5);
    sparse.Add(0.0);
    sparse.Add(1.0);
    var avg := sparse.GetMovingAverage();
    assert avg == 0.2;
  }

  /** A window of one always averages the latest value alone. */
  method ScenarioWindowOfOne()
  {
    var one := new DataStructureImpl(1);
    one.Add(7.0);
    var avg := one.GetMovingAverage();
    assert avg == 7.0;
    one.Add(9.0);
    avg := one.GetMovingAverage();
    assert avg == 9.0;
  }

  /** A window size of zero is rejected. */
  method ScenarioRejected()
  {
    var rejected := DataStructureImpl.Create(0);
    assert rejected == Err(InvalidArgument(0));
  }
}
