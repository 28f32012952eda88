# Moving-average accumulator

A Dafny model of `DataStructureImpl`, a container that appends numeric values
one at a time, keeps the full history for positional lookup, and reports the
moving average of the last `n` values added.

The accumulator holds four things: the window size `n`, fixed when it is
constructed; the append-only history `list`; a cursor `startIdx`, the index of
the oldest value still inside the window; and a running `sum` of the window.
`add(d)` adds `d` to the sum, and if the history already held `n` or more
values it subtracts the value at the cursor and advances the cursor; only then
does it append `d`. `getMovingAverage()` returns `sum / n`, dividing by `n`
even while fewer than `n` values have been added. `get(i)` returns the `i`-th
value ever added.

The model lives in `moving_average.dfy`, module `MovingAverage`:

- `Sum`, `Window` and `SumOfLast` are the specification: the exact sum of a
  sequence, the last `min(|s|, n)` values of a history, and an independent
  back-to-front sum of at most `n` trailing values.
- `Snapshot`, `Inv`, `Step` and `Replay` describe the bookkeeping as values.
  `Inv` is the invariant: `|list| - startIdx == min(|list|, n)` and
  `sum == Sum(list[startIdx..])`. `Step` is one `add`. `Replay` is a whole
  run of adds from an empty accumulator.
- `DataStructureImpl` is the class itself. It has a `const n`, so the window
  size cannot change after construction. `list`, `startIdx` and `sum` are
  mutable fields. `Valid()` is `Inv` of the fields. `Add` mutates them in
  place, and its contract ties the new state to `Step` of the old one.
  `GetMovingAverage` and `Get` have no `modifies` clause, so Dafny
  guarantees they change nothing.
- The Java exceptions become a `Result` with an `Error`: construction with
  `n < 1` gives `InvalidArgument(n)` (`Create`), and an index outside the
  history gives `IndexOutOfBounds(i)` (`Get`).
- The `Scenario…` methods are clients of the class. They replay the documented
  examples: 1..5 into a window of 5 average 3; adding 6 makes the sum
  21 - 1 = 20; `[0.0, 1.0]` in a window of 5 average 1/5; a window of 1
  averages the latest value alone; window size 0 is rejected.

Values are `real`, so every sum is exact.

## Model

| member | source | states |
|---|---|---|
| `MovingAverage.DataStructureImpl.constructor` | src/main/java/com/paytmlabs/DataStructureImpl.java:19-45 | for an accepted window size `n >= 1`: empty history, `sum == 0`, `startIdx == 0`, the invariant holds, and `n` is the given size |
| `MovingAverage.DataStructureImpl.Create` | src/main/java/com/paytmlabs/DataStructureImpl.java:19-24 | construction fails with `InvalidArgument(n)` exactly when `n < 1`; otherwise it yields a fresh, valid accumulator in the initial state |
| `MovingAverage.DataStructureImpl.Add` | src/main/java/com/paytmlabs/DataStructureImpl.java:61-77 | keeps the invariant; the new history is the old history plus `[d]`; the cursor advances by exactly 1 when the history already held at least `n` values and stays put otherwise; the new sum is the exact sum of the last `min(|list|, n)` values |
| `MovingAverage.DataStructureImpl.GetMovingAverage` | src/main/java/com/paytmlabs/DataStructureImpl.java:48-59 | the result times `n` is the running sum, and the result is the window sum divided by `n`; no state changes |
| `MovingAverage.DataStructureImpl.Get` | src/main/java/com/paytmlabs/DataStructureImpl.java:79-90 | succeeds exactly when `0 <= i < |list|`, then with the `i`-th value ever added; otherwise fails with `IndexOutOfBounds(i)`; no state changes |
| `MovingAverage.Step` | src/main/java/com/paytmlabs/DataStructureImpl.java:70-77 | one add preserves the invariant, appends `d`, advances the cursor by 1 exactly when the window was full, and leaves `sum` equal to the sum of the new window |
| `MovingAverage.EvictedIndexInBounds` | src/main/java/com/paytmlabs/DataStructureImpl.java:72-73 | when the history holds more than `n - 1` values, the cursor is `|list| - n`, it is a valid index, and the value there is the oldest value of the window |
| `MovingAverage.CursorFromLength` | src/main/java/com/paytmlabs/DataStructureImpl.java:36-45 | under the invariant the cursor is `max(0, |list| - n)` and the slice from the cursor is exactly the window |
| `MovingAverage.Replay` | src/main/java/com/paytmlabs/DataStructureImpl.java:70-77 | after any sequence of adds from empty, the invariant holds and the history is exactly the values added, in order |
| `MovingAverage.ReplayWindow` | src/main/java/com/paytmlabs/DataStructureImpl.java:41-45 | after any sequence of adds, the cursor is `max(0, |ds| - n)` and the running sum equals the independently recomputed sum of the last `min(|ds|, n)` values |
| `MovingAverage.InvDeterminesState` | src/main/java/com/paytmlabs/DataStructureImpl.java:36-45 | any state satisfying the invariant is the state reached by adding its history from empty: cursor and sum are determined by the history |
| `MovingAverage.WindowSumIsSumOfLast` | src/main/java/com/paytmlabs/DataStructureImpl.java:41-45 | the sum of the window slice equals the sum of the last `n` (or fewer) values counted back from the newest |
| `MovingAverage.Window` | src/main/java/com/paytmlabs/DataStructureImpl.java:36-45 | the window of a history holds `min(|list|, n)` values |
| `MovingAverage.Average` | src/main/java/com/paytmlabs/DataStructureImpl.java:48-58 | the moving average is the window sum divided by `n`, and times `n` gives back the window sum; while fewer than `n` values were added it is the sum of all of them divided by `n`, not by their count |
| `MovingAverage.UnderFilledAverage` | src/main/java/com/paytmlabs/DataStructureImpl.java:48-51 | for any run of fewer than `n` adds, the average is the sum of the values added divided by `n` |
| `MovingAverage.HistoryIsPermanent` | src/main/java/com/paytmlabs/DataStructureImpl.java:76-90 | adding more values never changes a value already at position `i`: positional reads return the `i`-th value ever added |

## Left out

- IEEE-754 `double` arithmetic: values and the running sum are `real`. The model does not capture rounding error in `sum += d` and `sum -= ...`, or NaN and infinite inputs.
- Java `int` overflow of the history length or of `startIdx` past `Integer.MAX_VALUE`: both are unbounded integers here.
- The growth strategy of `java.util.ArrayList`: the history is a `seq<real>` field that `Add` reassigns.
- Thread-safety: the source has no synchronisation and only sequential use is modelled.
- `src/main/java/com/paytmlabs/DataStructure.java`: the interface declares the three operations and has no logic. Its bound contract for `get` is stated on `Get`.
- MovingAverage.DataStructureImpl.constructor: a Dafny constructor cannot throw. It requires `n >= 1`, and `Create` models the constructor's `IllegalArgumentException` path as `Err(InvalidArgument(n))`.
