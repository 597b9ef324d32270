# Order-book pressure pipeline: a Dafny model

This project models the single-symbol pipeline of the market-order app. The pipeline turns
limit-order-book depth snapshots into features, debounced directional signals and
evaluated hypothetical trades. It has four parts, one Dafny module each:

- `Schemas` (`src/moa/schemas.py`): the `BookSnapshot` with its derived `BestBid`,
  `BestAsk` and `Mid`, and the `FeatureVector`, `Signal` and `Evaluation` records. A price
  that the source marks as NaN is `None` here. Signal kinds are the two values
  `BuyPressure` and `SellPressure`.
- `Features` (`src/obp/features.py`): the depth sum (a loop, so a method proved against
  `TopVolume`), the top-K imbalance, the per-side slope, the update rate, and the
  `FeatureEngine` class. Its two bounded deques are `seq` fields. A ghost history of every
  pushed snapshot shows that each deque holds the newest entries of the stream.
- `Signals` (`src/moa/signals.py`): the debounce state machine. `Transition` is one call of
  `evaluate` and `Replay` runs it over a stream. The `ThresholdSignalEngine` class keeps
  its tag buffer equal to the replay of every reading it has seen. The lemmas about
  `Replay` therefore hold for the engine:
  - a signal fires only after `confirmN` consecutive readings of its kind that passed the
    rate gate;
  - two signals are at least `confirmN` readings apart.
- `Backtest` (`src/obp/backtest.py`): the `RollingBacktester` class, with its FIFO of
  pending positions, the pnl list and the buy/sell counters. Two ghost sequences record
  every position opened and every evaluation produced. The class invariant states:
  - the pending queue is the unclosed tail of the opened positions;
  - the i-th evaluation closed the i-th opened position (FIFO order);
  - the counters count the opened positions by kind.

  So `len(pnl_ticks_list) + len(pending) == count_buy + count_sell` always holds.

Helper modules: `Wrappers` (Option), `Numeric` (sums, means and small real-arithmetic
facts) and `Deques` (`collections.deque` with a `maxlen`).

Prices, sizes and times are `real`. The thresholds 1e-12 (volume) and 1e-9 (mean gap)
are the source's constants.

Where the code and its tests or the evident intent disagree, the model follows the code:

- `confirm_n` may be 0. A deque with maxlen 0 stays empty and counts as full, so every
  classified reading that passes the gate fires (`ZeroConfirmationFiresAtOnce`).
- A negative `depth_levels` is allowed. `_sum_depth_side` then sums nothing, while the
  slopes use Python's `levels[:k]`, which drops levels from the end (`PrefixSlice`).
- The engine test in `tests/test_features.py:12-20` expects a positive imbalance. Its
  book has top-2 bid and ask volumes of 10 and 10, so the code gives exactly 0
  (`EngineTestBook`).

## Model

| member | source | states |
|---|---|---|
| `Schemas.BookSnapshot.BestBid` | src/moa/schemas.py:12-14 | defined iff there is a bid level, and then it is the first bid's price |
| `Schemas.BookSnapshot.BestAsk` | src/moa/schemas.py:16-18 | defined iff there is an ask level, and then it is the first ask's price |
| `Schemas.BookSnapshot.Mid` | src/moa/schemas.py:20-25 | defined iff both best prices are; then equidistant from best bid and best ask |
| `Schemas.MidBetweenBestPrices` | src/moa/schemas.py:24 | a defined mid lies between the best bid and the best ask |
| `Schemas.MidOfWellFormedIsPositive` | src/moa/schemas.py:20-25 | on a book with positive prices the mid is positive |
| `Deques.Append` | src/obp/features.py:55-60 | deque append with maxlen: length grows by one until the cap and then stays there; the new entry is last |
| `Deques.AppendEvictsOldest` | src/moa/signals.py:11 | the bounded append keeps a suffix of old contents plus the new entry, so the oldest entry is evicted first |
| `Deques.Window` | src/obp/features.py:55-56 | the window of a stream holds at most cap entries |
| `Deques.WindowAppend` | src/obp/features.py:59-60 | appending to the window of a stream gives the window of the extended stream |
| `Features.Quantities` | src/obp/features.py:19 | the size column `levels[:, 1]`: one entry per level, the i-th being level i's size |
| `Features.TopVolume` | src/obp/features.py:14-20 | the reference for `_sum_depth_side`: 0 for a non-positive depth or an empty side, the whole side's size total when the depth covers every level |
| `Features.SumDepthSide` | src/obp/features.py:14-20 | the loop returns the size total over exactly the first min(upto, #levels) levels (none for upto <= 0) |
| `Features.DepthCount` | src/obp/features.py:17-18 | the number of levels summed is min(upto, #levels), or 0 when upto is not positive |
| `Features.Imbalance` | src/obp/features.py:25-28 | 0 when the total volume is at most 1e-12; otherwise imbalance times total equals bid minus ask volume |
| `Features.ComputeImbalance` | src/obp/features.py:22-28 | with default depth 5: 0 when the top-K bid and ask volume total is at most 1e-12 (so always for a non-positive depth); otherwise imbalance times total equals bid minus ask volume |
| `Features.ImbalanceBounded` | src/obp/features.py:25-28 | with non-negative volumes the imbalance is in [-1, 1], positive iff bid volume is larger, negative iff ask volume is larger |
| `Features.TopVolumeNonNegative` | src/obp/features.py:15-20 | non-negative sizes give a non-negative depth volume |
| `Features.ComputeImbalanceBounded` | src/obp/features.py:22-28 | with non-negative sizes `compute_imbalance` is in [-1, 1] |
| `Features.BalancedBookHasZeroImbalance` | src/obp/features.py:22-28 | equal top-K bid and ask volumes give imbalance 0 |
| `Features.BalancedTestBook` | tests/test_features.py:6-10 | the balanced test book has imbalance 0 at depth 2 |
| `Features.EngineTestBook` | tests/test_features.py:12-20 | the engine test book has imbalance 0, bid slope 1.2, ask slope 1, and rate 1.0 at timestamps 0..4 |
| `Features.PrefixSlice` | src/obp/features.py:62-63 | Python's `levels[:k]`: a prefix of min(k, n) levels, or of n + k levels for a negative k |
| `Features.Slope` | src/obp/features.py:30-41 | 0 for an empty side or a mean size at most 1e-12; otherwise slope times mean size equals the best level's size |
| `Features.SlopeBounded` | src/obp/features.py:30-41 | with non-negative sizes the slope is between 0 and the number of levels |
| `Features.UniformSideHasUnitSlope` | src/obp/features.py:31-34 | equal positive sizes on every level give slope 1 (neither front- nor back-loaded) |
| `Features.Gaps` | src/obp/features.py:46 | successive differences of the timestamps, none for fewer than two |
| `Features.UpdateRate` | src/obp/features.py:43-50 | 0 for fewer than two timestamps or a mean gap at most 1e-9; otherwise positive, and rate times mean gap is 1 |
| `Features.GapsTelescope` | src/obp/features.py:46-47 | the gaps sum to the last timestamp minus the first |
| `Features.MeanGapFromSpan` | src/obp/features.py:46-47 | the mean gap is (last - first) / (n - 1) |
| `Features.UpdateRateFromSpan` | src/obp/features.py:43-50 | the rate is (n - 1) / (last - first) unless that mean gap is at most 1e-9 |
| `Features.UniformArrivalsRate` | src/obp/features.py:43-50 | snapshots every dt seconds give rate 1 / dt |
| `Features.Timestamps` | src/obp/features.py:60 | the timestamp buffer's source: each snapshot's ts, in order |
| `Features.FeatureEngine.constructor` | src/obp/features.py:53-56 | empty buffers with the given capacities and depth (defaults 20, 30 and 5) |
| `Features.FeatureEngine.Push` | src/obp/features.py:58-65 | both buffers receive the snapshot by bounded append and keep the newest entries of the pushed stream within their capacities; the vector carries the snapshot's ts and the imbalance, slopes and rate of the updated window |
| `Signals.Classify` | src/moa/signals.py:17-21 | buy pressure only with imbalance > th and a steeper bid side; sell pressure only with imbalance < -th and a steeper ask side; no class when the slopes are equal |
| `Signals.Accepted` | src/moa/signals.py:14-21 | a reading below the rate gate contributes no tag; a tag is only ever the reading's class, with the gate open |
| `Signals.ClassifyCases` | src/moa/signals.py:17-21 | buy iff imbalance > th and bid slope > ask slope; sell iff not buy and imbalance < -th and ask slope > bid slope; none otherwise; with th >= 0 both can never hold |
| `Signals.Transition` | src/moa/signals.py:13-30 | the buffer stays within confirm_n, and is empty after a signal |
| `Signals.TransitionCases` | src/moa/signals.py:13-30 | a gated or unclassified reading clears the buffer and emits nothing; a classified reading is appended, and a signal fires iff the buffer is then full and uniform in that kind |
| `Signals.EmittedSignal` | src/moa/signals.py:24-27 | a signal has the reading's ts, its class as kind and abs(imbalance) as strength, in [0, 1] when the imbalance is |
| `Signals.ZeroConfirmationFiresAtOnce` | src/moa/signals.py:11-27 | with confirm_n = 0 every accepted reading fires |
| `Signals.Replay` | src/moa/signals.py:13-30 | a stream of readings gives one output per reading and a buffer within confirm_n |
| `Signals.ReplayPrefix` | src/moa/signals.py:13-30 | later readings do not change earlier outputs |
| `Signals.ReplayAligned` | src/moa/signals.py:22-23 | the buffer holds the tags of the latest readings, all accepted, newest last |
| `Signals.FiresOnlyAfterConfirmedRun` | src/moa/signals.py:22-27 | a signal at step j follows confirm_n consecutive readings, ending at j, all past the gate and of the signal's kind |
| `Signals.BufferGrowth` | src/moa/signals.py:23 | each reading grows the buffer by at most one tag |
| `Signals.SignalsAtLeastConfirmNApart` | src/moa/signals.py:24-25 | two signals are at least confirm_n readings apart (edge-triggered) |
| `Signals.ThresholdSignalEngine.constructor` | src/moa/signals.py:7-11 | the configuration as given (defaults 0.12, 2.0 and 2), with an empty buffer |
| `Signals.ThresholdSignalEngine.Evaluate` | src/moa/signals.py:13-30 | one transition of the buffer; the output is the replay's output for every reading seen so far |
| `Backtest.Direction` | src/obp/backtest.py:42 | +1 or -1, positive exactly for buy pressure |
| `Backtest.EntryPrice` | src/obp/backtest.py:24-30 | the entry is shifted by slippage times tick size against the position's direction |
| `Backtest.PnlTicks` | src/obp/backtest.py:42-43 | pnl times tick size is the price move times the direction |
| `Backtest.PnlSign` | src/obp/backtest.py:42-43 | with tick size > 0 the pnl is positive iff the price moved in the signal's direction, and zero iff it did not move |
| `Backtest.SlippageCost` | src/obp/backtest.py:25-43 | slippage costs exactly slippage ticks per trade in either direction |
| `Backtest.Wins` | src/obp/backtest.py:54 | the number of positive pnls is at most the number of trades |
| `Backtest.WinRate` | src/obp/backtest.py:54 | in [0, 1]; 0 with no trades; otherwise rate times trades equals the number of wins |
| `Backtest.AveragePnl` | src/obp/backtest.py:53 | 0 with no trades; otherwise mean times trades equals the pnl total |
| `Backtest.CountKind` | src/obp/backtest.py:25-30 | the number of positions of a kind is at most the number of positions |
| `Backtest.Closes` | src/obp/backtest.py:38-46 | the FIFO closing relation: an evaluation that closes a position has pnl times tick size equal to its price move times the direction |
| `Backtest.RollingBacktester.constructor` | src/obp/backtest.py:8-18 | the configuration as given (defaults 0.1, 5.0, false and 0.0), an empty queue and list, and zero counters |
| `Backtest.RollingBacktester.OnSignal` | src/obp/backtest.py:20-31 | an undefined mid changes nothing; otherwise the slipped position is appended at the tail and exactly the matching counter grows; conservation holds |
| `Backtest.RollingBacktester.OnSnapshot` | src/obp/backtest.py:33-47 | an evaluation is returned iff the queue is non-empty, the head's horizon has elapsed and the mid is defined; then exactly the head is popped and exactly its pnl appended; otherwise queue and list are unchanged |
| `Backtest.RollingBacktester.Summary` | src/obp/backtest.py:49-57 | the trade count is the list length; mean pnl and win rate are 0 when empty; the win rate is in [0, 1]; the signal counts are the counters |
| `Backtest.OpenTwoPositions` | src/obp/backtest.py:20-31 | a buy then a sell on a book with mid 100.0 and no slippage queue both positions in arrival order at entry 100.0 and count one signal of each kind |
| `Backtest.TwoSignalsScenario` | src/obp/backtest.py:33-47 | a buy at t = 0 and a sell at t = 1, both mature at t = 10: the first call closes the buy (+5 ticks), the second the sell (-5 ticks); the summary shows 2 trades, mean 0, win rate 0.5, one signal of each kind |
| `Backtest.ZeroTickSizeIdles` | src/obp/backtest.py:34-41 | with tick size 0, an empty queue, an immature head and an undefined exit mid each return nothing without dividing |

## Left out

- `src/moa/ingest.py`, `scripts/run_replay.py`, `scripts/capture_ws.py`, `src/moa/config.py`,
  `src/moa/ui_app.py`, `src/obp/utils.py`: file and network I/O, async pacing, YAML loading,
  CSV writing, the wall clock and the dashboard. They are not part of this model. The
  external driver loop that feeds each snapshot through the three engines is among them.
- The numba `njit` decoration of `_sum_depth_side`: modelled as having no effect for
  (L, 2) level arrays. An empty side built as a 1-D array (`src/moa/ingest.py:26-27`)
  is a side with no levels here, so `SumDepthSide` returns 0.0; under numba that call may
  instead fail to compile for the 1-D argument type, which is not modelled.
- IEEE floating point: rounding, infinities and NaN propagation are not modelled.
  Arithmetic is exact over `real`. An undefined mid is `None`, and a finite-price check
  (`np.isfinite`) is the `Some` test. Prices that are themselves infinite or NaN cannot
  be represented.
- `Schemas.BookSnapshot.WellFormed`: the sortedness and positivity invariants of a
  snapshot. They are stated but not enforced, as in the source. Lemmas assume them
  only where they need them.
- `exit_on_opposite_signal` is stored as `exitOnOpposite` and never read, as in the source.
- The stuck head: a mature head position with an undefined exit mid stays queued and the
  call is a no-op, as in the source. No timeout is added. The queue has no bound.
- `Backtest.RollingBacktester.OnSnapshot` excludes a zero tick size only on a call that
  matures a position (non-empty queue, horizon elapsed, exit mid defined): there the
  source raises `ZeroDivisionError`, which is not modelled. Every other call with a zero
  tick size is accepted and returns nothing, as in the source (`ZeroTickSizeIdles`).
- The capacities `window_size`, `update_rate_window` and `confirm_n` are `nat`, because
  a `deque` with a negative `maxlen` raises `ValueError` at construction.
- Signal kinds are a two-valued datatype. The source's string field could hold other
  strings; `on_signal` treats any of them as a sell, so they are not modelled.
- The `float(...)` conversions are the identity on `real`. `summary`'s dictionary is the
  `Report` record.
