# SHEL/BP pairs strategy: signal state machine and per-bar decision

This project models the decision logic of a pairs-trading bot. The bot trades
the log-price spread between SHEL.L and BP.L.

- `signals.dfy`, module `Signals`: `generate_signal`. It takes a z-score and the
  current spread position (-1 short spread, 0 flat, +1 long spread) and returns
  a new position and an action: enter long, enter short, exit or nothing. While
  in a position it checks a stop-loss exit (|z| above the max threshold) and a
  mean-reversion exit (|z| below the exit threshold). While flat it enters
  strictly beyond the entry threshold, against the move. Otherwise it holds.
  Both exits return the same result, so the order in which they are tested
  cannot be observed.
- `pairs_strategy.dfy`, module `Strategy`: one call of `PairsStrategy.next`.
  - Two guards end the bar early: too few bars for the window, and a zero
    rolling standard deviation.
  - The position is read off the two broker legs (`DerivedPosition`), and
    `generate_signal` is called (`SignalAt`).
  - The action is turned into broker orders and a new `position_state`
    (`Respond`). Entries go through only when both legs are empty; an exit
    closes each open leg and resets the state.
  - `Decide` is the pure specification of one bar. The class
    `PairsStrategy`, with the `position_state` field and the list of orders
    handed to the broker, implements it in its method `Next`.

Positions are integers, as in the source, so the model can state that outputs
stay in {-1, 0, 1}. The z-score is `(spread - mu) / sigma` in real arithmetic.
The spread, its rolling mean `mu` and its rolling standard deviation `sigma`
are inputs. The broker's leg sizes and cash are inputs too, and orders are
outputs (`Buy`/`Sell` with a size, `Close` of a whole leg).

Three facts follow from the code and are proved:
- The entry size `max(20, int(min(450, cash * 0.9) / 80))` is always 20. The
  cash-dependent term is never more than 5 (`EntrySize`).
- `next` never reads `position_state`. `Decide` has no state parameter, and
  the state is only ever written.
- An exit can only arise when the legs have opposite signs. So it always
  closes both legs, even though the code tests each leg separately
  (`Decide`).

The last part of `pairs_strategy.dfy` assumes an idealised broker: every order
is filled in full before the next bar. Under it, `position_state` always equals
the position derived from the legs, and the legs stay equal and opposite
(`RunKeepsSync`).

The strategy's design calls for two things the code does not do: validating
the threshold ordering (exit < entry < max), and a "no signal" value for an
undefined z-score. The model follows the code. The thresholds are
unconstrained. A zero sigma is handled only by the guard in `next`.

## Model

| member | source | states |
|---|---|---|
| `Signals.GenerateSignal` | signals.py:11-29 | From a non-flat position, \|z\| > max or \|z\| < exit gives (0, exit) whatever the sign of z, and otherwise (position, none). From flat, z > entry gives (-1, enter_short), z < -entry (and not z > entry) gives (+1, enter_long), and -entry <= z <= entry gives (0, none), so entry is strict. The action is none exactly when the position is unchanged. A non-flat position never yields an entry and flat never yields an exit. Positions in {-1, 0, 1} map into {-1, 0, 1}. |
| `Signals.DefaultThresholdCases` | test_signals.py:6-14 | With thresholds (2.0, 0.5, 4.0), the seven table cases give the listed results, and z equal to the entry threshold while flat gives (0, none). |
| `Strategy.DerivedPosition` | pairs_strategy.py:41-45 | The position is +1 exactly when SHEL > 0 and BP < 0, and -1 exactly when SHEL < 0 and BP > 0. In every other case it is 0, including half-open and same-sign legs. |
| `Strategy.TruncToInt` | pairs_strategy.py:57 | Python's `int()` truncates toward zero: the result lies within 1 of x, on the zero side. |
| `Strategy.EntrySize` | pairs_strategy.py:56-57 | The entry order size is at least 20, and in fact always exactly 20, for every cash value. |
| `Strategy.Respond` | pairs_strategy.py:53-83 | enter_long with both legs empty gives Buy SHEL 20, Sell BP 20 and state 1. enter_short with both legs empty gives Sell SHEL 20, Buy BP 20 and state -1. An entry with any leg open does nothing. exit closes exactly the non-zero legs and sets the state to 0. No action does nothing. |
| `Strategy.Decide` | pairs_strategy.py:25-83 | Fewer than `window` bars, or sigma = 0, gives no orders and no state change. The state changes only when orders are placed, and only to -1, 0 or 1. An exit always closes both legs. Legs that are half-open or same-sign give no orders and no state change. |
| `Strategy.PairsStrategy.constructor` | pairs_strategy.py:12-23 | The strategy starts flat (`position_state` 0) with no orders placed. |
| `Strategy.PairsStrategy.Next` | pairs_strategy.py:25-83 | The orders are extended by exactly the bar's orders from `Decide`. `position_state` takes the value `Decide` writes, and keeps its old value when nothing is written. |
| `Strategy.StepKeepsSync` | pairs_strategy.py:38-83 | If the legs are equal and opposite and `position_state` matches them, then after one bar whose orders are all filled, both still hold. |
| `Strategy.RunKeepsSync` | pairs_strategy.py:23-83 | Starting in sync (for example flat with no legs), over any sequence of bars with every order filled, `position_state` equals the leg-derived position and the legs stay balanced. |
| `Strategy.WarmUpIsSilent` | pairs_strategy.py:27-28 | While the bar count stays below `window`, a run places no orders and changes neither legs nor state. |

## Left out

- The rolling statistics are not modelled: the log prices, the moving average and the standard deviation (backtrader and pandas indicators, pairs_strategy.py:18-20). `spread`, `mu` and `sigma` are inputs. All arithmetic is exact real arithmetic, not floating point, so rounding and NaN are not modelled.
- Data download, backtest set-up, commission and slippage, analyzers, performance reporting and plotting (run_backtest.py, fetch_prices.py, compute_zscore.py, plot_zscore.py) are I/O around the core.
- Logging is not modelled: `log`, `notify_order`, `notify_trade`, and the "Normal"/"Stop Loss" label, which only appears in a log line.
- The broker is an input. Leg sizes and cash come in as values, and orders are recorded rather than executed. `RunKeepsSync` and `WarmUpIsSilent` assume every order fills in full before the next bar. Margin rejections, partial fills and slippage are not modelled.
- `Strategy.EntrySize`: `cash * 0.9` is the exact real 9/10 of cash, not the floating-point product. The inner term stays at most 5 either way.
