/** The pairs-trading signal state machine: given the latest z-score of the
    SHEL/BP log-price spread and the current spread position, decide the next
    position and the action to take on this bar. */
module Signals {

  /** What the strategy should do on this bar; `NoAction` is the source's `None`. */
  datatype Action = NoAction | EnterLong | EnterShort | Exit

  /** The pair (new position, action) that `generate_signal` returns.
      Positions are -1 (short spread), 0 (flat) and +1 (long spread); the
      source accepts any integer, so the model does too. */
  datatype Signal = Signal(position: int, action: Action)

  /** The default thresholds of `generate_signal`. */
  const DefaultEntry: real := 2.0
  const DefaultExit: real := 0.5
  const DefaultMax: real := 4.0

  function Abs(x: real): (r: real)
    ensures r >= 0.0 && (r == x || r == -x)
  {
    if x < 0.0 then -x else x
  }

  /** While in a position, a stop-loss (|z| above the max threshold) or a
      mean-reversion exit (|z| below the exit threshold) flattens it; while
      flat, a z strictly beyond the entry threshold opens a position against
      the move; anything else holds. The thresholds are not checked against
      each other. */
  function GenerateSignal(z: real, position: int, entryThreshold: real, exitThreshold: real, maxThreshold: real): (r: Signal)
    // exits from a position, whatever the sign of z
    ensures position != 0 && Abs(z) > maxThreshold ==> r == Signal(0, Exit)
    ensures position != 0 && Abs(z) < exitThreshold ==> r == Signal(0, Exit)
    ensures position != 0 && exitThreshold <= Abs(z) <= maxThreshold ==> r == Signal(position, NoAction)
    // strict entries from flat; the short entry is tested first
    ensures position == 0 && z > entryThreshold ==> r == Signal(-1, EnterShort)
    ensures position == 0 && z < -entryThreshold && !(z > entryThreshold) ==> r == Signal(1, EnterLong)
    ensures position == 0 && -entryThreshold <= z <= entryThreshold ==> r == Signal(0, NoAction)
    // shape of every decision
    ensures r.action == NoAction <==> r.position == position
    ensures position != 0 ==> r.action == Exit || r.action == NoAction
    ensures position == 0 ==> r.action != Exit
    ensures -1 <= position <= 1 ==> -1 <= r.position <= 1
  {
    if position != 0 && Abs(z) > maxThreshold then
      Signal(0, Exit)
    else if position != 0 && Abs(z) < exitThreshold then
      Signal(0, Exit)
    else if position == 0 && z > entryThreshold then
      Signal(-1, EnterShort)
    else if position == 0 && z < -entryThreshold then
      Signal(1, EnterLong)
    else
      Signal(position, NoAction)
  }

  /** The table of expected results, under the default thresholds. */
  lemma DefaultThresholdCases()
    ensures GenerateSignal(2.5, 0, DefaultEntry, DefaultExit, DefaultMax) == Signal(-1, EnterShort)
    ensures GenerateSignal(-2.5, 0, DefaultEntry, DefaultExit, DefaultMax) == Signal(1, EnterLong)
    ensures GenerateSignal(0.2, 1, DefaultEntry, DefaultExit, DefaultMax) == Signal(0, Exit)
    ensures GenerateSignal(-0.2, -1, DefaultEntry, DefaultExit, DefaultMax) == Signal(0, Exit)
    ensures GenerateSignal(3.5, 0, DefaultEntry, DefaultExit, DefaultMax) == Signal(-1, EnterShort)
    ensures GenerateSignal(5.0, 1, DefaultEntry, DefaultExit, DefaultMax) == Signal(0, Exit)
    ensures GenerateSignal(0.0, 0, DefaultEntry, DefaultExit, DefaultMax) == Signal(0, NoAction)
    // entry is strict: exactly at the threshold nothing happens
    ensures GenerateSignal(DefaultEntry, 0, DefaultEntry, DefaultExit, DefaultMax) == Signal(0, NoAction)
  {
  }
}
