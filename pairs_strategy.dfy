/** The per-bar decision of the SHEL/BP pairs strategy: warm-up and zero-sigma
    guards, the position read off the two broker legs, the call to the signal
    state machine, and the orders and `position_state` update that follow.
    The broker is abstracted: leg sizes and cash come in as values, orders go
    out as a list. */
module Strategy {
  import opened Signals

  datatype Option<T> = None | Some(value: T)

  /** The two legs of the pair: data feed 0 (SHEL.L) and data feed 1 (BP.L). */
  datatype Leg = Shel | Bp

  /** An order handed to the broker. `Close` closes the whole leg. */
  datatype Order = Buy(leg: Leg, size: int) | Sell(leg: Leg, size: int) | Close(leg: Leg)

  /** The strategy parameters: rolling window and the three z thresholds. */
  datatype Params = Params(window: int, entryZ: real, exitZ: real, maxZ: real)

  const DefaultParams := Params(240, 4.0, 1.0, 6.0)

  /** What one bar offers: the log spread, its rolling mean and standard
      deviation (all computed outside the model) and the broker's cash. */
  datatype Bar = Bar(spread: real, mu: real, sigma: real, cash: real)

  /** The broker's position sizes on the two legs. */
  datatype Legs = Legs(shel: int, bp: int)

  /** The effect of one call of `next`: the orders placed, in order, and the
      value written to `position_state`, if any. */
  datatype Decision = Decision(orders: seq<Order>, newState: Option<int>)

  /** Long spread is long SHEL and short BP; short spread is the reverse;
      every other combination of leg sizes counts as flat. */
  function DerivedPosition(shelSize: int, bpSize: int): (pos: int)
    ensures -1 <= pos <= 1
    ensures pos == 1 <==> shelSize > 0 && bpSize < 0
    ensures pos == -1 <==> shelSize < 0 && bpSize > 0
  {
    if shelSize > 0 && bpSize < 0 then 1
    else if shelSize < 0 && bpSize > 0 then -1
    else 0
  }

  /** Python's `int()` on a number: truncation toward zero. */
  function TruncToInt(x: real): (n: int)
    ensures 0.0 <= x ==> 0 <= n && n as real <= x < n as real + 1.0
    ensures x < 0.0 ==> n <= 0 && n as real - 1.0 < x <= n as real
  {
    if x >= 0.0 then x.Floor else -((-x).Floor)
  }

  /** The entry order size `max(20, int(min(450, cash * 0.9) / 80))`. The
      cash term is at most 450 / 80 < 6, so the size is always 20. */
  function EntrySize(cash: real): (size: int)
    ensures size == 20
  {
    var available := if 450.0 <= cash * 0.9 then 450.0 else cash * 0.9;
    var fromCash := TruncToInt(available / 80.0);
    if fromCash < 20 then 20 else fromCash
  }

  /** The z-score of the bar; only defined when sigma is non-zero. */
  function ZScore(bar: Bar): real
    requires bar.sigma != 0.0
  {
    (bar.spread - bar.mu) / bar.sigma
  }

  /** Whether a bar gets past both guards of `next`. */
  predicate Active(p: Params, barCount: int, bar: Bar) {
    barCount >= p.window && bar.sigma != 0.0
  }

  /** The signal computed on an active bar, from the leg-derived position. */
  function SignalAt(p: Params, bar: Bar, legs: Legs): Signal
    requires bar.sigma != 0.0
  {
    GenerateSignal(ZScore(bar), DerivedPosition(legs.shel, legs.bp), p.entryZ, p.exitZ, p.maxZ)
  }

  /** The order gating of `next` once the action is known: an entry places
      both legs in equal size, and only when both legs are empty; an exit
      closes every open leg and always resets the state to flat; no action
      does nothing. */
  function Respond(action: Action, legs: Legs, cash: real): (d: Decision)
    ensures action == EnterLong ==>
              d == if legs == Legs(0, 0) then Decision([Buy(Shel, 20), Sell(Bp, 20)], Some(1)) else Decision([], None)
    ensures action == EnterShort ==>
              d == if legs == Legs(0, 0) then Decision([Sell(Shel, 20), Buy(Bp, 20)], Some(-1)) else Decision([], None)
    ensures action == Exit ==> d.newState == Some(0) && forall o <- d.orders :: o.Close?
    ensures action == Exit ==> (Close(Shel) in d.orders <==> legs.shel != 0) && (Close(Bp) in d.orders <==> legs.bp != 0)
    ensures action == NoAction ==> d == Decision([], None)
  {
    var flat := legs.shel == 0 && legs.bp == 0;
    match action
    case EnterLong =>
      var size := EntrySize(cash);
      if flat then Decision([Buy(Shel, size), Sell(Bp, size)], Some(1)) else Decision([], None)
    case EnterShort =>
      var size := EntrySize(cash);
      if flat then Decision([Sell(Shel, size), Buy(Bp, size)], Some(-1)) else Decision([], None)
    case Exit =>
      var closeShel := if legs.shel != 0 then [Close(Shel)] else [];
      var closeBp := if legs.bp != 0 then [Close(Bp)] else [];
      Decision(closeShel + closeBp, Some(0))
    case NoAction =>
      Decision([], None)
  }

  /** One call of `next`. It reads the leg sizes and never `position_state`,
      which is why the state is not a parameter. */
  function Decide(p: Params, barCount: int, bar: Bar, legs: Legs): (d: Decision)
    ensures !Active(p, barCount, bar) ==> d == Decision([], None)
    ensures d.orders == [] ==> d.newState == None
    ensures d.newState == None || d.newState.value in {-1, 0, 1}
    // an exit only fires from a leg-derived position, so both legs are open
    ensures Active(p, barCount, bar) && SignalAt(p, bar, legs).action == Exit ==>
              d == Decision([Close(Shel), Close(Bp)], Some(0))
    // half-open or same-sign legs read as flat, yet block every entry
    ensures legs != Legs(0, 0) && DerivedPosition(legs.shel, legs.bp) == 0 ==> d == Decision([], None)
  {
    if !Active(p, barCount, bar) then Decision([], None)
    else Respond(SignalAt(p, bar, legs).action, legs, bar.cash)
  }

  /** The strategy object: its parameters, the `position_state` field, and
      the orders it has handed to the broker so far. */
  class PairsStrategy {
    const params: Params
    var positionState: int
    var orders: seq<Order>

    constructor (params: Params)
      ensures this.params == params
      ensures positionState == 0 && orders == []
    {
      this.params := params;
      positionState := 0;
      orders := [];
    }

    /** `next`, for the bar numbered `barCount` (the bars seen so far,
        this one included) with the given indicator values and leg sizes. */
    method Next(barCount: int, bar: Bar, legs: Legs)
      modifies this
      ensures orders == old(orders) + Decide(params, barCount, bar, legs).orders
      ensures positionState == StateAfter(old(positionState), Decide(params, barCount, bar, legs))
    {
      if barCount < params.window {
        return;
      }
      if bar.sigma == 0.0 {
        return;
      }
      var z := ZScore(bar);
      var pos := DerivedPosition(legs.shel, legs.bp);
      var signal := GenerateSignal(z, pos, params.entryZ, params.exitZ, params.maxZ);
      match signal.action {
        case EnterLong =>
          var size := EntrySize(bar.cash);
          if legs.shel == 0 && legs.bp == 0 {
            orders := orders + [Buy(Shel, size)];
            orders := orders + [Sell(Bp, size)];
            positionState := 1;
          }
        case EnterShort =>
          var size := EntrySize(bar.cash);
          if legs.shel == 0 && legs.bp == 0 {
            orders := orders + [Sell(Shel, size)];
            orders := orders + [Buy(Bp, size)];
            positionState := -1;
          }
        case Exit =>
          if legs.shel != 0 {
            orders := orders + [Close(Shel)];
          }
          if legs.bp != 0 {
            orders := orders + [Close(Bp)];
          }
          positionState := 0;
        case NoAction =>
      }
    }
  }

  // Consequences over a run of bars, with a broker that fills every order
  // completely before the next bar is processed.

  /** The leg sizes after the broker has filled `orders` in sequence. */
  function Fill(legs: Legs, orders: seq<Order>): (r: Legs)
    decreases |orders|
  {
    if orders == [] then legs
    else
      var next := match orders[0]
        case Buy(Shel, n) => legs.(shel := legs.shel + n)
        case Buy(Bp, n) => legs.(bp := legs.bp + n)
        case Sell(Shel, n) => legs.(shel := legs.shel - n)
        case Sell(Bp, n) => legs.(bp := legs.bp - n)
        case Close(Shel) => legs.(shel := 0)
        case Close(Bp) => legs.(bp := 0);
      Fill(next, orders[1..])
  }

  /** `position_state` agrees with the legs, and the legs are equal and
      opposite. */
  predicate InSync(legs: Legs, state: int) {
    legs.shel == -legs.bp && state == DerivedPosition(legs.shel, legs.bp)
  }

  datatype RunResult = RunResult(legs: Legs, state: int, orders: seq<Order>)

  /** The engine calling `next` on each bar in turn, the first of them being
      bar number `barCount`, with every order filled before the next bar. */
  function Run(p: Params, barCount: int, bars: seq<Bar>, legs: Legs, state: int): RunResult
    decreases |bars|
  {
    if bars == [] then RunResult(legs, state, [])
    else
      var d := Decide(p, barCount, bars[0], legs);
      var rest := Run(p, barCount + 1, bars[1..], LegsAfter(legs, d), StateAfter(state, d));
      RunResult(rest.legs, rest.state, d.orders + rest.orders)
  }

  /** The legs after one bar's orders are filled, and the state after it. */
  function LegsAfter(legs: Legs, d: Decision): Legs {
    Fill(legs, d.orders)
  }

  function StateAfter(state: int, d: Decision): int {
    match d.newState
    case Some(s) => s
    case None => state
  }

  /** Filling a pair of orders is filling one, then the other. */
  lemma FillPair(legs: Legs, first: Order, second: Order)
    ensures Fill(legs, [first, second]) == Fill(Fill(legs, [first]), [second])
  {
  }

  /** One bar keeps the state in step with the legs. */
  lemma StepKeepsSync(p: Params, barCount: int, bar: Bar, legs: Legs, state: int)
    requires InSync(legs, state)
    ensures InSync(LegsAfter(legs, Decide(p, barCount, bar, legs)), StateAfter(state, Decide(p, barCount, bar, legs)))
  {
    var d := Decide(p, barCount, bar, legs);
    if Active(p, barCount, bar) {
      var action := SignalAt(p, bar, legs).action;
      assert d == Respond(action, legs, bar.cash);
      match action
      case EnterLong =>
        if legs == Legs(0, 0) {
          FillPair(legs, Buy(Shel, 20), Sell(Bp, 20));
        }
      case EnterShort =>
        if legs == Legs(0, 0) {
          FillPair(legs, Sell(Shel, 20), Buy(Bp, 20));
        }
      case Exit =>
        FillPair(legs, Close(Shel), Close(Bp));
      case NoAction =>
    }
  }

  /** Starting in sync (for instance flat with no legs), the whole run keeps
      `position_state` equal to the leg-derived position and the legs
      balanced. */
  lemma {:induction false} RunKeepsSync(p: Params, barCount: int, bars: seq<Bar>, legs: Legs, state: int)
    requires InSync(legs, state)
    ensures InSync(Run(p, barCount, bars, legs, state).legs, Run(p, barCount, bars, legs, state).state)
    decreases |bars|
  {
    if bars != [] {
      var d := Decide(p, barCount, bars[0], legs);
      StepKeepsSync(p, barCount, bars[0], legs, state);
      RunKeepsSync(p, barCount + 1, bars[1..], LegsAfter(legs, d), StateAfter(state, d));
    }
  }

  /** While fewer than `window` bars have been seen, a run places no orders
      and leaves the legs and the state as they were. */
  lemma {:induction false} WarmUpIsSilent(p: Params, barCount: int, bars: seq<Bar>, legs: Legs, state: int)
    requires barCount + |bars| <= p.window
    ensures Run(p, barCount, bars, legs, state) == RunResult(legs, state, [])
    decreases |bars|
  {
    if bars != [] {
      WarmUpIsSilent(p, barCount + 1, bars[1..], legs, state);
    }
  }
}
