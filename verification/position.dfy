/**
 * `Position`: the exposure opened by one executed order and reduced by executed
 * closing orders (backtrategy/backtrategy.py:210-291).
 *
 * The position keeps a single counter, `remaining`, started from the opening
 * order's quantity. It is not bounded below: a `partial_close` with a close-effect
 * order is not checked against it (see `CloseEffectOverdraws`).
 */
module Positions {
  import opened Wrappers
  import opened Enums
  import opened Orders

  datatype Position = Position(
    openOrder: Order,
    remaining: real,
    takeProfit: real,
    stopLoss: real,
    state: PositionState,
    closeOrders: seq<Order>)
  {
    /** The read-only projections of the opening order. */
    function PositionId(): string { openOrder.orderId }
    function AssetId(): string { openOrder.assetId }
    function Asset(): AssetType { openOrder.assetType }
    function Side(): OrderSide { openOrder.side }
    function OpenPrice(): real { openOrder.price }
    function OpenTime(): Timestamp { openOrder.executedTime }
    function CurrentQuantity(): real { remaining }
  }

  datatype PositionError = InvalidOpeningOrder

  /** The opening-order guard as written: it rejects only when BOTH conditions fail. */
  predicate OpeningRejectedAsWritten(o: Order) {
    o.effect != OpenEffect && o.state != Executed
  }

  /** The evidently intended guard: an opening order is an executed order of effect `open`. */
  predicate ValidOpeningOrder(o: Order) {
    o.effect == OpenEffect && o.state == Executed
  }

  /**
   * The written guard lets through exactly the orders that satisfy one half of the
   * intended condition but not the other: an open-effect order that was never
   * executed, or an executed order whose effect is close or partial_close.
   */
  lemma AsWrittenAdmitsInvalidOpening(o: Order)
    ensures (!OpeningRejectedAsWritten(o) && !ValidOpeningOrder(o)) <==>
              ((o.effect == OpenEffect) != (o.state == Executed))
    ensures ValidOpeningOrder(o) ==> !OpeningRejectedAsWritten(o)
  {
  }

  /**
   * Opening a position: the opening order must be executed and of effect `open`;
   * `remaining` starts at its quantity, with no closing order yet.
   */
  function OpenPosition(openOrder: Order, takeProfit: real, stopLoss: real): (r: Result<Position, PositionError>)
    ensures r.Success? <==> openOrder.effect == OpenEffect && IsExecutedOrder(openOrder)
    ensures r.Failure? ==> r.error == InvalidOpeningOrder
    ensures r.Success? ==> r.value.openOrder == openOrder && r.value.state == PositionOpen
    ensures r.Success? ==> r.value.CurrentQuantity() == openOrder.quantity && r.value.closeOrders == []
    ensures r.Success? ==> r.value.PositionId() == openOrder.orderId && r.value.OpenPrice() == openOrder.price
  {
    if ValidOpeningOrder(openOrder) then
      Success(Position(openOrder, openOrder.quantity, takeProfit, stopLoss, PositionOpen, []))
    else
      Failure(InvalidOpeningOrder)
  }

  /** `__validate_order`: same asset, opposite side, executed, and a partial-close effect within the remaining quantity. */
  predicate ValidateOrder(p: Position, o: Order) {
    && o.assetId == p.AssetId()
    && o.assetType == p.Asset()
    && o.side != p.Side()
    && o.state == Executed
    && !(o.effect == PartialCloseEffect && o.quantity > p.CurrentQuantity())
  }

  /**
   * `partial_close`: an open position accepts a valid closing order, records it and
   * subtracts its quantity; it is closed exactly when nothing remains.
   */
  function PartialClose(p: Position, o: Order): (r: (bool, Position))
    ensures r.0 <==>
              && p.state == PositionOpen
              && o.assetId == p.openOrder.assetId && o.assetType == p.openOrder.assetType
              && o.side != p.openOrder.side && IsExecutedOrder(o)
              && (o.effect == PartialCloseEffect ==> o.quantity <= p.remaining)
    ensures !r.0 ==> r.1 == p
    ensures r.0 ==> r.1.closeOrders == p.closeOrders + [o]
    ensures r.0 ==> r.1.remaining == p.remaining - o.quantity
    ensures r.0 ==> (r.1.state == PositionClosed <==> r.1.remaining == 0.0)
    ensures r.0 ==> r.1.state != PositionOpen
    ensures r.1.openOrder == p.openOrder && r.1.takeProfit == p.takeProfit && r.1.stopLoss == p.stopLoss
  {
    if p.state != PositionOpen || !ValidateOrder(p, o) then (false, p)
    else
      var left := p.remaining - o.quantity;
      (true, p.(closeOrders := p.closeOrders + [o], remaining := left,
                state := if left == 0.0 then PositionClosed else PositionPartialClosed))
  }

  /**
   * `close`: the same guards as `partial_close`; an accepted order closes the whole
   * position whatever its quantity.
   */
  function Close(p: Position, o: Order): (r: (bool, Position))
    ensures r.0 <==>
              && p.state == PositionOpen
              && o.assetId == p.openOrder.assetId && o.assetType == p.openOrder.assetType
              && o.side != p.openOrder.side && IsExecutedOrder(o)
              && (o.effect == PartialCloseEffect ==> o.quantity <= p.remaining)
    ensures r.0 == PartialClose(p, o).0
    ensures !r.0 ==> r.1 == p
    ensures r.0 ==> r.1.closeOrders == p.closeOrders + [o]
    ensures r.0 ==> r.1.remaining == 0.0 && r.1.state == PositionClosed
    ensures r.1.openOrder == p.openOrder && r.1.takeProfit == p.takeProfit && r.1.stopLoss == p.stopLoss
  {
    if p.state != PositionOpen || !ValidateOrder(p, o) then (false, p)
    else (true, p.(closeOrders := p.closeOrders + [o], remaining := 0.0, state := PositionClosed))
  }

  /** A call a driver may make on a position. */
  datatype PositionCall = CallPartialClose(order: Order) | CallClose(order: Order)

  function ApplyPositionCall(p: Position, call: PositionCall): (r: (bool, Position)) {
    match call
    case CallPartialClose(o) => PartialClose(p, o)
    case CallClose(o) => Close(p, o)
  }

  /** Replays `calls` in order; yields how many of them returned true and the final position. */
  function ReplayPosition(p: Position, calls: seq<PositionCall>): (r: (nat, Position))
    decreases |calls|
  {
    if |calls| == 0 then (0, p)
    else
      var (ok, next) := ApplyPositionCall(p, calls[0]);
      var (count, last) := ReplayPosition(next, calls[1..]);
      (count + if ok then 1 else 0, last)
  }

  /** A position that has left `open` (closed or partial_closed) rejects every further call and never changes. */
  lemma {:induction false} NotOpenIsFrozen(p: Position, calls: seq<PositionCall>)
    requires p.state != PositionOpen
    ensures ReplayPosition(p, calls) == (0, p)
    decreases |calls|
  {
    if |calls| > 0 {
      NotOpenIsFrozen(p, calls[1..]);
    }
  }

  /**
   * Any sequence of calls on an open position accepts at most one closing order.
   * Until one is accepted nothing changes; after it the position has left `open`,
   * holds one more closing order, and is closed exactly when nothing remains.
   */
  lemma {:induction false} AtMostOneClose(p: Position, calls: seq<PositionCall>)
    requires p.state == PositionOpen
    ensures ReplayPosition(p, calls).0 <= 1
    ensures ReplayPosition(p, calls).0 == 0 ==> ReplayPosition(p, calls).1 == p
    ensures var (n, q) := ReplayPosition(p, calls);
            n == 1 ==> && q.state != PositionOpen
                       && |q.closeOrders| == |p.closeOrders| + 1
                       && (q.state == PositionClosed <==> q.remaining == 0.0)
                       && q.openOrder == p.openOrder
    decreases |calls|
  {
    if |calls| > 0 {
      var (ok, next) := ApplyPositionCall(p, calls[0]);
      if ok {
        NotOpenIsFrozen(next, calls[1..]);
      } else {
        AtMostOneClose(next, calls[1..]);
      }
    }
  }

  /**
   * While a position is still `open`, its current quantity is the opening order's
   * quantity: the value the source reads through the `quantity` property.
   */
  lemma CurrentQuantityWhileOpen(openOrder: Order, takeProfit: real, stopLoss: real, calls: seq<PositionCall>)
    requires OpenPosition(openOrder, takeProfit, stopLoss).Success?
    ensures var q := ReplayPosition(OpenPosition(openOrder, takeProfit, stopLoss).value, calls).1;
            q.state == PositionOpen ==> q.CurrentQuantity() == openOrder.quantity
  {
    AtMostOneClose(OpenPosition(openOrder, takeProfit, stopLoss).value, calls);
  }

  /**
   * `open_time` reads the opening order's executed time, and `execute_order` stores
   * `np.datetime64()` there: every position opened from an order that `execute_order`
   * executed reports "not a time" as its opening time.
   */
  lemma OpenTimeIsNaT(o: Order, takeProfit: real, stopLoss: real)
    requires IsOpenOrder(o) && OpenPosition(ExecuteOrder(o).1, takeProfit, stopLoss).Success?
    ensures OpenPosition(ExecuteOrder(o).1, takeProfit, stopLoss).value.OpenTime() == NaT
  {
  }

  /**
   * `partial_close` bounds only partial-close-effect orders: a valid close-effect
   * order larger than the remaining quantity is accepted and leaves a negative
   * remaining quantity with the position partial_closed.
   */
  lemma CloseEffectOverdraws(p: Position, o: Order)
    requires p.state == PositionOpen && ValidateOrder(p, o)
    requires o.effect == CloseEffect && o.quantity > p.remaining
    ensures PartialClose(p, o).0
    ensures PartialClose(p, o).1.remaining < 0.0
    ensures PartialClose(p, o).1.state == PositionPartialClosed
  {
  }

  /**
   * The round trip of an open position: long 10 opened, short 4 partially closed
   * (6 left, partial_closed), then a short close of the remaining 6 is refused
   * because the position is no longer `open`.
   */
  lemma PartialThenCloseScenario(asset: string, id: string, t: Timestamp)
    ensures var opening := Order(asset, Cfd, OpenEffect, Long, Market, 10.0, 1.0, false,
                                 t, id, "", Executed, 0.0, 0.0, NaT, NaT);
            var partial := opening.(effect := PartialCloseEffect, side := Short, quantity := 4.0, parentOrderId := "p");
            var final := partial.(effect := CloseEffect, quantity := 6.0);
            var p0 := OpenPosition(opening, 0.0, 0.0);
            && p0.Success?
            && var p1 := PartialClose(p0.value, partial);
               && p1.0 && p1.1.remaining == 6.0 && p1.1.state == PositionPartialClosed
               && Close(p1.1, final) == (false, p1.1)
  {
  }
}
