/**
 * `Order`: one trading instruction and its one-way lifecycle
 * (backtrategy/backtrategy.py:156-207).
 *
 * Prices and quantities are `Decimal` in the source and exact `real`s here. The
 * dataclass fields are kept one for one; `type` is called `kind`.
 */
module Orders {
  import opened Wrappers
  import opened Enums

  datatype Order = Order(
    assetId: string,
    assetType: AssetType,
    effect: OrderEffect,
    side: OrderSide,
    kind: OrderType,
    quantity: real,
    price: real,
    partialFill: bool,
    createTime: Timestamp,
    orderId: string,
    parentOrderId: string,
    state: OrderState,
    takeProfit: real,
    stopLoss: real,
    executedTime: Timestamp,
    cancelTime: Timestamp)

  /** The `ValueError` of `__post_init__`. */
  datatype OrderError = MissingParent

  /** An order that closes (fully or partly) a position. */
  predicate ClosesPosition(o: Order) {
    o.effect == CloseEffect || o.effect == PartialCloseEffect
  }

  /**
   * The dataclass fields as a caller builds them when it passes only the required
   * arguments and a parent id. `createTime` and `orderId` stand for the class-level
   * defaults, which Python evaluates once and shares between every order.
   */
  function Request(assetId: string, assetType: AssetType, effect: OrderEffect, side: OrderSide,
                   kind: OrderType, quantity: real, price: real, partialFill: bool,
                   parentOrderId: string, createTime: Timestamp, orderId: string): (o: Order)
    ensures o.assetId == assetId && o.assetType == assetType && o.effect == effect && o.side == side
    ensures o.kind == kind && o.quantity == quantity && o.price == price && o.partialFill == partialFill
    ensures o.parentOrderId == parentOrderId && o.createTime == createTime && o.orderId == orderId
    ensures o.state == Open
    ensures o.executedTime == NaT && o.cancelTime == NaT
    ensures o.takeProfit == 0.0 && o.stopLoss == 0.0
  {
    Order(assetId, assetType, effect, side, kind, quantity, price, partialFill,
          createTime, orderId, parentOrderId, Open, 0.0, 0.0, NaT, NaT)
  }

  /** Construction: the fields are kept as given, unless a closing order lacks a parent id. */
  function NewOrder(fields: Order): (r: Result<Order, OrderError>)
    ensures r.Failure? <==> ClosesPosition(fields) && fields.parentOrderId == ""
    ensures r.Failure? ==> r.error == MissingParent
    ensures r.Success? ==> r.value == fields
  {
    if ClosesPosition(fields) && fields.parentOrderId == "" then Failure(MissingParent) else Success(fields)
  }

  /** `total_money`: the notional value; dividing it by a non-zero price gives back the quantity. */
  function TotalMoney(o: Order): (r: real)
    ensures o.price != 0.0 ==> r / o.price == o.quantity
    ensures o.price == 0.0 || o.quantity == 0.0 ==> r == 0.0
    ensures o.quantity >= 0.0 && o.price >= 0.0 ==> r >= 0.0
  {
    o.quantity * o.price
  }

  predicate IsClosedOrder(o: Order) { o.state == Close }
  predicate IsOpenOrder(o: Order) { o.state == Open }
  predicate IsExecutedOrder(o: Order) { o.state == Executed }
  predicate IsCanceledOrder(o: Order) { o.state == Canceled }

  /**
   * `cancel_order`: only an open order can be canceled. The cancel time is set to
   * `np.datetime64()`, which is "not a time".
   */
  function CancelOrder(o: Order): (r: (bool, Order))
    ensures r.0 <==> IsOpenOrder(o)
    ensures r.0 ==> IsCanceledOrder(r.1) && r.1.cancelTime == NaT
    ensures r.0 ==> r.1 == o.(state := r.1.state, cancelTime := r.1.cancelTime)
    ensures !r.0 ==> r.1 == o
  {
    if o.state == Open then (true, o.(state := Canceled, cancelTime := NaT)) else (false, o)
  }

  /**
   * `execute_order`: only an open order can be executed. The executed time is set
   * to `np.datetime64()`, which is "not a time".
   */
  function ExecuteOrder(o: Order): (r: (bool, Order))
    ensures r.0 <==> IsOpenOrder(o)
    ensures r.0 ==> IsExecutedOrder(r.1) && r.1.executedTime == NaT
    ensures r.0 ==> r.1 == o.(state := r.1.state, executedTime := r.1.executedTime)
    ensures !r.0 ==> r.1 == o
  {
    if o.state == Open then (true, o.(state := Executed, executedTime := NaT)) else (false, o)
  }

  /** A call a driver may make on an order. */
  datatype OrderCall = CallCancel | CallExecute

  function ApplyOrderCall(o: Order, call: OrderCall): (r: (bool, Order)) {
    match call
    case CallCancel => CancelOrder(o)
    case CallExecute => ExecuteOrder(o)
  }

  /** Replays `calls` in order; yields how many of them returned true and the final order. */
  function ReplayOrder(o: Order, calls: seq<OrderCall>): (r: (nat, Order))
    decreases |calls|
  {
    if |calls| == 0 then (0, o)
    else
      var (ok, next) := ApplyOrderCall(o, calls[0]);
      var (count, last) := ReplayOrder(next, calls[1..]);
      (count + if ok then 1 else 0, last)
  }

  /** Executed and canceled orders are terminal: every later call fails and changes nothing. */
  lemma {:induction false} TerminalStates(o: Order, calls: seq<OrderCall>)
    requires IsExecutedOrder(o) || IsCanceledOrder(o)
    ensures ReplayOrder(o, calls) == (0, o)
    decreases |calls|
  {
    if |calls| > 0 {
      TerminalStates(o, calls[1..]);
    }
  }

  /**
   * From `open`, the first call always succeeds and is the only one that does: the
   * state machine makes exactly one transition, never back to `open` and never to
   * the `close` state that `is_closed_order` tests for.
   */
  lemma OneTransition(o: Order, calls: seq<OrderCall>)
    requires IsOpenOrder(o) && |calls| > 0
    ensures ReplayOrder(o, calls) == (1, ApplyOrderCall(o, calls[0]).1)
    ensures IsExecutedOrder(ReplayOrder(o, calls).1) <==> calls[0] == CallExecute
    ensures IsCanceledOrder(ReplayOrder(o, calls).1) <==> calls[0] == CallCancel
    ensures !IsClosedOrder(ReplayOrder(o, calls).1) && !IsOpenOrder(ReplayOrder(o, calls).1)
  {
    TerminalStates(ApplyOrderCall(o, calls[0]).1, calls[1..]);
  }

  /** An order built with the default state starts open, and is not "closed" in the `is_closed_order` sense. */
  lemma RequestStartsOpen(assetId: string, assetType: AssetType, effect: OrderEffect, side: OrderSide,
                          kind: OrderType, quantity: real, price: real, partialFill: bool,
                          parentOrderId: string, createTime: Timestamp, orderId: string)
    ensures var r := NewOrder(Request(assetId, assetType, effect, side, kind, quantity, price,
                                      partialFill, parentOrderId, createTime, orderId));
            && (r.Success? <==> effect == OpenEffect || parentOrderId != "")
            && (r.Success? ==> IsOpenOrder(r.value) && !IsClosedOrder(r.value))
  {
  }
}
