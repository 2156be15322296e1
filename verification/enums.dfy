/** The closed vocabularies of the backtesting core (backtrategy/backtrategy.py:17-153). */
module Enums {

  /** Data classification tag; the second of the two `DataType` definitions is the one in force. */
  datatype DataType = StockData | ForexData | CryptoData

  datatype OrderType = Market | Limit | StopLimit

  /** What an order does to a position. */
  datatype OrderEffect = OpenEffect | CloseEffect | PartialCloseEffect

  datatype OrderSide = Long | Short

  /** Lifecycle state of an order. `Close` and `PartialFilled` exist but no operation produces them. */
  datatype OrderState = Open | Executed | Canceled | Close | PartialFilled

  datatype PositionState = PositionOpen | PositionClosed | PositionPartialClosed

  datatype AssetType = Shares | Futures | Cfd | Crypto

  /** A numpy `datetime64`: either "not a time" (what `np.datetime64()` yields) or an instant. */
  datatype Timestamp = NaT | At(nanos: int)
}
