/**
 * The typed commands and events exchanged with the trading client
 * (command.h and event.h are not part of this model; their shapes are the
 * ones the bridge and the UI read and write).
 */
module Trading {

  /** An IEEE-754 double carried as its bit pattern: the bridge only copies these. */
  datatype Double = Double(bits: bv64)

  /** A request sent to the client. */
  datatype Command =
    | Disconnect
    | StartScanner(reqId: int, scanCode: string, locationCode: string, priceAbove: Double)
    | CancelScanner(reqId: int)
    | RequestHistoricalData(reqId: int, symbol: string, endDateTime: string, durationStr: string,
                            barSizeSetting: string, whatToShow: string, useRTH: int)
    | RequestAccountData(accountCode: string)

  datatype ScannerItem = ScannerItem(rank: int, conId: int, symbol: string, secType: string, currency: string)

  datatype ScannerResult = ScannerResult(reqId: int, items: seq<ScannerItem>)

  datatype Candle = Candle(date: string, open: Double, high: Double, low: Double, close: Double, volume: int)

  datatype HistoricalDataEvent = HistoricalDataEvent(reqId: int, symbol: string, candles: seq<Candle>)

  datatype AccountValue = AccountValue(key: string, value: string, currency: string, accountName: string)

  datatype Position = Position(account: string, symbol: string, secType: string, position: Double,
                               marketPrice: Double, marketValue: Double, averageCost: Double,
                               unrealizedPNL: Double, realizedPNL: Double)

  datatype AccountSummaryEvent = AccountSummaryEvent(accountValues: seq<AccountValue>, positions: seq<Position>)

  /** A notification produced by the client: the alternatives of its `data` variant. */
  datatype Event =
    | ScannerEvent(result: ScannerResult)
    | HistoricalEvent(hist: HistoricalDataEvent)
    | AccountEvent(summary: AccountSummaryEvent)
}
