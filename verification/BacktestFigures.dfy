/** What a backtest reports. */
module BacktestFigures {

  datatype Reason = TakeProfit | StopLoss | MaxHold | SignalExit | EndOfData

  datatype EquityPoint = EquityPoint(date: int, equity: real)

  datatype BacktestTrade = BacktestTrade(
    entryDate: int, exitDate: int, entryPrice: real, exitPrice: real, ret: real, holdDays: int, reason: Reason)

  datatype BacktestResult = BacktestResult(
    trades: int, totalReturn: real, winRate: real, profitFactor: real, maxDrawdown: real, avgWin: real,
    avgLoss: real, payoffRatio: real, avgHoldDays: real, equity: seq<EquityPoint>, tradeList: seq<BacktestTrade>)

  const EMPTY_RESULT := BacktestResult(0, 0.0, 0.0, 0.0, 0.0, 0.0, 0.0, 0.0, 0.0, [], [])
}
