/** The trading strategies. */
module Strategies {

  datatype Strategy =
    | MACDBullish
    | BollingerBreakout
    | TriangleFormation
    | MovingAverageCross
    | MultipleSignals
    | Unknown
}
