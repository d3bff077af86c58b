/** Option and Result, the two failure-compatible wrappers the model uses for the
    source's `Option<T>` and `anyhow::Result<T>`. */
module Wrappers {

  datatype Option<+T> = None | Some(value: T)

  datatype Result<+R, +E> = Success(value: R) | Failure(error: E)
}

/** The error conditions the core reports to its caller. The source raises them
    through `anyhow::ensure!` with a formatted message; here each message becomes a
    constructor holding the values that message prints. */
module Errors {

  datatype Error =
    | YearOutOfRange(year: int)
    | AllocationSumNot100(stock: real, bond: real, inflation: real)
    | SubAllocationSumOff(sum: real)
    | LeftoverRothCash(left: real)
    | RothTargetMismatch(target: real, holdings: real)
    | LeftoverBrokerageCash(left: real)
    | BrokerageTargetMismatch(target: real, holdings: real)
}
