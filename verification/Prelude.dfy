/** Shared vocabulary: addresses, optional values, and the outcome of a contract call. */
module Prelude {

  datatype Address = Address(id: nat)

  datatype Option<+T> = None | Some(value: T) {
    function GetOr(default: T): T {
      match this
      case None => default
      case Some(v) => v
    }
  }

  /** The contract's typed errors that the modelled entrypoints raise. */
  datatype Error =
    | Unauthorized
    | UnsupportedAsset
    | InvalidAmount
    | InsufficientCollateral
    | InsufficientDeposit
    | RepayTooLarge
    | InvalidCollateralRatio
    | ZeroAmount
    | OraclePriceMissing
    | ContractPaused
    | CapExceeded
    | InvalidLiquidationParams
    | InvalidCap
    | InsufficientReserve
    | TimelockNotReady
    | UnknownAction
    | LastAdminRequired
    | InvalidTimelock
    | TimelockRequired
    | OraclePriceStale
    | OraclePriceChangeExceedsLimit
    | OraclePriceOutOfBounds
    | LiquidationTooLarge
    | AssetHasActivePositions
    | CapBelowOutstanding
    | ProtocolFeeExceedsLimit
    | SeizeExceedsCollateral
    | PositionNotLiquidatable
    | FlashLoanNotConfigured
    | FlashLoanDisabled
    | FlashLoanExceedsMaxBps
    | InvalidFlashLoanParams
    | InvalidInterestParams
    | InvalidUpgradeVersion
    | CollateralFactorExceedsThreshold
    | LiquidationThresholdExceedsMax
    | InvalidLiquidationBonus
    | LiquidationThresholdPlusBonusExceedsMax
    | BadDebtStillCollateralized
    | FlashLoanCallbackFailed

  /** A panic reverts the whole call, so an error carries no state. */
  datatype Result<+T> = Ok(value: T) | Err(error: Error) {
    predicate IsFailure() { Err? }

    function PropagateFailure<U>(): Result<U>
      requires Err?
    {
      Err(error)
    }

    function Extract(): T
      requires Ok?
    {
      value
    }
  }

  /** A check that either passes or panics. */
  datatype Check = Pass | Fail(error: Error) {
    predicate IsFailure() { Fail? }

    function PropagateFailure<U>(): Result<U>
      requires Fail?
    {
      Err(error)
    }
  }

  function Require(condition: bool, error: Error): Check {
    if condition then Pass else Fail(error)
  }
}
