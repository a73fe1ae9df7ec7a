/** The option and record shapes of the domain layer, and its default constants. */
module Types {
  import opened Wrappers

  /** A hexadecimal Ethereum address. */
  type Address = string

  /** Safety margins, as integer percentages; an absent field takes its default. */
  datatype ExtraGasOptions = ExtraGasOptions(
    extraMaxPriorityFeePerGasPercentage: Option<nat>,
    extraGasPercentage: Option<nat>,
    extraOnRetryPercentage: Option<nat>)

  /** The fee fields of a dynamic-fee (EIP-1559) transaction, plus the gas margin. */
  datatype GasFeeInfo = GasFeeInfo(
    gas: nat,
    gasPrice: nat,
    maxFeePerGas: nat,
    maxPriorityFeePerGas: nat,
    extraGas: nat)

  /** How often to attempt and how long to pause after a failure (milliseconds). */
  datatype RetryOptions = RetryOptions(retries: Option<int>, delay: Option<int>)

  const DefaultExtraGasPercentage: nat := 10
  const DefaultExtraPriorityTipPercentage: nat := 20
  const DefaultExtraOnRetryPercentage: nat := 1
  const DefaultMaxBlocksWaitTime: nat := 30
}
