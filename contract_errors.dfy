/**
 * The errors of the contract. `Unauthorized` is the one the swaps raise; `Std` wraps the
 * host library's error, which is how a failed storage load reaches a swap's caller.
 */
module ContractErrors {

  /** The host library's error; the missing record is the only host error this model represents. */
  datatype StdError = NotFound

  datatype ContractError = Std(err: StdError) | Unauthorized
}
