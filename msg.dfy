/**
 * The messages of the contract's `msg` module, with their shapes inferred from how
 * `instantiate`, `execute`, `query` and `get_pool` use them.
 */
module Msg {
  import opened PoolState

  /** The parameters `instantiate` copies into the stored record. */
  datatype InstantiateMsg = InstantiateMsg(token1: string, token2: string, amount1: i32, amount2: i32)

  /**
   * The two swap requests. As in the source, the field of `GetToken1for2` is named
   * `token1` and that of `GetToken2for1` is named `token2`; each holds the amount offered.
   */
  datatype ExecuteMsg = GetToken1for2(token1: i32) | GetToken2for1(token2: i32)

  datatype QueryMsg = GetPool

  /** The answer to a `GetPool` query. */
  datatype PoolResponse = PoolResponse(token1: string, token2: string, amount1: i32, amount2: i32)

  /** The amount a swap request offers. */
  function OfferedAmount(msg: ExecuteMsg): i32 {
    match msg
    case GetToken1for2(a) => a
    case GetToken2for1(a) => a
  }
}
