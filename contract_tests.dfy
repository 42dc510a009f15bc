/**
 * Clients of a deployed `Instance`: the contract's own test scenarios, and the
 * general facts they illustrate, proved from the entry points' contracts alone.
 */
module ContractTests {
  import opened Wrappers
  import opened PoolState
  import opened ContractErrors
  import Msg
  import opened Contract

  function PoolMsg(amount1: i32, amount2: i32): Msg.InstantiateMsg {
    Msg.InstantiateMsg("token1", "token2", amount1, amount2)
  }

  /** Whatever `instantiate` is given, `get_pool` then answers with exactly those values. */
  method QueryAfterInstantiate(msg: Msg.InstantiateMsg)
    returns (init: Result<Response, ContractError>, pool: Result<Msg.PoolResponse, StdError>)
    ensures init == Ok(Response("instantiate"))
    ensures pool == Ok(Msg.PoolResponse(msg.token1, msg.token2, msg.amount1, msg.amount2))
  {
    var c := new Instance();
    init := c.Instantiate(msg);
    pool := c.Query(Msg.GetPool);
  }

  /** A second `instantiate` is not refused: it overwrites the first record. */
  method InstantiateTwice(first: Msg.InstantiateMsg, second: Msg.InstantiateMsg)
    returns (again: Result<Response, ContractError>, pool: Result<Msg.PoolResponse, StdError>)
    ensures again == Ok(Response("instantiate"))
    ensures pool == Ok(Msg.PoolResponse(second.token1, second.token2, second.amount1, second.amount2))
  {
    var c := new Instance();
    var _ := c.Instantiate(first);
    again := c.Instantiate(second);
    pool := c.Query(Msg.GetPool);
  }

  /** Before `instantiate`, the query and both swaps fail because nothing is stored. */
  method UseBeforeInstantiate(amount: i32)
    returns (pool: Result<Msg.PoolResponse, StdError>,
             swap1: Result<Response, ContractError>, swap2: Result<Response, ContractError>)
    ensures pool == Err(NotFound)
    ensures swap1 == Err(Std(NotFound)) && swap2 == Err(Std(NotFound))
  {
    var c := new Instance();
    pool := c.Query(Msg.GetPool);
    swap1 := c.Execute(Msg.GetToken1for2(amount));
    swap2 := c.Execute(Msg.GetToken2for1(amount));
  }

  /** The `proper_initialization` scenario. */
  method ProperInitialization() returns (pool: Result<Msg.PoolResponse, StdError>)
    ensures pool == Ok(Msg.PoolResponse("token1", "token2", 50, 50))
  {
    var c := new Instance();
    var _ := c.Instantiate(PoolMsg(50, 50));
    pool := c.Query(Msg.GetPool);
  }

  /** The `trade2for1` scenario: from (50, 50), offering 1 of token2 gives (49, 51). */
  method Trade2For1()
    returns (res: Result<Response, ContractError>, pool: Result<Msg.PoolResponse, StdError>)
    ensures res == Ok(Response("GetToken2for1"))
    ensures pool == Ok(Msg.PoolResponse("token1", "token2", 49, 51))
  {
    var c := new Instance();
    var _ := c.Instantiate(PoolMsg(50, 50));
    res := c.Execute(Msg.GetToken2for1(1));
    pool := c.Query(Msg.GetPool);
  }

  /** The `trade1for2` scenario: from (50, 50), offering 1 of token1 gives (51, 49). */
  method Trade1For2()
    returns (res: Result<Response, ContractError>, pool: Result<Msg.PoolResponse, StdError>)
    ensures res == Ok(Response("GetToken1for2"))
    ensures pool == Ok(Msg.PoolResponse("token1", "token2", 51, 49))
  {
    var c := new Instance();
    var _ := c.Instantiate(PoolMsg(50, 50));
    res := c.Execute(Msg.GetToken1for2(1));
    pool := c.Query(Msg.GetPool);
  }

  /** From (10, 5), offering 6 of token1 is refused and the pool still reads (10, 5). */
  method OversizedSwapRefused()
    returns (res: Result<Response, ContractError>, pool: Result<Msg.PoolResponse, StdError>)
    ensures res == Err(Unauthorized)
    ensures pool == Ok(Msg.PoolResponse("token1", "token2", 10, 5))
  {
    var c := new Instance();
    var _ := c.Instantiate(PoolMsg(10, 5));
    res := c.Execute(Msg.GetToken1for2(6));
    pool := c.Query(Msg.GetPool);
  }
}
