/**
 * The fixed-rate two-asset pool: instantiation, the two mirror-image swaps, the
 * `execute` dispatch and the `get_pool` query.
 *
 * The storage slot holding the record is an `Option<State>` (`None` before anything
 * was saved). The pure functions below describe one invocation against that slot; the
 * class `Instance` is the deployed contract whose slot the entry points update in place.
 */
module Contract {
  import opened Wrappers
  import opened PoolState
  import Msg
  import opened ContractErrors

  /** The exchange rate both swaps use. */
  const EXCHANGE_RATE: i32 := 1

  /** What a successful entry point reports: its `method` attribute. */
  datatype Response = Response(methodName: string)

  /** The storage slot after one invocation, and what the invocation returned. */
  datatype Outcome = Outcome(stored: Option<State>, response: Result<Response, ContractError>)

  /** The amount paid out for `amount` offered; at the fixed rate it is the same amount. */
  function ReturnAmount(amount: i32): (r: i32)
    ensures r == amount
  {
    amount * EXCHANGE_RATE
  }

  /** The `method` attribute each swap reports. */
  function MethodName(msg: Msg.ExecuteMsg): string {
    match msg
    case GetToken1for2(_) => "GetToken1for2"
    case GetToken2for1(_) => "GetToken2for1"
  }

  /** The reserve a swap pays out of, the one its guard compares against. */
  function CounterReserve(s: State, msg: Msg.ExecuteMsg): i32 {
    match msg
    case GetToken1for2(_) => s.amount2
    case GetToken2for1(_) => s.amount1
  }

  /** When the guard of `GetToken1for2` lets `amount` through, neither reserve leaves `i32`. */
  predicate Fits1For2(s: State, amount: i32) {
    ReturnAmount(amount) <= s.amount2 ==>
      InI32(s.amount1 as int + amount as int) && InI32(s.amount2 as int - ReturnAmount(amount) as int)
  }

  /** When the guard of `GetToken2for1` lets `amount` through, neither reserve leaves `i32`. */
  predicate Fits2For1(s: State, amount: i32) {
    ReturnAmount(amount) <= s.amount1 ==>
      InI32(s.amount2 as int + amount as int) && InI32(s.amount1 as int - ReturnAmount(amount) as int)
  }

  /**
   * The update `get_token1for2` applies to the loaded record: offer `amount` of token1,
   * receive `amount` of token2, refused with `Unauthorized` when the token2 reserve
   * cannot pay.
   */
  function Swap1For2(s: State, amount: i32): (r: Result<State, ContractError>)
    requires Fits1For2(s, amount)
    ensures r.Err? <==> amount > s.amount2
    ensures r.Err? ==> r.error == Unauthorized
    ensures r.Ok? ==> SameTokens(r.value, s)
    ensures r.Ok? ==> r.value.amount1 as int == s.amount1 as int + amount as int
    ensures r.Ok? ==> r.value.amount2 as int == s.amount2 as int - amount as int
    ensures r.Ok? ==> Total(r.value) == Total(s)
    ensures r.Ok? && NonNegative(s) && 0 <= amount ==> NonNegative(r.value)
  {
    var returnAmount := ReturnAmount(amount);
    if returnAmount > s.amount2 then Err(Unauthorized)
    else Ok(s.(amount1 := s.amount1 + amount, amount2 := s.amount2 - returnAmount))
  }

  /**
   * The update `get_token2for1` applies to the loaded record: offer `amount` of token2,
   * receive `amount` of token1, refused with `Unauthorized` when the token1 reserve
   * cannot pay.
   */
  function Swap2For1(s: State, amount: i32): (r: Result<State, ContractError>)
    requires Fits2For1(s, amount)
    ensures r.Err? <==> amount > s.amount1
    ensures r.Err? ==> r.error == Unauthorized
    ensures r.Ok? ==> SameTokens(r.value, s)
    ensures r.Ok? ==> r.value.amount2 as int == s.amount2 as int + amount as int
    ensures r.Ok? ==> r.value.amount1 as int == s.amount1 as int - amount as int
    ensures r.Ok? ==> Total(r.value) == Total(s)
    ensures r.Ok? && NonNegative(s) && 0 <= amount ==> NonNegative(r.value)
  {
    var returnAmount := ReturnAmount(amount);
    if returnAmount > s.amount1 then Err(Unauthorized)
    else Ok(s.(amount2 := s.amount2 + amount, amount1 := s.amount1 - returnAmount))
  }

  /** The swap `msg` requests cannot overflow on a stored record. */
  predicate TransitionFits(stored: Option<State>, msg: Msg.ExecuteMsg) {
    stored.Some? ==>
      match msg
      case GetToken1for2(a) => Fits1For2(stored.value, a)
      case GetToken2for1(a) => Fits2For1(stored.value, a)
  }

  /**
   * One `execute` invocation: load the record (a missing one is `NotFound`), apply the
   * requested swap, and save the new record only when the swap succeeded.
   */
  function Transition(stored: Option<State>, msg: Msg.ExecuteMsg): (o: Outcome)
    requires TransitionFits(stored, msg)
    ensures o.response.Err? ==> o.stored == stored
    ensures stored.None? ==> o.response == Err(Std(NotFound))
    ensures stored.Some? ==>
              (o.response.Err? <==> Msg.OfferedAmount(msg) > CounterReserve(stored.value, msg))
    ensures stored.Some? && o.response.Err? ==> o.response.error == Unauthorized
    ensures stored.Some? && o.response.Ok? ==>
              o.stored == Some(match msg
                case GetToken1for2(a) => Swap1For2(stored.value, a).value
                case GetToken2for1(a) => Swap2For1(stored.value, a).value)
    ensures o.response.Ok? ==> o.response.value == Response(MethodName(msg))
    ensures o.stored.Some? <==> stored.Some?
    ensures stored.Some? ==> SameTokens(o.stored.value, stored.value)
    ensures stored.Some? ==> Total(o.stored.value) == Total(stored.value)
    ensures stored.Some? && NonNegative(stored.value) && 0 <= Msg.OfferedAmount(msg) ==>
              NonNegative(o.stored.value)
  {
    match stored
    case None => Outcome(None, Err(Std(NotFound)))
    case Some(s) =>
      var r := match msg
        case GetToken1for2(a) => Swap1For2(s, a)
        case GetToken2for1(a) => Swap2For1(s, a);
      match r
      case Err(e) => Outcome(stored, Err(e))
      case Ok(next) => Outcome(Some(next), Ok(Response(MethodName(msg))))
  }

  /** `get_pool`: the stored record as a `PoolResponse`, or `NotFound` when there is none. */
  function GetPool(stored: Option<State>): (r: Result<Msg.PoolResponse, StdError>)
    ensures r.Err? <==> stored.None?
    ensures r.Err? ==> r.error == NotFound
    ensures r.Ok? ==>
              r.value.token1 == stored.value.token1 && r.value.token2 == stored.value.token2 &&
              r.value.amount1 == stored.value.amount1 && r.value.amount2 == stored.value.amount2
  {
    match stored
    case None => Err(NotFound)
    case Some(s) => Ok(Msg.PoolResponse(s.token1, s.token2, s.amount1, s.amount2))
  }

  /**
   * A slot from which no swap with a non-negative amount can overflow: nothing stored,
   * or non-negative reserves whose sum is an `i32`.
   */
  predicate Healthy(stored: Option<State>) {
    stored.Some? ==> NonNegative(stored.value) && Total(stored.value) <= I32_MAX
  }

  lemma HealthyFits(stored: Option<State>, msg: Msg.ExecuteMsg)
    requires Healthy(stored) && 0 <= Msg.OfferedAmount(msg)
    ensures TransitionFits(stored, msg)
  {
  }

  /**
   * The slot after the host runs the swap requests `msgs` one after another, each with a
   * non-negative amount, from a healthy slot. Healthiness, the asset names and the total
   * of the reserves are invariants of every such run.
   */
  function Run(stored: Option<State>, msgs: seq<Msg.ExecuteMsg>): (r: Option<State>)
    requires Healthy(stored)
    requires forall i :: 0 <= i < |msgs| ==> 0 <= Msg.OfferedAmount(msgs[i])
    ensures Healthy(r)
    ensures r.Some? <==> stored.Some?
    ensures stored.Some? ==> SameTokens(r.value, stored.value)
    ensures stored.Some? ==> Total(r.value) == Total(stored.value)
    decreases |msgs|
  {
    if msgs == [] then stored
    else
      HealthyFits(stored, msgs[0]);
      Run(Transition(stored, msgs[0]).stored, msgs[1..])
  }

  /**
   * A successful `GetToken1for2(a)` followed by `GetToken2for1(a)` never overflows; the
   * second succeeds exactly when the original token1 reserve was non-negative, and then
   * restores the original record.
   */
  lemma RoundTrip1For2(s: State, a: i32)
    requires Fits1For2(s, a) && Swap1For2(s, a).Ok?
    ensures Fits2For1(Swap1For2(s, a).value, a)
    ensures Swap2For1(Swap1For2(s, a).value, a).Ok? <==> 0 <= s.amount1
    ensures Swap2For1(Swap1For2(s, a).value, a).Ok? ==> Swap2For1(Swap1For2(s, a).value, a).value == s
  {
  }

  /** The mirror image of `RoundTrip1For2`. */
  lemma RoundTrip2For1(s: State, a: i32)
    requires Fits2For1(s, a) && Swap2For1(s, a).Ok?
    ensures Fits1For2(Swap2For1(s, a).value, a)
    ensures Swap1For2(Swap2For1(s, a).value, a).Ok? <==> 0 <= s.amount2
    ensures Swap1For2(Swap2For1(s, a).value, a).Ok? ==> Swap1For2(Swap2For1(s, a).value, a).value == s
  {
  }

  /**
   * No amount check exists: a negative offer passes the guard and drives the
   * credited reserve below zero, which is why the invariants above assume
   * non-negative amounts.
   */
  lemma NegativeAmountAccepted()
    ensures Transition(Some(State("token1", "token2", 0, 0)), Msg.GetToken1for2(-1))
            == Outcome(Some(State("token1", "token2", -1, 1)), Ok(Response("GetToken1for2")))
  {
  }

  /** A deployed contract: its one storage slot, updated in place by the entry points. */
  class Instance {
    var stored: Option<State>

    /** A freshly deployed contract, before `instantiate` has saved anything. */
    constructor ()
      ensures stored == None
    {
      stored := None;
    }

    /** `instantiate`: save the supplied names and reserves, overwriting any earlier record. */
    method Instantiate(msg: Msg.InstantiateMsg) returns (r: Result<Response, ContractError>)
      modifies this
      ensures stored == Some(State(msg.token1, msg.token2, msg.amount1, msg.amount2))
      ensures r == Ok(Response("instantiate"))
    {
      var state := State(msg.token1, msg.token2, msg.amount1, msg.amount2);
      stored := Some(state);
      r := Ok(Response("instantiate"));
    }

    /** `execute`: dispatch to the swap the message names. */
    method Execute(msg: Msg.ExecuteMsg) returns (r: Result<Response, ContractError>)
      requires TransitionFits(stored, msg)
      modifies this
      ensures Outcome(stored, r) == Transition(old(stored), msg)
    {
      match msg
      case GetToken1for2(a) => r := GetToken1For2(a);
      case GetToken2for1(a) => r := GetToken2For1(a);
    }

    /** `get_token1for2`: read, check and rewrite the stored record. */
    method GetToken1For2(amount: i32) returns (r: Result<Response, ContractError>)
      requires TransitionFits(stored, Msg.GetToken1for2(amount))
      modifies this
      ensures Outcome(stored, r) == Transition(old(stored), Msg.GetToken1for2(amount))
    {
      var returnAmount := amount * EXCHANGE_RATE;
      if stored.None? {
        return Err(Std(NotFound));
      }
      var state := stored.value;
      if returnAmount > state.amount2 {
        return Err(Unauthorized);
      }
      state := state.(amount1 := state.amount1 + amount);
      state := state.(amount2 := state.amount2 - returnAmount);
      stored := Some(state);
      r := Ok(Response("GetToken1for2"));
    }

    /** `get_token2for1`: read, check and rewrite the stored record. */
    method GetToken2For1(amount: i32) returns (r: Result<Response, ContractError>)
      requires TransitionFits(stored, Msg.GetToken2for1(amount))
      modifies this
      ensures Outcome(stored, r) == Transition(old(stored), Msg.GetToken2for1(amount))
    {
      var returnAmount := amount * EXCHANGE_RATE;
      if stored.None? {
        return Err(Std(NotFound));
      }
      var state := stored.value;
      if returnAmount > state.amount1 {
        return Err(Unauthorized);
      }
      state := state.(amount2 := state.amount2 + amount);
      state := state.(amount1 := state.amount1 - returnAmount);
      stored := Some(state);
      r := Ok(Response("GetToken2for1"));
    }

    /** `query`: answer a `GetPool` request from the slot, leaving it untouched. */
    method Query(msg: Msg.QueryMsg) returns (r: Result<Msg.PoolResponse, StdError>)
      ensures r == GetPool(stored)
    {
      match msg
      case GetPool => r := GetPool(stored);
    }
  }
}
