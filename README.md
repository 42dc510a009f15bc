# Fixed-rate two-asset pool

A model of a CosmWasm contract that holds one record, `State { token1, token2, amount1,
amount2 }`: the names of two assets and the pool's reserve of each. `instantiate` saves
that record. The two execute messages swap one asset for the other at a fixed exchange
rate of 1. `GetToken1for2 { token1: a }` adds `a` to `amount1` and takes `a` from
`amount2`. `GetToken2for1 { token2: a }` does the mirror image. Each swap is refused
with `Unauthorized` when the reserve it pays out of holds less than `a`. The `GetPool`
query returns the four stored values.

Layout:

- `wrappers.dfy`: `Option` and `Result`.
- `pool_state.dfy`: Rust's `i32` as a newtype, the `State` record, and `Total`,
  `NonNegative` and `SameTokens`.
- `msg.dfy`: the instantiate, execute and query messages and `PoolResponse`.
- `contract_errors.dfy`: `ContractError` (`Std` or `Unauthorized`) and the host's
  `StdError` (`NotFound`).
- `contract.dfy`: the core, in two layers.
  - Pure functions describe one invocation against the storage slot, an
    `Option<State>` that is `None` until something is saved. `Swap1For2` and
    `Swap2For1` are the closures passed to `STATE.update`. `Transition` is one
    `execute` (load, update, save only on success). `GetPool` is the query.
    `Run` is a sequence of executes in the order the host runs them.
  - The class `Instance` is a deployed contract. Its entry-point methods rewrite the
    `stored` field in place and are proved equal to the pure functions.
- `contract_tests.dfy`: the repository's three unit tests and a few general scenarios,
  written as clients of `Instance` and proved from its contracts alone.

The source files `src/msg.rs`, `src/state.rs` and `src/error.rs` are not part of this
model. The shapes of their types are inferred from how `src/contract.rs` uses them:

- `ContractError` has `Unauthorized` (raised at lines 63 and 79).
- `ContractError` also has a variant that wraps the host's `StdError`, because
  `STATE.update` and `?` convert a storage error into it.
- A missing record is the host's `NotFound` error.

The contract validates less than a two-asset pool might be expected to:

- There is no `AlreadyInitialized` check. A second `instantiate` overwrites the record
  (`ContractTests.InstantiateTwice`).
- There is no `InvalidAmount` check. Negative amounts are accepted
  (`Contract.NegativeAmountAccepted`).
- The capacity error is `Unauthorized`, not a separate reserve error.
- Initial reserves are not validated.

The properties that need non-negative reserves or amounts therefore take them as
hypotheses. They do not add checks to the operations.

Arithmetic is on `i32`. Each swap requires that, when its guard lets the amount through,
both updated reserves stay in the `i32` range (`Fits1For2`, `Fits2For1`). Nothing is
claimed about what an overflow would do. `HealthyFits` shows that this precondition
always holds when three things are true: the reserves are non-negative, their sum fits
in `i32`, and the amount is non-negative.

## Model

| member | source | states |
|---|---|---|
| `Contract.ReturnAmount` | src/contract.rs:58-60 | at the fixed rate of 1 the amount paid out equals the amount offered |
| `Contract.Swap1For2` | src/contract.rs:61-68 | refused, with `Unauthorized`, exactly when the offer exceeds `amount2`; on success the asset names are unchanged, `amount1` grows by the offer, `amount2` shrinks by it, the total is conserved, and non-negative reserves stay non-negative for a non-negative offer |
| `Contract.Swap2For1` | src/contract.rs:77-84 | mirror image: refused, with `Unauthorized`, exactly when the offer exceeds `amount1`; on success names unchanged, `amount2` grows and `amount1` shrinks by the offer, total conserved, non-negativity kept for a non-negative offer |
| `Contract.Transition` | src/contract.rs:50-86 | one execute: on any error the slot is unchanged (rejection purity); no record gives `Std(NotFound)`; with a record, the call fails exactly when the offer exceeds the reserve it pays from, and then with `Unauthorized`; otherwise it succeeds and stores the record the requested swap computes (`Swap1For2` or `Swap2For1`, whose contracts give both new reserves); success reports the message's `method` name; a record is never created or removed, its names never change, the total is conserved, and non-negativity is kept for a non-negative offer |
| `Contract.GetPool` | src/contract.rs:96-99 | fails with `NotFound` exactly when nothing is stored; otherwise returns the four stored values |
| `Contract.HealthyFits` | src/contract.rs:65-66 | with non-negative reserves whose sum fits in `i32` and a non-negative offer, no swap can overflow |
| `Contract.Run` | src/contract.rs:44-86 | over any sequence of swaps with non-negative offers from non-negative reserves whose sum fits in `i32`, the reserves stay non-negative, the names stay fixed, and the total is conserved |
| `Contract.RoundTrip1For2` | src/contract.rs:56-86 | after a successful `GetToken1for2(a)`, `GetToken2for1(a)` cannot overflow; it succeeds exactly when the original `amount1` was non-negative, and then restores the original record |
| `Contract.RoundTrip2For1` | src/contract.rs:56-86 | the mirror round trip: `GetToken2for1(a)` then `GetToken1for2(a)` restores the record, and the second swap succeeds exactly when the original `amount2` was non-negative |
| `Contract.NegativeAmountAccepted` | src/contract.rs:61-67 | from (0, 0), `GetToken1for2(-1)` passes the guard and commits (-1, 1): no amount check exists |
| `Contract.Instance.Instantiate` | src/contract.rs:18-41 | stores exactly the supplied names and reserves, whatever was stored before, and reports `method = instantiate` |
| `Contract.Instance.Execute` | src/contract.rs:44-54 | dispatches each message to its swap; the new slot and the result are those of `Transition` |
| `Contract.Instance.GetToken1For2` | src/contract.rs:56-71 | the in-place read-check-write of the record has the slot and result of `Transition` for `GetToken1for2` |
| `Contract.Instance.GetToken2For1` | src/contract.rs:73-86 | the in-place read-check-write of the record has the slot and result of `Transition` for `GetToken2for1` |
| `Contract.Instance.Query` | src/contract.rs:89-94 | answers `GetPool` with `GetPool` of the slot and changes nothing |
| `ContractTests.QueryAfterInstantiate` | src/contract.rs:18-41 | for any instantiate message, the following query returns exactly its four values |
| `ContractTests.InstantiateTwice` | src/contract.rs:27-35 | a second instantiate succeeds and the query then returns the second message's values |
| `ContractTests.UseBeforeInstantiate` | src/contract.rs:56-98 | before instantiate, the query fails with `NotFound` and both swaps with `Std(NotFound)` |
| `ContractTests.ProperInitialization` | src/contract.rs:108-132 | instantiating with ("token1", "token2", 50, 50) makes the query return those values |
| `ContractTests.Trade2For1` | src/contract.rs:134-160 | from (50, 50), `GetToken2for1 { token2: 1 }` succeeds and the pool reads (49, 51) |
| `ContractTests.Trade1For2` | src/contract.rs:162-188 | from (50, 50), `GetToken1for2 { token1: 1 }` succeeds and the pool reads (51, 49) |
| `ContractTests.OversizedSwapRefused` | src/contract.rs:61-64 | from (10, 5), `GetToken1for2 { token1: 6 }` is refused with `Unauthorized` and the pool still reads (10, 5) |

## Left out

- Host plumbing is not modelled: the entry-point attributes, `Deps`, `DepsMut`, `Env` and `MessageInfo`. `Response` keeps only the `method` attribute; the `owner` attribute (the sender) is dropped.
- `set_contract_version` and the contract-version metadata are not modelled; they are storage bookkeeping outside the pool logic.
- The storage engine is not modelled. `STATE` is the single field `Instance.stored`, and storage write or serialisation failures are not modelled.
- The wire encoding is not modelled (`to_binary` in `query`, `from_binary` in the tests). `Instance.Query` returns the `PoolResponse` value itself.
- i32 overflow is not modelled. `Contract.Swap1For2`, `Contract.Swap2For1`, `Contract.Transition` and the `Instance` swap methods require that a successful swap keeps both reserves in range. Whether Rust then wraps or panics depends on build settings, so it is not modelled.
- The test mocks are not modelled: `mock_dependencies`, `mock_info` and their coin balances.
- The `res.messages.len() == 0` check in `proper_initialization` is not modelled, because `Response` carries no sub-messages in this model.
