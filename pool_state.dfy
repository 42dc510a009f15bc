/**
 * The persisted record of the pool (the `State` struct of the contract's `state`
 * module, whose shape is inferred from its construction in `instantiate`) and the
 * 32-bit signed integer type its reserves are declared with.
 */
module PoolState {

  const I32_MIN: int := -0x8000_0000
  const I32_MAX: int := 0x7fff_ffff

  /** Rust's `i32`: arithmetic on it must stay inside this range, `I32_MIN` to `I32_MAX`. */
  newtype i32 = x: int | -0x8000_0000 <= x < 0x8000_0000

  /** Exactly the values of `i32` (`I32InRange` below). */
  predicate InI32(x: int) {
    I32_MIN <= x <= I32_MAX
  }

  lemma I32InRange(x: i32)
    ensures InI32(x as int)
  {
  }

  /** The single stored record: two asset names and their two reserves. */
  datatype State = State(token1: string, token2: string, amount1: i32, amount2: i32)

  /** The sum of both reserves, as an unbounded integer. */
  function Total(s: State): int {
    s.amount1 as int + s.amount2 as int
  }

  predicate NonNegative(s: State) {
    0 <= s.amount1 && 0 <= s.amount2
  }

  /** The two asset names of `t` are those of `s`. */
  predicate SameTokens(t: State, s: State) {
    t.token1 == s.token1 && t.token2 == s.token2
  }
}
