/** 64-bit wrap-around, and the smaller and larger of two numbers. */
module Arith {
  const WORD := 0x1_0000_0000_0000_0000

  type word = x: int | 0 <= x < WORD

  lemma ModShift(x: int, k: int)
    ensures (x + k * WORD) % WORD == x % WORD
  {
    var q := x / WORD;
    var r := x % WORD;
    assert x + k * WORD == (q + k) * WORD + r;
  }

  function Min(a: int, b: int): int {
    if a <= b then a else b
  }

  function Max(a: int, b: int): int {
    if a >= b then a else b
  }
}
