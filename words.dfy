/** Fixed-width unsigned integers as C++ `unsigned int` and `unsigned short`
    behave on the target: arithmetic wraps around modulo 2^32. */
module Words {

  const U32_LIMIT: int := 0x1_0000_0000
  const U32_MAX: u32 := 0xFFFF_FFFF

  newtype u32 = x: int | 0 <= x < 0x1_0000_0000
  newtype u16 = x: int | 0 <= x < 0x1_0000

  /** `x + k` in `unsigned int` arithmetic. */
  function Add32(x: u32, k: nat): (r: u32)
    ensures x as int + k < U32_LIMIT ==> r as int == x as int + k
    ensures U32_LIMIT <= x as int + k < 2 * U32_LIMIT ==> r as int == x as int + k - U32_LIMIT
  {
    ((x as int + k) % U32_LIMIT) as u32
  }

  /** `++x` on `unsigned int`: the largest value wraps to zero. */
  function Inc32(x: u32): (r: u32)
    ensures x < U32_MAX ==> r as int == x as int + 1
    ensures x == U32_MAX ==> r == 0
  {
    Add32(x, 1)
  }

  /** `--x` on `unsigned int`: zero wraps to the largest value. */
  function Dec32(x: u32): (r: u32)
    ensures x > 0 ==> r as int == x as int - 1
    ensures x == 0 ==> r == U32_MAX
  {
    if x == 0 then U32_MAX else x - 1
  }

  /** Within any window of 2^32 consecutive offsets, adding distinct offsets
      to the same start gives distinct results, wrap-around or not. */
  lemma Add32Injective(x: u32, j: nat, k: nat)
    requires j < k < j + U32_LIMIT
    ensures Add32(x, j) != Add32(x, k)
  {
    var a, b := x as int + j, x as int + k;
    assert a == (a / U32_LIMIT) * U32_LIMIT + a % U32_LIMIT;
    assert b == (b / U32_LIMIT) * U32_LIMIT + b % U32_LIMIT;
  }

  /** Adding one at a time: the value `Add32(x, k)` steps to `Add32(x, k + 1)`. */
  lemma Add32Step(x: u32, k: nat)
    ensures Inc32(Add32(x, k)) == Add32(x, k + 1)
  {
    var a := x as int + k;
    assert a == (a / U32_LIMIT) * U32_LIMIT + a % U32_LIMIT;
    var m := a % U32_LIMIT;
    if m + 1 < U32_LIMIT {
      assert (a + 1) == (a / U32_LIMIT) * U32_LIMIT + (m + 1);
    } else {
      assert (a + 1) == (a / U32_LIMIT + 1) * U32_LIMIT + 0;
    }
  }
}
