/** Go's fixed-width signed integers: two's-complement wrap-around written out over `int`. */
module MachineInts {

  const MAX64: int := 0x7FFF_FFFF_FFFF_FFFF
  const MIN64: int := -0x8000_0000_0000_0000
  const TWO64: int := 0x1_0000_0000_0000_0000

  type int64 = x: int | MIN64 <= x <= MAX64

  function Wrap64(x: int): (r: int64)
    ensures MIN64 <= x <= MAX64 <==> r == x
  {
    (x - MIN64) % TWO64 + MIN64
  }

  function Wrap32(x: int): (r: int)
    ensures -0x8000_0000 <= r <= 0x7FFF_FFFF
    ensures -0x8000_0000 <= x <= 0x7FFF_FFFF <==> r == x
  {
    (x + 0x8000_0000) % 0x1_0000_0000 - 0x8000_0000
  }

  /** Wrapping changes a number by a multiple of the width only. */
  lemma WrapsByWidth(x: int)
    ensures exists k :: Wrap64(x) == x - k * TWO64
    ensures exists k :: Wrap32(x) == x - k * 0x1_0000_0000
  {
    assert Wrap64(x) == x - (x - MIN64) / TWO64 * TWO64;
    assert Wrap32(x) == x - (x + 0x8000_0000) / 0x1_0000_0000 * 0x1_0000_0000;
  }

  lemma WrapAdd(a: int, b: int)
    ensures Wrap64(Wrap64(a) + b) == Wrap64(a + b)
  {
    var q := (a - MIN64) / TWO64;
    assert Wrap64(a) == a - q * TWO64;
    ModShift(a + b - MIN64, q);
  }

  lemma WrapShiftDigit(a: int, d: int)
    ensures Wrap64(Wrap64(a) * 10 + d) == Wrap64(a * 10 + d)
  {
    var q := (a - MIN64) / TWO64;
    assert Wrap64(a) == a - q * TWO64;
    ModShift(a * 10 + d - MIN64, q * 10);
  }

  lemma ModShift(x: int, k: int)
    ensures (x - k * TWO64) % TWO64 == x % TWO64
  {
    var y := x - k * TWO64;
    assert y == (x / TWO64 - k) * TWO64 + x % TWO64;
    DivModUnique(y, x / TWO64 - k, x % TWO64);
  }

  lemma DivModUnique(y: int, q: int, r: int)
    requires 0 <= r < TWO64 && y == q * TWO64 + r
    ensures y % TWO64 == r
  {
    assert (y / TWO64 - q) * TWO64 == r - y % TWO64;
  }
}
