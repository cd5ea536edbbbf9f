/** Java's fixed-width signed integers and the wrap-around of their arithmetic. */
module JavaInts {

  const TWO_32: int := 0x1_0000_0000
  const INT_MIN: int := -0x8000_0000
  const INT_MAX: int := 0x7fff_ffff

  /** A Java `int`. */
  type int32 = x: int | -0x8000_0000 <= x < 0x8000_0000

  /** A Java `long`. */
  type int64 = x: int | -0x8000_0000_0000_0000 <= x < 0x8000_0000_0000_0000

  /** Two's complement reduction of an unbounded integer to 32 bits: the
      value a Java `int` expression yields for the mathematical result x. */
  function Wrap32(x: int): (r: int32)
    ensures (r - x) % TWO_32 == 0
    ensures INT_MIN <= x <= INT_MAX ==> r == x
  {
    (x - INT_MIN) % TWO_32 + INT_MIN
  }

  /** Java `a + b` on two `int`s. */
  function Add32(a: int32, b: int32): (r: int32)
    ensures INT_MIN <= a + b <= INT_MAX ==> r == a + b
    ensures a + b > INT_MAX ==> r == a + b - TWO_32
    ensures a + b < INT_MIN ==> r == a + b + TWO_32
  {
    Wrap32(a + b)
  }

  /** Java `t - 1` on an `int`: Integer.MIN_VALUE - 1 is Integer.MAX_VALUE. */
  function Dec32(t: int32): (r: int32)
    ensures t > INT_MIN ==> r == t - 1
    ensures t == INT_MIN ==> r == INT_MAX
  {
    Wrap32(t - 1)
  }

  /** Wrapping is insensitive to a prior wrap of one summand. */
  lemma {:induction false} Wrap32AddLeft(x: int, y: int)
    ensures Wrap32(Wrap32(x) + y) == Wrap32(x + y)
  {
    var q := (x - INT_MIN) / TWO_32;
    assert Wrap32(x) == x - q * TWO_32;
    assert (Wrap32(x) + y - INT_MIN) == (x + y - INT_MIN) - q * TWO_32;
    ModShift(x + y - INT_MIN, q);
  }

  lemma ModShift(a: int, q: int)
    ensures (a - q * TWO_32) % TWO_32 == a % TWO_32
  {
  }

  /** Java `int` addition is commutative and associative despite wrap-around. */
  lemma {:induction false} Add32Associative(a: int32, b: int32, c: int32)
    ensures Add32(Add32(a, b), c) == Add32(a, Add32(b, c))
  {
    Wrap32AddLeft(a + b, c);
    Wrap32AddLeft(b + c, a);
    assert Add32(a, Add32(b, c)) == Wrap32(Wrap32(b + c) + a);
  }
}
