/** An optional value: a reading that may not have arrived, a call that may have failed. */
module Optional {
  datatype Option<+T> = None | Some(value: T)
}

/** The C integer types the firmware uses, with their wrap-around made explicit. */
module MachineInts {
  const U16Modulus: int := 0x1_0000
  const U32Modulus: int := 0x1_0000_0000
  const U64Modulus: int := 0x1_0000_0000_0000_0000

  type U8 = x: int | 0 <= x < 0x100
  type U16 = x: int | 0 <= x < 0x1_0000
  type U32 = x: int | 0 <= x < 0x1_0000_0000
  type U64 = x: int | 0 <= x < 0x1_0000_0000_0000_0000
  type I64 = x: int | -0x8000_0000_0000_0000 <= x < 0x8000_0000_0000_0000

  /** The value an unsigned 16-bit variable holds after being assigned `x`. */
  function Wrap16(x: int): (r: U16)
    ensures 0 <= x < U16Modulus ==> r == x
    ensures (r - x) % U16Modulus == 0
  {
    x % U16Modulus
  }

  /** The value an unsigned 32-bit variable holds after being assigned `x`. */
  function Wrap32(x: int): (r: U32)
    ensures 0 <= x < U32Modulus ==> r == x
    ensures (r - x) % U32Modulus == 0
  {
    x % U32Modulus
  }

  /** The value an unsigned 64-bit variable holds after being assigned `x`. */
  function Wrap64(x: int): (r: U64)
    ensures 0 <= x < U64Modulus ==> r == x
    ensures (r - x) % U64Modulus == 0
  {
    x % U64Modulus
  }

  /** C's integer division, which rounds toward zero (Dafny's `/` is Euclidean). */
  function TruncDiv(a: int, b: int): (q: int)
    requires b > 0
    ensures a >= 0 ==> 0 <= a - q * b < b
    ensures a < 0 ==> -b < a - q * b <= 0
  {
    if a >= 0 then a / b else -((-a) / b)
  }
}
