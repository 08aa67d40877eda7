/** Fixed-width C integer types and the implicit or `static_cast` conversions
    between them that the wrapper performs.  Every conversion is written out
    as two's-complement wrap-around.  C++ has always defined it so for
    unsigned targets; for signed targets it was implementation-defined
    before C++20, where mainstream compilers already wrapped, and C++20
    defines it as wrap-around. */
module CTypes {

  const TWO_8: int := 0x100
  const TWO_31: int := 0x8000_0000
  const TWO_32: int := 0x1_0000_0000
  const TWO_64: int := 0x1_0000_0000_0000_0000

  newtype uint8 = x: int | 0 <= x < 0x100
  newtype uint16 = x: int | 0 <= x < 0x1_0000
  newtype uint32 = x: int | 0 <= x < 0x1_0000_0000
  newtype uint64 = x: int | 0 <= x < 0x1_0000_0000_0000_0000
  newtype int32 = x: int | -0x8000_0000 <= x < 0x8000_0000
  newtype int64 = x: int | -0x8000_0000_0000_0000 <= x < 0x8000_0000_0000_0000

  /** A raw C pointer, seen only as an address; 0 is the null pointer. */
  type Ptr = nat
  const NULL: Ptr := 0

  /** `static_cast<uint8_t>(x)`: keeps the low 8 bits. */
  function ToUint8(x: int): (r: uint8)
    ensures (r as int - x) % TWO_8 == 0
    ensures 0 <= x < TWO_8 ==> r as int == x
  {
    (x % TWO_8) as uint8
  }

  /** Conversion to `unsigned` (32 bits): keeps the low 32 bits. */
  function ToUint32(x: int): (r: uint32)
    ensures (r as int - x) % TWO_32 == 0
    ensures 0 <= x < TWO_32 ==> r as int == x
    ensures x < 0 && -TWO_32 <= x ==> r as int == x + TWO_32
  {
    (x % TWO_32) as uint32
  }

  /** Conversion to `size_t` (64 bits): keeps the low 64 bits. */
  function ToUint64(x: int): (r: uint64)
    ensures (r as int - x) % TWO_64 == 0
    ensures 0 <= x < TWO_64 ==> r as int == x
  {
    (x % TWO_64) as uint64
  }

  /** Conversion to `int` (32 bits): the low 32 bits read as two's complement.
      In particular the unsigned value 0xFFFF_FFFF becomes -1. */
  function ToInt32(x: int): (r: int32)
    ensures (r as int - x) % TWO_32 == 0
    ensures -TWO_31 <= x < TWO_31 ==> r as int == x
    ensures 0 <= x < TWO_32 ==> (r == -1 <==> x == TWO_32 - 1)
  {
    var low := x % TWO_32;
    if low < TWO_31 then low as int32 else (low - TWO_32) as int32
  }
}
