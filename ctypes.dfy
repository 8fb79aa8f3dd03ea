/** The C integer types the VTX code stores its settings in, and the
    conversions C performs when a value is stored into a `uint8_t` or tested
    as a truth value. Dafny integers are unbounded, so the wrap-around is
    written out here once and used everywhere else. */
module CTypes {

  type uint8 = x: int | 0 <= x < 0x100
  type uint32 = x: int | 0 <= x < 0x1_0000_0000

  /** `x + 1` stored into a `uint8_t`: 255 wraps to 0. */
  function Inc8(x: uint8): (r: uint8)
    ensures x < 0xFF ==> r == x + 1
    ensures x == 0xFF ==> r == 0
  {
    (x + 1) % 0x100
  }

  /** `x - 1` stored into (or passed as) a `uint8_t`: 0 wraps to 255. */
  function Dec8(x: uint8): (r: uint8)
    ensures x > 0 ==> r == x - 1
    ensures x == 0 ==> r == 0xFF
  {
    (x + 0xFF) % 0x100
  }

  /** A `uint8_t` used as a condition, or assigned to a `bool`. */
  predicate Truth(x: uint8)
  {
    x != 0
  }

  /** A `bool` assigned to a `uint8_t`. */
  function FromBool(b: bool): (r: uint8)
    ensures r <= 1
    ensures Truth(r) == b
  {
    if b then 1 else 0
  }

  /** Decrementing and incrementing a `uint8_t` undo each other for every
      value, the wrapping ends included. */
  lemma WrapInverse(x: uint8)
    ensures Inc8(Dec8(x)) == x
    ensures Dec8(Inc8(x)) == x
  {
  }
}
