/** Numeric helpers shared by the Python and the C++ code: the conversion of
    a floating-point value to an integer (Python `int(x)`, a C++ cast to
    `int32_t`), truncating division, and the byte and channel-order types. */
module Common {

  /** The exceptions and failed assertions the modelled code can end in. */
  datatype Failure =
    | ValueError        // numpy shape errors, an unknown dataset split
    | ZeroDivisionError // a Python frame rate of zero; C++ `set_fps(0)` (undefined behaviour) is also mapped here
    | AssertionError    // a failed `assert`
    | NotImplemented    // the C++ renderer meeting a polygon or an edge
    | AttributeError    // reading an attribute an object does not have
    | TypeError         // a call with a keyword the callee does not take
    | FileNotFoundError // listing a directory that does not exist
    | IndexError        // a numpy index outside its axis

  /** An unsigned 8-bit pixel value (`uint8_t`, numpy `uint8`). */
  type Byte = b: int | 0 <= b < 256

  /** Channel ordering of a rendered frame (`Channels` in render.py and in
      common_types.hpp). */
  datatype Channels = First | Last

  /** A rectangle (x, y, width, height): a Python tuple or a C++ `Rectf`
      (`std::array<int32_t, 4>`). */
  datatype Rect = Rect(x: int, y: int, w: int, h: int)

  /** A `cnpy::NpyArray` of `uint8`: its shape and its bytes in row-major
      order. */
  datatype NpyArray = NpyArray(shape: seq<nat>, data: seq<Byte>)

  /** Truncation toward zero, as Python's `int()` and a C++ float-to-int
      conversion do (Dafny's `Floor` rounds toward minus infinity). */
  function Trunc(r: real): (t: int)
    ensures r >= 0.0 ==> t >= 0 && t as real <= r < t as real + 1.0
    ensures r < 0.0 ==> t <= 0 && t as real - 1.0 < r <= t as real
  {
    if r >= 0.0 then r.Floor else -((-r).Floor)
  }

  /** The least integer not below r. */
  function Ceil(r: real): (c: int)
    ensures c as real - 1.0 < r <= c as real
  {
    -((-r).Floor)
  }

  /** C and C++ integer division, which truncates toward zero. */
  function TruncDiv(a: int, b: int): (q: int)
    requires b != 0
    ensures a >= 0 && b > 0 ==> q == a / b
    ensures q * b == a - TruncRem(a, b)
  {
    if (a >= 0) == (b > 0) then
      (if a >= 0 then a / b else (-a) / (-b))
    else
      -((if a >= 0 then a else -a) / (if b > 0 then b else -b))
  }

  /** The remainder that goes with TruncDiv; it has the sign of a. */
  function TruncRem(a: int, b: int): int
    requires b != 0
  {
    var m := (if a >= 0 then a else -a) % (if b > 0 then b else -b);
    if a >= 0 then m else -m
  }

  /** The value a C++ `int32_t(u)` cast gives for a `uint32_t` u. */
  function Int32OfUint32(u: int): (i: int)
    requires 0 <= u < 0x1_0000_0000
    ensures -0x8000_0000 <= i < 0x8000_0000
    ensures (i - u) % 0x1_0000_0000 == 0
  {
    if u < 0x8000_0000 then u else u - 0x1_0000_0000
  }

  lemma TruncOfInt(k: int)
    ensures Trunc(k as real) == k
  {
  }
}
