/** Optional values and fallible results shared by every module of the model. */
module Wrappers {
  datatype Option<T> = None | Some(value: T)
  {
    predicate IsSome() { Some? }

    function UnwrapOr(default: T): T
    {
      match this
      case Some(v) => v
      case None => default
    }
  }

  datatype Result<T, E> = Ok(value: T) | Err(error: E)
}

/** Fixed-width unsigned integers of the source, as bounded naturals. */
module Ints {
  type U8 = x: int | 0 <= x < 0x100
  type U16 = x: int | 0 <= x < 0x1_0000
  type U32 = x: int | 0 <= x < 0x1_0000_0000
  type U64 = x: int | 0 <= x < 0x1_0000_0000_0000_0000

  function Min(a: int, b: int): int { if a <= b then a else b }
  function Max(a: int, b: int): int { if a >= b then a else b }

  /** Rust's `/` on signed integers truncates toward zero. */
  function TruncDiv(a: int, b: int): (q: int)
    requires b > 0
  {
    if a >= 0 then a / b else -((-a) / b)
  }

  function Abs(a: int): nat { if a < 0 then -a else a }

  const I32_MIN: int := -0x8000_0000
  const I32_MAX: int := 0x7FFF_FFFF

  /** Rust's float-to-int `as` conversion: truncate toward zero, then saturate at the i32 bounds. */
  function RealToI32(r: real): (n: int)
    ensures I32_MIN <= n <= I32_MAX
    ensures I32_MIN as real <= r <= I32_MAX as real ==> Abs(n) as real <= (if r < 0.0 then -r else r) < Abs(n) as real + 1.0
    ensures (r < 0.0 ==> n <= 0) && (r >= 0.0 ==> n >= 0)
  {
    var t := if r >= 0.0 then r.Floor else -((-r).Floor);
    if t < I32_MIN then I32_MIN else if t > I32_MAX then I32_MAX else t
  }
}
