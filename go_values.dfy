/** Values of Go's dynamic type `any` as they travel through the game's
    payload maps, and the two Go primitives on them the game relies on:
    reading a map with a missing key, and converting to `uint`. */
module GoValues {

  datatype Option<T> = None | Some(value: T)

  /** A value of Go's `any` as it can appear in a payload map.
      JSON numbers decoded by the websocket reader arrive as `float64`;
      values the server puts in a payload keep their static Go type
      (`uint` ids, `int` counters, `int64` timestamps). */
  datatype Value =
    | Float64(f: real)
    | Uint(u: nat)
    | Int(i: int)
    | Int64(i: int)
    | Str(s: string)
    | Bool(b: bool)
    | Object(fields: map<string, Value>)
    | Nil

  /** Go's `uint` is 64 bits wide. */
  const UintModulus: int := 0x1_0000_0000_0000_0000

  /** `m[k]` on a Go `map[uint]int`: a missing key reads as the zero value. */
  function GetOr0(m: map<nat, int>, k: nat): (r: int)
    ensures k in m ==> r == m[k]
    ensures k !in m ==> r == 0
  {
    if k in m then m[k] else 0
  }

  /** Go's conversion `uint(v)` of a signed integer: two's-complement
      wrap-around modulo 2^64. */
  function IntToUint(v: int): (r: nat)
    ensures r < UintModulus
    ensures 0 <= v < UintModulus ==> r == v
    ensures -UintModulus <= v < 0 ==> r == v + UintModulus
  {
    v % UintModulus
  }

  /** Go's conversion `uint(f)` of a float64 whose truncation a `uint`
      holds, that is above -1 and below 2^64: the fraction is dropped
      toward zero, so a float in (-1, 0) converts to 0. */
  function Float64ToUint(f: real): (r: nat)
    requires -1.0 < f < UintModulus as real
    ensures r < UintModulus
    ensures 0.0 <= f ==> r as real <= f < r as real + 1.0
    ensures f < 0.0 ==> r == 0
  {
    if f < 0.0 then 0 else f.Floor
  }
}
