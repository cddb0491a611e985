/** Values shared by every part of the renderer model. */
module Common {

  /** A value that may be absent (a missing JSON key, a NULL pointer, a failed parse). */
  datatype Option<+T> = None | Some(value: T)

  /** The outcome of a step that can abort the process. */
  datatype Result<+T, +E> = Ok(value: T) | Err(error: E) {
    predicate IsFailure() { Err? }
    function PropagateFailure<U>(): Result<U, E> requires Err? { Err(error) }
    function Extract(): T requires Ok? { value }
  }

  /** A field of a malloc'd struct: either written, or never written (its contents are indeterminate). */
  datatype Cell<+T> = Unset | Set(val: T)

  /** Why loading stops for good. Each of these ends the process, except MissingToken: that is the
      model's stand-in for front() on an exhausted token list, which is undefined in C++. */
  datatype Fatal =
    | CannotOpen                  // scene file missing: exit(1)
    | BadNumber(token: string)    // std::stof threw on this token
    | MissingToken                // a coordinate record ran out of tokens: undefined in the code
    | TooFewComponents            // assert(parts.size() >= 3) in parse_vec3
    | UnknownObject(id: string)   // a model names an object id that is not loaded
    | UnknownTexture(id: string)  // a model names a texture id that is not loaded

  /** A single-precision float, kept as its IEEE-754 bit pattern: the model only copies floats. */
  type F32 = bv32

  const ZERO: F32 := 0
  const ONE: F32 := 0x3F80_0000

  newtype byte = x: int | 0 <= x < 256

  /** std::stof: the parsed value, or None where it throws. */
  type Stof = string -> Option<F32>

  /** The C library conversions the OBJ importer uses: std::stof, then the float-to-int conversion
      of `int c = std::stof(s)`. */
  datatype Numerics = Numerics(stof: Stof, toInt: F32 -> int)

  datatype Vec3 = Vec3(x: F32, y: F32, z: F32)
  datatype Vec2 = Vec2(u: F32, v: F32)

  const VEC3_ZERO := Vec3(ZERO, ZERO, ZERO)
  const VEC2_ZERO := Vec2(ZERO, ZERO)

  const INT_MAX := 0x7FFF_FFFF
  const INT_MIN := -0x8000_0000
}
