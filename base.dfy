/** Values shared by every part of the model: Go's `(value, error)` returns, nil pointers,
    wall-clock instants and 64-bit floats, which the model carries but never computes with. */
module Base {

  /** A Go pointer that may be nil, or a lookup that may miss. */
  datatype Option<+T> = None | Some(value: T)

  /** A Go `(value, error)` pair: the error is kept as the text its `Error()` method gives. */
  datatype Result<+T> = Ok(value: T) | Err(error: string)

  /** A wall-clock instant (`time.Time`), e.g. nanoseconds since the epoch; the model only copies it. */
  type Time = int

  /** An IEEE-754 `float64`, kept as its bit pattern: the model stores and copies it and never
      does arithmetic on it. */
  datatype Float64 = Float64(bits: bv64)
}
