/** The JavaScript notions of "missing" and "falsy" that the rest of the model needs.
    `None` stands for `undefined`/`null`; a present value may still be falsy.
    `Result` stands for a call that either returns or throws an `Error` with a
    message. */
module Optional {

  datatype Option<+T> = None | Some(value: T) {

    /** The value, or `default` when missing (JavaScript's `??`). */
    function GetOr(default: T): T {
      match this
      case Some(v) => v
      case None => default
    }
  }

  datatype Result<+T> = Ok(value: T) | Err(message: string)

  /** A string is truthy in JavaScript iff it is non-empty. */
  predicate TruthyString(s: Option<string>) {
    s.Some? && s.value != ""
  }

  /** A number is truthy in JavaScript iff it is non-zero (NaN is not modelled). */
  predicate TruthyInt(n: Option<int>) {
    n.Some? && n.value != 0
  }

  /** `x || d` for a number-valued cell: the cell when it is truthy, else `d`. */
  function OrInt(n: Option<int>, d: int): (r: int)
    ensures TruthyInt(n) ==> r == n.value
    ensures !TruthyInt(n) ==> r == d
  {
    if n.Some? && n.value != 0 then n.value else d
  }

  /** `x || d` for a string-valued cell. */
  function OrString(s: Option<string>, d: string): (r: string)
    ensures TruthyString(s) ==> r == s.value
    ensures !TruthyString(s) ==> r == d
  {
    if s.Some? && s.value != "" then s.value else d
  }
}
