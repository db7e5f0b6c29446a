/** Types shared by the three ledgers: caller identities and the tagged
    `{result}` / `{error}` values every operation returns. */
module Common {

  /** A caller identity (a Stacks principal in the contract). */
  type Principal = string

  datatype Option<+T> = None | Some(value: T)

  /** `{ result: value }` or `{ error: code }` of an operation that returns a value. */
  datatype Result<+T, +E> = Ok(value: T) | Err(error: E)

  /** `{ result: true }` or `{ error: code }` of an operation whose only result is success. */
  datatype Outcome<+E> = Pass | Fail(error: E)
}
