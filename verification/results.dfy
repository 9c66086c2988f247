/** The result of a call that either takes effect or reverts with a
    human-readable reason. */
module Results {

  /** The effect of a call that did not revert, or the reason it reverted. */
  datatype Result<+T, +E> = Ok(value: T) | Err(reason: E)
}
