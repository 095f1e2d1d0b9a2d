/** Rust's `Option` and the pass/fail outcome of a command. */
module Wrappers {

  datatype Option<+T> = None | Some(value: T) {
    /** `unwrap_or` / `unwrap_or_default` with the default written out. */
    function GetOr(default: T): T {
      match this
      case Some(v) => v
      case None => default
    }
  }

  /** The `anyhow::Result<()>` of a command: success, or an error value. */
  datatype Outcome<+E> = Pass | Fail(error: E)
}
