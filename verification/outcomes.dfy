/** Small value types shared by the ledger and the client model. */
module Outcomes {

  /** Rust's `Option` and a JavaScript value that may be `null`. */
  datatype Option<+T> = None | Some(value: T)

  /**
   * The uniform answer of `safeCanisterCall` (src/token_frontend/src/canister.js):
   * `{success: true, data}` or `{success: false, error}`. The wrapper never throws.
   */
  datatype Remote<+T> = Ok(value: T) | Err(error: string)

  /** The client's per-item degrade policy: a failed amount lookup reads as 0. */
  function OrZero(reply: Remote<nat>): nat
  {
    match reply
    case Ok(v) => v
    case Err(_) => 0
  }
}
