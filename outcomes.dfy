/** Option, Result and Outcome wrappers, and the errors the gateway can report. */
module Outcomes {

  datatype Option<+T> = None | Some(value: T)

  datatype Result<+T> = Ok(value: T) | Err(error: Error)

  /** The `error` result of a Go function that returns only an error: nil is Pass. */
  datatype Outcome = Pass | Fail(error: Error)

  /** The stage of the indexed-history (DPS) setup inside the proxy constructor that failed. */
  datatype DpsStage = DpsDial | DpsInvoker | DpsListen

  datatype Error =
    | Unimplemented                 // gRPC status with code Unimplemented, "method not implemented"
    | IdentityCountMismatch         // addresses and keys given in different numbers
    | ProxyNotSet                   // the RPC engine was given no proxy
    | DpsSetup(stage: DpsStage)     // one of the three fixed DPS setup errors
    | External(code: int)           // an error made by code outside this model (dial, upstream call, builder function)
}
