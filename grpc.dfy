/** Settings the proxy's client connections and the RPC engine's server share. */
module Grpc {
  /** grpcutils.DefaultMaxMsgSize: 20 MiB, the default message size limit in either direction. */
  const DefaultMaxMsgSize: int := 20 * 1024 * 1024
}
