/**
 * The RPC engine's constructor: it refuses a missing proxy, fills in the default
 * message size limit, and builds a gRPC server whose receive and send limits both
 * use the effective limit, with the proxy registered as its Access API handler.
 */
module Engine {
  import opened Outcomes
  import Proxy
  import Grpc

  datatype Config = Config(listenAddr: string, maxMsgSize: int)

  /** The options the gRPC server is created with. */
  datatype ServerOptions = ServerOptions(maxRecvMsgSize: int, maxSendMsgSize: int)

  /** The configuration New keeps: a zero message size limit means the platform default. */
  function WithDefaults(config: Config): (c: Config)
    ensures c.listenAddr == config.listenAddr
    ensures c.maxMsgSize != 0
    ensures config.maxMsgSize == 0 ==> c.maxMsgSize == Grpc.DefaultMaxMsgSize
    ensures config.maxMsgSize != 0 ==> c == config
  {
    if config.maxMsgSize == 0 then config.(maxMsgSize := Grpc.DefaultMaxMsgSize) else config
  }

  /** Filling in the default a second time changes nothing. */
  lemma WithDefaultsIdempotent(config: Config)
    ensures WithDefaults(WithDefaults(config)) == WithDefaults(config)
  {
  }

  /** RPC: the engine's configuration, its server, and the proxy registered on that server. */
  class RPC {
    const config: Config
    const server: ServerOptions
    const registered: Proxy.FlowAPIService
    const proxy: Proxy.FlowAPIService

    constructor (config: Config, server: ServerOptions, proxy: Proxy.FlowAPIService)
      ensures this.config == config && this.server == server
      ensures this.proxy == proxy && registered == proxy
    {
      this.config := config;
      this.server := server;
      this.proxy := proxy;
      registered := proxy;
    }
  }

  /** New: null and ProxyNotSet for a nil proxy, else a fresh engine built from the effective configuration. */
  method New(config: Config, proxy: Proxy.FlowAPIService?) returns (eng: RPC?, err: Option<Error>)
    ensures proxy == null ==> eng == null && err == Some(ProxyNotSet)
    ensures proxy != null ==> eng != null && fresh(eng) && err == None
    ensures eng != null ==> eng.config == WithDefaults(config) && eng.proxy == proxy && eng.registered == proxy
    ensures eng != null ==> eng.server.maxRecvMsgSize == eng.config.maxMsgSize == eng.server.maxSendMsgSize
  {
    if proxy == null {
      return null, Some(ProxyNotSet);
    }
    var effective := config;
    if effective.maxMsgSize == 0 {
      effective := effective.(maxMsgSize := Grpc.DefaultMaxMsgSize);
    }
    var server := ServerOptions(effective.maxMsgSize, effective.maxMsgSize);
    eng := new RPC(effective, server, proxy);
    err := None;
  }
}
