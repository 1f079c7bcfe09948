/**
 * The routing core of the gateway: two ordered pools of upstream Access API clients,
 * one round-robin cursor shared by both, a fixed method-to-pool table, and the
 * constructors that resolve identities and dial the pools.
 */
module Proxy {
  import opened Outcomes
  import opened Identities
  import opened Grpc

  datatype Transport = Insecure | Tls(pinnedKey: PubKey)

  /** One upstream Access API client, described by how its connection was dialled. */
  datatype Client = Client(address: string, transport: Transport, maxRecvMsgSize: int, callTimeout: int)

  /** An encoded request or response message; the gateway never looks inside. */
  type Payload = seq<bv8>

  /** What a Go handler returns: a response (nil when None) and an error (nil when None). */
  datatype Reply = Reply(response: Option<Payload>, err: Option<Error>)

  datatype Pool = ProtocolPool | ExecutionPool

  /** The 23 Access API methods the service overrides. */
  datatype AccessMethod =
    | Ping
    | GetLatestBlockHeader | GetBlockHeaderByID | GetBlockHeaderByHeight
    | GetLatestBlock | GetBlockByID | GetBlockByHeight
    | GetCollectionByID
    | SendTransaction
    | GetTransaction | GetTransactionResult | GetTransactionResultByIndex
    | GetAccount | GetAccountAtLatestBlock | GetAccountAtBlockHeight
    | ExecuteScriptAtLatestBlock | ExecuteScriptAtBlockID | ExecuteScriptAtBlockHeight
    | GetEventsForHeightRange | GetEventsForBlockIDs
    | GetNetworkParameters
    | GetLatestProtocolStateSnapshot
    | GetExecutionResultForBlockID

  /** The pool each passthrough method selects from: which of the two selectors its body calls. */
  function PoolOf(m: AccessMethod): (r: Pool)
    ensures r == ProtocolPool <==> m in ProtocolMethods
    ensures r == ExecutionPool <==> m in ExecutionMethods
  {
    match m
    case Ping => ProtocolPool
    case GetLatestBlockHeader => ProtocolPool
    case GetBlockHeaderByID => ProtocolPool
    case GetBlockHeaderByHeight => ProtocolPool
    case GetLatestBlock => ProtocolPool
    case GetBlockByID => ProtocolPool
    case GetBlockByHeight => ProtocolPool
    case GetCollectionByID => ProtocolPool
    case SendTransaction => ProtocolPool
    case GetTransaction => ExecutionPool
    case GetTransactionResult => ExecutionPool
    case GetTransactionResultByIndex => ExecutionPool
    case GetAccount => ExecutionPool
    case GetAccountAtLatestBlock => ExecutionPool
    case GetAccountAtBlockHeight => ExecutionPool
    case ExecuteScriptAtLatestBlock => ExecutionPool
    case ExecuteScriptAtBlockID => ExecutionPool
    case ExecuteScriptAtBlockHeight => ExecutionPool
    case GetEventsForHeightRange => ExecutionPool
    case GetEventsForBlockIDs => ExecutionPool
    case GetNetworkParameters => ExecutionPool
    case GetLatestProtocolStateSnapshot => ProtocolPool
    case GetExecutionResultForBlockID => ExecutionPool
  }

  /** Liveness, block headers, blocks, collections, the snapshot and the one write. */
  const ProtocolMethods: set<AccessMethod> := {
    Ping,
    GetLatestBlockHeader, GetBlockHeaderByID, GetBlockHeaderByHeight,
    GetLatestBlock, GetBlockByID, GetBlockByHeight,
    GetCollectionByID, SendTransaction, GetLatestProtocolStateSnapshot
  }

  /** Transactions, results, accounts, scripts, events, network parameters, execution results. */
  const ExecutionMethods: set<AccessMethod> := {
    GetTransaction, GetTransactionResult, GetTransactionResultByIndex,
    GetAccount, GetAccountAtLatestBlock, GetAccountAtBlockHeight,
    ExecuteScriptAtLatestBlock, ExecuteScriptAtBlockID, ExecuteScriptAtBlockHeight,
    GetEventsForHeightRange, GetEventsForBlockIDs,
    GetNetworkParameters, GetExecutionResultForBlockID
  }

  /** The routing table agrees with the two method groups, which split the API between them. */
  lemma RoutingTableMatchesGroups(m: AccessMethod)
    ensures PoolOf(m) == ProtocolPool <==> m in ProtocolMethods
    ensures PoolOf(m) == ExecutionPool <==> m in ExecutionMethods
    ensures m in ProtocolMethods <==> m !in ExecutionMethods
  {
  }

  /** Go's `%` on int: the remainder has the sign of the dividend. */
  function GoRem(a: int, n: int): (r: int)
    requires n != 0
    ensures a >= 0 ==> 0 <= r < if n > 0 then n else -n
    ensures a < 0 ==> -(if n > 0 then n else -n) < r <= 0
    ensures a >= 0 && n > 0 ==> r == a % n
  {
    if a >= 0 then a % n else -((-a) % n)
  }

  /**
   * One selection on `pool` with the shared cursor at `cursor`: the client chosen (or
   * Unimplemented for an empty pool) and the cursor left behind.
   */
  function Select(pool: seq<Client>, cursor: int): (r: (Result<Client>, int))
    requires cursor >= 0
    ensures |pool| == 0 ==> r.0 == Err(Unimplemented) && r.1 == cursor
    ensures |pool| > 0 ==> 0 <= r.1 < |pool| && r.1 == (cursor + 1) % |pool| && r.0 == Ok(pool[r.1])
  {
    if |pool| == 0 then (Err(Unimplemented), cursor)
    else
      var next := GoRem(cursor + 1, |pool|);
      (Ok(pool[next]), next)
  }

  /** The cursors left behind by `k` consecutive selections on one pool. */
  function Trail(pool: seq<Client>, cursor: int, k: nat): (t: seq<int>)
    requires cursor >= 0
    ensures |t| == k
    ensures forall j :: 0 <= j < k ==> t[j] >= 0
    ensures |pool| > 0 ==> forall j :: 0 <= j < k ==> t[j] < |pool|
    decreases k
  {
    if k == 0 then []
    else
      var next := Select(pool, cursor).1;
      [next] + Trail(pool, next, k - 1)
  }

  /** Advance an index of a pool of `n` members by one, wrapping to 0 past the end. */
  function Wrap(x: int, n: int): (r: int)
    ensures 0 <= x < 2 * n ==> 0 <= r < n
  {
    if x < n then x else x - n
  }

  /** From a cursor already inside a pool, the j-th selection lands on cursor + j + 1, wrapped once. */
  lemma {:induction false} TrailFrom(pool: seq<Client>, cursor: int, k: nat, j: nat)
    requires 0 <= cursor < |pool| && j < k && j < |pool|
    ensures Trail(pool, cursor, k)[j] == Wrap(cursor + j + 1, |pool|)
    decreases k
  {
    var n := |pool|;
    var next := Select(pool, cursor).1;
    if cursor + 1 < n {
      SmallMod(cursor + 1, n);
    } else {
      SelfMod(n);
    }
    assert next == Wrap(cursor + 1, n);
    var t := Trail(pool, cursor, k);
    assert t == [next] + Trail(pool, next, k - 1);
    if j > 0 {
      TrailFrom(pool, next, k - 1, j - 1);
      assert t[j] == Trail(pool, next, k - 1)[j - 1];
    }
  }

  lemma SmallMod(x: int, n: int)
    requires 0 <= x < n
    ensures x % n == x
  {
  }

  lemma SelfMod(n: int)
    requires n > 0
    ensures n % n == 0
  {
  }

  /**
   * The j-th of consecutive selections from any cursor lands on s + j, wrapped once,
   * where s = (cursor + 1) mod N is the first index taken.
   */
  lemma TrailAt(pool: seq<Client>, cursor: int, k: nat, j: nat)
    requires |pool| > 0 && cursor >= 0 && j < k && j < |pool|
    ensures Trail(pool, cursor, k)[j] == Wrap((cursor + 1) % |pool| + j, |pool|)
  {
    var s := Select(pool, cursor).1;
    if j > 0 {
      TrailFrom(pool, s, k - 1, j - 1);
    }
  }

  /**
   * N consecutive selections on a pool of N members, with no selection on the other
   * pool in between, pick every member exactly once, starting right after the cursor
   * (at index 1 mod N from a fresh service, whose cursor is 0).
   */
  lemma RoundRobinCoversPool(pool: seq<Client>, cursor: int)
    requires |pool| > 0 && cursor >= 0
    ensures var t := Trail(pool, cursor, |pool|);
      && t[0] == (cursor + 1) % |pool|
      && (forall j :: 0 <= j < |t| ==> 0 <= t[j] < |pool|)
      && (forall i :: 0 <= i < |pool| ==> i in t)
      && (forall j1, j2 :: 0 <= j1 < j2 < |t| ==> t[j1] != t[j2])
  {
    var n := |pool|;
    var t := Trail(pool, cursor, n);
    var s := (cursor + 1) % n;
    TrailAt(pool, cursor, n, 0);
    forall j | 0 <= j < n ensures t[j] == Wrap(s + j, n) {
      TrailAt(pool, cursor, n, j);
    }
    forall i | 0 <= i < n ensures i in t {
      var j := if i >= s then i - s else i - s + n;
      assert t[j] == i;
    }
  }

  /** The cursor left behind by `k` consecutive selections on one pool. */
  function CursorAfter(pool: seq<Client>, cursor: int, k: nat): (c: int)
    requires cursor >= 0
    ensures c >= 0
  {
    if k == 0 then cursor else Trail(pool, cursor, k)[k - 1]
  }

  /** a + b consecutive selections are a selections followed by b more from where those left the cursor. */
  lemma {:induction false} TrailSplit(pool: seq<Client>, cursor: int, a: nat, b: nat)
    requires cursor >= 0
    ensures Trail(pool, cursor, a + b) == Trail(pool, cursor, a) + Trail(pool, CursorAfter(pool, cursor, a), b)
    decreases a
  {
    if a > 0 {
      var next := Select(pool, cursor).1;
      TrailSplit(pool, next, a - 1, b);
      assert Trail(pool, cursor, a + b) == [next] + Trail(pool, next, (a - 1) + b);
      assert Trail(pool, cursor, a) == [next] + Trail(pool, next, a - 1);
      assert CursorAfter(pool, cursor, a) == CursorAfter(pool, next, a - 1);
    }
  }

  /**
   * Uniform coverage: at least q * N consecutive selections on a pool of N members (with
   * no selection on the other pool in between) take every member at least q times.
   */
  lemma {:induction false} RoundRobinIsFair(pool: seq<Client>, cursor: int, q: nat, m: nat, i: int)
    requires |pool| > 0 && cursor >= 0 && 0 <= i < |pool|
    requires m >= q * |pool|
    ensures multiset(Trail(pool, cursor, m))[i] >= q
    decreases q
  {
    if q > 0 {
      var n := |pool|;
      MulStep(q, n);
      var rest: nat := m - n;
      TrailSplit(pool, cursor, n, rest);
      var first, later := Trail(pool, cursor, n), Trail(pool, CursorAfter(pool, cursor, n), rest);
      RoundRobinCoversPool(pool, cursor);
      assert i in first;
      RoundRobinIsFair(pool, CursorAfter(pool, cursor, n), q - 1, rest, i);
      assert multiset(first + later) == multiset(first) + multiset(later);
    }
  }

  lemma MulStep(q: int, n: int)
    ensures q * n == (q - 1) * n + n
  {
  }

  /** M consecutive selections on a pool of N members take every member at least M / N times. */
  lemma RoundRobinVisitsEachAtLeast(pool: seq<Client>, cursor: int, m: nat, i: int)
    requires |pool| > 0 && cursor >= 0 && 0 <= i < |pool|
    ensures multiset(Trail(pool, cursor, m))[i] >= m / |pool|
  {
    var n := |pool|;
    assert m == (m / n) * n + m % n;
    RoundRobinIsFair(pool, cursor, m / n, m, i);
  }

  /**
   * The cursors left behind by a run of selections, each made on the pool the schedule
   * names, all advancing the one shared cursor.
   */
  function Interleaved(protocol: seq<Client>, execution: seq<Client>, cursor: int, schedule: seq<Pool>): (t: seq<int>)
    requires cursor >= 0
    ensures |t| == |schedule|
    ensures forall j :: 0 <= j < |t| ==> t[j] >= 0
    ensures forall j :: 0 <= j < |t| && schedule[j] == ProtocolPool && |protocol| > 0 ==> t[j] < |protocol|
    ensures forall j :: 0 <= j < |t| && schedule[j] == ExecutionPool && |execution| > 0 ==> t[j] < |execution|
    decreases |schedule|
  {
    if schedule == [] then []
    else
      var next := Select(if schedule[0] == ProtocolPool then protocol else execution, cursor).1;
      [next] + Interleaved(protocol, execution, next, schedule[1..])
  }

  /**
   * Because the cursor is shared, selections on the execution pool in between can make
   * the protocol pool skip a member: with two protocol and three execution clients,
   * protocol, execution, protocol from a fresh cursor takes protocol index 1 twice.
   */
  lemma SharedCursorCanSkipMembers(p0: Client, p1: Client, e0: Client, e1: Client, e2: Client)
    ensures Interleaved([p0, p1], [e0, e1, e2], 0, [ProtocolPool, ExecutionPool, ProtocolPool]) == [1, 2, 1]
  {
  }

  /** One routed call: the reply, the client the request was forwarded to, and the new cursor. */
  datatype RouteStep = RouteStep(reply: Reply, forwardedTo: Option<Client>, cursor: int)

  /**
   * A passthrough method: select from the method's pool; on failure return the
   * selector's error with a nil response and forward nothing, otherwise forward the
   * request unchanged and return the upstream's reply unchanged.
   */
  function Route(m: AccessMethod, req: Payload, protocol: seq<Client>, execution: seq<Client>, cursor: int,
                 upstream: (Client, AccessMethod, Payload) -> Reply): (s: RouteStep)
    requires cursor >= 0
    ensures var pool := if m in ProtocolMethods then protocol else execution;
      && (|pool| == 0 ==> s == RouteStep(Reply(None, Some(Unimplemented)), None, cursor))
      && (|pool| > 0 ==> 0 <= s.cursor < |pool| && s.cursor == (cursor + 1) % |pool|
                         && s.forwardedTo == Some(pool[s.cursor])
                         && s.reply == upstream(pool[s.cursor], m, req))
  {
    var (sel, next) := Select(if PoolOf(m) == ProtocolPool then protocol else execution, cursor);
    match sel
    case Err(e) => RouteStep(Reply(None, Some(e)), None, next)
    case Ok(c) => RouteStep(upstream(c, m, req), Some(c), next)
  }

  /** An empty pool answers Unimplemented, forwards nothing and leaves the cursor alone. */
  lemma EmptyPoolNeverForwards(m: AccessMethod, req: Payload, protocol: seq<Client>, execution: seq<Client>, cursor: int,
                               upstream: (Client, AccessMethod, Payload) -> Reply)
    requires cursor >= 0
    requires |if PoolOf(m) == ProtocolPool then protocol else execution| == 0
    ensures Route(m, req, protocol, execution, cursor, upstream) == RouteStep(Reply(None, Some(Unimplemented)), None, cursor)
  {
  }

  /**
   * A non-empty pool forwards to the member under the advanced cursor, which is in
   * bounds for that pool, and hands back exactly what the upstream replied.
   */
  lemma ForwardsVerbatim(m: AccessMethod, req: Payload, protocol: seq<Client>, execution: seq<Client>, cursor: int,
                         upstream: (Client, AccessMethod, Payload) -> Reply)
    requires cursor >= 0
    requires |if PoolOf(m) == ProtocolPool then protocol else execution| > 0
    ensures var pool := if PoolOf(m) == ProtocolPool then protocol else execution;
      var s := Route(m, req, protocol, execution, cursor, upstream);
      && 0 <= s.cursor < |pool| && s.cursor == (cursor + 1) % |pool|
      && s.forwardedTo == Some(pool[s.cursor])
      && s.reply == upstream(pool[s.cursor], m, req)
  {
  }

  /** A protocol-pool method never depends on the execution pool, and vice versa. */
  lemma RoutingIgnoresOtherPool(m: AccessMethod, req: Payload, protocol: seq<Client>, execution: seq<Client>,
                                protocol': seq<Client>, execution': seq<Client>, cursor: int,
                                upstream: (Client, AccessMethod, Payload) -> Reply)
    requires cursor >= 0
    ensures m in ProtocolMethods ==>
      Route(m, req, protocol, execution, cursor, upstream) == Route(m, req, protocol, execution', cursor, upstream)
    ensures m in ExecutionMethods ==>
      Route(m, req, protocol, execution, cursor, upstream) == Route(m, req, protocol', execution, cursor, upstream)
  {
    RoutingTableMatchesGroups(m);
  }

  /** The client a dial of `address` with a call timeout produces, on the plaintext transport. */
  function InsecureClient(address: string, timeout: int): (c: Client)
    ensures c.transport == Insecure && c.maxRecvMsgSize == DefaultMaxMsgSize
    ensures c.address == address && c.callTimeout == timeout
  {
    Client(address, Insecure, DefaultMaxMsgSize, timeout)
  }

  /** Index of the first identity whose dial fails, or |ids| when every dial succeeds. */
  function FirstDialFailure(ids: seq<Identity>, timeout: int, dial: Client -> Option<Error>): (k: nat)
    ensures k <= |ids|
    ensures forall j :: 0 <= j < k ==> dial(InsecureClient(ids[j].address, timeout)).None?
    ensures k < |ids| ==> dial(InsecureClient(ids[k].address, timeout)).Some?
  {
    if ids == [] then 0
    else if dial(InsecureClient(ids[0].address, timeout)).Some? then 0
    else 1 + FirstDialFailure(ids[1..], timeout, dial)
  }

  /**
   * One of the two pool-building loops of NewFlowAPIService: clear each identity's key,
   * dial it (always on the plaintext branch, since the key was just cleared) and stop at
   * the first dial error.
   */
  method DialPool(ids: seq<Identity>, timeout: int, dial: Client -> Option<Error>) returns (r: Result<seq<Client>>)
    ensures r.Ok? <==> FirstDialFailure(ids, timeout, dial) == |ids|
    ensures r.Err? ==> dial(InsecureClient(ids[FirstDialFailure(ids, timeout, dial)].address, timeout)) == Some(r.error)
    ensures r.Ok? ==> |r.value| == |ids|
    ensures r.Ok? ==> forall i :: 0 <= i < |ids| ==>
              r.value[i] == InsecureClient(ids[i].address, timeout) && r.value[i].transport == Insecure
  {
    var clients := new Client[|ids|];
    for i := 0 to |ids|
      invariant forall j :: 0 <= j < i ==> dial(InsecureClient(ids[j].address, timeout)).None?
      invariant forall j :: 0 <= j < i ==> clients[j] == InsecureClient(ids[j].address, timeout)
    {
      var identity := ids[i].(networkPubKey := None);
      if identity.networkPubKey.None? {
        var client := InsecureClient(identity.address, timeout);
        var err := dial(client);
        if err.Some? {
          FirstDialFailureIs(ids, timeout, dial, i);
          return Err(err.value);
        }
        clients[i] := client;
      } else {
        // the TLS branch: unreachable, the key was cleared on the line above
        assert false;
      }
    }
    FirstDialFailureIs(ids, timeout, dial, |ids|);
    r := Ok(clients[..]);
  }

  /** The first failing dial is the one every earlier dial succeeded before. */
  lemma FirstDialFailureIs(ids: seq<Identity>, timeout: int, dial: Client -> Option<Error>, k: nat)
    requires k <= |ids|
    requires forall j :: 0 <= j < k ==> dial(InsecureClient(ids[j].address, timeout)).None?
    requires k < |ids| ==> dial(InsecureClient(ids[k].address, timeout)).Some?
    ensures FirstDialFailure(ids, timeout, dial) == k
  {
  }

  /**
   * The package-level BootstrapIdentities: reject lists of different lengths, else build
   * one identity per address and decode its (quoted) key, ignoring decode failures.
   */
  method BootstrapIdentities(addresses: seq<string>, keys: seq<string>, decode: string -> Option<PubKey>)
    returns (r: Result<seq<Identity>>)
    ensures r == Resolve(addresses, keys, decode)
  {
    if |addresses| != |keys| {
      return Err(IdentityCountMismatch);
    }
    var ids := new Identity[|addresses|];
    for i := 0 to |addresses|
      invariant forall j :: 0 <= j < i ==> ids[j] == ResolvedIdentity(addresses[j], keys[j], decode)
    {
      var key := keys[i];
      ids[i] := Identity(ZeroID, addresses[i], RoleAccess, None);
      if !HasQuotePrefix(key) {
        key := "\"" + key + "\"";
      }
      assert key == Quoted(keys[i]);
      ids[i] := ids[i].(networkPubKey := decode(key));
    }
    var spec := Resolve(addresses, keys, decode);
    assert forall j :: 0 <= j < |addresses| ==> ids[..][j] == spec.value[j];
    assert ids[..] == spec.value;
    r := Ok(ids[..]);
  }

  /**
   * FlowAPIService: the two upstream pools (fixed once built) and the one round-robin
   * cursor both selectors advance.
   */
  class FlowAPIService {
    var roundRobin: int
    const upstreamProtocol: seq<Client>
    const upstreamExecution: seq<Client>

    /** The cursor is 0 or the index last taken from one of the pools. */
    ghost predicate Valid()
      reads this
    {
      && 0 <= roundRobin
      && (roundRobin == 0 || roundRobin < |upstreamProtocol| || roundRobin < |upstreamExecution|)
    }

    constructor (protocol: seq<Client>, execution: seq<Client>)
      ensures Valid()
      ensures upstreamProtocol == protocol && upstreamExecution == execution && roundRobin == 0
    {
      upstreamProtocol := protocol;
      upstreamExecution := execution;
      roundRobin := 0;
    }

    /** clientProtocol: one selection on the protocol pool. */
    method ClientProtocol() returns (r: Result<Client>)
      requires Valid()
      modifies this`roundRobin
      ensures Valid()
      ensures (r, roundRobin) == Select(upstreamProtocol, old(roundRobin))
    {
      if |upstreamProtocol| == 0 {
        return Err(Unimplemented);
      }
      roundRobin := roundRobin + 1;
      roundRobin := GoRem(roundRobin, |upstreamProtocol|);
      r := Ok(upstreamProtocol[roundRobin]);
    }

    /** clientExecution: one selection on the execution pool, with the same cursor. */
    method ClientExecution() returns (r: Result<Client>)
      requires Valid()
      modifies this`roundRobin
      ensures Valid()
      ensures (r, roundRobin) == Select(upstreamExecution, old(roundRobin))
    {
      if |upstreamExecution| == 0 {
        return Err(Unimplemented);
      }
      roundRobin := roundRobin + 1;
      roundRobin := GoRem(roundRobin, |upstreamExecution|);
      r := Ok(upstreamExecution[roundRobin]);
    }

    /**
     * Any of the 23 passthrough methods: call the selector the routing table names,
     * return its error if it fails, else forward the request and return the reply.
     */
    method Call(m: AccessMethod, req: Payload, upstream: (Client, AccessMethod, Payload) -> Reply)
      returns (reply: Reply, forwardedTo: Option<Client>)
      requires Valid()
      modifies this`roundRobin
      ensures Valid()
      ensures RouteStep(reply, forwardedTo, roundRobin) ==
              Route(m, req, upstreamProtocol, upstreamExecution, old(roundRobin), upstream)
    {
      var selected: Result<Client>;
      if PoolOf(m) == ProtocolPool {
        selected := ClientProtocol();
      } else {
        selected := ClientExecution();
      }
      if selected.Err? {
        return Reply(None, Some(selected.error)), None;
      }
      reply := upstream(selected.value, m, req);
      forwardedTo := Some(selected.value);
    }
  }

  /**
   * NewFlowAPIService: dial the protocol pool, then the execution pool, then set up the
   * indexed-history server (`dpsFailure` is the outcome of that setup); the first error
   * aborts with no service.
   */
  method NewFlowAPIService(protocolIds: seq<Identity>, executorIds: seq<Identity>, timeout: int,
                           dial: Client -> Option<Error>, dpsFailure: Option<DpsStage>)
    returns (svc: FlowAPIService?, err: Option<Error>)
    ensures svc == null <==> err.Some?
    ensures var kp := FirstDialFailure(protocolIds, timeout, dial);
      kp < |protocolIds| ==> err == dial(InsecureClient(protocolIds[kp].address, timeout))
    ensures var kp, ke := FirstDialFailure(protocolIds, timeout, dial), FirstDialFailure(executorIds, timeout, dial);
      kp == |protocolIds| && ke < |executorIds| ==> err == dial(InsecureClient(executorIds[ke].address, timeout))
    ensures var kp, ke := FirstDialFailure(protocolIds, timeout, dial), FirstDialFailure(executorIds, timeout, dial);
      kp == |protocolIds| && ke == |executorIds| ==> err == (if dpsFailure.Some? then Some(DpsSetup(dpsFailure.value)) else None)
    ensures svc != null ==> fresh(svc) && svc.Valid() && svc.roundRobin == 0
    ensures svc != null ==> |svc.upstreamProtocol| == |protocolIds| && |svc.upstreamExecution| == |executorIds|
    ensures svc != null ==> forall i :: 0 <= i < |protocolIds| ==>
              svc.upstreamProtocol[i] == InsecureClient(protocolIds[i].address, timeout)
    ensures svc != null ==> forall i :: 0 <= i < |executorIds| ==>
              svc.upstreamExecution[i] == InsecureClient(executorIds[i].address, timeout)
  {
    var protocolClients := DialPool(protocolIds, timeout, dial);
    if protocolClients.Err? {
      return null, Some(protocolClients.error);
    }
    var executorClients := DialPool(executorIds, timeout, dial);
    if executorClients.Err? {
      return null, Some(executorClients.error);
    }
    if dpsFailure.Some? {
      return null, Some(DpsSetup(dpsFailure.value));
    }
    svc := new FlowAPIService(protocolClients.value, executorClients.value);
    err := None;
  }
}
