/**
 * Upstream endpoint identities (flow.Identity restricted to the fields the gateway sets)
 * and the rule that turns one configured (address, key) pair into an identity.
 * Both copies of BootstrapIdentities (Proxy and ApiServiceBuilder) are specified by
 * `Resolve` below.
 */
module Identities {
  import opened Outcomes

  /** A networking public key, as the bytes the JSON decoder produced. */
  type PubKey = seq<bv8>

  /** A node identifier; only the all-zero identifier is ever built here. */
  type NodeId = seq<bv8>

  datatype Role = RoleCollection | RoleConsensus | RoleExecution | RoleVerification | RoleAccess

  /** flow.ZeroID: 32 zero bytes. */
  const ZeroID: NodeId := seq(32, _ => 0 as bv8)

  datatype Identity = Identity(nodeId: NodeId, address: string, role: Role, networkPubKey: Option<PubKey>)

  predicate HasQuotePrefix(key: string) {
    |key| > 0 && key[0] == '"'
  }

  /**
   * The key as handed to the JSON decoder: a key that does not start with a double
   * quote is wrapped in a pair of them, one that does is passed on untouched.
   */
  function Quoted(key: string): (r: string)
    ensures HasQuotePrefix(r)
    ensures HasQuotePrefix(key) ==> r == key
    ensures !HasQuotePrefix(key) ==> |r| == |key| + 2 && r[1..|r| - 1] == key && r[|r| - 1] == '"'
  {
    if HasQuotePrefix(key) then key else "\"" + key + "\""
  }

  /** Quoting a key that has been quoted already changes nothing. */
  lemma QuotedIdempotent(key: string)
    ensures Quoted(Quoted(key)) == Quoted(key)
  {
  }

  /** Two different unquoted keys never quote to the same string, so no key is lost by quoting. */
  lemma QuotedInjective(k1: string, k2: string)
    requires !HasQuotePrefix(k1) && !HasQuotePrefix(k2)
    requires Quoted(k1) == Quoted(k2)
    ensures k1 == k2
  {
    var q := Quoted(k1);
    assert k1 == q[1..|q| - 1];
  }

  /**
   * The identity built for one (address, key) pair: ZeroID, the address itself, the
   * access role, and whatever the decoder makes of the quoted key (None when it fails).
   */
  function ResolvedIdentity(address: string, key: string, decode: string -> Option<PubKey>): (id: Identity)
    ensures id.address == address && id.nodeId == ZeroID && id.role == RoleAccess
    ensures id.networkPubKey == decode(Quoted(key))
  {
    Identity(ZeroID, address, RoleAccess, decode(Quoted(key)))
  }

  /**
   * What BootstrapIdentities computes: an error when the two lists differ in length,
   * otherwise one identity per address, in order.
   */
  function Resolve(addresses: seq<string>, keys: seq<string>, decode: string -> Option<PubKey>): (r: Result<seq<Identity>>)
    ensures r.Err? <==> |addresses| != |keys|
    ensures r.Err? ==> r.error == IdentityCountMismatch
    ensures r.Ok? ==> |r.value| == |addresses|
    ensures r.Ok? ==> forall i :: 0 <= i < |addresses| ==>
              r.value[i].address == addresses[i] && r.value[i].nodeId == ZeroID && r.value[i].role == RoleAccess &&
              r.value[i].networkPubKey == decode(Quoted(keys[i]))
  {
    if |addresses| != |keys| then Err(IdentityCountMismatch)
    else Ok(seq(|addresses|, i requires 0 <= i < |addresses| => ResolvedIdentity(addresses[i], keys[i], decode)))
  }

  /**
   * A key that fails to decode does not abort resolution: the list still comes back,
   * that identity has no key, and every other identity is exactly what it would be
   * had a different key been configured at that position.
   */
  lemma DecodeFailureIsLocal(addresses: seq<string>, keys: seq<string>, decode: string -> Option<PubKey>, k: nat, other: string)
    requires |addresses| == |keys| && k < |keys|
    requires decode(Quoted(keys[k])).None?
    ensures Resolve(addresses, keys, decode).Ok?
    ensures Resolve(addresses, keys, decode).value[k].networkPubKey.None?
    ensures forall i :: 0 <= i < |keys| && i != k ==>
              Resolve(addresses, keys, decode).value[i] == Resolve(addresses, keys[k := other], decode).value[i]
  {
  }
}
