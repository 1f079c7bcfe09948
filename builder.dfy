/**
 * The API service builder's own copy of BootstrapIdentities. It computes the same
 * identity list as the package-level copy in Proxy; where that copy discards the
 * decoder's error, this one takes a logging branch, modelled here by the list of
 * positions whose key did not decode.
 */
module ApiServiceBuilder {
  import opened Outcomes
  import opened Identities

  method BootstrapIdentities(addresses: seq<string>, keys: seq<string>, decode: string -> Option<PubKey>)
    returns (r: Result<seq<Identity>>, undecoded: seq<nat>)
    ensures r == Resolve(addresses, keys, decode)
    ensures r.Err? ==> undecoded == []
    ensures r.Ok? ==> forall i :: i in undecoded <==> 0 <= i < |keys| && decode(Quoted(keys[i])).None?
    ensures forall a, b :: 0 <= a < b < |undecoded| ==> undecoded[a] < undecoded[b]
  {
    undecoded := [];
    if |addresses| != |keys| {
      return Err(IdentityCountMismatch), undecoded;
    }
    var ids := new Identity[|addresses|];
    for i := 0 to |addresses|
      invariant forall j :: 0 <= j < i ==> ids[j] == ResolvedIdentity(addresses[j], keys[j], decode)
      invariant forall j :: j in undecoded <==> 0 <= j < i && decode(Quoted(keys[j])).None?
      invariant forall a :: 0 <= a < |undecoded| ==> undecoded[a] < i
      invariant forall a, b :: 0 <= a < b < |undecoded| ==> undecoded[a] < undecoded[b]
    {
      var key := keys[i];
      ids[i] := Identity(ZeroID, addresses[i], RoleAccess, None);
      if !HasQuotePrefix(key) {
        key := "\"" + key + "\"";
      }
      assert key == Quoted(keys[i]);
      var decoded := decode(key);
      ids[i] := ids[i].(networkPubKey := decoded);
      if decoded.None? {
        // the decode error is handed to the logger and the loop goes on
        undecoded := undecoded + [i];
      }
    }
    var spec := Resolve(addresses, keys, decode);
    assert forall j :: 0 <= j < |addresses| ==> ids[..][j] == spec.value[j];
    assert ids[..] == spec.value;
    r := Ok(ids[..]);
  }
}
