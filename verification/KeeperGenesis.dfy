// Import and export of the genesis state as the keeper carries them out
// (x/intrarelayer/genesis.go).
module KeeperGenesis {
  import opened Base
  import opened Chains
  import opened Registries
  import opened TokenPairCodec
  import opened GenesisCodec
  import opened States
  import opened Keepers
  import Spec = Genesis

  method InitGenesis(k: Keeper, data: GenesisState)
    requires k.Valid() && forall p :: p in data.tokenPairs ==> Storable(p)
    modifies k
    ensures k.Valid()
    ensures k.View() ==
            old(k.View()).(params := data.params, reg := Spec.Import(k.ch, old(k.View().reg), data.tokenPairs))
  {
    hide Insert, HexToAddress, Storable, Keeper.Pairs, Keeper.Valid;
    k.params := data.params;
    ghost var ps, all := data.tokenPairs, Spec.Import(k.ch, k.View().reg, data.tokenPairs);
    assert ps[0..] == ps;
    for i := 0 to |data.tokenPairs|
      invariant k.Valid() && Spec.Import(k.ch, k.View().reg, ps[i..]) == all
      invariant k.View() == old(k.View()).(params := data.params, reg := k.View().reg)
    {
      var pair := data.tokenPairs[i];
      assert pair in data.tokenPairs && ps[i..][0] == pair && ps[i..][1..] == ps[i + 1..];
      k.Store(pair, HexToAddress(pair.erc20Address));
    }
  }

  method ExportGenesis(k: Keeper) returns (data: GenesisState)
    requires k.Valid()
    ensures data.params == k.params && Spec.Enumerates(data.tokenPairs, k.View().reg)
    ensures forall p :: p in data.tokenPairs ==> Storable(p)
  {
    hide Storable;
    var pairs := k.GetAllTokenPairs();
    data := GenesisState(k.params, pairs);
    forall p | p in pairs
      ensures Storable(p)
    {
      StoredIsStorable(k, p);
    }
  }

  lemma StoredIsStorable(k: Keeper, p: TokenPair)
    requires k.Valid() && exists id :: id in k.View().reg.pairs && k.View().reg.pairs[id] == p
    ensures Storable(p)
  {
    hide TokenPairCodec.Decoding, GetID;
  }

  // A new keeper that imports the export of another has its registry and its params, when
  // that registry is a bijection.
  method Restart(k: Keeper) returns (k': Keeper)
    requires k.Valid() && Bijective(k.ch, k.View().reg)
    ensures fresh(k') && k'.Valid() && k'.View() == k.View()
  {
    hide Bijective, Storable, Keeper.Pairs, Keeper.Valid;
    var data := ExportGenesis(k);
    k' := new Keeper(k.ch, data.params, k.bank, k.evm);
    Spec.ExportImportRoundTrip(k.ch, k.View().reg, data.tokenPairs);
    InitGenesis(k', data);
  }
}
