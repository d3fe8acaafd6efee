// Registration, toggling and migration as the keeper carries them out
// (x/intrarelayer/keeper/proposals.go and utils.go), with metadata in memory. A proposal that
// returns an error leaves the keeper wherever it stopped; rolling back is the caller's work.
module Proposals {
  import opened Base
  import opened Chains
  import opened Ledgers
  import opened Registries
  import opened TokenPairCodec
  import opened States
  import opened Keepers
  import opened MsgServer
  import Spec = Governance

  type InMemory = Metadata<Spec.UnitRef>

  function Failure<T>(r: Result<T, Error>): Option<Error>
  {
    if r.Err? then Some(r.error) else None
  }

  // ---- Metadata ----------------------------------------------------------------------

  // Units decoded into new memory.
  method Decoded(units: seq<DenomUnit>) returns (refs: seq<Spec.UnitRef>)
    ensures Spec.Values(refs) == units && forall u :: u in refs ==> fresh(u)
  {
    refs := [];
    for i := 0 to |units|
      invariant |refs| == i && forall u :: u in refs ==> fresh(u)
      invariant forall j :: 0 <= j < i ==> refs[j].denom == units[j].denom && refs[j].exponent == units[j].exponent
    {
      var unit := new Spec.UnitRef(units[i].denom, units[i].exponent);
      refs := refs + [unit];
    }
  }

  method Load(m: Metadata<DenomUnit>) returns (loaded: InMemory)
    ensures Spec.Stored(loaded) == m && forall u :: u in loaded.units ==> fresh(u)
  {
    var units := Decoded(m.units);
    loaded := Metadata(m.base, m.name, m.symbol, m.display, m.description, units);
  }

  method GetDenomMetaData(k: Keeper, denom: Bytes) returns (m: Option<InMemory>)
    ensures m.Some? <==> denom in k.bank.metadata
    ensures m.Some? ==> Spec.Stored(m.value) == k.bank.metadata[denom] && forall u :: u in m.value.units ==> fresh(u)
  {
    if denom !in k.bank.metadata {
      return None;
    }
    var loaded := Load(k.bank.metadata[denom]);
    return Some(loaded);
  }

  // equalMetadata.
  method EqualMetadata(a: InMemory, b: InMemory) returns (equal: bool)
    ensures equal == Spec.EqualMetadata(a, b)
  {
    if !Spec.SameTexts(a, b) || |a.units| != |b.units| {
      return false;
    }
    for i := 0 to |a.units|
      invariant forall j :: 0 <= j < i ==> a.units[j] == b.units[j]
    {
      if a.units[i] != b.units[i] {
        return false;
      }
    }
    return true;
  }

  method VerifyMetadata(k: Keeper, meta: InMemory) returns (ok: bool)
    requires k.Valid()
    modifies k`bank
    ensures var spec := Spec.VerifyMetadata(old(k.bank), Spec.Stored(meta));
            && (ok <==> spec.Ok?)
            && (ok ==> k.bank == spec.value)
  {
    var stored := GetDenomMetaData(k, meta.base);
    if stored.None? {
      k.bank := k.bank.SetMetadata(Spec.Stored(meta));
      return true;
    }
    Spec.LoadedMetadataEqualIff(stored.value, meta);
    ok := EqualMetadata(stored.value, meta);
  }

  // ---- Registration ------------------------------------------------------------------

  method RegisterCoin(k: Keeper, meta: InMemory, v: Verdict) returns (r: Result<TokenPair, Error>)
    requires k.Valid() && |meta.base| <= MAX_STRING
    modifies k
    ensures Performs(k, Spec.RegisterCoin(k.ch, old(k.View()), Spec.Stored(meta), v), Failure(r))
    ensures r.Ok? ==> k.View().reg == Insert(k.ch, old(k.View().reg), r.value)
  {
    hide Spec.VerifyMetadata, Deploy, Text, HexToAddress, Insert, GetID, Keeper.Pairs, Marshalled;
    if !k.params.enableIntrarelayer {
      return Err(BridgeDisabled);
    }
    if k.IsDenomRegistered(meta.name) {
      return Err(AlreadyRegistered);
    }
    MismatchError(k.bank, Spec.Stored(meta));
    var ok := VerifyMetadata(k, meta);
    if !ok {
      return Err(MetadataMismatch);
    }
    var addr := k.DeployERC20Contract(meta.name, meta.symbol, v);
    if addr.None? {
      return Err(DeployFailed);
    }
    TextRoundTrip(k.ch, addr.value);
    var pair := NewTokenPair(k.ch, addr.value, meta.base, true, OWNER_MODULE);
    k.Store(pair, HexToAddress(pair.erc20Address));
    return Ok(pair);
  }

  lemma MismatchError(b: Bank, meta: Metadata<DenomUnit>)
    ensures Spec.VerifyMetadata(b, meta).Err? ==> Spec.VerifyMetadata(b, meta).error == MetadataMismatch
  {
  }

  // CreateCoinMetadata. valid is the answer of the bank's own metadata validation.
  method CreateCoinMetadata(k: Keeper, contract: Address, q: Query, valid: bool) returns (r: Result<InMemory, Error>)
    requires k.Valid()
    modifies k`bank, k`evm
    ensures var queried := QueryERC20(k.ch, old(k.evm), contract, q);
            && (queried.None? ==> r == Err(QueryFailed))
            && (queried.Some? ==>
                  var meta := Spec.VoucherMetadata(k.ch, contract, queried.value.1);
                  && (meta.base in old(k.bank.metadata) || meta.base in k.byDenom ==> r == Err(AlreadyRegistered))
                  && (meta.base !in old(k.bank.metadata) && meta.base !in k.byDenom ==>
                        && (!valid ==> r == Err(InvalidMetadata))
                        && (valid ==> r.Ok? && Spec.Stored(r.value) == meta
                                      && k.bank == old(k.bank).SetMetadata(meta) && k.evm == queried.value.0)))
  {
    hide Ledgers.QueryERC20, CreateDenom, CreateDenomDescription, Text;
    var strContract := Text(k.ch, contract);
    var erc20Data := k.QueryERC20(contract, q);
    if erc20Data.None? {
      return Err(QueryFailed);
    }
    var meta := GetDenomMetaData(k, CreateDenom(strContract));
    if meta.Some? {
      return Err(AlreadyRegistered);
    }
    if k.IsDenomRegistered(CreateDenom(strContract)) {
      return Err(AlreadyRegistered);
    }
    var denom := CreateDenom(strContract);
    var first := new Spec.UnitRef(denom, 0);
    var second := new Spec.UnitRef(erc20Data.value.name, erc20Data.value.decimals);
    var metadata: InMemory := Metadata(denom, denom, erc20Data.value.symbol, erc20Data.value.name,
                                       CreateDenomDescription(strContract), [first, second]);
    if !valid {
      return Err(InvalidMetadata);
    }
    k.bank := k.bank.SetMetadata(Spec.Stored(metadata));
    return Ok(metadata);
  }

  method RegisterERC20(k: Keeper, contract: Address, q: Query, valid: bool) returns (r: Result<TokenPair, Error>)
    requires k.Valid()
    modifies k
    ensures Performs(k, Spec.RegisterERC20(k.ch, old(k.View()), contract, q, valid), Failure(r))
    ensures r.Ok? ==> k.View().reg == Insert(k.ch, old(k.View().reg), r.value)
  {
    hide Ledgers.QueryERC20, CreateDenomDescription, HexToAddress, Insert, GetID, Keeper.Pairs, Marshalled, Text;
    if !k.params.enableIntrarelayer {
      return Err(BridgeDisabled);
    }
    if k.IsERC20Registered(contract) {
      return Err(AlreadyRegistered);
    }
    var metadata := CreateCoinMetadata(k, contract, q, valid);
    if metadata.Err? {
      return Err(metadata.error);
    }
    TextRoundTrip(k.ch, contract);
    var pair := NewTokenPair(k.ch, contract, metadata.value.name, true, OWNER_EXTERNAL);
    k.Store(pair, HexToAddress(pair.erc20Address));
    return Ok(pair);
  }

  // ---- Toggling and migration --------------------------------------------------------

  method ToggleRelay(k: Keeper, token: Bytes) returns (r: Result<TokenPair, Error>)
    requires k.Valid()
    modifies k
    ensures Performs(k, Spec.ToggleRelay(k.ch, old(k.View()), token), Failure(r))
    ensures r.Ok? ==> k.View().reg.pairs == old(k.View().reg.pairs)[GetID(k.ch, r.value) := r.value]
  {
    hide FindPair, FindID, GetID, Marshalled, Keeper.Pairs;
    var id := k.GetTokenPairID(token);
    if id.None? || |id.value| == 0 {
      return Err(NotRegistered);
    }
    var pair, found := k.GetTokenPair(id);
    if !found {
      return Err(PairNotFound);
    }
    pair := pair.(enabled := !pair.enabled);
    k.SetTokenPair(pair);
    return Ok(pair);
  }

  // The search over the denomination units.
  method CheckUnits(units: seq<Spec.UnitRef>, data: ERC20Data) returns (r: Option<Error>)
    ensures r == Spec.CheckUnits(Spec.Values(units), data)
  {
    var found := false;
    ghost var all := Spec.Values(units);
    assert all[0..] == all;
    for i := 0 to |units|
      invariant Spec.CheckUnits(all, data) == Spec.CheckUnits(all[i..], data) && !found
    {
      var denomUnit := units[i];
      assert all[i..][0] == DenomUnit(denomUnit.denom, denomUnit.exponent) && all[i..][1..] == all[i + 1..];
      if denomUnit.denom != data.name {
        continue;
      }
      if denomUnit.exponent != data.decimals {
        return Some(ExponentMismatch);
      }
      found := true;
      break;
    }
    if !found {
      return Some(UnitNotFound);
    }
    return None;
  }

  // The pair is deleted under its old id and stored under the new one.
  method Rekey(k: Keeper, stored: TokenPair, newAddr: Address) returns (pair: TokenPair)
    requires k.Valid() && Storable(stored)
    modifies k`tokenPairs
    ensures pair == stored.(erc20Address := Text(k.ch, newAddr))
    ensures k.Valid() && k.Pairs() == (old(k.Pairs()) - {GetID(k.ch, stored)})[GetID(k.ch, pair) := pair]
  {
    TextRoundTrip(k.ch, newAddr);
    hide GetID, HexToAddress, IsHexAddress, Marshalled, Decoding, Text, Keeper.Pairs, Keeper.Valid;
    k.DeleteTokenPair(stored);
    pair := stored.(erc20Address := Text(k.ch, newAddr));
    k.SetTokenPair(pair);
  }

  // The writes of a migration.
  method Move(k: Keeper, stored: TokenPair, oldAddr: Address, newAddr: Address) returns (pair: TokenPair)
    requires k.Valid() && Storable(stored)
    modifies k`tokenPairs, k`byErc20, k`byDenom
    ensures k.Valid() && k.View() == old(k.View()).(reg := Migrate(k.ch, old(k.View().reg), stored, oldAddr, newAddr))
    ensures pair == stored.(erc20Address := Text(k.ch, newAddr))
    ensures GetID(k.ch, pair) in k.View().reg.pairs && k.View().reg.pairs[GetID(k.ch, pair)] == pair
  {
    hide GetID, HexToAddress, Text, Keeper.Pairs, Keeper.Valid;
    pair := Rekey(k, stored, newAddr);
    k.SetDenomMap(pair.denom, GetID(k.ch, pair));
    k.DeleteERC20Map(oldAddr);
    k.SetERC20Map(HexToAddress(pair.erc20Address), GetID(k.ch, pair));
  }

  method UpdateTokenPairERC20(k: Keeper, oldAddr: Address, newAddr: Address, q: Query)
    returns (r: Result<TokenPair, Error>)
    requires k.Valid()
    modifies k
    ensures Performs(k, Spec.UpdateTokenPairERC20(k.ch, old(k.View()), oldAddr, newAddr, q), Failure(r))
    ensures r.Ok? ==> GetID(k.ch, r.value) in k.View().reg.pairs && k.View().reg.pairs[GetID(k.ch, r.value)] == r.value
    ensures r.Ok? ==> r.value.erc20Address == Text(k.ch, newAddr)
  {
    hide FindPair, GetID, HexToAddress, Marshalled, Keeper.Pairs, Text, CreateDenomDescription, Migrate,
         Ledgers.QueryERC20,
         Spec.CheckUnits;
    var id := k.GetERC20Map(oldAddr);
    if id.None? || |id.value| == 0 {
      return Err(NotRegistered);
    }
    var pair, found := k.GetTokenPair(id);
    if !found {
      return Err(PairNotFound);
    }
    var metadata := GetDenomMetaData(k, pair.denom);
    if metadata.None? {
      return Err(MetadataNotFound);
    }
    var meta := metadata.value;
    if |meta.units| == 0 {
      return Err(EmptyDenomUnits);
    }
    var erc20Data := k.QueryERC20(newAddr, q);
    if erc20Data.None? {
      return Err(QueryFailed);
    }
    var data := erc20Data.value;
    if meta.display != data.name || meta.symbol != data.symbol
       || meta.description != CreateDenomDescription(Text(k.ch, oldAddr)) {
      return Err(DetailsMismatch);
    }
    var mismatch := CheckUnits(meta.units, data);
    if mismatch.Some? {
      return Err(mismatch.value);
    }
    meta := meta.(description := CreateDenomDescription(Text(k.ch, newAddr)));
    k.bank := k.bank.SetMetadata(Spec.Stored(meta));
    pair := Move(k, pair, oldAddr, newAddr);
    return Ok(pair);
  }
}
