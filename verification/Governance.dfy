// Registration, toggling and migration of token pairs (x/intrarelayer/keeper/proposals.go and
// utils.go), as functions from the state before a proposal to the state after it.
module Governance {
  import opened Base
  import opened Chains
  import opened Ledgers
  import opened Registries
  import opened TokenPairCodec
  import opened States

  predicate SameTexts<U, V>(a: Metadata<U>, b: Metadata<V>)
  {
    a.base == b.base && a.description == b.description && a.display == b.display && a.name == b.name
    && a.symbol == b.symbol
  }

  // verifyMetadata. Stored units are decoded into new memory, and units are compared by
  // pointer, so that metadata with units never equals what is stored.
  function VerifyMetadata(b: Bank, meta: Metadata<DenomUnit>): Result<Bank, Error>
  {
    if meta.base !in b.metadata then Ok(b.SetMetadata(meta))
    else
      var stored := b.metadata[meta.base];
      if SameTexts(stored, meta) && |stored.units| == 0 && |meta.units| == 0 then Ok(b) else Err(MetadataMismatch)
  }

  function RegisterCoin(ch: Chain, s: State, meta: Metadata<DenomUnit>, v: Verdict): Result<State, Error>
  {
    if !s.params.enableIntrarelayer then Err(BridgeDisabled)
    else if meta.name in s.reg.byDenom then Err(AlreadyRegistered)
    else
      var bank :- VerifyMetadata(s.bank, meta);
      var deployed := Deploy(ch, s.evm, ERC20Data(meta.name, meta.symbol, DEFAULT_DECIMALS), v);
      if deployed.None? then Err(DeployFailed)
      else
        var (evm, contract) := deployed.value;
        var pair := NewTokenPair(ch, contract, meta.base, true, OWNER_MODULE);
        Ok(s.(reg := Insert(ch, s.reg, pair), bank := bank, evm := evm))
  }

  function VoucherMetadata(ch: Chain, contract: Address, data: ERC20Data): Metadata<DenomUnit>
  {
    var denom, text := Voucher(ch, contract), Text(ch, contract);
    Metadata(denom, denom, data.symbol, data.name, CreateDenomDescription(text),
             [DenomUnit(denom, 0), DenomUnit(data.name, data.decimals)])
  }

  // valid is the answer of the bank's own metadata validation.
  function RegisterERC20(ch: Chain, s: State, contract: Address, q: Query, valid: bool): Result<State, Error>
  {
    if !s.params.enableIntrarelayer then Err(BridgeDisabled)
    else if contract in s.reg.byErc20 then Err(AlreadyRegistered)
    else
      var queried := QueryERC20(ch, s.evm, contract, q);
      if queried.None? then Err(QueryFailed)
      else
        var (evm, data) := queried.value;
        var meta := VoucherMetadata(ch, contract, data);
        if meta.base in s.bank.metadata then Err(AlreadyRegistered)
        else if meta.base in s.reg.byDenom then Err(AlreadyRegistered)
        else if !valid then Err(InvalidMetadata)
        else
          var pair := NewTokenPair(ch, contract, meta.name, true, OWNER_EXTERNAL);
          Ok(s.(reg := Insert(ch, s.reg, pair), bank := s.bank.SetMetadata(meta), evm := evm))
  }

  function ToggleRelay(ch: Chain, s: State, token: Bytes): Result<State, Error>
  {
    var pair :- Resolve(s.reg, token);
    Ok(s.(reg := Toggle(ch, s.reg, pair)))
  }

  // The first unit named like the contract must have its decimals.
  function CheckUnits(units: seq<DenomUnit>, data: ERC20Data): Option<Error>
  {
    if |units| == 0 then Some(UnitNotFound)
    else if units[0].denom != data.name then CheckUnits(units[1..], data)
    else if units[0].exponent != data.decimals then Some(ExponentMismatch)
    else None
  }

  // The unit check passes exactly when some unit has the contract's name and decimals and no
  // earlier unit has its name.
  lemma {:induction false} CheckUnitsIff(units: seq<DenomUnit>, data: ERC20Data)
    ensures CheckUnits(units, data).None? <==>
            exists i :: 0 <= i < |units| && units[i] == DenomUnit(data.name, data.decimals)
                        && forall j :: 0 <= j < i ==> units[j].denom != data.name
  {
    if |units| > 0 && units[0].denom != data.name {
      CheckUnitsIff(units[1..], data);
      if CheckUnits(units, data).None? {
        var i :| 0 <= i < |units[1..]| && units[1..][i] == DenomUnit(data.name, data.decimals)
                 && forall j :: 0 <= j < i ==> units[1..][j].denom != data.name;
        assert units[i + 1] == DenomUnit(data.name, data.decimals);
        assert forall j :: 0 < j < i + 1 ==> units[j] == units[1..][j - 1];
      }
      if i :| 0 <= i < |units| && units[i] == DenomUnit(data.name, data.decimals)
              && forall j :: 0 <= j < i ==> units[j].denom != data.name {
        assert units[1..][i - 1] == DenomUnit(data.name, data.decimals);
        assert forall j :: 0 <= j < i - 1 ==> units[1..][j] == units[j + 1];
      }
    } else if |units| > 0 && CheckUnits(units, data).None? {
      assert units[0] == DenomUnit(data.name, data.decimals);
    }
  }

  function UpdateTokenPairERC20(ch: Chain, s: State, oldAddr: Address, newAddr: Address, q: Query): Result<State, Error>
  {
    if oldAddr !in s.reg.byErc20 || |s.reg.byErc20[oldAddr]| == 0 then Err(NotRegistered)
    else
      var found := FindPair(s.reg, s.reg.byErc20[oldAddr]);
      if found.None? then Err(PairNotFound)
      else
        var pair := found.value;
        if pair.denom !in s.bank.metadata then Err(MetadataNotFound)
        else
          var meta := s.bank.metadata[pair.denom];
          if |meta.units| == 0 then Err(EmptyDenomUnits)
          else
            var queried := QueryERC20(ch, s.evm, newAddr, q);
            if queried.None? then Err(QueryFailed)
            else
              var (evm, data) := queried.value;
              if meta.display != data.name || meta.symbol != data.symbol
                 || meta.description != CreateDenomDescription(Text(ch, oldAddr)) then Err(DetailsMismatch)
              else
                match CheckUnits(meta.units, data)
                case Some(error) => Err(error)
                case None =>
                  var meta := meta.(description := CreateDenomDescription(Text(ch, newAddr)));
                  var reg := Migrate(ch, s.reg, pair, oldAddr, newAddr);
                  Ok(s.(reg := reg, bank := s.bank.SetMetadata(meta), evm := evm))
  }

  // ---- Pointer comparison ------------------------------------------------------------

  // A denomination unit in memory.
  class UnitRef {
    const denom: Bytes
    const exponent: nat

    constructor (denom: Bytes, exponent: nat)
      ensures this.denom == denom && this.exponent == exponent
    {
      this.denom, this.exponent := denom, exponent;
    }
  }

  // The values that a unit list in memory stands for, which is what the store keeps.
  function Values(units: seq<UnitRef>): seq<DenomUnit>
  {
    seq(|units|, i requires 0 <= i < |units| => DenomUnit(units[i].denom, units[i].exponent))
  }

  function Stored(m: Metadata<UnitRef>): Metadata<DenomUnit>
  {
    Metadata(m.base, m.name, m.symbol, m.display, m.description, Values(m.units))
  }

  // equalMetadata: the units are compared by reference.
  predicate EqualMetadata(a: Metadata<UnitRef>, b: Metadata<UnitRef>)
  {
    SameTexts(a, b) && |a.units| == |b.units| && forall i :: 0 <= i < |a.units| ==> a.units[i] == b.units[i]
  }

  // Metadata that was just loaded shares no unit with the metadata it is compared to, and is
  // then equal to it only when neither has any.
  lemma LoadedMetadataEqualIff(loaded: Metadata<UnitRef>, given: Metadata<UnitRef>)
    requires forall u :: u in loaded.units ==> u !in given.units
    ensures EqualMetadata(loaded, given) <==> SameTexts(loaded, given) && |loaded.units| == 0 && |given.units| == 0
  {
    if |loaded.units| == |given.units| && |loaded.units| > 0 {
      assert loaded.units[0] in loaded.units && given.units[0] in given.units;
    }
  }
}
