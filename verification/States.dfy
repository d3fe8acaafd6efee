// The state of the bridge and the guard that both conversions share
// (x/intrarelayer/keeper/mint.go).
module States {
  import opened Base
  import opened Chains
  import opened Ledgers
  import opened Registries
  import opened TokenPairCodec
  import opened GenesisCodec

  datatype State = State(reg: Registry, params: Params, bank: Bank, evm: Evm)

  // The pair that a token names, by address or by denomination.
  function Resolve(r: Registry, token: Bytes): Result<TokenPair, Error>
  {
    var id := FindID(r, token);
    if id.None? || |id.value| == 0 then Err(NotRegistered)
    else
      var p := FindPair(r, id.value);
      if p.None? then Err(PairNotFound) else Ok(p.value)
  }

  function MintingEnabled(s: State, sender: Address, receiver: Address, token: Bytes): Result<TokenPair, Error>
  {
    if !s.params.enableIntrarelayer then Err(BridgeDisabled)
    else
      var pair :- Resolve(s.reg, token);
      if !pair.enabled then Err(PairDisabled)
      else if receiver in s.bank.blocked then Err(BlockedReceiver)
      else if sender != receiver && pair.denom in s.bank.sendDisabled then Err(SendDisabled)
      else Ok(pair)
  }

  lemma MintingFacts(s: State, sender: Address, receiver: Address, token: Bytes)
    requires MintingEnabled(s, sender, receiver, token).Ok?
    ensures var p := MintingEnabled(s, sender, receiver, token).value;
            Resolve(s.reg, token) == Ok(p) && p.enabled && receiver !in s.bank.blocked
  {
  }

  // The stored pair that a token names.
  ghost predicate Names(ch: Chain, r: Registry, token: Bytes, p: TokenPair)
  {
    && GetID(ch, p) in r.pairs && r.pairs[GetID(ch, p)] == p
    && (if IsHexAddress(token) then HexToAddress(token) == Contract(p) else token == p.denom)
  }

  lemma ResolvesIff(ch: Chain, r: Registry, token: Bytes, p: TokenPair)
    requires ch.Sound() && Bijective(ch, r)
    ensures Resolve(r, token) == Ok(p) <==> Names(ch, r, token, p)
  {
    if Resolve(r, token) == Ok(p) {
      ResolvedIsStored(ch, r, token);
    }
    if Names(ch, r, token, p) {
      NamedIsResolved(ch, r, token, p);
    }
    hide Resolve, Bijective, GetID, Contract, IsHexAddress, HexToAddress;
  }

  lemma NamedIsResolved(ch: Chain, r: Registry, token: Bytes, p: TokenPair)
    requires ch.Sound() && Bijective(ch, r) && Names(ch, r, token, p)
    ensures Resolve(r, token) == Ok(p)
  {
    hide HexToAddress;
    assert IsHexAddress(p.erc20Address) ==> p != ZERO;
    assert |GetID(ch, p)| > 0;
    hide IsHexAddress, GetID, Contract;
  }

  // A coin that resolves finds the pair of its own denomination. ConvertCoin relies on it.
  predicate FindsOwnPair(r: Registry, denom: Bytes)
  {
    Resolve(r, denom).Ok? ==> Resolve(r, denom).value.denom == denom
  }

  // The coins that do not are those whose name reads as the address of another coin's contract.
  lemma FindsOwnPairIff(ch: Chain, r: Registry, denom: Bytes)
    requires ch.Sound() && Bijective(ch, r)
    ensures FindsOwnPair(r, denom) <==>
            (IsHexAddress(denom) && HexToAddress(denom) in r.byErc20 ==>
               r.pairs[r.byErc20[HexToAddress(denom)]].denom == denom)
  {
    hide HexToAddress;
    if IsHexAddress(denom) && HexToAddress(denom) in r.byErc20 {
      ResolvesIff(ch, r, denom, r.pairs[r.byErc20[HexToAddress(denom)]]);
    }
    hide GetID;
  }

  // A conversion is let through, with pair p, exactly when the bridge is on, p is the pair that
  // the token names, p is enabled, the receiver is not blocked, and p's coin can be sent or
  // stays with one account.
  lemma MintingEnabledIff(ch: Chain, s: State, sender: Address, receiver: Address, token: Bytes, p: TokenPair)
    requires ch.Sound() && Bijective(ch, s.reg)
    ensures MintingEnabled(s, sender, receiver, token) == Ok(p) <==>
            && s.params.enableIntrarelayer && Names(ch, s.reg, token, p) && p.enabled
            && receiver !in s.bank.blocked && (sender == receiver || p.denom !in s.bank.sendDisabled)
  {
    hide Resolve, Names, Bijective, Chain.Sound;
    ResolvesIff(ch, s.reg, token, p);
  }

  // Why it is not let through: the first of these that applies.
  lemma MintingErrors(ch: Chain, s: State, sender: Address, receiver: Address, token: Bytes)
    requires ch.Sound() && Bijective(ch, s.reg)
    ensures var r := MintingEnabled(s, sender, receiver, token);
            && (!s.params.enableIntrarelayer ==> r == Err(BridgeDisabled))
            && (s.params.enableIntrarelayer ==>
                  && ((forall p :: !Names(ch, s.reg, token, p)) ==> r == Err(NotRegistered))
                  && (forall p :: Names(ch, s.reg, token, p) ==>
                        if !p.enabled then r == Err(PairDisabled)
                        else if receiver in s.bank.blocked then r == Err(BlockedReceiver)
                        else if sender != receiver && p.denom in s.bank.sendDisabled then r == Err(SendDisabled)
                        else r == Ok(p)))
  {
    NoDanglingIDs(ch, s.reg, token);
    hide Resolve, Names, Bijective, Chain.Sound;
    forall p | Names(ch, s.reg, token, p)
      ensures Resolve(s.reg, token) == Ok(p)
    {
      ResolvesIff(ch, s.reg, token, p);
    }
    if Resolve(s.reg, token).Ok? {
      ResolvesIff(ch, s.reg, token, Resolve(s.reg, token).value);
    }
  }

  // An index entry always leads to a pair, so that the only failure is a missing entry.
  lemma NoDanglingIDs(ch: Chain, r: Registry, token: Bytes)
    requires ch.Sound() && Bijective(ch, r)
    ensures Resolve(r, token).Err? ==> Resolve(r, token) == Err(NotRegistered)
  {
    hide HexToAddress, GetID, Contract;
    assert !IsHexAddress(ZERO.erc20Address);
    hide IsHexAddress;
  }

  // A resolved pair is stored under its id.
  lemma ResolvedIsStored(ch: Chain, r: Registry, token: Bytes)
    requires Bijective(ch, r) && Resolve(r, token).Ok?
    ensures var p := Resolve(r, token).value;
            && GetID(ch, p) in r.pairs && r.pairs[GetID(ch, p)] == p
            && Contract(p) in r.byErc20 && p.denom in r.byDenom
            && (IsHexAddress(token) ==> HexToAddress(token) == Contract(p))
            && (!IsHexAddress(token) ==> token == p.denom)
  {
    hide HexToAddress, IsHexAddress, GetID;
  }
}
