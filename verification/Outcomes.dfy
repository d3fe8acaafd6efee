// When proposals succeed, and what they leave behind, written out in terms of the state.
module Outcomes {
  import opened Base
  import opened Chains
  import opened Ledgers
  import opened Registries
  import opened TokenPairCodec
  import opened States
  import opened Conversions
  import opened Governance
  import opened Steps

  // ---- Queries -----------------------------------------------------------------------

  // The module can read a contract three times.
  predicate Answers(ch: Chain, evm: Evm, contract: Address, q: Query)
  {
    && contract in evm.tokens && q.name.Ran? && q.symbol.Ran? && q.decimals.Ran?
    && evm.Nonce(ch.moduleAddress) + 3 <= MAX_NONCE
  }

  lemma QuerySucceedsIff(ch: Chain, evm: Evm, contract: Address, q: Query)
    ensures QueryERC20(ch, evm, contract, q).Some? <==> Answers(ch, evm, contract, q)
    ensures Answers(ch, evm, contract, q) ==> QueryERC20(ch, evm, contract, q).value.1 == evm.tokens[contract].data
  {
  }

  // ---- RegisterCoin ------------------------------------------------------------------

  // RegisterCoin succeeds exactly when the bridge is on, the name is not registered, the base
  // has no metadata or the same without units, and the virtual machine lets the module deploy.
  lemma RegisterCoinSucceedsIff(ch: Chain, s: State, meta: Metadata<DenomUnit>, v: Verdict)
    requires Fresh(ch, s)
    ensures RegisterCoin(ch, s, meta, v).Ok? <==>
            && s.params.enableIntrarelayer && meta.name !in s.reg.byDenom
            && (meta.base in s.bank.metadata ==>
                  var stored := s.bank.metadata[meta.base];
                  && |stored.units| == 0 && |meta.units| == 0
                  && stored.base == meta.base && stored.name == meta.name && stored.symbol == meta.symbol
                  && stored.display == meta.display && stored.description == meta.description)
            && v.Ran? && s.evm.Nonce(ch.moduleAddress) < MAX_NONCE
  {
    hide Insert, NewTokenPair;
    DeployNeverCollides(ch, s, ERC20Data(meta.name, meta.symbol, DEFAULT_DECIMALS), v);
  }

  // The contract of a registered coin answers with the coin's name and symbol and 18 decimals,
  // and the coin's metadata is the proposal's.
  lemma NewContractAnswers(ch: Chain, s: State, meta: Metadata<DenomUnit>, v: Verdict, q: Query)
    requires ch.Sound() && Core(ch, s) && |meta.units| > 0 && RegisterCoin(ch, s, meta, v).Ok?
    ensures var s', c := RegisterCoin(ch, s, meta, v).value, ch.create(s.evm.Nonce(ch.moduleAddress));
            && c in s'.reg.byErc20 && s'.bank.metadata == s.bank.metadata[meta.base := meta]
            && c in s'.evm.tokens && s'.evm.tokens[c].data == ERC20Data(meta.name, meta.symbol, 18)
            && (QueryERC20(ch, s'.evm, c, q).Some? ==>
                  QueryERC20(ch, s'.evm, c, q).value.1 == ERC20Data(meta.name, meta.symbol, 18))
  {
    var s', c := RegisterCoin(ch, s, meta, v).value, ch.create(s.evm.Nonce(ch.moduleAddress));
    DeployedData(ch, s, meta, v);
    hide RegisterCoin, Core, Insert, Contract, GetID, IsHexAddress, Text, QueryERC20, Chain.Sound;
    var p, k, t := RegisterCoinFacts(ch, s, meta, v);
    InsertIndexes(ch, s.reg, p);
    QuerySucceedsIff(ch, s'.evm, c, q);
  }

  lemma DeployedData(ch: Chain, s: State, meta: Metadata<DenomUnit>, v: Verdict)
    requires RegisterCoin(ch, s, meta, v).Ok?
    ensures var s', c := RegisterCoin(ch, s, meta, v).value, ch.create(s.evm.Nonce(ch.moduleAddress));
            c in s'.evm.tokens && s'.evm.tokens[c].data == ERC20Data(meta.name, meta.symbol, 18)
  {
    hide Insert, NewTokenPair, VerifyMetadata;
  }

  // ---- RegisterERC20 -----------------------------------------------------------------

  // RegisterERC20 succeeds exactly when the bridge is on, the contract is not registered and
  // answers, its voucher has no metadata and is not registered, and the metadata is valid.
  lemma RegisterERC20SucceedsIff(ch: Chain, s: State, c: Address, q: Query, valid: bool)
    ensures RegisterERC20(ch, s, c, q, valid).Ok? <==>
            && s.params.enableIntrarelayer && c !in s.reg.byErc20 && Answers(ch, s.evm, c, q)
            && Ascii("intrarelayer/") + Text(ch, c) !in s.bank.metadata
            && Ascii("intrarelayer/") + Text(ch, c) !in s.reg.byDenom && valid
  {
    hide Insert, NewTokenPair, Text, QueryERC20, CreateDenomDescription, Answers;
    QuerySucceedsIff(ch, s.evm, c, q);
  }

  // The voucher's metadata: a unit of exponent 0 for the voucher itself and one with the
  // contract's name and decimals, shown by that name.
  ghost predicate DescribesVoucher(ch: Chain, s: State, s': State, c: Address)
  {
    && c in s.evm.tokens
    && var d, data := Ascii("intrarelayer/") + Text(ch, c), s.evm.tokens[c].data;
       s'.bank.metadata == s.bank.metadata[d :=
         Metadata(d, d, data.symbol, data.name, Ascii("Cosmos coin token representation of ") + Text(ch, c),
                  [DenomUnit(d, 0), DenomUnit(data.name, data.decimals)])]
  }

  lemma VoucherIsDescribed(ch: Chain, s: State, c: Address, q: Query, valid: bool)
    requires RegisterERC20(ch, s, c, q, valid).Ok?
    ensures DescribesVoucher(ch, s, RegisterERC20(ch, s, c, q, valid).value, c)
  {
    hide Insert, NewTokenPair, Text, QueryERC20;
    QuerySucceedsIff(ch, s.evm, c, q);
  }

  // ---- ToggleRelay -------------------------------------------------------------------

  // Toggling succeeds exactly for tokens that name a pair, and turns that pair's flag.
  lemma ToggleSucceedsIff(ch: Chain, s: State, token: Bytes)
    requires ch.Sound() && Bijective(ch, s.reg)
    ensures ToggleRelay(ch, s, token).Ok? <==> exists p :: Names(ch, s.reg, token, p)
    ensures forall p :: Names(ch, s.reg, token, p) ==>
              ToggleRelay(ch, s, token) ==
              Ok(s.(reg := s.reg.(pairs := s.reg.pairs[GetID(ch, p) := p.(enabled := !p.enabled)])))
  {
    hide Resolve, Names, Bijective, Chain.Sound, GetID;
    if ToggleRelay(ch, s, token).Ok? {
      ResolvesIff(ch, s.reg, token, Resolve(s.reg, token).value);
    }
    forall p | Names(ch, s.reg, token, p)
      ensures ToggleRelay(ch, s, token) ==
              Ok(s.(reg := s.reg.(pairs := s.reg.pairs[GetID(ch, p) := p.(enabled := !p.enabled)])))
    {
      ResolvesIff(ch, s.reg, token, p);
      SameKeys(ch, p, p.(enabled := !p.enabled));
    }
  }

  // ---- UpdateTokenPairERC20 ----------------------------------------------------------

  // The metadata of a pair at the old contract, with its units, fits the new contract's data.
  ghost predicate Fits(ch: Chain, m: Metadata<DenomUnit>, oldAddr: Address, data: ERC20Data)
  {
    && |m.units| > 0 && m.display == data.name && m.symbol == data.symbol
    && m.description == Ascii("Cosmos coin token representation of ") + Text(ch, oldAddr)
    && exists i :: 0 <= i < |m.units| && m.units[i] == DenomUnit(data.name, data.decimals)
                   && forall j :: 0 <= j < i ==> m.units[j].denom != data.name
  }

  // A migration succeeds exactly when the old contract is registered, the new one answers, and
  // the pair's metadata describes the old contract and fits the new one.
  lemma UpdateSucceedsIff(ch: Chain, s: State, oldAddr: Address, newAddr: Address, q: Query)
    requires ch.Sound() && Bijective(ch, s.reg)
    ensures UpdateTokenPairERC20(ch, s, oldAddr, newAddr, q).Ok? <==>
            && oldAddr in s.reg.byErc20 && Answers(ch, s.evm, newAddr, q)
            && s.reg.pairs[s.reg.byErc20[oldAddr]].denom in s.bank.metadata
            && Fits(ch, s.bank.metadata[s.reg.pairs[s.reg.byErc20[oldAddr]].denom], oldAddr, s.evm.tokens[newAddr].data)
  {
    if oldAddr in s.reg.byErc20 {
      RegisteredIsFound(ch, s.reg, oldAddr);
      UpdateUnfolds(ch, s, oldAddr, newAddr, q, s.reg.pairs[s.reg.byErc20[oldAddr]]);
    }
    hide Bijective, Chain.Sound, Answers, FindPair, Fits;
  }

  lemma UpdateUnfolds(ch: Chain, s: State, oldAddr: Address, newAddr: Address, q: Query, p: TokenPair)
    requires oldAddr in s.reg.byErc20 && |s.reg.byErc20[oldAddr]| > 0
    requires FindPair(s.reg, s.reg.byErc20[oldAddr]) == Some(p)
    ensures UpdateTokenPairERC20(ch, s, oldAddr, newAddr, q).Ok? <==>
            && Answers(ch, s.evm, newAddr, q) && p.denom in s.bank.metadata
            && Fits(ch, s.bank.metadata[p.denom], oldAddr, s.evm.tokens[newAddr].data)
  {
    QuerySucceedsIff(ch, s.evm, newAddr, q);
    hide QueryERC20, FindPair, Migrate, CheckUnits, Text, Fits;
    if p.denom in s.bank.metadata && newAddr in s.evm.tokens {
      FitsIff(ch, s.bank.metadata[p.denom], oldAddr, s.evm.tokens[newAddr].data);
    }
  }

  lemma FitsIff(ch: Chain, m: Metadata<DenomUnit>, oldAddr: Address, data: ERC20Data)
    ensures Fits(ch, m, oldAddr, data) <==>
            && |m.units| > 0 && m.display == data.name && m.symbol == data.symbol
            && m.description == CreateDenomDescription(Text(ch, oldAddr)) && CheckUnits(m.units, data).None?
  {
    hide Text, CheckUnits;
    CheckUnitsIff(m.units, data);
  }

  lemma RegisteredIsFound(ch: Chain, r: Registry, c: Address)
    requires ch.Sound() && Bijective(ch, r) && c in r.byErc20
    ensures |r.byErc20[c]| > 0 && r.byErc20[c] in r.pairs && FindPair(r, r.byErc20[c]) == Some(r.pairs[r.byErc20[c]])
  {
    RegisteredPair(ch, r, c);
    IDIsNotEmpty(ch, r.pairs[r.byErc20[c]]);
    hide Bijective, Chain.Sound, GetID, Contract, IsHexAddress;
    assert !IsHexAddress(ZERO.erc20Address) by {
      NoAddressIsEmpty();
    }
  }

  lemma RegisteredPair(ch: Chain, r: Registry, c: Address)
    requires Bijective(ch, r) && c in r.byErc20
    ensures r.byErc20[c] in r.pairs && GetID(ch, r.pairs[r.byErc20[c]]) == r.byErc20[c]
    ensures IsHexAddress(r.pairs[r.byErc20[c]].erc20Address)
  {
    hide IsHexAddress, GetID, Contract;
  }

  lemma NoAddressIsEmpty()
    ensures !IsHexAddress([])
  {
  }

  // In particular a native coin whose proposal described it in its own words never migrates.
  ghost predicate InOwnWords(ch: Chain, s: State, oldAddr: Address)
  {
    && oldAddr in s.reg.byErc20 && s.reg.byErc20[oldAddr] in s.reg.pairs
    && s.reg.pairs[s.reg.byErc20[oldAddr]].denom in s.bank.metadata
    && s.bank.metadata[s.reg.pairs[s.reg.byErc20[oldAddr]].denom].description !=
         Ascii("Cosmos coin token representation of ") + Text(ch, oldAddr)
  }

  lemma OwnWordsNeverMigrate(ch: Chain, s: State, oldAddr: Address, newAddr: Address, q: Query)
    requires ch.Sound() && Bijective(ch, s.reg) && InOwnWords(ch, s, oldAddr)
    ensures UpdateTokenPairERC20(ch, s, oldAddr, newAddr, q).Err?
  {
    hide UpdateTokenPairERC20, Bijective, Chain.Sound, Text, Answers;
    UpdateSucceedsIff(ch, s, oldAddr, newAddr, q);
  }

  // ---- Contracts without code --------------------------------------------------------

  // On a contract without code, which no good registry has, a native coin's conversion escrows
  // the coins and mints nothing, and an external contract's conversion fails.
  lemma ConvertCoinWithoutCode(ch: Chain, s: State, p: TokenPair, msg: MsgConvertCoin, v: Verdict)
    requires MintingEnabled(s, msg.sender, msg.receiver, msg.denom) == Ok(p) && Contract(p) !in s.evm.tokens
    ensures ConvertCoin(ch, s, msg, v).Ok? <==>
            && p.contractOwner == OWNER_MODULE && v.Ran? && s.evm.Nonce(ch.moduleAddress) < MAX_NONCE
            && s.bank.Coins(msg.denom)[msg.sender] >= msg.amount
    ensures ConvertCoin(ch, s, msg, v).Ok? ==>
              && ConvertCoin(ch, s, msg, v).value.evm.tokens == s.evm.tokens
              && ConvertCoin(ch, s, msg, v).value.bank ==
                 s.bank.SetCoins(msg.denom, Move(s.bank.Coins(msg.denom), msg.sender, ch.moduleAddress, msg.amount))
  {
    hide MintingEnabled, Contract, Move, Bank.Burn;
  }
}
