// The registry of token pairs: the three prefixed maps of
// x/intrarelayer/keeper/token_pairs.go and the pair ids of x/intrarelayer/types/token_pair.go.
module Registries {
  import opened Base
  import opened Chains
  import opened TokenPairCodec

  datatype Registry = Registry(pairs: map<Bytes, TokenPair>, byErc20: map<Address, Bytes>, byDenom: map<Bytes, Bytes>)

  const EMPTY := Registry(map[], map[], map[])

  // TokenPair.GetID.
  function GetID(ch: Chain, p: TokenPair): Bytes
  {
    ch.sha256(p.erc20Address + [BAR] + p.denom)
  }

  // TokenPair.GetERC20Contract.
  function Contract(p: TokenPair): Address
  {
    HexToAddress(p.erc20Address)
  }

  // NewTokenPair, which ignores its flag and always enables the pair.
  function NewTokenPair(ch: Chain, contract: Address, denom: Bytes, enabled: bool, owner: Owner): TokenPair
  {
    TokenPair(Text(ch, contract), denom, true, owner)
  }

  lemma NewPairIgnoresFlag(ch: Chain, contract: Address, denom: Bytes, enabled: bool, owner: Owner)
    ensures NewTokenPair(ch, contract, denom, enabled, owner) == TokenPair(Text(ch, contract), denom, true, owner)
  {
  }

  // GetTokenPairID: a token that reads as a hexadecimal address is one.
  function FindID(r: Registry, token: Bytes): Option<Bytes>
  {
    if IsHexAddress(token) then
      var a := HexToAddress(token);
      if a in r.byErc20 then Some(r.byErc20[a]) else None
    else if token in r.byDenom then Some(r.byDenom[token])
    else None
  }

  // GetTokenPair: a pair stored as no bytes, which is the zero pair, is not found.
  function FindPair(r: Registry, id: Bytes): Option<TokenPair>
  {
    if id in r.pairs && r.pairs[id] != ZERO then Some(r.pairs[id]) else None
  }

  // SetTokenPair, SetDenomMap and SetERC20Map for one pair, as registration does.
  function Insert(ch: Chain, r: Registry, p: TokenPair): Registry
  {
    var id := GetID(ch, p);
    Registry(r.pairs[id := p], r.byErc20[Contract(p) := id], r.byDenom[p.denom := id])
  }

  function Toggle(ch: Chain, r: Registry, p: TokenPair): Registry
  {
    var p := p.(enabled := !p.enabled);
    r.(pairs := r.pairs[GetID(ch, p) := p])
  }

  // The writes of UpdateTokenPairERC20: p leaves the contract old for the contract new.
  function Migrate(ch: Chain, r: Registry, p: TokenPair, from: Address, to: Address): Registry
  {
    var p' := p.(erc20Address := Text(ch, to));
    var id := GetID(ch, p');
    Registry((r.pairs - {GetID(ch, p)})[id := p'],
             (r.byErc20 - {from})[HexToAddress(p'.erc20Address) := id],
             r.byDenom[p.denom := id])
  }

  // What is stored under an id is found there, unless it is the zero pair.
  lemma StoredIsFoundIff(r: Registry, id: Bytes, p: TokenPair)
    ensures FindPair(r.(pairs := r.pairs[id := p]), id) == Some(p) <==>
            p.erc20Address != [] || p.denom != [] || p.enabled || p.contractOwner != 0
    ensures FindPair(r.(pairs := r.pairs - {id}), id) == None
  {
  }

  lemma IDIsNotEmpty(ch: Chain, p: TokenPair)
    requires ch.Sound()
    ensures |GetID(ch, p)| > 0
  {
  }

  // The id is the hash of both texts with a bar between them, and depends on nothing else.
  lemma IDText(ch: Chain, p: TokenPair)
    ensures GetID(ch, p) == ch.sha256(p.erc20Address + Ascii("|") + p.denom)
  {
    assert Ascii("|") == [124];
  }

  // ---- The registry as a bijection ---------------------------------------------------

  // Each pair is stored under its own id and carries an address and a denomination.
  ghost predicate KeyedByID(ch: Chain, r: Registry)
  {
    forall id :: id in r.pairs ==> GetID(ch, r.pairs[id]) == id && IsHexAddress(r.pairs[id].erc20Address)
  }

  // Each index entry points at a live pair that carries the entry's key.
  ghost predicate IndexesPointAtPairs(r: Registry)
  {
    && (forall a :: a in r.byErc20 ==> r.byErc20[a] in r.pairs && Contract(r.pairs[r.byErc20[a]]) == a)
    && (forall d :: d in r.byDenom ==> r.byDenom[d] in r.pairs && r.pairs[r.byDenom[d]].denom == d)
  }

  // Each pair is reachable from both indexes.
  ghost predicate PairsAreIndexed(r: Registry)
  {
    forall id :: id in r.pairs ==>
      && Contract(r.pairs[id]) in r.byErc20 && r.byErc20[Contract(r.pairs[id])] == id
      && r.pairs[id].denom in r.byDenom && r.byDenom[r.pairs[id].denom] == id
  }

  ghost predicate Bijective(ch: Chain, r: Registry)
  {
    KeyedByID(ch, r) && IndexesPointAtPairs(r) && PairsAreIndexed(r)
  }

  // No two pairs share a denomination or a contract.
  lemma NoSharing(ch: Chain, r: Registry, i: Bytes, j: Bytes)
    requires Bijective(ch, r) && i in r.pairs && j in r.pairs
    ensures r.pairs[i].denom == r.pairs[j].denom <==> i == j
    ensures Contract(r.pairs[i]) == Contract(r.pairs[j]) <==> i == j
  {
  }

  // The injectivity of address|denom, for pairs with hexadecimal addresses.
  lemma GetIDInjective(ch: Chain, p: TokenPair, q: TokenPair)
    requires ch.Sound() && IsHexAddress(p.erc20Address) && IsHexAddress(q.erc20Address)
    requires GetID(ch, p) == GetID(ch, q)
    ensures p.erc20Address == q.erc20Address && p.denom == q.denom
  {
    NoBarInHexAddress(p.erc20Address);
    NoBarInHexAddress(q.erc20Address);
    BarSeparates(p.erc20Address, p.denom, q.erc20Address, q.denom);
  }

  // A token that names a live pair finds it: by its address text, and by its denomination
  // unless that reads as an address.
  lemma FindsByAddress(ch: Chain, r: Registry, id: Bytes, token: Bytes)
    requires Bijective(ch, r) && id in r.pairs && IsHexAddress(token) && HexToAddress(token) == Contract(r.pairs[id])
    ensures FindID(r, token) == Some(id) && FindPair(r, id) == Some(r.pairs[id])
  {
  }

  lemma FindsByDenom(ch: Chain, r: Registry, id: Bytes)
    requires Bijective(ch, r) && id in r.pairs && !IsHexAddress(r.pairs[id].denom)
    ensures FindID(r, r.pairs[id].denom) == Some(id) && FindPair(r, id) == Some(r.pairs[id])
  {
  }

  lemma InsertFreshKeepsBijection(ch: Chain, r: Registry, p: TokenPair)
    requires Bijective(ch, r) && IsHexAddress(p.erc20Address) && GetID(ch, p) !in r.pairs
    requires Contract(p) !in r.byErc20 && p.denom !in r.byDenom
    ensures Bijective(ch, Insert(ch, r, p))
  {
    hide Contract, IsHexAddress, GetID;
  }

  // Registration keeps the bijection exactly when neither the address nor the denomination is
  // taken, given that the registry does not hold this very pair already.
  lemma InsertKeepsBijectionIff(ch: Chain, r: Registry, p: TokenPair)
    requires Bijective(ch, r) && IsHexAddress(p.erc20Address) && GetID(ch, p) !in r.pairs
    ensures Bijective(ch, Insert(ch, r, p)) <==> Contract(p) !in r.byErc20 && p.denom !in r.byDenom
  {
    hide Contract, IsHexAddress, GetID;
    var r', id := Insert(ch, r, p), GetID(ch, p);
    if Contract(p) in r.byErc20 {
      var other := r.byErc20[Contract(p)];
      assert other in r'.pairs && r'.byErc20[Contract(r'.pairs[other])] != other;
    } else if p.denom in r.byDenom {
      var other := r.byDenom[p.denom];
      assert other in r'.pairs && r'.byDenom[r'.pairs[other].denom] != other;
    } else {
      InsertFreshKeepsBijection(ch, r, p);
    }
  }

  lemma InsertKeepsBijection(ch: Chain, r: Registry, p: TokenPair)
    requires ch.Sound() && Bijective(ch, r) && IsHexAddress(p.erc20Address)
    requires Contract(p) !in r.byErc20 && p.denom !in r.byDenom
    ensures GetID(ch, p) !in r.pairs && Bijective(ch, Insert(ch, r, p))
  {
    if GetID(ch, p) in r.pairs {
      GetIDInjective(ch, p, r.pairs[GetID(ch, p)]);
    }
    InsertFreshKeepsBijection(ch, r, p);
  }

  lemma InsertIndexes(ch: Chain, r: Registry, p: TokenPair)
    ensures Insert(ch, r, p).byErc20.Keys == r.byErc20.Keys + {Contract(p)}
    ensures Insert(ch, r, p).byDenom.Keys == r.byDenom.Keys + {p.denom}
    ensures Insert(ch, r, p).pairs == r.pairs[GetID(ch, p) := p]
  {
    hide Contract, GetID;
  }

  lemma ToggleKeepsBijection(ch: Chain, r: Registry, id: Bytes)
    requires Bijective(ch, r) && id in r.pairs
    ensures Bijective(ch, Toggle(ch, r, r.pairs[id]))
    ensures Toggle(ch, r, r.pairs[id]).pairs == r.pairs[id := r.pairs[id].(enabled := !r.pairs[id].enabled)]
  {
    hide HexToAddress, IsHexAddress;
    var p := r.pairs[id];
    assert GetID(ch, p.(enabled := !p.enabled)) == id;
    assert Contract(p.(enabled := !p.enabled)) == Contract(p);
  }

  // The migrated pair never takes the id of another pair, as its denomination is its own.
  lemma MigratedIDIsFree(ch: Chain, r: Registry, id: Bytes, to: Address, other: Bytes)
    requires ch.Sound() && Bijective(ch, r) && id in r.pairs && other in r.pairs && other != id
    ensures GetID(ch, r.pairs[id].(erc20Address := Text(ch, to))) != other
  {
    var p' := r.pairs[id].(erc20Address := Text(ch, to));
    TextRoundTrip(ch, to);
    NoSharing(ch, r, id, other);
    if GetID(ch, p') == other {
      GetIDInjective(ch, p', r.pairs[other]);
    }
  }

  // Replacing a pair by one with the same denomination and a free or equal address.
  lemma ReplaceKeepsIndexes(r: Registry, r': Registry, id: Bytes, id': Bytes, p': TokenPair)
    requires IndexesPointAtPairs(r) && PairsAreIndexed(r) && id in r.pairs
    requires id' == id || id' !in r.pairs
    requires p'.denom == r.pairs[id].denom
    requires Contract(p') == Contract(r.pairs[id]) || Contract(p') !in r.byErc20
    requires r'.pairs == (r.pairs - {id})[id' := p']
    requires r'.byErc20 == (r.byErc20 - {Contract(r.pairs[id])})[Contract(p') := id']
    requires r'.byDenom == r.byDenom[p'.denom := id']
    ensures IndexesPointAtPairs(r') && PairsAreIndexed(r')
  {
    hide Contract;
    var p := r.pairs[id];
    forall a | a in r'.byErc20
      ensures r'.byErc20[a] in r'.pairs && Contract(r'.pairs[r'.byErc20[a]]) == a
    {
      assert a != Contract(p') ==> r.byErc20[a] != id;
    }
    forall d | d in r'.byDenom
      ensures r'.byDenom[d] in r'.pairs && r'.pairs[r'.byDenom[d]].denom == d
    {
      assert d != p'.denom ==> r.byDenom[d] != id;
    }
  }

  // What migration writes, with its pair and id named.
  lemma MigrateWrites(ch: Chain, r: Registry, id: Bytes, to: Address) returns (p': TokenPair, id': Bytes)
    requires ch.Sound() && Bijective(ch, r) && id in r.pairs
    ensures p' == r.pairs[id].(erc20Address := Text(ch, to)) && id' == GetID(ch, p')
    ensures IsHexAddress(p'.erc20Address) && Contract(p') == to
    ensures id' == id || id' !in r.pairs
    ensures Migrate(ch, r, r.pairs[id], Contract(r.pairs[id]), to) ==
            Registry((r.pairs - {id})[id' := p'], (r.byErc20 - {Contract(r.pairs[id])})[to := id'],
                     r.byDenom[p'.denom := id'])
  {
    p' := r.pairs[id].(erc20Address := Text(ch, to));
    id' := GetID(ch, p');
    TextRoundTrip(ch, to);
    hide Text, IsHexAddress, GetID;
    if id' in r.pairs && id' != id {
      MigratedIDIsFree(ch, r, id, to, id');
    }
  }

  lemma MigrateIndexes(ch: Chain, r: Registry, id: Bytes, to: Address)
    requires ch.Sound() && Bijective(ch, r) && id in r.pairs
    ensures var r' := Migrate(ch, r, r.pairs[id], Contract(r.pairs[id]), to);
            && r'.byErc20.Keys == r.byErc20.Keys - {Contract(r.pairs[id])} + {to}
            && r'.byDenom.Keys == r.byDenom.Keys
  {
    hide Text, HexToAddress, IsHexAddress, GetID, Migrate, Contract;
    var p', id' := MigrateWrites(ch, r, id, to);
    assert r.pairs[id].denom in r.byDenom;
  }

  lemma MigrateKeepsBijection(ch: Chain, r: Registry, id: Bytes, to: Address)
    requires ch.Sound() && Bijective(ch, r) && id in r.pairs
    requires to !in r.byErc20 || to == Contract(r.pairs[id])
    ensures Bijective(ch, Migrate(ch, r, r.pairs[id], Contract(r.pairs[id]), to))
  {
    hide Text, HexToAddress, IsHexAddress, GetID, Migrate, Contract;
    var p', id' := MigrateWrites(ch, r, id, to);
    ReplaceKeepsIndexes(r, Migrate(ch, r, r.pairs[id], Contract(r.pairs[id]), to), id, id', p');
  }

  lemma MigrateOntoTaken(ch: Chain, r: Registry, id: Bytes, to: Address)
    requires ch.Sound() && Bijective(ch, r) && id in r.pairs
    requires to in r.byErc20 && to != Contract(r.pairs[id])
    ensures !Bijective(ch, Migrate(ch, r, r.pairs[id], Contract(r.pairs[id]), to))
  {
    hide Text, HexToAddress, IsHexAddress, GetID, Migrate, Contract;
    var r' := Migrate(ch, r, r.pairs[id], Contract(r.pairs[id]), to);
    var other := r.byErc20[to];
    MigratedIDIsFree(ch, r, id, to, other);
    var p', id' := MigrateWrites(ch, r, id, to);
    assert r'.pairs[other] == r.pairs[other];
    assert other in r'.pairs && r'.byErc20[Contract(r'.pairs[other])] != other;
  }

  // Migration keeps the bijection exactly when the new address is free or is the old one.
  lemma MigrateKeepsBijectionIff(ch: Chain, r: Registry, id: Bytes, to: Address)
    requires ch.Sound() && Bijective(ch, r) && id in r.pairs
    ensures Bijective(ch, Migrate(ch, r, r.pairs[id], Contract(r.pairs[id]), to)) <==>
            to !in r.byErc20 || to == Contract(r.pairs[id])
  {
    hide *;
    if to in r.byErc20 && to != Contract(r.pairs[id]) {
      MigrateOntoTaken(ch, r, id, to);
    } else {
      MigrateKeepsBijection(ch, r, id, to);
    }
  }
}
