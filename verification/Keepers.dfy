// The module's keeper: the store of x/intrarelayer/keeper/token_pairs.go, where pairs are kept
// as marshalled bytes, the params, and the two ledgers that it reaches through other keepers.
module Keepers {
  import opened Base
  import opened Chains
  import opened Ledgers
  import opened Registries
  import opened TokenPairCodec
  import GenesisCodec
  import opened States
  import Varint
  import Genesis

  // No string is longer, so that a Go slice has room for a pair's encoding.
  const MAX_STRING := 0x2000_0000_0000_0000

  predicate Storable(p: TokenPair)
  {
    |p.erc20Address| <= MAX_STRING && |p.denom| <= MAX_STRING
  }

  // bz is what Marshal writes for a pair.
  ghost predicate Marshalled(bz: Bytes)
  {
    && |bz| <= MAX_INT && Decoding(bz).Some?
    && Storable(Decoding(bz).value) && bz == Encoding(Decoding(bz).value)
  }

  lemma StorableFits(p: TokenPair)
    requires Storable(p)
    ensures Fits(p)
  {
    hide Varint.Sov;
    Varint.SovRange(|p.erc20Address|);
    Varint.SovRange(|p.denom|);
    Varint.SovRange(SignExtend(p.contractOwner));
  }

  // What Marshal writes reads back as the same pair, and only the zero pair is no bytes.
  lemma MarshalledPair(p: TokenPair)
    requires Storable(p)
    ensures Fits(p) && Marshalled(Encoding(p)) && Decoding(Encoding(p)) == Some(p)
    ensures |Encoding(p)| == 0 <==> p == ZERO
  {
    StorableFits(p);
    RoundTrip(p);
    SizeIsLength(p);
    hide Encoding, Decoding, Size;
  }

  // ---- The order of the store's keys -------------------------------------------------

  predicate Precedes(a: Bytes, b: Bytes)
    decreases |a|
  {
    |b| > 0 && (|a| == 0 || a[0] < b[0] || (a[0] == b[0] && Precedes(a[1..], b[1..])))
  }

  lemma {:induction false} PrecedesIsTotal(a: Bytes, b: Bytes)
    ensures a == b || Precedes(a, b) || Precedes(b, a)
    decreases |a|
  {
    if |a| > 0 && |b| > 0 && a[0] == b[0] {
      PrecedesIsTotal(a[1..], b[1..]);
      assert a == [a[0]] + a[1..] && b == [b[0]] + b[1..];
    }
  }

  lemma {:induction false} PrecedesIsStrict(a: Bytes, b: Bytes, c: Bytes)
    ensures !Precedes(a, a)
    ensures Precedes(a, b) && Precedes(b, c) ==> Precedes(a, c)
    decreases |a|
  {
    if |a| > 0 {
      PrecedesIsStrict(a[1..], if |b| > 0 then b[1..] else [], if |c| > 0 then c[1..] else []);
    }
  }

  predicate IsFirst(key: Bytes, keys: set<Bytes>)
  {
    key in keys && forall k :: k in keys && k != key ==> Precedes(key, k)
  }

  lemma FirstExists(keys: set<Bytes>) returns (first: Bytes)
    requires keys != {}
    ensures IsFirst(first, keys)
    decreases |keys|
  {
    var key :| key in keys;
    first := key;
    var rest := keys - {key};
    if rest != {} {
      var other := FirstExists(rest);
      PrecedesIsTotal(key, other);
      if Precedes(other, key) {
        first := other;
      } else {
        forall k | k in keys && k != key
          ensures Precedes(key, k)
        {
          PrecedesIsStrict(key, other, k);
        }
      }
    }
  }

  // The next key of an iteration.
  method First(keys: set<Bytes>) returns (first: Bytes)
    requires keys != {}
    ensures first in keys && forall k :: k in keys && k != first ==> Precedes(first, k)
  {
    hide Precedes;
    ghost var key := FirstExists(keys);
    first :| first in keys && forall k :: k in keys && k != first ==> Precedes(first, k);
  }

  class Keeper {
    const ch: Chain
    var tokenPairs: map<Bytes, Bytes>
    var byErc20: map<Address, Bytes>
    var byDenom: map<Bytes, Bytes>
    var params: GenesisCodec.Params
    var bank: Bank
    var evm: Evm

    // Each pair is stored under its own id.
    ghost predicate Valid()
      reads this`tokenPairs
    {
      forall id :: id in tokenPairs ==> Marshalled(tokenPairs[id]) && GetID(ch, Decoding(tokenPairs[id]).value) == id
    }

    ghost function Pairs(): map<Bytes, TokenPair>
      reads this`tokenPairs
      requires Valid()
    {
      map id | id in tokenPairs :: Decoding(tokenPairs[id]).value
    }

    // The state of the bridge that the fields stand for.
    ghost function View(): State
      reads this
      requires Valid()
    {
      State(Registry(Pairs(), byErc20, byDenom), params, bank, evm)
    }

    constructor (ch: Chain, params: GenesisCodec.Params, bank: Bank, evm: Evm)
      ensures Valid() && View() == State(EMPTY, params, bank, evm) && this.ch == ch
    {
      this.ch, this.params, this.bank, this.evm := ch, params, bank, evm;
      this.tokenPairs, this.byErc20, this.byDenom := map[], map[], map[];
    }

    // ---- Token pairs -----------------------------------------------------------------

    method GetTokenPair(id: Option<Bytes>) returns (pair: TokenPair, found: bool)
      requires Valid()
      ensures found <==> id.Some? && FindPair(View().reg, id.value).Some?
      ensures found ==> pair == FindPair(View().reg, id.value).value && Storable(pair)
    {
      hide Decoding, Encoding, Marshalled, GetID;
      if id.None? || id.value !in tokenPairs {
        return ZERO, false;
      }
      var bz := tokenPairs[id.value];
      MarshalledMeans(bz);
      if |bz| == 0 {
        return ZERO, false;
      }
      var p := Unmarshal(bz);
      return p.value, true;
    }

    method SetTokenPair(pair: TokenPair)
      requires Valid() && Storable(pair)
      modifies this`tokenPairs
      ensures Valid() && Pairs() == old(Pairs())[GetID(ch, pair) := pair]
    {
      hide Decoding, Encoding, Marshalled, GetID;
      MarshalledPair(pair);
      var bz := Marshal(pair);
      tokenPairs := tokenPairs[GetID(ch, pair) := bz[..]];
    }

    method DeleteTokenPair(pair: TokenPair)
      requires Valid()
      modifies this`tokenPairs
      ensures Valid() && Pairs() == old(Pairs()) - {GetID(ch, pair)}
    {
      hide Decoding, Marshalled, GetID;
      tokenPairs := tokenPairs - {GetID(ch, pair)};
    }

    // All stored pairs, each once, in the order of their keys.
    method GetAllTokenPairs() returns (pairs: seq<TokenPair>)
      requires Valid()
      ensures Genesis.Enumerates(pairs, View().reg)
      ensures forall i, j :: 0 <= i < j < |pairs| ==> Precedes(GetID(ch, pairs[i]), GetID(ch, pairs[j]))
    {
      hide Decoding, Encoding, GetID, Storable, Precedes;
      pairs := [];
      var rest := tokenPairs.Keys;
      while rest != {}
        invariant rest <= tokenPairs.Keys
        invariant forall id :: id in Pairs() && id !in rest ==> Pairs()[id] in pairs
        invariant forall i :: 0 <= i < |pairs| ==> Lists(pairs[i], rest)
        invariant forall i, j :: 0 <= i < j < |pairs| ==>
                    pairs[i] != pairs[j] && Precedes(GetID(ch, pairs[i]), GetID(ch, pairs[j]))
        decreases |rest|
      {
        var id := First(rest);
        var p := Unmarshal(tokenPairs[id]);
        pairs := pairs + [p.value];
        rest := rest - {id};
      }
    }

    // p is stored, under an id before all that are still to come.
    ghost predicate Lists(p: TokenPair, rest: set<Bytes>)
      reads this`tokenPairs
      requires Valid()
    {
      && GetID(ch, p) in Pairs() && Pairs()[GetID(ch, p)] == p
      && GetID(ch, p) !in rest && forall id :: id in rest ==> Precedes(GetID(ch, p), id)
    }

    // ---- Indexes ---------------------------------------------------------------------

    function GetERC20Map(erc20: Address): Option<Bytes>
      reads this
    {
      if erc20 in byErc20 then Some(byErc20[erc20]) else None
    }

    function GetDenomMap(denom: Bytes): Option<Bytes>
      reads this
    {
      if denom in byDenom then Some(byDenom[denom]) else None
    }

    method SetERC20Map(erc20: Address, id: Bytes)
      modifies this`byErc20
      ensures byErc20 == old(byErc20)[erc20 := id]
    {
      byErc20 := byErc20[erc20 := id];
    }

    method DeleteERC20Map(erc20: Address)
      modifies this`byErc20
      ensures byErc20 == old(byErc20) - {erc20}
    {
      byErc20 := byErc20 - {erc20};
    }

    method SetDenomMap(denom: Bytes, id: Bytes)
      modifies this`byDenom
      ensures byDenom == old(byDenom)[denom := id]
    {
      byDenom := byDenom[denom := id];
    }

    predicate IsERC20Registered(erc20: Address)
      reads this
    {
      erc20 in byErc20
    }

    predicate IsDenomRegistered(denom: Bytes)
      reads this
    {
      denom in byDenom
    }

    // The id of the pair that a token names, by address or by denomination.
    function GetTokenPairID(token: Bytes): (id: Option<Bytes>)
      reads this
      requires Valid()
      ensures id == FindID(View().reg, token)
    {
      if IsHexAddress(token) then GetERC20Map(HexToAddress(token)) else GetDenomMap(token)
    }

    // The writes of a registration, and of each round of InitGenesis.
    method Store(pair: TokenPair, contract: Address)
      requires Valid() && Storable(pair) && contract == Contract(pair)
      modifies this`tokenPairs, this`byDenom, this`byErc20
      ensures Valid() && View() == old(View()).(reg := Insert(ch, old(View()).reg, pair))
    {
      hide GetID, HexToAddress, Marshalled, Decoding;
      SetTokenPair(pair);
      SetDenomMap(pair.denom, GetID(ch, pair));
      SetERC20Map(contract, GetID(ch, pair));
    }

    // ---- Calls into the virtual machine ----------------------------------------------

    // CallEVMWithPayload on a contract. The message applies to the contract's state, and then
    // the nonce is set, also when the execution failed.
    method CallEVM(from: Address, contract: Address, call: Call, v: Verdict) returns (r: Result<Option<bool>, Error>)
      modifies this`evm
      ensures r == Ledgers.CallEVM(ch, old(evm), from, contract, call, v).outcome
      ensures evm == Ledgers.CallEVM(ch, old(evm), from, contract, call, v).evm
    {
      hide Execute;
      var nonce := evm.Nonce(from);
      if v.Refused? || nonce >= MAX_NONCE {
        return Err(CallFailed);
      }
      r := Ok(None);
      if v.Reverted? {
        r := Err(CallFailed);
      } else if contract in evm.tokens {
        var reply := Execute(ch, evm.tokens[contract], from, call, v.accept);
        if reply.None? {
          r := Err(CallFailed);
        } else {
          r := Ok(reply.value.ret);
          evm := evm.SetTokens(contract, reply.value.ledger);
        }
      }
      evm := evm.(nonces := evm.nonces[from := nonce + 1]);
    }

    // A read of a contract, which needs code there to return data.
    method Read(contract: Address, v: Verdict) returns (ok: bool)
      modifies this`evm
      ensures ok <==> Ledgers.Read(ch, old(evm), contract, v).Some?
      ensures ok ==> evm == Ledgers.Read(ch, old(evm), contract, v).value
    {
      var nonce := evm.Nonce(ch.moduleAddress);
      if !v.Ran? || nonce >= MAX_NONCE || contract !in evm.tokens {
        return false;
      }
      evm := evm.(nonces := evm.nonces[ch.moduleAddress := nonce + 1]);
      return true;
    }

    method QueryERC20(contract: Address, q: Query) returns (r: Option<ERC20Data>)
      modifies this`evm
      ensures r.Some? <==> Ledgers.QueryERC20(ch, old(evm), contract, q).Some?
      ensures r.Some? ==> Ledgers.QueryERC20(ch, old(evm), contract, q).value == (evm, r.value)
    {
      var ok := Read(contract, q.name);
      if !ok {
        return None;
      }
      ok := Read(contract, q.symbol);
      if !ok {
        return None;
      }
      ok := Read(contract, q.decimals);
      if !ok {
        return None;
      }
      return Some(evm.tokens[contract].data);
    }

    // DeployERC20Contract: the address is computed from the nonce before the creation uses it.
    method DeployERC20Contract(name: Bytes, symbol: Bytes, v: Verdict) returns (r: Option<Address>)
      modifies this`evm
      ensures var d := Deploy(ch, old(evm), ERC20Data(name, symbol, DEFAULT_DECIMALS), v);
              && (r.Some? <==> d.Some?)
              && (r.Some? ==> d.value == (evm, r.value))
    {
      var nonce := evm.Nonce(ch.moduleAddress);
      var contractAddr := ch.create(nonce);
      if !v.Ran? || nonce >= MAX_NONCE || contractAddr in evm.tokens {
        return None;
      }
      var token := Token(multiset{}, ERC20Data(name, symbol, DEFAULT_DECIMALS), true);
      evm := Evm(evm.tokens[contractAddr := token], evm.nonces[ch.moduleAddress := nonce + 1]);
      return Some(contractAddr);
    }
  }

  lemma MarshalledMeans(bz: Bytes)
    requires Marshalled(bz)
    ensures |bz| <= MAX_INT && Decoding(bz).Some? && Storable(Decoding(bz).value)
    ensures |bz| == 0 <==> Decoding(bz).value == ZERO
  {
    SizeIsLength(Decoding(bz).value);
    hide Encoding, Decoding;
  }
}
