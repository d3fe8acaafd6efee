// Import, export and validation of the module's genesis (x/intrarelayer/genesis.go and
// x/intrarelayer/types/genesis.go).
module Genesis {
  import opened Base
  import opened Chains
  import opened Registries
  import opened TokenPairCodec

  // The loop of InitGenesis.
  function Import(ch: Chain, r: Registry, ps: seq<TokenPair>): Registry
    decreases |ps|
  {
    if |ps| == 0 then r else Import(ch, Insert(ch, r, ps[0]), ps[1..])
  }

  // ps lists the stored pairs, each once, in some order.
  ghost predicate Enumerates(ps: seq<TokenPair>, r: Registry)
  {
    && (forall id :: id in r.pairs ==> r.pairs[id] in ps)
    && (forall p :: p in ps ==> exists id :: id in r.pairs && r.pairs[id] == p)
    && (forall i, j :: 0 <= i < j < |ps| ==> ps[i] != ps[j])
  }

  // Every entry of x is an entry of r.
  ghost predicate Within(x: Registry, r: Registry)
  {
    && (forall id :: id in x.pairs ==> id in r.pairs && r.pairs[id] == x.pairs[id])
    && (forall a :: a in x.byErc20 ==> a in r.byErc20 && r.byErc20[a] == x.byErc20[a])
    && (forall d :: d in x.byDenom ==> d in r.byDenom && r.byDenom[d] == x.byDenom[d])
  }

  ghost predicate Stores(ch: Chain, r: Registry, p: TokenPair)
  {
    && GetID(ch, p) in r.pairs && r.pairs[GetID(ch, p)] == p
    && Contract(p) in r.byErc20 && p.denom in r.byDenom
  }

  lemma InsertWithin(ch: Chain, r: Registry, x: Registry, p: TokenPair)
    requires Bijective(ch, r) && Within(x, r) && Stores(ch, r, p)
    ensures Within(Insert(ch, x, p), r) && Within(x, Insert(ch, x, p)) && Stores(ch, Insert(ch, x, p), p)
  {
    StoredIsIndexed(ch, r, p);
    InsertExtends(ch, r, x, p);
    InsertStaysWithin(ch, r, x, p);
    hide Bijective, GetID, Contract, Within;
  }

  lemma InsertStaysWithin(ch: Chain, r: Registry, x: Registry, p: TokenPair)
    requires Within(x, r) && Stores(ch, r, p)
    requires r.byErc20[Contract(p)] == GetID(ch, p) && r.byDenom[p.denom] == GetID(ch, p)
    ensures Within(Insert(ch, x, p), r)
  {
    hide GetID, Contract;
  }

  lemma StoredIsIndexed(ch: Chain, r: Registry, p: TokenPair)
    requires Bijective(ch, r) && Stores(ch, r, p)
    ensures r.byErc20[Contract(p)] == GetID(ch, p) && r.byDenom[p.denom] == GetID(ch, p)
  {
    hide GetID, Contract, IsHexAddress;
  }

  lemma InsertExtends(ch: Chain, r: Registry, x: Registry, p: TokenPair)
    requires Within(x, r) && Stores(ch, r, p)
    requires r.byErc20[Contract(p)] == GetID(ch, p) && r.byDenom[p.denom] == GetID(ch, p)
    ensures Within(x, Insert(ch, x, p))
  {
    hide GetID, Contract;
  }

  lemma {:induction false} ImportWithin(ch: Chain, r: Registry, x: Registry, ps: seq<TokenPair>)
    requires Bijective(ch, r) && Within(x, r) && forall p :: p in ps ==> Stores(ch, r, p)
    ensures Within(Import(ch, x, ps), r) && Within(x, Import(ch, x, ps))
    ensures forall p :: p in ps ==> Stores(ch, Import(ch, x, ps), p)
    decreases |ps|
  {
    hide Insert, Stores, Bijective;
    if |ps| > 0 {
      assert ps[0] in ps;
      InsertWithin(ch, r, x, ps[0]);
      ImportWithin(ch, r, Insert(ch, x, ps[0]), ps[1..]);
      var y := Import(ch, x, ps);
      StoresMonotone(ch, Insert(ch, x, ps[0]), y, ps[0]);
      forall p | p in ps
        ensures Stores(ch, y, p)
      {
        if p != ps[0] {
          assert p in ps[1..];
        }
      }
    }
  }

  lemma StoresMonotone(ch: Chain, x: Registry, y: Registry, p: TokenPair)
    requires Within(x, y) && Stores(ch, x, p)
    ensures Stores(ch, y, p)
  {
    hide GetID, Contract;
  }

  lemma StoredIsStores(ch: Chain, r: Registry, id: Bytes)
    requires Bijective(ch, r) && id in r.pairs
    ensures Stores(ch, r, r.pairs[id]) && GetID(ch, r.pairs[id]) == id
  {
    hide GetID, Contract;
  }

  // Importing the exported pairs, in any order, rebuilds the three maps exactly.
  lemma ExportImportRoundTrip(ch: Chain, r: Registry, ps: seq<TokenPair>)
    requires Bijective(ch, r) && Enumerates(ps, r)
    ensures Import(ch, EMPTY, ps) == r
  {
    hide GetID, Contract, Import;
    forall p | p in ps
      ensures Stores(ch, r, p)
    {
      var id :| id in r.pairs && r.pairs[id] == p;
      StoredIsStores(ch, r, id);
    }
    ImportWithin(ch, r, EMPTY, ps);
    var x := Import(ch, EMPTY, ps);
    forall id | id in r.pairs
      ensures Stores(ch, x, r.pairs[id])
    {
      assert r.pairs[id] in ps;
    }
    hide Within;
    AllStoredWithin(ch, r, x);
    WithinBothWays(x, r);
  }

  lemma AllStoredWithin(ch: Chain, r: Registry, x: Registry)
    requires Bijective(ch, r) && Within(x, r) && forall id :: id in r.pairs ==> Stores(ch, x, r.pairs[id])
    ensures Within(r, x)
  {
    hide GetID, Contract, IsHexAddress;
  }

  lemma WithinBothWays(x: Registry, r: Registry)
    requires Within(x, r) && Within(r, x)
    ensures x == r
  {
    assert x.pairs == r.pairs;
    assert x.byErc20 == r.byErc20;
    assert x.byDenom == r.byDenom;
  }

  // ---- Validation --------------------------------------------------------------------

  ghost predicate DistinctAddresses(ps: seq<TokenPair>)
  {
    forall i, j :: 0 <= i < j < |ps| ==> ps[i].erc20Address != ps[j].erc20Address
  }

  ghost predicate DistinctDenoms(ps: seq<TokenPair>)
  {
    forall i, j :: 0 <= i < j < |ps| ==> ps[i].denom != ps[j].denom
  }

  ghost predicate DistinctContracts(ps: seq<TokenPair>)
  {
    forall i, j :: 0 <= i < j < |ps| ==> Contract(ps[i]) != Contract(ps[j])
  }

  // TokenPair.Validate, with the SDK's denomination syntax as a parameter.
  predicate ValidatePair(validDenom: Bytes -> bool, p: TokenPair)
  {
    validDenom(p.denom) && IsHexAddress(p.erc20Address)
  }

  // What GenesisState.Validate accepts.
  ghost predicate AcceptedPairs(validDenom: Bytes -> bool, ps: seq<TokenPair>)
  {
    && DistinctAddresses(ps) && DistinctDenoms(ps)
    && forall i :: 0 <= i < |ps| ==> ValidatePair(validDenom, ps[i])
  }

  // GenesisState.Validate: the loop over the pairs, then the params.
  method Validate(validDenom: Bytes -> bool, ps: seq<TokenPair>, votingPeriod: int) returns (ok: bool)
    ensures ok <==> AcceptedPairs(validDenom, ps) && votingPeriod > 0
  {
    var seenErc20: set<Bytes>, seenDenom: set<Bytes> := {}, {};
    for i := 0 to |ps|
      invariant forall a :: a in seenErc20 <==> exists j :: 0 <= j < i && ps[j].erc20Address == a
      invariant forall d :: d in seenDenom <==> exists j :: 0 <= j < i && ps[j].denom == d
      invariant AcceptedPairs(validDenom, ps[..i])
    {
      var b := ps[i];
      if b.erc20Address in seenErc20 {
        return false;
      }
      if b.denom in seenDenom {
        return false;
      }
      if !ValidatePair(validDenom, b) {
        return false;
      }
      seenErc20 := seenErc20 + {b.erc20Address};
      seenDenom := seenDenom + {b.denom};
      AcceptOneMore(validDenom, ps, i);
    }
    assert ps[..|ps|] == ps;
    return votingPeriod > 0;
  }

  lemma AcceptOneMore(validDenom: Bytes -> bool, ps: seq<TokenPair>, i: nat)
    requires i < |ps| && AcceptedPairs(validDenom, ps[..i]) && ValidatePair(validDenom, ps[i])
    requires forall j :: 0 <= j < i ==> ps[j].erc20Address != ps[i].erc20Address && ps[j].denom != ps[i].denom
    ensures AcceptedPairs(validDenom, ps[..i + 1])
  {
    assert forall j :: 0 <= j < i ==> ps[..i][j] == ps[j];
  }

  // The exported pairs of a good registry have no duplicate contract or denomination for
  // Validate to reject.
  lemma ExportHasNoDuplicates(ch: Chain, r: Registry, ps: seq<TokenPair>)
    requires Bijective(ch, r) && Enumerates(ps, r)
    ensures DistinctAddresses(ps) && DistinctDenoms(ps) && DistinctContracts(ps)
  {
    hide GetID;
    forall i, j | 0 <= i < j < |ps|
      ensures Contract(ps[i]) != Contract(ps[j]) && ps[i].denom != ps[j].denom
      ensures ps[i].erc20Address != ps[j].erc20Address
    {
      assert ps[i] in ps && ps[j] in ps;
      var x :| x in r.pairs && r.pairs[x] == ps[i];
      var y :| y in r.pairs && r.pairs[y] == ps[j];
      hide Contract;
      NoSharing(ch, r, x, y);
    }
  }

  // Validate accepts the export of a good registry exactly when the SDK accepts its
  // denominations.
  lemma ExportIsAcceptedIff(ch: Chain, validDenom: Bytes -> bool, r: Registry, ps: seq<TokenPair>)
    requires Bijective(ch, r) && Enumerates(ps, r)
    ensures AcceptedPairs(validDenom, ps) <==> forall d :: d in r.byDenom ==> validDenom(d)
  {
    hide GetID, Contract, IsHexAddress;
    ExportHasNoDuplicates(ch, r, ps);
    if AcceptedPairs(validDenom, ps) {
      forall d | d in r.byDenom
        ensures validDenom(d)
      {
        assert r.pairs[r.byDenom[d]] in ps;
      }
    }
    if forall d :: d in r.byDenom ==> validDenom(d) {
      forall i | 0 <= i < |ps|
        ensures ValidatePair(validDenom, ps[i])
      {
        assert ps[i] in ps;
        var id :| id in r.pairs && r.pairs[id] == ps[i];
      }
    }
  }

  // ---- When an import is a bijection -------------------------------------------------

  lemma {:induction false} ImportDistinct(ch: Chain, r: Registry, ps: seq<TokenPair>)
    requires ch.Sound() && Bijective(ch, r) && DistinctContracts(ps) && DistinctDenoms(ps)
    requires forall i :: 0 <= i < |ps| ==>
               IsHexAddress(ps[i].erc20Address) && Contract(ps[i]) !in r.byErc20 && ps[i].denom !in r.byDenom
    ensures Bijective(ch, Import(ch, r, ps))
    decreases |ps|
  {
    hide Bijective, Contract, IsHexAddress, Insert, GetID;
    if |ps| > 0 {
      InsertKeepsBijection(ch, r, ps[0]);
      InsertIndexes(ch, r, ps[0]);
      assert forall i :: 0 <= i < |ps[1..]| ==> ps[1..][i] == ps[i + 1];
      ImportDistinct(ch, Insert(ch, r, ps[0]), ps[1..]);
    }
  }

  // Pairs with distinct ids are all stored.
  lemma {:induction false} ImportStoresAll(ch: Chain, r: Registry, ps: seq<TokenPair>)
    requires forall i, j :: 0 <= i < j < |ps| ==> GetID(ch, ps[i]) != GetID(ch, ps[j])
    ensures forall i :: 0 <= i < |ps| ==>
              GetID(ch, ps[i]) in Import(ch, r, ps).pairs && Import(ch, r, ps).pairs[GetID(ch, ps[i])] == ps[i]
    ensures forall id :: id in r.pairs && (forall i :: 0 <= i < |ps| ==> GetID(ch, ps[i]) != id) ==>
              id in Import(ch, r, ps).pairs && Import(ch, r, ps).pairs[id] == r.pairs[id]
    decreases |ps|
  {
    hide GetID, Contract;
    if |ps| > 0 {
      assert forall i :: 0 <= i < |ps[1..]| ==> ps[1..][i] == ps[i + 1];
      ImportStoresAll(ch, Insert(ch, r, ps[0]), ps[1..]);
    }
  }

  // An accepted genesis builds a bijection exactly when the parsed addresses are distinct,
  // which Validate does not look at.
  lemma ImportIsBijectiveIff(ch: Chain, validDenom: Bytes -> bool, ps: seq<TokenPair>)
    requires ch.Sound() && AcceptedPairs(validDenom, ps)
    ensures Bijective(ch, Import(ch, EMPTY, ps)) <==> DistinctContracts(ps)
  {
    hide GetID, Contract, Import, IsHexAddress;
    if DistinctContracts(ps) {
      ImportDistinct(ch, EMPTY, ps);
    }
    if Bijective(ch, Import(ch, EMPTY, ps)) {
      forall i, j | 0 <= i < j < |ps|
        ensures GetID(ch, ps[i]) != GetID(ch, ps[j])
      {
        if GetID(ch, ps[i]) == GetID(ch, ps[j]) {
          GetIDInjective(ch, ps[i], ps[j]);
        }
      }
      ImportStoresAll(ch, EMPTY, ps);
      hide Bijective;
      forall i, j | 0 <= i < j < |ps|
        ensures Contract(ps[i]) != Contract(ps[j])
      {
        NoSharing(ch, Import(ch, EMPTY, ps), GetID(ch, ps[i]), GetID(ch, ps[j]));
      }
    }
  }

  lemma {:induction false} SameDigitsSameValue(s: Bytes, t: Bytes)
    requires IsHex(s) && IsHex(t) && |s| == |t|
    requires forall i :: 0 <= i < |s| ==> DigitValue(s[i]) == DigitValue(t[i])
    ensures Value(s) == Value(t)
  {
    if |s| > 0 {
      SameDigitsSameValue(s[..|s| - 1], t[..|t| - 1]);
    }
  }

  // The same 40 digits in two cases.
  const LOWER: Bytes := [48, 120] + seq(40, i => 97)
  const UPPER: Bytes := [48, 120] + seq(40, i => 65)

  lemma CaseVariantsAreOneContract()
    ensures IsHexAddress(LOWER) && IsHexAddress(UPPER) && LOWER != UPPER
    ensures HexToAddress(LOWER) == HexToAddress(UPPER)
  {
    var a: Bytes, b: Bytes := seq(40, i => 97), seq(40, i => 65);
    assert LOWER[2] == 97 && UPPER[2] == 65;
    assert Strip(LOWER) == a && Strip(UPPER) == b;
    hide Value, Pairs, Strip;
    PairsOfHex(a);
    PairsOfHex(b);
    SameDigitsSameValue(a, b);
  }

  // Such a genesis: two pairs whose addresses differ in case only.
  lemma CaseVariantsPassValidation(ch: Chain, validDenom: Bytes -> bool, d: Bytes, e: Bytes)
    requires ch.Sound() && validDenom(d) && validDenom(e) && d != e
    ensures var ps := [TokenPair(LOWER, d, true, OWNER_EXTERNAL), TokenPair(UPPER, e, true, OWNER_EXTERNAL)];
            AcceptedPairs(validDenom, ps) && !Bijective(ch, Import(ch, EMPTY, ps))
  {
    CaseVariantsAreOneContract();
    hide HexToAddress, IsHexAddress, Bijective, Import;
    var ps := [TokenPair(LOWER, d, true, OWNER_EXTERNAL), TokenPair(UPPER, e, true, OWNER_EXTERNAL)];
    assert Contract(ps[0]) == Contract(ps[1]);
    ImportIsBijectiveIff(ch, validDenom, ps);
  }
}
