// The two ledgers that the bridge moves value between: the bank keeper, reduced to the
// interface of x/intrarelayer/types/interfaces.go, and the ERC20 contracts behind
// CallEVMWithPayload (x/intrarelayer/keeper/evm.go).
module Ledgers {
  import opened Base
  import opened Chains

  // One asset: an account occurs once for each unit that it holds, so that the balance of a
  // is l[a] and the supply is |l|.
  type Ledger = multiset<Address>

  function Credit(l: Ledger, a: Address, n: nat): (r: Ledger)
    ensures |r| == |l| + n
  {
    l[a := l[a] + n]
  }

  function Debit(l: Ledger, a: Address, n: nat): (r: Ledger)
    requires n <= l[a]
    ensures |r| == |l| - n
  {
    l[a := l[a] - n]
  }

  function Move(l: Ledger, from: Address, to: Address, n: nat): (r: Ledger)
    requires n <= l[from]
    ensures |r| == |l|
  {
    Credit(Debit(l, from, n), to, n)
  }

  // What accounts other than a hold.
  function Outside(l: Ledger, a: Address): nat
  {
    |l| - l[a]
  }

  // ---- Bank --------------------------------------------------------------------------

  datatype Error =
    | BridgeDisabled | NotRegistered | PairNotFound | PairDisabled | BlockedReceiver | SendDisabled
    | InsufficientFunds | CallFailed | NoBoolReturned | TransferFailed | UndefinedOwner
    | AlreadyRegistered | MetadataMismatch | DeployFailed | QueryFailed | InvalidMetadata | MetadataNotFound
    | EmptyDenomUnits | DetailsMismatch | ExponentMismatch | UnitNotFound | HookDisabled | OpFailed

  datatype DenomUnit = DenomUnit(denom: Bytes, exponent: nat)

  // Coin metadata whose denomination units are of type U: values in the store, pointers in
  // memory.
  datatype Metadata<+U> = Metadata(base: Bytes, name: Bytes, symbol: Bytes, display: Bytes, description: Bytes,
                                   units: seq<U>)

  datatype Bank = Bank(coins: map<Bytes, Ledger>, metadata: map<Bytes, Metadata<DenomUnit>>,
                       blocked: set<Address>, sendDisabled: set<Bytes>)
  {
    function Coins(denom: Bytes): Ledger
    {
      if denom in coins then coins[denom] else multiset{}
    }

    function SetCoins(denom: Bytes, l: Ledger): Bank
    {
      this.(coins := coins[denom := l])
    }

    function Send(from: Address, to: Address, denom: Bytes, n: nat): Result<Bank, Error>
    {
      if Coins(denom)[from] < n then Err(InsufficientFunds)
      else Ok(SetCoins(denom, Move(Coins(denom), from, to, n)))
    }

    // SendCoinsFromModuleToAccount.
    function SendFromModule(ch: Chain, to: Address, denom: Bytes, n: nat): Result<Bank, Error>
    {
      if to in blocked then Err(BlockedReceiver) else Send(ch.moduleAddress, to, denom, n)
    }

    // MintCoins.
    function Mint(ch: Chain, denom: Bytes, n: nat): Bank
    {
      SetCoins(denom, Credit(Coins(denom), ch.moduleAddress, n))
    }

    // BurnCoins.
    function Burn(ch: Chain, denom: Bytes, n: nat): Result<Bank, Error>
    {
      if Coins(denom)[ch.moduleAddress] < n then Err(InsufficientFunds)
      else Ok(SetCoins(denom, Debit(Coins(denom), ch.moduleAddress, n)))
    }

    // SetDenomMetaData.
    function SetMetadata(m: Metadata<DenomUnit>): Bank
    {
      this.(metadata := metadata[m.base := m])
    }
  }

  // ---- ERC20 contracts ---------------------------------------------------------------

  datatype ERC20Data = ERC20Data(name: Bytes, symbol: Bytes, decimals: byte)

  // An honest ERC20 contract. The bridge deployed it when owned, and then only the module
  // account may mint and burn the tokens of others.
  datatype Token = Token(ledger: Ledger, data: ERC20Data, owned: bool)

  datatype Evm = Evm(tokens: map<Address, Token>, nonces: map<Address, nat>)
  {
    function Nonce(a: Address): nat
    {
      if a in nonces then nonces[a] else 0
    }

    function Tokens(c: Address): Ledger
    {
      if c in tokens then tokens[c].ledger else multiset{}
    }

    function SetTokens(c: Address, l: Ledger): Evm
      requires c in tokens
    {
      this.(tokens := tokens[c := tokens[c].(ledger := l)])
    }

    function Bump(a: Address): Evm
    {
      this.(nonces := nonces[a := Nonce(a) + 1])
    }
  }

  // What the virtual machine does with one message, beyond what the contract decides:
  // ApplyMessage fails, the execution reverts for its own reasons (gas, a paused contract), or
  // it runs and the contract answers accept to a transfer.
  datatype Verdict = Refused | Reverted | Ran(accept: bool)

  datatype Call =
    | Transfer(to: Address, n: nat)
    | Mint(to: Address, n: nat)
    | Burn(n: nat)
    | BurnCoins(holder: Address, n: nat)

  datatype Reply = Reply(ledger: Ledger, ret: Option<bool>)

  // An honest contract's own answer, None for a revert.
  function Execute(ch: Chain, t: Token, from: Address, call: Call, accept: bool): Option<Reply>
  {
    match call
    case Transfer(to, n) =>
      if !accept then Some(Reply(t.ledger, Some(false)))
      else if t.ledger[from] < n then None
      else Some(Reply(Move(t.ledger, from, to, n), Some(true)))
    case Mint(to, n) =>
      if !t.owned || from != ch.moduleAddress then None else Some(Reply(Credit(t.ledger, to, n), None))
    case Burn(n) =>
      if t.ledger[from] < n then None else Some(Reply(Debit(t.ledger, from, n), None))
    case BurnCoins(holder, n) =>
      if !t.owned || from != ch.moduleAddress || t.ledger[holder] < n then None
      else Some(Reply(Debit(t.ledger, holder, n), None))
  }

  // The state after a call and the data returned, None for empty data.
  datatype Called = Called(evm: Evm, outcome: Result<Option<bool>, Error>)

  // CallEVMWithPayload: the nonce stays when ApplyMessage fails, and advances when the
  // execution reverts. A call to an address without code succeeds and returns no data.
  function CallEVM(ch: Chain, evm: Evm, from: Address, contract: Address, call: Call, v: Verdict): Called
  {
    if v.Refused? || evm.Nonce(from) >= MAX_NONCE then Called(evm, Err(CallFailed))
    else
      var evm := evm.Bump(from);
      if v.Reverted? then Called(evm, Err(CallFailed))
      else if contract !in evm.tokens then Called(evm, Ok(None))
      else
        match Execute(ch, evm.tokens[contract], from, call, v.accept)
        case None => Called(evm, Err(CallFailed))
        case Some(reply) => Called(evm.SetTokens(contract, reply.ledger), Ok(reply.ret))
  }

  // Whatever the outcome, a call touches one contract's ledger and one nonce, and only a
  // success touches the ledger.
  lemma CallFrame(ch: Chain, evm: Evm, from: Address, c: Address, call: Call, v: Verdict)
    ensures var called := CallEVM(ch, evm, from, c, call, v);
            && called.evm.tokens.Keys == evm.tokens.Keys
            && (called.outcome.Err? ==> called.evm.tokens == evm.tokens)
            && (forall d :: d in evm.tokens && d != c ==> called.evm.tokens[d] == evm.tokens[d])
            && (forall a :: called.evm.Nonce(a) ==
                  evm.Nonce(a) + if a == from && !v.Refused? && evm.Nonce(a) < MAX_NONCE then 1 else 0)
  {
    hide Execute;
  }

  // A successful call on a contract with code runs it.
  lemma CallRuns(ch: Chain, evm: Evm, from: Address, c: Address, call: Call, v: Verdict)
    requires CallEVM(ch, evm, from, c, call, v).outcome.Ok? && c in evm.tokens
    ensures var evm', reply := CallEVM(ch, evm, from, c, call, v).evm,
                Execute(ch, evm.tokens[c], from, call, v.Ran? && v.accept);
            && reply.Some?
            && evm'.tokens == evm.tokens[c := evm.tokens[c].(ledger := reply.value.ledger)]
            && evm'.Nonce(from) == evm.Nonce(from) + 1
            && CallEVM(ch, evm, from, c, call, v).outcome.value == reply.value.ret
  {
  }

  // The three calls of QueryERC20, each with its verdict.
  datatype Query = Query(name: Verdict, symbol: Verdict, decimals: Verdict)

  // One read of a contract from the module account: None when the call fails or when its data
  // does not unpack, which is the case for an address without code.
  function Read(ch: Chain, evm: Evm, contract: Address, v: Verdict): Option<Evm>
  {
    var from := ch.moduleAddress;
    if !v.Ran? || evm.Nonce(from) >= MAX_NONCE || contract !in evm.tokens then None else Some(evm.Bump(from))
  }

  function QueryERC20(ch: Chain, evm: Evm, contract: Address, q: Query): Option<(Evm, ERC20Data)>
  {
    var evm :- Read(ch, evm, contract, q.name);
    var evm :- Read(ch, evm, contract, q.symbol);
    var evm :- Read(ch, evm, contract, q.decimals);
    Some((evm, evm.tokens[contract].data))
  }

  lemma QueryNeedsCode(ch: Chain, evm: Evm, contract: Address, q: Query)
    requires QueryERC20(ch, evm, contract, q).Some?
    ensures contract in evm.tokens
    ensures var evm' := QueryERC20(ch, evm, contract, q).value.0;
            && evm'.tokens == evm.tokens
            && evm'.Nonce(ch.moduleAddress) == evm.Nonce(ch.moduleAddress) + 3 <= MAX_NONCE
  {
  }

  // Decimals of a contract that the module deploys.
  const DEFAULT_DECIMALS: byte := 18

  // Contract creation by the module: the new contract is an empty token at the address of the
  // nonce. Creation where code exists fails.
  function Deploy(ch: Chain, evm: Evm, data: ERC20Data, v: Verdict): Option<(Evm, Address)>
  {
    var from := ch.moduleAddress;
    var nonce := evm.Nonce(from);
    var contract := ch.create(nonce);
    if !v.Ran? || nonce >= MAX_NONCE || contract in evm.tokens then None
    else
      var evm := evm.Bump(from);
      Some((evm.(tokens := evm.tokens[contract := Token(multiset{}, data, true)]), contract))
  }

  // ---- Facts about ledgers -----------------------------------------------------------

  lemma BalanceWithinSupply(l: Ledger, a: Address)
    ensures l[a] <= |l|
  {
    assert |l[a := 0]| == |l| - l[a];
  }
}
