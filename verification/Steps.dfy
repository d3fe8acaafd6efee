// Runs of the bridge: its own messages and proposals, interleaved with what users and other
// modules do to the two ledgers.
module Steps {
  import opened Base
  import opened Chains
  import opened Ledgers
  import opened Registries
  import opened TokenPairCodec
  import opened GenesisCodec
  import opened States
  import opened Conversions
  import opened Governance
  import opened Hook

  // What a user's transaction does with ERC20 contracts, and any other log it emits.
  datatype TokenOp =
    | UserTransfer(contract: Address, from: Address, to: Address, n: nat)
    | UserMint(contract: Address, to: Address, n: nat)
    | UserBurn(contract: Address, from: Address, n: nat)
    | EmitLog(log: Log)

  datatype Step =
    | StepConvertCoin(coinMsg: MsgConvertCoin, v: Verdict)
    | StepConvertERC20(tokenMsg: MsgConvertERC20, v: Verdict)
    | StepRegisterCoin(meta: Metadata<DenomUnit>, v: Verdict)
    | StepRegisterERC20(contract: Address, q: Query, valid: bool)
    | StepToggle(token: Bytes)
    | StepUpdate(oldAddr: Address, newAddr: Address, q: Query)
    | StepParams(params: Params)
    | StepEthTx(ops: seq<TokenOp>, vs: seq<Verdict>, hooked: bool)
    | StepDeploy(at: Address, deployed: Token)
    | StepBankSend(from: Address, to: Address, denom: Bytes, n: nat)
    | StepBankMint(to: Address, denom: Bytes, n: nat)
    | StepBankBurn(from: Address, denom: Bytes, n: nat)
    | StepSendDisabled(denoms: set<Bytes>)

  // The log that EIP-20 asks for.
  function TransferLog(ch: Chain, contract: Address, from: Address, to: Address, n: nat): Log
  {
    Log(contract, [ch.transferTopic, from, to], Some([Number(n)]))
  }

  function RunOp(ch: Chain, evm: Evm, op: TokenOp): Option<(Evm, Log)>
  {
    match op
    case UserTransfer(c, from, to, n) =>
      if c !in evm.tokens || evm.Tokens(c)[from] < n then None
      else Some((evm.SetTokens(c, Move(evm.Tokens(c), from, to, n)), TransferLog(ch, c, from, to, n)))
    case UserMint(c, to, n) =>
      if c !in evm.tokens then None
      else Some((evm.SetTokens(c, Credit(evm.Tokens(c), to, n)), TransferLog(ch, c, 0, to, n)))
    case UserBurn(c, from, n) =>
      if c !in evm.tokens || evm.Tokens(c)[from] < n then None
      else Some((evm.SetTokens(c, Debit(evm.Tokens(c), from, n)), TransferLog(ch, c, from, 0, n)))
    case EmitLog(log) => Some((evm, log))
  }

  function RunOps(ch: Chain, evm: Evm, ops: seq<TokenOp>): Option<(Evm, seq<Log>)>
    ensures RunOps(ch, evm, ops).Some? ==> |RunOps(ch, evm, ops).value.1| == |ops|
    decreases |ops|
  {
    if |ops| == 0 then Some((evm, []))
    else
      var first :- RunOp(ch, evm, ops[0]);
      var rest :- RunOps(ch, first.0, ops[1..]);
      Some((rest.0, [first.1] + rest.1))
  }

  // A user transaction. When the hook is wired in, an error of the hook reverts it.
  function EthTx(ch: Chain, s: State, ops: seq<TokenOp>, vs: seq<Verdict>, hooked: bool): Result<State, Error>
  {
    var ran := RunOps(ch, s.evm, ops);
    if ran.None? then Err(OpFailed)
    else
      var s := s.(evm := ran.value.0);
      if !hooked then Ok(s)
      else if |vs| != |ran.value.1| then Err(OpFailed)
      else
        var o := PostTxProcessing(ch, s, ran.value.1, vs);
        if o.aborted then Err(HookDisabled) else Ok(o.state)
  }

  function Try(ch: Chain, s: State, step: Step): Result<State, Error>
  {
    match step
    case StepConvertCoin(msg, v) => ConvertCoin(ch, s, msg, v)
    case StepConvertERC20(msg, v) => ConvertERC20(ch, s, msg, v)
    case StepRegisterCoin(meta, v) => RegisterCoin(ch, s, meta, v)
    case StepRegisterERC20(contract, q, valid) => RegisterERC20(ch, s, contract, q, valid)
    case StepToggle(token) => ToggleRelay(ch, s, token)
    case StepUpdate(oldAddr, newAddr, q) => UpdateTokenPairERC20(ch, s, oldAddr, newAddr, q)
    case StepParams(params) => Ok(s.(params := params))
    case StepEthTx(ops, vs, hooked) => EthTx(ch, s, ops, vs, hooked)
    case StepDeploy(at, token) => Ok(s.(evm := s.evm.(tokens := s.evm.tokens[at := token])))
    case StepBankSend(from, to, denom, n) =>
      var bank :- s.bank.Send(from, to, denom, n);
      Ok(s.(bank := bank))
    case StepBankMint(to, denom, n) =>
      Ok(s.(bank := s.bank.SetCoins(denom, Credit(s.bank.Coins(denom), to, n))))
    case StepBankBurn(from, denom, n) =>
      if s.bank.Coins(denom)[from] < n then Err(InsufficientFunds)
      else Ok(s.(bank := s.bank.SetCoins(denom, Debit(s.bank.Coins(denom), from, n))))
    case StepSendDisabled(denoms) => Ok(s.(bank := s.bank.(sendDisabled := denoms)))
  }

  // A step that fails is rolled back.
  function Next(ch: Chain, s: State, step: Step): State
  {
    var r := Try(ch, s, step);
    if r.Ok? then r.value else s
  }

  // ---- What the steps are assumed to be ----------------------------------------------

  const SLASH: byte := 47

  // validateIBC accepts a base denomination without a slash, or one under ibc/.
  predicate ValidateIBCBase(base: Bytes)
  {
    SLASH !in base || Ascii("ibc/") <= base
  }

  // What RegisterCoinProposal.ValidateBasic makes sure of.
  predicate ValidCoinProposal(meta: Metadata<DenomUnit>)
  {
    |meta.units| > 0 && ValidateIBCBase(meta.base)
  }

  lemma ValidBaseIsNoVoucher(base: Bytes)
    requires ValidateIBCBase(base)
    ensures !IsVoucher(base)
  {
    var prefix := Ascii("intrarelayer/");
    assert prefix[12] == SLASH && prefix[1] == 110 && Ascii("ibc/")[1] == 98;
  }

  // Nobody signs for the module account, and only the module mints in its own contracts. Other
  // logs come from addresses without a token, or are no transfers.
  ghost predicate HonestOp(ch: Chain, evm: Evm, op: TokenOp)
  {
    match op
    case UserTransfer(c, from, to, n) => from != ch.moduleAddress
    case UserMint(c, to, n) => c in evm.tokens ==> !evm.tokens[c].owned
    case UserBurn(c, from, n) => from != ch.moduleAddress
    case EmitLog(log) => log.address !in evm.tokens || Amount(ch, log) == 0
  }

  // The assumptions under which the registry stays a bijection.
  ghost predicate Proper(ch: Chain, s: State, step: Step)
  {
    match step
    case StepRegisterCoin(meta, v) => ValidCoinProposal(meta)
    case StepUpdate(oldAddr, newAddr, q) => newAddr !in s.reg.byErc20 || newAddr == oldAddr
    case StepDeploy(at, token) =>
      at !in s.evm.tokens && !token.owned && forall n: nat :: n < TWO_64 ==> ch.create(n) != at
    case _ => true
  }

  // ---- The state invariant -----------------------------------------------------------

  // Registered contracts have code, and code at a create address of the module lies below its
  // nonce.
  ghost predicate Fresh(ch: Chain, s: State)
  {
    && (forall c :: c in s.reg.byErc20 ==> c in s.evm.tokens)
    && (forall n: nat :: n < TWO_64 && ch.create(n) in s.evm.tokens ==> n < s.evm.Nonce(ch.moduleAddress))
    && s.evm.Nonce(ch.moduleAddress) <= MAX_NONCE
  }

  // Registered denominations have metadata with units, and metadata is kept under its base.
  ghost predicate Described(s: State)
  {
    && (forall d :: d in s.reg.byDenom ==> d in s.bank.metadata && |s.bank.metadata[d].units| > 0)
    && (forall d :: d in s.bank.metadata ==> s.bank.metadata[d].base == d)
  }

  ghost predicate Core(ch: Chain, s: State)
  {
    Bijective(ch, s.reg) && Fresh(ch, s) && Described(s) && ch.moduleAddress in s.bank.blocked
  }

  // The same contracts, with nonces that did not go down.
  ghost predicate Continues(ch: Chain, s: State, s': State)
  {
    && s'.evm.tokens.Keys == s.evm.tokens.Keys
    && s.evm.Nonce(ch.moduleAddress) <= s'.evm.Nonce(ch.moduleAddress) <= MAX_NONCE
  }

  lemma CoreFrame(ch: Chain, s: State, s': State)
    requires Core(ch, s) && Continues(ch, s, s')
    requires s'.reg == s.reg && s'.bank.metadata == s.bank.metadata && s'.bank.blocked == s.bank.blocked
    ensures Core(ch, s')
  {
    hide Bijective;
  }

  // ---- Steps that only move value ----------------------------------------------------

  lemma ResolvedHasCode(ch: Chain, s: State, sender: Address, receiver: Address, token: Bytes)
    requires Core(ch, s) && MintingEnabled(s, sender, receiver, token).Ok?
    ensures var p := MintingEnabled(s, sender, receiver, token).value;
            && GetID(ch, p) in s.reg.pairs && s.reg.pairs[GetID(ch, p)] == p
            && Contract(p) in s.evm.tokens && p.denom in s.reg.byDenom
            && p.enabled && receiver !in s.bank.blocked
            && Resolve(s.reg, token) == Ok(p)
  {
    MintingFacts(s, sender, receiver, token);
    ResolvedIsStored(ch, s.reg, token);
    hide MintingEnabled, Bijective, Resolve, Contract, GetID;
  }

  lemma KeepsRestKeepsCore(ch: Chain, s: State, s': State)
    requires Core(ch, s) && KeepsRest(s, s')
    ensures Core(ch, s')
  {
    assert s'.evm.Nonce(ch.moduleAddress) <= MAX_NONCE;
    CoreFrame(ch, s, s');
  }

  lemma ConvertCoinKeepsCore(ch: Chain, s: State, msg: MsgConvertCoin, v: Verdict)
    requires Core(ch, s) && ConvertCoin(ch, s, msg, v).Ok?
    ensures Core(ch, ConvertCoin(ch, s, msg, v).value) && KeepsRest(s, ConvertCoin(ch, s, msg, v).value)
  {
    hide ConvertCoin, MintingEnabled, Core, Contract, CoinsBecomeTokens, KeepsRest, GetID;
    ConvertCoinEnabled(ch, s, msg, v);
    var p := MintingEnabled(s, msg.sender, msg.receiver, msg.denom).value;
    ResolvedHasCode(ch, s, msg.sender, msg.receiver, msg.denom);
    ConvertCoinEffect(ch, s, msg, v);
    CoinsBecomeTokensKeeps(ch, s, ConvertCoin(ch, s, msg, v).value, p, msg);
    KeepsRestKeepsCore(ch, s, ConvertCoin(ch, s, msg, v).value);
  }

  lemma ConvertCoinEnabled(ch: Chain, s: State, msg: MsgConvertCoin, v: Verdict)
    requires ConvertCoin(ch, s, msg, v).Ok?
    ensures MintingEnabled(s, msg.sender, msg.receiver, msg.denom).Ok?
  {
    hide MintingEnabled;
  }

  lemma ConvertERC20Enabled(ch: Chain, s: State, msg: MsgConvertERC20, v: Verdict)
    requires ConvertERC20(ch, s, msg, v).Ok?
    ensures MintingEnabled(s, msg.sender, msg.receiver, msg.contract).Ok?
  {
    hide MintingEnabled;
  }

  lemma ConvertERC20KeepsCore(ch: Chain, s: State, msg: MsgConvertERC20, v: Verdict)
    requires Core(ch, s) && ConvertERC20(ch, s, msg, v).Ok?
    ensures Core(ch, ConvertERC20(ch, s, msg, v).value) && KeepsRest(s, ConvertERC20(ch, s, msg, v).value)
  {
    hide ConvertERC20, MintingEnabled, Core, Contract, TokensBecomeCoins, KeepsRest, GetID;
    ConvertERC20Enabled(ch, s, msg, v);
    var p := MintingEnabled(s, msg.sender, msg.receiver, msg.contract).value;
    ResolvedHasCode(ch, s, msg.sender, msg.receiver, msg.contract);
    ConvertERC20Effect(ch, s, msg, v);
    TokensBecomeCoinsKeeps(ch, s, ConvertERC20(ch, s, msg, v).value, p, msg);
    KeepsRestKeepsCore(ch, s, ConvertERC20(ch, s, msg, v).value);
  }

  lemma ProcessLogContinues(ch: Chain, s: State, log: Log, v: Verdict)
    requires s.evm.Nonce(ch.moduleAddress) <= MAX_NONCE
    requires ProcessLog(ch, s, log, v).Swallow? || ProcessLog(ch, s, log, v).Convert?
    ensures OnlyLedgers(s, ProcessLog(ch, s, log, v).state) && Continues(ch, s, ProcessLog(ch, s, log, v).state)
  {
    hide Release, Bank.SendFromModule, Continues;
    var p, r := EffectOfLog(ch, s, log, v);
    ReleaseContinues(ch, s, p, log.address, Amount(ch, log), v);
    ContinuesFrame(ch, s, r, ProcessLog(ch, s, log, v).state);
  }

  lemma ContinuesFrame(ch: Chain, s: State, r: State, s': State)
    requires Continues(ch, s, r) && s'.evm == r.evm
    ensures Continues(ch, s, s')
  {
  }

  lemma ReleaseContinues(ch: Chain, s: State, p: TokenPair, c: Address, n: nat, v: Verdict)
    requires s.evm.Nonce(ch.moduleAddress) <= MAX_NONCE
    ensures Continues(ch, s, Release(ch, s, p, c, n, v).0)
  {
    hide CallEVM, Credit;
    CallContinues(ch, s.evm, c, Burn(n), v);
  }

  lemma CallContinues(ch: Chain, evm: Evm, c: Address, call: Call, v: Verdict)
    requires evm.Nonce(ch.moduleAddress) <= MAX_NONCE
    ensures var evm' := CallEVM(ch, evm, ch.moduleAddress, c, call, v).evm;
            && evm'.tokens.Keys == evm.tokens.Keys
            && evm.Nonce(ch.moduleAddress) <= evm'.Nonce(ch.moduleAddress) <= MAX_NONCE
  {
    hide Execute;
  }

  lemma {:induction false} ProcessLogsContinue(ch: Chain, s: State, logs: seq<Log>, vs: seq<Verdict>)
    requires |vs| == |logs| && s.evm.Nonce(ch.moduleAddress) <= MAX_NONCE
    ensures OnlyLedgers(s, ProcessLogs(ch, s, logs, vs).state) && Continues(ch, s, ProcessLogs(ch, s, logs, vs).state)
    decreases |logs|
  {
    hide ProcessLog;
    if |logs| > 0 {
      match ProcessLog(ch, s, logs[0], vs[0])
      case Skip => ProcessLogsContinue(ch, s, logs[1..], vs[1..]);
      case Abort =>
      case Swallow(s') =>
        ProcessLogContinues(ch, s, logs[0], vs[0]);
        ProcessLogsContinue(ch, s', logs[1..], vs[1..]);
      case Convert(s') =>
        ProcessLogContinues(ch, s, logs[0], vs[0]);
        ProcessLogsContinue(ch, s', logs[1..], vs[1..]);
    }
  }

  lemma RunOpKeepsCode(ch: Chain, evm: Evm, op: TokenOp)
    requires RunOp(ch, evm, op).Some?
    ensures var evm' := RunOp(ch, evm, op).value.0;
            && evm'.tokens.Keys == evm.tokens.Keys && evm'.nonces == evm.nonces
            && forall c :: c in evm.tokens ==>
                 evm'.tokens[c].owned == evm.tokens[c].owned && evm'.tokens[c].data == evm.tokens[c].data
  {
    hide Move, Credit, Debit;
  }

  lemma {:induction false} RunOpsKeepCode(ch: Chain, evm: Evm, ops: seq<TokenOp>)
    requires RunOps(ch, evm, ops).Some?
    ensures var evm' := RunOps(ch, evm, ops).value.0;
            && evm'.tokens.Keys == evm.tokens.Keys && evm'.nonces == evm.nonces
            && forall c :: c in evm.tokens ==>
                 evm'.tokens[c].owned == evm.tokens[c].owned && evm'.tokens[c].data == evm.tokens[c].data
    decreases |ops|
  {
    hide RunOp;
    if |ops| > 0 {
      RunOpKeepsCode(ch, evm, ops[0]);
      RunOpsKeepCode(ch, RunOp(ch, evm, ops[0]).value.0, ops[1..]);
    }
  }

  lemma EthTxKeepsCore(ch: Chain, s: State, ops: seq<TokenOp>, vs: seq<Verdict>, hooked: bool)
    requires Core(ch, s) && EthTx(ch, s, ops, vs, hooked).Ok?
    ensures var s' := EthTx(ch, s, ops, vs, hooked).value;
            Core(ch, s') && OnlyLedgers(s, s')
  {
    RunOpsKeepCode(ch, s.evm, ops);
    var s1 := s.(evm := RunOps(ch, s.evm, ops).value.0);
    CoreFrame(ch, s, s1);
    if hooked {
      ProcessLogsContinue(ch, s1, RunOps(ch, s.evm, ops).value.1, vs);
      hide RunOps, ProcessLogs, Bijective;
      CoreFrame(ch, s1, EthTx(ch, s, ops, vs, hooked).value);
    }
  }

  // ---- Steps that write the registry -------------------------------------------------

  // The address that RegisterCoin deploys to is not registered, although RegisterCoin does not
  // check for it.
  lemma DeployedAddressIsFree(ch: Chain, s: State, data: ERC20Data, v: Verdict)
    requires Fresh(ch, s) && Deploy(ch, s.evm, data, v).Some?
    ensures Deploy(ch, s.evm, data, v).value.1 !in s.reg.byErc20
    ensures Deploy(ch, s.evm, data, v).value.1 == ch.create(s.evm.Nonce(ch.moduleAddress))
  {
  }

  // In a proper state no code ever blocks the deployment: creation can only fail for the
  // virtual machine's own reasons or an exhausted nonce.
  lemma DeployNeverCollides(ch: Chain, s: State, data: ERC20Data, v: Verdict)
    requires Fresh(ch, s)
    ensures Deploy(ch, s.evm, data, v).Some? <==> v.Ran? && s.evm.Nonce(ch.moduleAddress) < MAX_NONCE
  {
  }

  // RegisterCoin looks up the name but indexes by the base. A registered base is refused all
  // the same, because its stored metadata has units.
  lemma RegisteredBaseIsRefused(ch: Chain, s: State, meta: Metadata<DenomUnit>, v: Verdict)
    requires Described(s) && meta.base in s.reg.byDenom
    ensures RegisterCoin(ch, s, meta, v).Err?
  {
  }

  // What a successful RegisterCoin writes, whatever the metadata.
  lemma RegisterCoinInserts(ch: Chain, s: State, meta: Metadata<DenomUnit>, v: Verdict)
    returns (p: TokenPair, c: Address)
    requires ch.Sound() && Bijective(ch, s.reg) && Fresh(ch, s) && RegisterCoin(ch, s, meta, v).Ok?
    ensures p == TokenPair(Text(ch, c), meta.base, true, OWNER_MODULE)
    ensures IsHexAddress(p.erc20Address) && Contract(p) == c
    ensures c !in s.reg.byErc20 && c == ch.create(s.evm.Nonce(ch.moduleAddress)) && v.Ran?
    ensures s.params.enableIntrarelayer && meta.name !in s.reg.byDenom && s.evm.Nonce(ch.moduleAddress) < MAX_NONCE
    ensures var s' := RegisterCoin(ch, s, meta, v).value;
            && s'.reg == Insert(ch, s.reg, p) && s'.params == s.params
            && s'.evm.tokens.Keys == s.evm.tokens.Keys + {c}
            && s'.evm.Nonce(ch.moduleAddress) == s.evm.Nonce(ch.moduleAddress) + 1
            && VerifyMetadata(s.bank, meta) == Ok(s'.bank)
  {
    var data := ERC20Data(meta.name, meta.symbol, DEFAULT_DECIMALS);
    c := Deploy(ch, s.evm, data, v).value.1;
    p := NewTokenPair(ch, c, meta.base, true, OWNER_MODULE);
    DeployedAddressIsFree(ch, s, data, v);
    TextRoundTrip(ch, c);
    hide Bijective, Text, GetID, HexToAddress, IsHexAddress, Insert, VerifyMetadata;
  }

  // Registration keeps the registry a bijection exactly when the base denomination is not
  // registered, which RegisterCoin does not check.
  lemma RegisterCoinKeepsBijectionIff(ch: Chain, s: State, meta: Metadata<DenomUnit>, v: Verdict)
    requires ch.Sound() && Bijective(ch, s.reg) && Fresh(ch, s) && RegisterCoin(ch, s, meta, v).Ok?
    ensures Bijective(ch, RegisterCoin(ch, s, meta, v).value.reg) <==> meta.base !in s.reg.byDenom
  {
    var p, c := RegisterCoinInserts(ch, s, meta, v);
    NewContractNewID(ch, s.reg, p);
    hide RegisterCoin, Bijective, Insert, Contract, GetID, IsHexAddress, VerifyMetadata;
    InsertKeepsBijectionIff(ch, s.reg, p);
  }

  lemma NewContractNewID(ch: Chain, r: Registry, p: TokenPair)
    requires ch.Sound() && Bijective(ch, r) && IsHexAddress(p.erc20Address) && Contract(p) !in r.byErc20
    ensures GetID(ch, p) !in r.pairs
  {
    hide IsHexAddress, HexToAddress;
    if GetID(ch, p) in r.pairs {
      GetIDInjective(ch, p, r.pairs[GetID(ch, p)]);
    }
  }

  // Registering the same metadata once more succeeds exactly when it has no units and a name
  // other than its base, and the virtual machine lets the module deploy.
  lemma SecondRegistrationIff(ch: Chain, s: State, meta: Metadata<DenomUnit>, v: Verdict, w: Verdict)
    requires ch.Sound() && Bijective(ch, s.reg) && Fresh(ch, s) && RegisterCoin(ch, s, meta, v).Ok?
    ensures var s1 := RegisterCoin(ch, s, meta, v).value;
            && Fresh(ch, s1)
            && (RegisterCoin(ch, s1, meta, w).Ok? <==>
                |meta.units| == 0 && meta.name != meta.base && w.Ran? && s1.evm.Nonce(ch.moduleAddress) < MAX_NONCE)
  {
    var p, c := RegisterCoinInserts(ch, s, meta, v);
    var s1 := RegisterCoin(ch, s, meta, v).value;
    InsertIndexes(ch, s.reg, p);
    FreshAfterDeploy(ch, s, s1, c);
    VerifiedTwiceIff(s.bank, meta);
    DeployNeverCollides(ch, s1, ERC20Data(meta.name, meta.symbol, DEFAULT_DECIMALS), w);
    hide Bijective, Fresh, Insert, Contract, GetID, IsHexAddress, VerifyMetadata, Deploy, NewTokenPair;
    AfterFirst(ch, s1, meta, w);
  }

  lemma AfterFirst(ch: Chain, s: State, meta: Metadata<DenomUnit>, w: Verdict)
    ensures RegisterCoin(ch, s, meta, w).Ok? <==>
            && s.params.enableIntrarelayer && meta.name !in s.reg.byDenom && VerifyMetadata(s.bank, meta).Ok?
            && Deploy(ch, s.evm, ERC20Data(meta.name, meta.symbol, DEFAULT_DECIMALS), w).Some?
  {
    hide Insert, VerifyMetadata, Deploy, NewTokenPair;
  }

  lemma VerifiedTwiceIff(b: Bank, meta: Metadata<DenomUnit>)
    requires VerifyMetadata(b, meta).Ok?
    ensures VerifyMetadata(VerifyMetadata(b, meta).value, meta).Ok? <==> |meta.units| == 0
  {
  }

  // What a successful RegisterCoin writes.
  lemma RegisterCoinFacts(ch: Chain, s: State, meta: Metadata<DenomUnit>, v: Verdict)
    returns (p: TokenPair, c: Address, t: Token)
    requires ch.Sound() && Core(ch, s) && |meta.units| > 0 && RegisterCoin(ch, s, meta, v).Ok?
    ensures p == TokenPair(Text(ch, c), meta.base, true, OWNER_MODULE)
    ensures IsHexAddress(p.erc20Address) && Contract(p) == c
    ensures c !in s.evm.tokens && c !in s.reg.byErc20 && meta.base !in s.reg.byDenom
    ensures c == ch.create(s.evm.Nonce(ch.moduleAddress)) && s.evm.Nonce(ch.moduleAddress) < MAX_NONCE
    ensures s.params.enableIntrarelayer && meta.name !in s.reg.byDenom
    ensures var s' := RegisterCoin(ch, s, meta, v).value;
            && s'.reg == Insert(ch, s.reg, p)
            && s'.params == s.params
            && s'.evm.Nonce(ch.moduleAddress) == s.evm.Nonce(ch.moduleAddress) + 1
            && s'.evm.tokens == s.evm.tokens[c := t] && t.ledger == multiset{} && t.owned
            && meta.base !in s.bank.metadata && s'.bank == s.bank.SetMetadata(meta)
  {
    var data := ERC20Data(meta.name, meta.symbol, DEFAULT_DECIMALS);
    c := Deploy(ch, s.evm, data, v).value.1;
    p := NewTokenPair(ch, c, meta.base, true, OWNER_MODULE);
    DeployedAddressIsFree(ch, s, data, v);
    TextRoundTrip(ch, c);
    hide Bijective, Text, GetID, HexToAddress, IsHexAddress, Insert;
    if meta.base in s.reg.byDenom {
      RegisteredBaseIsRefused(ch, s, meta, v);
    }
    t := Token(multiset{}, data, true);
    assert RegisterCoin(ch, s, meta, v).value.evm.tokens == s.evm.tokens[c := t];
  }

  lemma RegisterCoinKeepsCore(ch: Chain, s: State, meta: Metadata<DenomUnit>, v: Verdict)
    requires ch.Sound() && Core(ch, s) && |meta.units| > 0 && RegisterCoin(ch, s, meta, v).Ok?
    ensures Core(ch, RegisterCoin(ch, s, meta, v).value)
  {
    var s' := RegisterCoin(ch, s, meta, v).value;
    var p, c, t := RegisterCoinFacts(ch, s, meta, v);
    InsertKeepsBijection(ch, s.reg, p);
    InsertIndexes(ch, s.reg, p);
    hide Bijective, GetID, HexToAddress, IsHexAddress, Contract, Text, Insert, RegisterCoin;
    FreshAfterDeploy(ch, s, s', c);
    DescribedAfterSet(s, s', meta);
  }

  lemma FreshAfterDeploy(ch: Chain, s: State, s': State, c: Address)
    requires ch.Sound() && Fresh(ch, s)
    requires s'.reg.byErc20.Keys == s.reg.byErc20.Keys + {c} && s'.evm.tokens.Keys == s.evm.tokens.Keys + {c}
    requires c == ch.create(s.evm.Nonce(ch.moduleAddress)) && s.evm.Nonce(ch.moduleAddress) < MAX_NONCE
    requires s'.evm.Nonce(ch.moduleAddress) == s.evm.Nonce(ch.moduleAddress) + 1
    ensures Fresh(ch, s')
  {
  }

  lemma DescribedAfterSet(s: State, s': State, meta: Metadata<DenomUnit>)
    requires Described(s) && |meta.units| > 0
    requires s'.reg.byDenom.Keys == s.reg.byDenom.Keys + {meta.base} && s'.bank == s.bank.SetMetadata(meta)
    ensures Described(s')
  {
  }

  // What a successful RegisterERC20 writes.
  lemma RegisterERC20Facts(ch: Chain, s: State, c: Address, q: Query, valid: bool)
    returns (p: TokenPair, meta: Metadata<DenomUnit>)
    requires ch.Sound() && Core(ch, s) && RegisterERC20(ch, s, c, q, valid).Ok?
    ensures p == TokenPair(Text(ch, c), Voucher(ch, c), true, OWNER_EXTERNAL)
    ensures IsHexAddress(p.erc20Address) && Contract(p) == c
    ensures c in s.evm.tokens && c !in s.reg.byErc20 && p.denom !in s.reg.byDenom && p.denom !in s.bank.metadata
    ensures s.params.enableIntrarelayer && valid
    ensures var s' := RegisterERC20(ch, s, c, q, valid).value;
            && s'.reg == Insert(ch, s.reg, p)
            && s'.params == s.params
            && s.evm.Nonce(ch.moduleAddress) <= s'.evm.Nonce(ch.moduleAddress) <= MAX_NONCE
            && s'.evm.tokens == s.evm.tokens
            && s'.bank == s.bank.SetMetadata(meta) && meta.base == p.denom && |meta.units| > 0
            && meta == VoucherMetadata(ch, c, s.evm.tokens[c].data)
  {
    p := NewTokenPair(ch, c, Voucher(ch, c), true, OWNER_EXTERNAL);
    QueryNeedsCode(ch, s.evm, c, q);
    TextRoundTrip(ch, c);
    hide Bijective, Text, GetID, HexToAddress, IsHexAddress, Insert, Voucher, QueryERC20, CreateDenomDescription;
    meta := VoucherMetadata(ch, c, QueryERC20(ch, s.evm, c, q).value.1);
    assert RegisterERC20(ch, s, c, q, valid).value.bank == s.bank.SetMetadata(meta) && meta.base == p.denom;
  }

  lemma RegisterERC20KeepsCore(ch: Chain, s: State, c: Address, q: Query, valid: bool)
    requires ch.Sound() && Core(ch, s) && RegisterERC20(ch, s, c, q, valid).Ok?
    ensures Core(ch, RegisterERC20(ch, s, c, q, valid).value)
  {
    var s' := RegisterERC20(ch, s, c, q, valid).value;
    var p, meta := RegisterERC20Facts(ch, s, c, q, valid);
    InsertKeepsBijection(ch, s.reg, p);
    InsertIndexes(ch, s.reg, p);
    hide Bijective, GetID, HexToAddress, IsHexAddress, Contract, Text, Insert, RegisterERC20, Voucher;
    DescribedAfterSet(s, s', meta);
  }

  lemma ToggleFacts(ch: Chain, s: State, token: Bytes) returns (id: Bytes)
    requires Core(ch, s) && ToggleRelay(ch, s, token).Ok?
    ensures id in s.reg.pairs
    ensures var r' := ToggleRelay(ch, s, token).value.reg;
            && r'.pairs == s.reg.pairs[id := s.reg.pairs[id].(enabled := !s.reg.pairs[id].enabled)]
            && r'.byErc20 == s.reg.byErc20 && r'.byDenom == s.reg.byDenom && Bijective(ch, r')
    ensures ToggleRelay(ch, s, token).value == s.(reg := ToggleRelay(ch, s, token).value.reg)
  {
    ResolvedIsStored(ch, s.reg, token);
    id := GetID(ch, Resolve(s.reg, token).value);
    ToggleKeepsBijection(ch, s.reg, id);
    hide Bijective, GetID, Resolve, Contract;
  }

  // After toggling, the token names the pair with its flag turned.
  lemma NamesToggled(ch: Chain, r: Registry, r': Registry, token: Bytes, p: TokenPair)
    requires Names(ch, r, token, p) && r'.pairs == r.pairs[GetID(ch, p) := p.(enabled := !p.enabled)]
    ensures Names(ch, r', token, p.(enabled := !p.enabled))
    ensures Toggle(ch, r', p.(enabled := !p.enabled)).pairs == r.pairs
  {
    var q := p.(enabled := !p.enabled);
    assert q.(enabled := !q.enabled) == p;
    SameKeys(ch, p, q);
    hide GetID, Contract, IsHexAddress, HexToAddress;
  }

  // Toggling twice undoes itself.
  lemma ToggleTwice(ch: Chain, s: State, token: Bytes)
    requires ch.Sound() && Core(ch, s) && ToggleRelay(ch, s, token).Ok?
    ensures ToggleRelay(ch, ToggleRelay(ch, s, token).value, token) == Ok(s)
  {
    CoreIsBijective(ch, s);
    var p, s1 := Resolve(s.reg, token).value, ToggleRelay(ch, s, token).value;
    hide Core, Bijective, GetID, Contract, Resolve, IsHexAddress, HexToAddress, Names;
    ResolvesIff(ch, s.reg, token, p);
    NamesStored(ch, s.reg, token, p);
    ToggleKeepsBijection(ch, s.reg, GetID(ch, p));
    NamesToggled(ch, s.reg, s1.reg, token, p);
    ResolvesIff(ch, s1.reg, token, p.(enabled := !p.enabled));
  }

  lemma NamesStored(ch: Chain, r: Registry, token: Bytes, p: TokenPair)
    requires Names(ch, r, token, p)
    ensures GetID(ch, p) in r.pairs && r.pairs[GetID(ch, p)] == p
  {
  }

  lemma CoreIsBijective(ch: Chain, s: State)
    requires Core(ch, s)
    ensures Bijective(ch, s.reg)
  {
  }

  // The id and the contract do not depend on the other fields.
  lemma SameKeys(ch: Chain, p: TokenPair, q: TokenPair)
    requires p.erc20Address == q.erc20Address && p.denom == q.denom
    ensures GetID(ch, p) == GetID(ch, q) && Contract(p) == Contract(q)
  {
  }

  lemma ToggleKeepsCore(ch: Chain, s: State, token: Bytes)
    requires Core(ch, s) && ToggleRelay(ch, s, token).Ok?
    ensures Core(ch, ToggleRelay(ch, s, token).value)
  {
    hide Bijective, ToggleRelay;
    var id := ToggleFacts(ch, s, token);
  }

  // The pair, the metadata and the new contract of a successful migration.
  lemma UpdateFacts(ch: Chain, s: State, oldAddr: Address, newAddr: Address, q: Query) returns (id: Bytes)
    requires Core(ch, s) && UpdateTokenPairERC20(ch, s, oldAddr, newAddr, q).Ok?
    ensures oldAddr in s.reg.byErc20 && newAddr in s.evm.tokens
    ensures id == s.reg.byErc20[oldAddr] && id in s.reg.pairs && Contract(s.reg.pairs[id]) == oldAddr
    ensures var s' := UpdateTokenPairERC20(ch, s, oldAddr, newAddr, q).value;
            && s'.reg == Migrate(ch, s.reg, s.reg.pairs[id], oldAddr, newAddr)
            && s'.params == s.params
            && s'.evm.tokens == s.evm.tokens
            && s.evm.Nonce(ch.moduleAddress) <= s'.evm.Nonce(ch.moduleAddress) <= MAX_NONCE
            && s'.bank == s.bank.(metadata := s'.bank.metadata)
            && s'.bank.metadata.Keys == s.bank.metadata.Keys
            && (forall d :: d in s.bank.metadata ==> s'.bank.metadata[d].units == s.bank.metadata[d].units
                                                     && s'.bank.metadata[d].base == s.bank.metadata[d].base)
  {
    id := UpdateFindsPair(ch, s, oldAddr, newAddr, q);
    UpdateQueries(ch, s, oldAddr, newAddr, q);
    UpdateWrites(ch, s, oldAddr, newAddr, q, id);
    var p := s.reg.pairs[id];
    var description := CreateDenomDescription(Text(ch, newAddr));
    SetMetadataKeeps(s.bank, p.denom, s.bank.metadata[p.denom].(description := description));
    hide Core, UpdateTokenPairERC20, Migrate, CreateDenomDescription, Text, Contract, QueryERC20, Bank.SetMetadata;
  }

  lemma SetMetadataKeeps(b: Bank, d: Bytes, meta: Metadata<DenomUnit>)
    requires d in b.metadata && meta.base == b.metadata[d].base == d && meta.units == b.metadata[d].units
    ensures var b' := b.SetMetadata(meta);
            && b' == b.(metadata := b'.metadata)
            && b'.metadata.Keys == b.metadata.Keys
            && (forall e :: e in b.metadata ==> b'.metadata[e].units == b.metadata[e].units
                                                && b'.metadata[e].base == b.metadata[e].base)
  {
  }

  lemma UpdateWrites(ch: Chain, s: State, oldAddr: Address, newAddr: Address, q: Query, id: Bytes)
    requires UpdateTokenPairERC20(ch, s, oldAddr, newAddr, q).Ok? && QueryERC20(ch, s.evm, newAddr, q).Some?
    requires oldAddr in s.reg.byErc20 && id == s.reg.byErc20[oldAddr] && id in s.reg.pairs
    requires FindPair(s.reg, id) == Some(s.reg.pairs[id]) && s.reg.pairs[id].denom in s.bank.metadata
    ensures var p := s.reg.pairs[id];
            var meta := s.bank.metadata[p.denom].(description := CreateDenomDescription(Text(ch, newAddr)));
            UpdateTokenPairERC20(ch, s, oldAddr, newAddr, q).value ==
            State(Migrate(ch, s.reg, p, oldAddr, newAddr), s.params, s.bank.SetMetadata(meta),
                  QueryERC20(ch, s.evm, newAddr, q).value.0)
  {
    hide Migrate, CheckUnits, Text, CreateDenomDescription, QueryERC20, FindPair;
  }

  lemma UpdateQueries(ch: Chain, s: State, oldAddr: Address, newAddr: Address, q: Query)
    requires UpdateTokenPairERC20(ch, s, oldAddr, newAddr, q).Ok?
    ensures newAddr in s.evm.tokens && QueryERC20(ch, s.evm, newAddr, q).Some?
    ensures var evm' := QueryERC20(ch, s.evm, newAddr, q).value.0;
            && evm'.tokens == s.evm.tokens
            && s.evm.Nonce(ch.moduleAddress) <= evm'.Nonce(ch.moduleAddress) <= MAX_NONCE
  {
    hide Migrate, CheckUnits, Text, CreateDenomDescription, QueryERC20, FindPair;
    QueryNeedsCode(ch, s.evm, newAddr, q);
  }

  lemma UpdateFindsPair(ch: Chain, s: State, oldAddr: Address, newAddr: Address, q: Query) returns (id: Bytes)
    requires Core(ch, s) && UpdateTokenPairERC20(ch, s, oldAddr, newAddr, q).Ok?
    ensures oldAddr in s.reg.byErc20 && id == s.reg.byErc20[oldAddr]
    ensures id in s.reg.pairs && Contract(s.reg.pairs[id]) == oldAddr
    ensures FindPair(s.reg, id) == Some(s.reg.pairs[id])
    ensures s.reg.pairs[id].denom in s.bank.metadata
            && s.bank.metadata[s.reg.pairs[id].denom].base == s.reg.pairs[id].denom
  {
    hide Migrate, CheckUnits, Text, GetID, CreateDenomDescription, Contract, QueryERC20;
    assert oldAddr in s.reg.byErc20;
    id := s.reg.byErc20[oldAddr];
  }

  lemma UpdateKeepsCore(ch: Chain, s: State, oldAddr: Address, newAddr: Address, q: Query)
    requires ch.Sound() && Core(ch, s) && UpdateTokenPairERC20(ch, s, oldAddr, newAddr, q).Ok?
    requires newAddr !in s.reg.byErc20 || newAddr == oldAddr
    ensures Core(ch, UpdateTokenPairERC20(ch, s, oldAddr, newAddr, q).value)
  {
    hide UpdateTokenPairERC20, Bijective, Migrate;
    var id := UpdateFacts(ch, s, oldAddr, newAddr, q);
    MigrateKeepsBijection(ch, s.reg, id, newAddr);
    MigrateIndexes(ch, s.reg, id, newAddr);
  }

  // A migration keeps the registry a bijection exactly when the new contract is not registered
  // or is the old one.
  lemma UpdateKeepsBijectionIff(ch: Chain, s: State, oldAddr: Address, newAddr: Address, q: Query)
    requires ch.Sound() && Core(ch, s) && UpdateTokenPairERC20(ch, s, oldAddr, newAddr, q).Ok?
    ensures Bijective(ch, UpdateTokenPairERC20(ch, s, oldAddr, newAddr, q).value.reg) <==>
            newAddr !in s.reg.byErc20 || newAddr == oldAddr
  {
    hide UpdateTokenPairERC20, Bijective, Migrate, Contract;
    var id := UpdateFacts(ch, s, oldAddr, newAddr, q);
    MigrateKeepsBijectionIff(ch, s.reg, id, newAddr);
  }

  lemma OtherStepKeepsCore(ch: Chain, s: State, step: Step)
    requires Core(ch, s) && Proper(ch, s, step) && Try(ch, s, step).Ok?
    requires step.StepParams? || step.StepDeploy? || step.StepBankSend? || step.StepBankMint? || step.StepBankBurn?
             || step.StepSendDisabled?
    ensures Core(ch, Next(ch, s, step))
  {
    hide Bijective, Move, Credit, Debit;
  }

  // The registry, the nonces and the metadata agree after every proper step.
  lemma StepKeepsCore(ch: Chain, s: State, step: Step)
    requires ch.Sound() && Core(ch, s) && Proper(ch, s, step)
    ensures Core(ch, Next(ch, s, step))
  {
    hide ConvertCoin, ConvertERC20, RegisterCoin, RegisterERC20, ToggleRelay, UpdateTokenPairERC20, EthTx, Core;
    if Try(ch, s, step).Ok? {
      match step
      case StepConvertCoin(msg, v) => ConvertCoinKeepsCore(ch, s, msg, v);
      case StepConvertERC20(msg, v) => ConvertERC20KeepsCore(ch, s, msg, v);
      case StepRegisterCoin(meta, v) => RegisterCoinKeepsCore(ch, s, meta, v);
      case StepRegisterERC20(c, q, valid) => RegisterERC20KeepsCore(ch, s, c, q, valid);
      case StepToggle(token) => ToggleKeepsCore(ch, s, token);
      case StepUpdate(oldAddr, newAddr, q) => UpdateKeepsCore(ch, s, oldAddr, newAddr, q);
      case StepEthTx(ops, vs, hooked) => EthTxKeepsCore(ch, s, ops, vs, hooked);
      case _ => OtherStepKeepsCore(ch, s, step);
    }
  }
}
