// When the module's tokens in an external contract match its vouchers exactly.
module Tightness {
  import opened Base
  import opened Chains
  import opened Ledgers
  import opened Registries
  import opened TokenPairCodec
  import opened States
  import opened Conversions
  import opened Governance
  import opened Hook
  import opened Steps
  import opened Backing
  import opened Runs

  // c and d are an external contract and its voucher.
  ghost predicate ExternalPair(r: Registry, c: Address, d: Bytes)
  {
    && c in r.byErc20 && d in r.byDenom && r.byErc20[c] == r.byDenom[d]
    && r.byErc20[c] in r.pairs && r.pairs[r.byErc20[c]].contractOwner == OWNER_EXTERNAL
  }

  // The module account does not sign, converted coins find their own pair, only the bridge
  // changes the voucher's supply, the pair does not migrate, and transactions move its tokens to
  // the module only under the hook. Failures in the hook do not matter.
  ghost predicate Tight(ch: Chain, s: State, step: Step, c: Address, d: Bytes)
  {
    && Proper(ch, s, step)
    && match step
       case StepConvertCoin(msg, v) => msg.sender != ch.moduleAddress && FindsOwnPair(s.reg, msg.denom)
       case StepConvertERC20(msg, v) => msg.sender != ch.moduleAddress
       case StepUpdate(oldAddr, newAddr, q) => oldAddr != c
       case StepEthTx(ops, vs, hooked) =>
         && HonestOps(ch, s.evm, ops)
         && (!hooked && RunOps(ch, s.evm, ops).Some? ==> Pending(ch, RunOps(ch, s.evm, ops).value.1, c) == 0)
       case StepBankMint(to, denom, n) => denom != d
       case StepBankBurn(from, denom, n) => denom != d
       case _ => true
  }

  lemma PairOfBoth(ch: Chain, r: Registry, c: Address, d: Bytes) returns (p: TokenPair)
    requires Bijective(ch, r) && ExternalPair(r, c, d)
    ensures p == r.pairs[r.byErc20[c]] && Contract(p) == c && p.denom == d && p.contractOwner == OWNER_EXTERNAL
    ensures GetID(ch, p) == r.byErc20[c]
  {
    hide Contract, GetID, IsHexAddress;
    p := r.pairs[r.byErc20[c]];
  }

  // A pair that shares nothing with another is the same or differs in both keys.
  lemma SameOrApart(ch: Chain, r: Registry, p: TokenPair, c: Address, d: Bytes)
    requires Bijective(ch, r) && ExternalPair(r, c, d) && GetID(ch, p) in r.pairs && r.pairs[GetID(ch, p)] == p
    ensures || (p.denom == d && Contract(p) == c && p.contractOwner == OWNER_EXTERNAL)
            || (p.denom != d && Contract(p) != c)
  {
    hide Contract, GetID, Bijective;
    var q := PairOfBoth(ch, r, c, d);
    NoSharing(ch, r, GetID(ch, p), GetID(ch, q));
  }

  lemma ExternalHasCode(ch: Chain, s: State, c: Address, d: Bytes)
    requires Core(ch, s) && ExternalPair(s.reg, c, d)
    ensures c in s.evm.tokens
  {
    hide Bijective;
  }

  // ---- Conversions -------------------------------------------------------------------

  lemma CoinsToTokensMargin(ch: Chain, s: State, s': State, p: TokenPair, msg: MsgConvertCoin, c: Address, d: Bytes)
    requires CoinsBecomeTokens(ch, s, s', p, msg) && p.denom == msg.denom && msg.receiver != ch.moduleAddress
    requires || (p.denom == d && Contract(p) == c && p.contractOwner == OWNER_EXTERNAL)
             || (p.denom != d && Contract(p) != c)
    ensures VoucherMargin(ch, s', c, d) == VoucherMargin(ch, s, c, d)
  {
    hide Contract, BumpsNonce;
  }

  lemma TokensToCoinsMargin(ch: Chain, s: State, s': State, p: TokenPair, msg: MsgConvertERC20, c: Address, d: Bytes)
    requires TokensBecomeCoins(ch, s, s', p, msg) && msg.sender != ch.moduleAddress
    requires || (p.denom == d && Contract(p) == c && p.contractOwner == OWNER_EXTERNAL)
             || (p.denom != d && Contract(p) != c)
    ensures VoucherMargin(ch, s', c, d) == VoucherMargin(ch, s, c, d)
  {
    hide Contract, BumpsNonce;
  }

  lemma ConvertCoinKeepsMargin(ch: Chain, s: State, msg: MsgConvertCoin, v: Verdict, c: Address, d: Bytes)
    requires Core(ch, s) && ExternalPair(s.reg, c, d) && ConvertCoin(ch, s, msg, v).Ok?
    requires msg.sender != ch.moduleAddress && FindsOwnPair(s.reg, msg.denom)
    ensures VoucherMargin(ch, ConvertCoin(ch, s, msg, v).value, c, d) == VoucherMargin(ch, s, c, d)
  {
    assert ch.moduleAddress in s.bank.blocked && Bijective(ch, s.reg);
    hide ConvertCoin, MintingEnabled, Contract, GetID, Resolve, CoinsBecomeTokens, Core, ExternalPair, VoucherMargin,
         Bijective;
    ConvertCoinEnabled(ch, s, msg, v);
    var p := MintingEnabled(s, msg.sender, msg.receiver, msg.denom).value;
    ResolvedHasCode(ch, s, msg.sender, msg.receiver, msg.denom);
    ConvertCoinEffect(ch, s, msg, v);
    SameOrApart(ch, s.reg, p, c, d);
    CoinsToTokensMargin(ch, s, ConvertCoin(ch, s, msg, v).value, p, msg, c, d);
  }

  lemma ConvertERC20KeepsMargin(ch: Chain, s: State, msg: MsgConvertERC20, v: Verdict, c: Address, d: Bytes)
    requires Core(ch, s) && ExternalPair(s.reg, c, d) && ConvertERC20(ch, s, msg, v).Ok?
    requires msg.sender != ch.moduleAddress
    ensures VoucherMargin(ch, ConvertERC20(ch, s, msg, v).value, c, d) == VoucherMargin(ch, s, c, d)
  {
    assert Bijective(ch, s.reg);
    hide ConvertERC20, MintingEnabled, Contract, GetID, IsHexAddress, TokensBecomeCoins, Core, ExternalPair,
         VoucherMargin, Bijective;
    ConvertERC20Enabled(ch, s, msg, v);
    var p := MintingEnabled(s, msg.sender, msg.receiver, msg.contract).value;
    ResolvedHasCode(ch, s, msg.sender, msg.receiver, msg.contract);
    ConvertERC20Effect(ch, s, msg, v);
    SameOrApart(ch, s.reg, p, c, d);
    TokensToCoinsMargin(ch, s, ConvertERC20(ch, s, msg, v).value, p, msg, c, d);
  }

  // ---- User transactions -------------------------------------------------------------

  // What the module gains in a contract is exactly what the log has pending.
  lemma OpGain(ch: Chain, evm: Evm, op: TokenOp, c: Address)
    requires ch.Sound() && HonestOp(ch, evm, op) && RunOp(ch, evm, op).Some? && c in evm.tokens
    ensures var (evm', log) := RunOp(ch, evm, op).value;
            evm'.Tokens(c)[ch.moduleAddress] == evm.Tokens(c)[ch.moduleAddress] + PendingIn(ch, log, c)
  {
    hide PendingIn, TransferLog, Amount;
    match op
    case UserTransfer(k, from, to, n) => PendingInTransfer(ch, k, from, to, n, c);
    case UserMint(k, to, n) => PendingInTransfer(ch, k, 0, to, n, c);
    case UserBurn(k, from, n) => PendingInTransfer(ch, k, from, 0, n, c);
    case EmitLog(log) => NothingPending(ch, evm, log, c);
  }

  lemma {:induction false} OpsGain(ch: Chain, evm: Evm, ops: seq<TokenOp>, c: Address)
    requires ch.Sound() && HonestOps(ch, evm, ops) && RunOps(ch, evm, ops).Some? && c in evm.tokens
    ensures var (evm', logs) := RunOps(ch, evm, ops).value;
            evm'.Tokens(c)[ch.moduleAddress] == evm.Tokens(c)[ch.moduleAddress] + Pending(ch, logs, c)
    decreases |ops|
  {
    hide HonestOp, RunOp, PendingIn;
    if |ops| > 0 {
      var first := RunOp(ch, evm, ops[0]).value;
      OpGain(ch, evm, ops[0], c);
      RunOpKeepsCode(ch, evm, ops[0]);
      OpsGain(ch, first.0, ops[1..], c);
      assert RunOps(ch, evm, ops).value.1[1..] == RunOps(ch, first.0, ops[1..]).value.1;
    }
  }

  // The registry that the hook consults leads from a log to its pair.
  lemma LogFindsPair(ch: Chain, r: Registry, log: Log, c: Address, d: Bytes)
    requires ch.Sound() && Bijective(ch, r) && ExternalPair(r, c, d)
    ensures log.address == c ==> PairOf(r, log).Some? && PairOf(r, log).value == r.pairs[r.byErc20[c]]
    ensures PairOf(r, log).Some? && PairOf(r, log).value.denom == d ==> log.address == c
  {
    var p := PairOfBoth(ch, r, c, d);
    IDIsNotEmpty(ch, p);
    hide Contract, GetID, IsHexAddress, Bijective;
    if PairOf(r, log).Some? && PairOf(r, log).value.denom == d {
      PairOfIsStored(ch, r, log);
      NoSharing(ch, r, r.byErc20[log.address], r.byErc20[c]);
    }
  }

  lemma OneReleased(ch: Chain, r: Registry, log: Log, c: Address, d: Bytes)
    requires ch.Sound() && Bijective(ch, r) && ExternalPair(r, c, d)
    ensures PendingIn(ch, log, c) ==
            if Worth(ch, r, log) > 0 && PairOf(r, log).value.denom == d
               && PairOf(r, log).value.contractOwner == OWNER_EXTERNAL
            then Worth(ch, r, log) else 0
  {
    AmountNeedsTopics(ch, log);
    var p := PairOfBoth(ch, r, c, d);
    LogFindsPair(ch, r, log, c, d);
    hide Contract, GetID, Bijective, Amount, PairOf, TopicAddress;
  }

  // The vouchers that the hook mints are exactly what the logs have pending.
  lemma {:induction false} ReleasedIsPending(ch: Chain, r: Registry, logs: seq<Log>, c: Address, d: Bytes)
    requires ch.Sound() && Bijective(ch, r) && ExternalPair(r, c, d)
    ensures Released(ch, r, logs, OWNER_EXTERNAL, d) == Pending(ch, logs, c)
  {
    hide Bijective, ExternalPair, PendingIn, Worth, PairOf;
    if |logs| > 0 {
      OneReleased(ch, r, logs[0], c, d);
      ReleasedIsPending(ch, r, logs[1..], c, d);
    }
  }

  lemma LogKeepsTokens(ch: Chain, s: State, log: Log, v: Verdict, c: Address, d: Bytes)
    requires ch.Sound() && Bijective(ch, s.reg) && ExternalPair(s.reg, c, d)
    requires ProcessLog(ch, s, log, v).Swallow? || ProcessLog(ch, s, log, v).Convert?
    ensures OnlyLedgers(s, ProcessLog(ch, s, log, v).state)
    ensures ProcessLog(ch, s, log, v).state.evm.Tokens(c) == s.evm.Tokens(c)
  {
    hide ProcessLog, Contract, GetID, Bijective, Amount, PairOf, CallEVM, Bank.SendFromModule;
    LogFindsPair(ch, s.reg, log, c, d);
    var p, r := EffectOfLog(ch, s, log, v);
    if log.address == c {
      assert p.contractOwner == OWNER_EXTERNAL;
    } else {
      hide Release;
      LogTouchesOnePair(ch, s, log, v, p);
    }
  }

  lemma {:induction false} LoopKeepsTokens(ch: Chain, s: State, logs: seq<Log>, vs: seq<Verdict>, c: Address, d: Bytes)
    requires |vs| == |logs| && ch.Sound() && Bijective(ch, s.reg) && ExternalPair(s.reg, c, d)
    ensures ProcessLogs(ch, s, logs, vs).state.evm.Tokens(c) == s.evm.Tokens(c)
    decreases |logs|
  {
    hide ProcessLog, Bijective, ExternalPair;
    if |logs| > 0 {
      match ProcessLog(ch, s, logs[0], vs[0])
      case Skip => LoopKeepsTokens(ch, s, logs[1..], vs[1..], c, d);
      case Abort =>
      case Swallow(s') =>
        LogKeepsTokens(ch, s, logs[0], vs[0], c, d);
        LoopKeepsTokens(ch, s', logs[1..], vs[1..], c, d);
      case Convert(s') =>
        LogKeepsTokens(ch, s, logs[0], vs[0], c, d);
        LoopKeepsTokens(ch, s', logs[1..], vs[1..], c, d);
    }
  }

  // What a successful transaction leads to.
  lemma EthTxRuns(ch: Chain, s: State, ops: seq<TokenOp>, vs: seq<Verdict>, hooked: bool)
    requires EthTx(ch, s, ops, vs, hooked).Ok?
    ensures RunOps(ch, s.evm, ops).Some?
    ensures var (evm, logs) := RunOps(ch, s.evm, ops).value;
            && (!hooked ==> EthTx(ch, s, ops, vs, hooked).value == s.(evm := evm))
            && (hooked ==>
                  && |vs| == |logs| && !ProcessLogs(ch, s.(evm := evm), logs, vs).aborted
                  && EthTx(ch, s, ops, vs, hooked).value == ProcessLogs(ch, s.(evm := evm), logs, vs).state)
  {
    hide RunOps, ProcessLogs;
  }

  // A hooked transaction keeps the margin whatever the hook swallows. One without the hook keeps
  // it exactly when it moves no tokens of the pair to the module.
  lemma EthTxKeepsMarginIff(ch: Chain, s: State, ops: seq<TokenOp>, vs: seq<Verdict>, hooked: bool, c: Address,
                            d: Bytes)
    requires ch.Sound() && Core(ch, s) && ExternalPair(s.reg, c, d)
    requires HonestOps(ch, s.evm, ops) && EthTx(ch, s, ops, vs, hooked).Ok?
    ensures VoucherMargin(ch, EthTx(ch, s, ops, vs, hooked).value, c, d) == VoucherMargin(ch, s, c, d) <==>
            hooked || Pending(ch, RunOps(ch, s.evm, ops).value.1, c) == 0
  {
    hide EthTx, RunOps, HonestOps, ProcessLogs, Core, Bijective, ExternalPair, Pending, Chain.Sound;
    ExternalHasCode(ch, s, c, d);
    CoreIsBijective(ch, s);
    EthTxRuns(ch, s, ops, vs, hooked);
    var (evm, logs) := RunOps(ch, s.evm, ops).value;
    OpsGain(ch, s.evm, ops, c);
    if hooked {
      LoopMargin(ch, s.(evm := evm), logs, vs, c, d);
    }
  }

  // The loop takes from the margin what the logs have pending, whatever it swallows.
  lemma LoopMargin(ch: Chain, s: State, logs: seq<Log>, vs: seq<Verdict>, c: Address, d: Bytes)
    requires ch.Sound() && Bijective(ch, s.reg) && ExternalPair(s.reg, c, d)
    requires |vs| == |logs| && !ProcessLogs(ch, s, logs, vs).aborted
    ensures VoucherMargin(ch, ProcessLogs(ch, s, logs, vs).state, c, d) ==
            VoucherMargin(ch, s, c, d) - Pending(ch, logs, c)
  {
    hide ProcessLogs, Bijective, ExternalPair, Pending, Released;
    LoopSupply(ch, s, logs, vs, d);
    LoopKeepsTokens(ch, s, logs, vs, c, d);
    ReleasedIsPending(ch, s.reg, logs, c, d);
  }

  // ---- The registry ------------------------------------------------------------------

  lemma InsertKeepsExternal(ch: Chain, r: Registry, p: TokenPair, c: Address, d: Bytes)
    requires ExternalPair(r, c, d) && Contract(p) !in r.byErc20 && p.denom !in r.byDenom && GetID(ch, p) !in r.pairs
    ensures ExternalPair(Insert(ch, r, p), c, d)
  {
    hide Contract, GetID;
  }

  lemma MigrateKeepsExternal(ch: Chain, r: Registry, id: Bytes, to: Address, c: Address, d: Bytes)
    requires ch.Sound() && Bijective(ch, r) && id in r.pairs && ExternalPair(r, c, d)
    requires Contract(r.pairs[id]) != c && (to !in r.byErc20 || to == Contract(r.pairs[id]))
    ensures ExternalPair(Migrate(ch, r, r.pairs[id], Contract(r.pairs[id]), to), c, d)
  {
    hide Migrate, Text, GetID, Contract, IsHexAddress;
    var q := PairOfBoth(ch, r, c, d);
    var p', id' := MigrateWrites(ch, r, id, to);
    assert id != r.byErc20[c] && p'.denom != d;
  }

  lemma RegisterCoinKeepsExternal(ch: Chain, s: State, meta: Metadata<DenomUnit>, v: Verdict, c: Address, d: Bytes)
    requires ch.Sound() && Core(ch, s) && ExternalPair(s.reg, c, d)
    requires |meta.units| > 0 && RegisterCoin(ch, s, meta, v).Ok?
    ensures var s' := RegisterCoin(ch, s, meta, v).value;
            ExternalPair(s'.reg, c, d) && VoucherMargin(ch, s', c, d) == VoucherMargin(ch, s, c, d)
  {
    assert c in s.evm.tokens && Bijective(ch, s.reg);
    hide RegisterCoin, Insert, GetID, Contract, IsHexAddress, Core, Bijective, ExternalPair, Text;
    var p, k, t := RegisterCoinFacts(ch, s, meta, v);
    FreshIDs(ch, s.reg, p);
    InsertKeepsExternal(ch, s.reg, p, c, d);
  }

  lemma RegisterERC20KeepsExternal(ch: Chain, s: State, k: Address, q: Query, valid: bool, c: Address, d: Bytes)
    requires ch.Sound() && Core(ch, s) && RegisterERC20(ch, s, k, q, valid).Ok? && ExternalPair(s.reg, c, d)
    ensures var s' := RegisterERC20(ch, s, k, q, valid).value;
            ExternalPair(s'.reg, c, d) && VoucherMargin(ch, s', c, d) == VoucherMargin(ch, s, c, d)
  {
    assert Bijective(ch, s.reg);
    hide RegisterERC20, Insert, GetID, Contract, IsHexAddress, Core, Bijective, ExternalPair, Voucher;
    var p, meta := RegisterERC20Facts(ch, s, k, q, valid);
    FreshIDs(ch, s.reg, p);
    InsertKeepsExternal(ch, s.reg, p, c, d);
  }

  lemma UpdateKeepsExternal(ch: Chain, s: State, oldAddr: Address, newAddr: Address, q: Query, c: Address, d: Bytes)
    requires ch.Sound() && Core(ch, s) && ExternalPair(s.reg, c, d)
    requires UpdateTokenPairERC20(ch, s, oldAddr, newAddr, q).Ok?
    requires oldAddr != c && (newAddr !in s.reg.byErc20 || newAddr == oldAddr)
    ensures var s' := UpdateTokenPairERC20(ch, s, oldAddr, newAddr, q).value;
            ExternalPair(s'.reg, c, d) && VoucherMargin(ch, s', c, d) == VoucherMargin(ch, s, c, d)
  {
    CoreIsBijective(ch, s);
    hide UpdateTokenPairERC20, Migrate, GetID, Contract, Core, Bijective, ExternalPair;
    var id := UpdateFacts(ch, s, oldAddr, newAddr, q);
    MigrateKeepsExternal(ch, s.reg, id, newAddr, c, d);
  }

  lemma ToggleKeepsExternal(ch: Chain, s: State, token: Bytes, c: Address, d: Bytes)
    requires Core(ch, s) && ToggleRelay(ch, s, token).Ok? && ExternalPair(s.reg, c, d)
    ensures var s' := ToggleRelay(ch, s, token).value;
            ExternalPair(s'.reg, c, d) && VoucherMargin(ch, s', c, d) == VoucherMargin(ch, s, c, d)
  {
    hide ToggleRelay, GetID, Contract, Core, Bijective;
    var id := ToggleFacts(ch, s, token);
  }

  // ---- Steps and runs ----------------------------------------------------------------

  lemma TightMeans(ch: Chain, s: State, step: Step, c: Address, d: Bytes)
    requires Tight(ch, s, step, c, d)
    ensures step.StepDeploy? ==> step.at !in s.evm.tokens
    ensures step.StepBankMint? || step.StepBankBurn? ==> step.denom != d
  {
    hide HonestOps, RunOps, Pending, ValidCoinProposal, FindsOwnPair;
  }

  lemma OtherStepKeepsMargin(ch: Chain, s: State, step: Step, c: Address, d: Bytes)
    requires Core(ch, s) && ExternalPair(s.reg, c, d) && Tight(ch, s, step, c, d) && Try(ch, s, step).Ok?
    requires step.StepParams? || step.StepDeploy? || step.StepBankSend? || step.StepBankMint? || step.StepBankBurn?
             || step.StepSendDisabled?
    ensures Next(ch, s, step).reg == s.reg
    ensures VoucherMargin(ch, Next(ch, s, step), c, d) == VoucherMargin(ch, s, c, d)
  {
    hide Tight, Core, ExternalPair, VoucherMargin, Try, Next;
    ExternalHasCode(ch, s, c, d);
    TightMeans(ch, s, step, c, d);
    if step.StepBankSend? || step.StepBankMint? || step.StepBankBurn? {
      BankStepKeepsMargin(ch, s, step, c, d);
    } else {
      QuietStepKeepsMargin(ch, s, step, c, d);
    }
  }

  lemma BankStepKeepsMargin(ch: Chain, s: State, step: Step, c: Address, d: Bytes)
    requires Try(ch, s, step).Ok? && (step.StepBankSend? || step.StepBankMint? || step.StepBankBurn?)
    requires step.StepBankMint? || step.StepBankBurn? ==> step.denom != d
    ensures Next(ch, s, step).reg == s.reg
    ensures VoucherMargin(ch, Next(ch, s, step), c, d) == VoucherMargin(ch, s, c, d)
  {
    hide VoucherMargin, Bank.SetCoins, Move, Credit, Debit;
    match step
    case StepBankSend(from, to, k, n) =>
      SetCoinsKeepsMargin(ch, s, Next(ch, s, step), k, Move(s.bank.Coins(k), from, to, n), c, d);
    case StepBankMint(to, k, n) =>
      SetCoinsKeepsMargin(ch, s, Next(ch, s, step), k, Credit(s.bank.Coins(k), to, n), c, d);
    case StepBankBurn(from, k, n) =>
      SetCoinsKeepsMargin(ch, s, Next(ch, s, step), k, Debit(s.bank.Coins(k), from, n), c, d);
  }

  lemma QuietStepKeepsMargin(ch: Chain, s: State, step: Step, c: Address, d: Bytes)
    requires step.StepParams? || step.StepDeploy? || step.StepSendDisabled?
    requires c in s.evm.tokens && (step.StepDeploy? ==> step.at !in s.evm.tokens)
    ensures Next(ch, s, step).reg == s.reg
    ensures VoucherMargin(ch, Next(ch, s, step), c, d) == VoucherMargin(ch, s, c, d)
  {
    hide VoucherMargin;
    SameLedgersSameMargin(ch, s, Next(ch, s, step), c, d);
  }

  lemma SetCoinsKeepsMargin(ch: Chain, s: State, s': State, k: Bytes, l: Ledger, c: Address, d: Bytes)
    requires s'.bank == s.bank.SetCoins(k, l) && s'.evm == s.evm
    requires k == d ==> |l| == |s.bank.Coins(d)|
    ensures VoucherMargin(ch, s', c, d) == VoucherMargin(ch, s, c, d)
  {
  }

  lemma SameLedgersSameMargin(ch: Chain, s: State, s': State, c: Address, d: Bytes)
    requires s'.bank.coins == s.bank.coins
    requires c in s.evm.tokens && c in s'.evm.tokens && s'.evm.tokens[c] == s.evm.tokens[c]
    ensures VoucherMargin(ch, s', c, d) == VoucherMargin(ch, s, c, d)
  {
  }

  lemma StepKeepsMargin(ch: Chain, s: State, step: Step, c: Address, d: Bytes)
    requires ch.Sound() && Core(ch, s) && ExternalPair(s.reg, c, d) && Tight(ch, s, step, c, d)
    ensures ExternalPair(Next(ch, s, step).reg, c, d)
    ensures VoucherMargin(ch, Next(ch, s, step), c, d) == VoucherMargin(ch, s, c, d)
  {
    hide ConvertCoin, ConvertERC20, RegisterCoin, RegisterERC20, ToggleRelay, UpdateTokenPairERC20, EthTx, Core,
         ExternalPair, VoucherMargin, RunOps, HonestOps, FindsOwnPair;
    if Try(ch, s, step).Ok? {
      match step
      case StepConvertCoin(msg, v) =>
        ConvertCoinKeepsCore(ch, s, msg, v);
        ConvertCoinKeepsMargin(ch, s, msg, v, c, d);
      case StepConvertERC20(msg, v) =>
        ConvertERC20KeepsCore(ch, s, msg, v);
        ConvertERC20KeepsMargin(ch, s, msg, v, c, d);
      case StepRegisterCoin(meta, v) =>
        ProposalHasUnits(ch, s, meta, v);
        RegisterCoinKeepsExternal(ch, s, meta, v, c, d);
      case StepRegisterERC20(k, q, valid) => RegisterERC20KeepsExternal(ch, s, k, q, valid, c, d);
      case StepToggle(token) => ToggleKeepsExternal(ch, s, token, c, d);
      case StepUpdate(oldAddr, newAddr, q) => UpdateKeepsExternal(ch, s, oldAddr, newAddr, q, c, d);
      case StepEthTx(ops, vs, hooked) =>
        EthTxKeepsCore(ch, s, ops, vs, hooked);
        EthTxRuns(ch, s, ops, vs, hooked);
        EthTxKeepsMarginIff(ch, s, ops, vs, hooked, c, d);
      case _ => OtherStepKeepsMargin(ch, s, step, c, d);
    }
  }

  ghost predicate AllTight(ch: Chain, s: State, steps: seq<Step>, c: Address, d: Bytes)
    decreases |steps|
  {
    |steps| > 0 ==> Tight(ch, s, steps[0], c, d) && AllTight(ch, Next(ch, s, steps[0]), steps[1..], c, d)
  }

  // Along tight runs the margin never changes.
  lemma {:induction false} RunKeepsMargin(ch: Chain, s: State, steps: seq<Step>, c: Address, d: Bytes)
    requires ch.Sound() && Core(ch, s) && ExternalPair(s.reg, c, d) && AllTight(ch, s, steps, c, d)
    ensures VoucherMargin(ch, Run(ch, s, steps), c, d) == VoucherMargin(ch, s, c, d)
    decreases |steps|
  {
    if |steps| > 0 {
      TightIsProper(ch, s, steps[0], c, d);
      hide Core, ExternalPair, Tight, Proper, Next, VoucherMargin;
      StepKeepsCore(ch, s, steps[0]);
      StepKeepsMargin(ch, s, steps[0], c, d);
      RunKeepsMargin(ch, Next(ch, s, steps[0]), steps[1..], c, d);
    }
  }

  lemma TightIsProper(ch: Chain, s: State, step: Step, c: Address, d: Bytes)
    requires Tight(ch, s, step, c, d)
    ensures Proper(ch, s, step)
  {
  }

  // From its registration on, an external contract's vouchers are what the module holds less
  // what it held at registration, and equal to what it holds when that was nothing. Failures
  // that the hook swallows change nothing about it.
  lemma VouchersMatchEscrow(ch: Chain, s: State, c: Address, q: Query, valid: bool, steps: seq<Step>)
    requires ch.Sound() && Core(ch, s) && Backed(ch, s) && RegisterERC20(ch, s, c, q, valid).Ok?
    requires AllTight(ch, RegisterERC20(ch, s, c, q, valid).value, steps, c, Voucher(ch, c))
    ensures var s' := Run(ch, RegisterERC20(ch, s, c, q, valid).value, steps);
            |s'.bank.Coins(Voucher(ch, c))| + s.evm.Tokens(c)[ch.moduleAddress] == s'.evm.Tokens(c)[ch.moduleAddress]
  {
    CoreIsBijective(ch, s);
    VoucherIsVoucher(ch, c);
    var d, s1 := Voucher(ch, c), RegisterERC20(ch, s, c, q, valid).value;
    var p, meta := RegisterERC20Facts(ch, s, c, q, valid);
    assert |s.bank.Coins(d)| == 0 by {
      hide IsVoucher, Voucher, RegisterERC20;
    }
    hide RegisterERC20, Voucher, IsVoucher, Core, Backed, AllTight, Run, Bijective, IsHexAddress, GetID, Contract;
    NewPairIsExternal(ch, s.reg, p);
    RegisterERC20KeepsCore(ch, s, c, q, valid);
    RunKeepsMargin(ch, s1, steps, c, d);
  }

  lemma NewPairIsExternal(ch: Chain, r: Registry, p: TokenPair)
    requires p.contractOwner == OWNER_EXTERNAL
    ensures ExternalPair(Insert(ch, r, p), Contract(p), p.denom)
  {
    hide Contract, GetID;
  }
}
