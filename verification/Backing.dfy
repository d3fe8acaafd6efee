// Backing: what the module account holds covers what the bridge owes.
module Backing {
  import opened Base
  import opened Chains
  import opened Ledgers
  import opened Registries
  import opened TokenPairCodec
  import opened States
  import opened Conversions
  import opened Governance
  import opened Hook
  import opened Steps

  // Amounts in transfers to the module that the hook has yet to credit, on one contract.
  function Pending(ch: Chain, logs: seq<Log>, c: Address): nat
  {
    if |logs| == 0 then 0 else PendingIn(ch, logs[0], c) + Pending(ch, logs[1..], c)
  }

  function PendingIn(ch: Chain, log: Log, c: Address): nat
  {
    if log.address == c && Amount(ch, log) > 0 && TopicAddress(log.topics[2]) == ch.moduleAddress
    then Amount(ch, log)
    else 0
  }

  // A native coin's escrow covers its contract's supply, and the module's tokens in an external
  // contract cover the vouchers with room for what is pending.
  ghost predicate Covered(ch: Chain, bank: Bank, evm: Evm, p: TokenPair, pending: nat)
  {
    var c := Contract(p);
    && (p.contractOwner == OWNER_MODULE ==>
          && !IsVoucher(p.denom)
          && c in evm.tokens && evm.tokens[c].owned
          && bank.Coins(p.denom)[ch.moduleAddress] >= |evm.Tokens(c)|)
    && (p.contractOwner == OWNER_EXTERNAL ==>
          && IsVoucher(p.denom)
          && |bank.Coins(p.denom)| + pending <= evm.Tokens(c)[ch.moduleAddress])
  }

  ghost predicate PairsCovered(ch: Chain, bank: Bank, evm: Evm, r: Registry, logs: seq<Log>)
  {
    forall id :: id in r.pairs ==> Covered(ch, bank, evm, r.pairs[id], Pending(ch, logs, Contract(r.pairs[id])))
  }

  ghost predicate NoStrayVouchers(bank: Bank, r: Registry)
  {
    forall d :: IsVoucher(d) && d !in r.byDenom ==> |bank.Coins(d)| == 0
  }

  // All registered pairs are covered, and vouchers exist only for registered contracts.
  ghost predicate BackedWith(ch: Chain, s: State, logs: seq<Log>)
  {
    PairsCovered(ch, s.bank, s.evm, s.reg, logs) && NoStrayVouchers(s.bank, s.reg)
  }

  ghost predicate Backed(ch: Chain, s: State)
  {
    BackedWith(ch, s, [])
  }

  // ---- What is assumed of the steps --------------------------------------------------

  // Every operation of a transaction is honest when it runs.
  ghost predicate HonestOps(ch: Chain, evm: Evm, ops: seq<TokenOp>)
    decreases |ops|
  {
    |ops| > 0 ==>
      && HonestOp(ch, evm, ops[0])
      && (RunOp(ch, evm, ops[0]).Some? ==> HonestOps(ch, RunOp(ch, evm, ops[0]).value.0, ops[1..]))
  }

  // A pair is covered at the contract that it moves to.
  ghost predicate CoveredAt(ch: Chain, s: State, p: TokenPair, c: Address)
  {
    && (p.contractOwner == OWNER_MODULE ==>
          c in s.evm.tokens && s.evm.tokens[c].owned && s.bank.Coins(p.denom)[ch.moduleAddress] >= |s.evm.Tokens(c)|)
    && (p.contractOwner == OWNER_EXTERNAL ==> |s.bank.Coins(p.denom)| <= s.evm.Tokens(c)[ch.moduleAddress])
  }

  // The module account does not sign, converted coins find their own pair, the
  // only vouchers are the bridge's, and a pair migrates to a contract that covers it.
  ghost predicate Honest(ch: Chain, s: State, step: Step)
  {
    && Proper(ch, s, step)
    && match step
       case StepConvertCoin(msg, v) => msg.sender != ch.moduleAddress && FindsOwnPair(s.reg, msg.denom)
       case StepConvertERC20(msg, v) => msg.sender != ch.moduleAddress
       case StepUpdate(oldAddr, newAddr, q) =>
         oldAddr in s.reg.byErc20 && s.reg.byErc20[oldAddr] in s.reg.pairs
         ==> CoveredAt(ch, s, s.reg.pairs[s.reg.byErc20[oldAddr]], newAddr)
       case StepEthTx(ops, vs, hooked) => HonestOps(ch, s.evm, ops)
       case StepBankSend(from, to, denom, n) => from != ch.moduleAddress
       case StepBankMint(to, denom, n) => !IsVoucher(denom)
       case StepBankBurn(from, denom, n) => from != ch.moduleAddress
       case _ => true
  }

  // ---- Conversions -------------------------------------------------------------------

  // A step that rewrites one pair's two ledgers keeps all others covered.
  lemma RewritesKeepOthers(ch: Chain, s: State, s': State, p: TokenPair, l: Ledger, t: Ledger)
    requires Bijective(ch, s.reg) && Backed(ch, s)
    requires GetID(ch, p) in s.reg.pairs && s.reg.pairs[GetID(ch, p)] == p
    requires Rewrites(s, s', p.denom, l, Contract(p), t)
    requires Covered(ch, s'.bank, s'.evm, p, 0)
    ensures Backed(ch, s')
  {
    hide GetID, Contract, IsVoucher, Covered;
    var id := GetID(ch, p);
    assert p.denom in s.reg.byDenom;
    forall i | i in s'.reg.pairs
      ensures Covered(ch, s'.bank, s'.evm, s'.reg.pairs[i], 0)
    {
      var q := s.reg.pairs[i];
      assert Covered(ch, s.bank, s.evm, q, Pending(ch, [], Contract(q)));
      if i != id {
        NoSharing(ch, s.reg, i, id);
        CoveredFrame(ch, s, s', q, 0);
      }
    }
  }

  lemma CoveredAfterConvertCoin(ch: Chain, s: State, s': State, p: TokenPair, msg: MsgConvertCoin)
    requires CoinsBecomeTokens(ch, s, s', p, msg) && p.denom == msg.denom
    requires msg.sender != ch.moduleAddress && msg.receiver != ch.moduleAddress
    requires Covered(ch, s.bank, s.evm, p, 0)
    ensures Covered(ch, s'.bank, s'.evm, p, 0)
  {
    hide Contract, IsVoucher, BumpsNonce;
  }

  lemma CoveredAfterConvertERC20(ch: Chain, s: State, s': State, p: TokenPair, msg: MsgConvertERC20)
    requires TokensBecomeCoins(ch, s, s', p, msg)
    requires msg.sender != ch.moduleAddress && msg.receiver != ch.moduleAddress
    requires Covered(ch, s.bank, s.evm, p, 0)
    ensures Covered(ch, s'.bank, s'.evm, p, 0)
  {
    hide Contract, IsVoucher, BumpsNonce;
  }

  lemma StoredIsCovered(ch: Chain, s: State, p: TokenPair)
    requires Backed(ch, s) && GetID(ch, p) in s.reg.pairs && s.reg.pairs[GetID(ch, p)] == p
    ensures Covered(ch, s.bank, s.evm, p, 0)
  {
    hide GetID, Covered, Contract;
    assert Pending(ch, [], Contract(p)) == 0;
  }

  lemma ConvertCoinKeepsBacking(ch: Chain, s: State, msg: MsgConvertCoin, v: Verdict)
    requires Core(ch, s) && Backed(ch, s) && ConvertCoin(ch, s, msg, v).Ok?
    requires msg.sender != ch.moduleAddress && FindsOwnPair(s.reg, msg.denom)
    ensures Backed(ch, ConvertCoin(ch, s, msg, v).value)
  {
    var m, n, s' := ch.moduleAddress, msg.amount, ConvertCoin(ch, s, msg, v).value;
    hide ConvertCoin, MintingEnabled, Backed, Contract, Covered, GetID, Resolve, Bijective;
    ConvertCoinEnabled(ch, s, msg, v);
    var p := MintingEnabled(s, msg.sender, msg.receiver, msg.denom).value;
    ResolvedHasCode(ch, s, msg.sender, msg.receiver, msg.denom);
    ConvertCoinEffect(ch, s, msg, v);
    StoredIsCovered(ch, s, p);
    CoveredAfterConvertCoin(ch, s, s', p, msg);
    var l, t := s.bank.Coins(p.denom), s.evm.Tokens(Contract(p));
    if p.contractOwner == OWNER_MODULE {
      RewritesKeepOthers(ch, s, s', p, Move(l, msg.sender, m, n), Credit(t, msg.receiver, n));
    } else {
      RewritesKeepOthers(ch, s, s', p, Debit(l, msg.sender, n), Move(t, m, msg.receiver, n));
    }
  }

  lemma ConvertERC20KeepsBacking(ch: Chain, s: State, msg: MsgConvertERC20, v: Verdict)
    requires Core(ch, s) && Backed(ch, s) && ConvertERC20(ch, s, msg, v).Ok?
    requires msg.sender != ch.moduleAddress
    ensures Backed(ch, ConvertERC20(ch, s, msg, v).value)
  {
    var m, n, s' := ch.moduleAddress, msg.amount, ConvertERC20(ch, s, msg, v).value;
    hide ConvertERC20, MintingEnabled, Backed, Contract, Covered, GetID, Bijective;
    ConvertERC20Enabled(ch, s, msg, v);
    var p := MintingEnabled(s, msg.sender, msg.receiver, msg.contract).value;
    ResolvedHasCode(ch, s, msg.sender, msg.receiver, msg.contract);
    ConvertERC20Effect(ch, s, msg, v);
    StoredIsCovered(ch, s, p);
    CoveredAfterConvertERC20(ch, s, s', p, msg);
    var l, t := s.bank.Coins(p.denom), s.evm.Tokens(Contract(p));
    if p.contractOwner == OWNER_MODULE {
      RewritesKeepOthers(ch, s, s', p, Move(l, m, msg.receiver, n), Debit(t, msg.sender, n));
    } else {
      RewritesKeepOthers(ch, s, s', p, Credit(l, msg.receiver, n), Move(t, msg.sender, m, n));
    }
  }

  // ---- Coins that find another pair --------------------------------------------------

  // How many more tokens the module holds than vouchers circulate.
  ghost function VoucherMargin(ch: Chain, s: State, c: Address, d: Bytes): int
  {
    s.evm.Tokens(c)[ch.moduleAddress] - |s.bank.Coins(d)|
  }

  // How much more the module holds for a pair than it owes.
  ghost function Margin(ch: Chain, s: State, p: TokenPair): int
  {
    if p.contractOwner == OWNER_MODULE then s.bank.Coins(p.denom)[ch.moduleAddress] - |s.evm.Tokens(Contract(p))|
    else VoucherMargin(ch, s, Contract(p), p.denom)
  }

  // ConvertCoin takes the coins that the message names and gives out tokens of the pair that it
  // finds. For both kinds of owners, the pair's margin is kept exactly when the coin finds its
  // own pair, and shrinks by the amount otherwise.
  lemma ConvertCoinKeepsMarginIff(ch: Chain, s: State, msg: MsgConvertCoin, v: Verdict)
    requires Core(ch, s) && ConvertCoin(ch, s, msg, v).Ok? && msg.sender != ch.moduleAddress && msg.amount > 0
    ensures var p, s' := MintingEnabled(s, msg.sender, msg.receiver, msg.denom).value, ConvertCoin(ch, s, msg, v).value;
            && (Margin(ch, s', p) == Margin(ch, s, p) <==> FindsOwnPair(s.reg, msg.denom))
            && (!FindsOwnPair(s.reg, msg.denom) ==> Margin(ch, s', p) == Margin(ch, s, p) - msg.amount)
  {
    hide ConvertCoin, MintingEnabled, Contract, GetID, Bijective, BumpsNonce, Resolve, CoinsBecomeTokens, Margin;
    ConvertCoinEnabled(ch, s, msg, v);
    ResolvedHasCode(ch, s, msg.sender, msg.receiver, msg.denom);
    ConvertCoinEffect(ch, s, msg, v);
    var p := MintingEnabled(s, msg.sender, msg.receiver, msg.denom).value;
    EffectOnMargin(ch, s, ConvertCoin(ch, s, msg, v).value, p, msg);
  }

  lemma EffectOnMargin(ch: Chain, s: State, s': State, p: TokenPair, msg: MsgConvertCoin)
    requires CoinsBecomeTokens(ch, s, s', p, msg)
    requires msg.sender != ch.moduleAddress && msg.receiver != ch.moduleAddress
    ensures Margin(ch, s', p) == Margin(ch, s, p) - if p.denom == msg.denom then 0 else msg.amount
  {
    hide Contract, BumpsNonce;
  }

  // ---- User transactions -------------------------------------------------------------

  lemma PendingInTransfer(ch: Chain, contract: Address, from: Address, to: Address, n: nat, c: Address)
    requires ch.Sound()
    ensures PendingIn(ch, TransferLog(ch, contract, from, to, n), c) ==
            if contract == c && to == ch.moduleAddress then n else 0
  {
  }

  // A contract whose supply does not grow, if the bridge owns it, and in which the module
  // gains extra.
  lemma CoveredAfterSet(ch: Chain, bank: Bank, evm: Evm, p: TokenPair, k: nat, c: Address, l: Ledger, extra: nat)
    requires c in evm.tokens && Covered(ch, bank, evm, p, k)
    requires evm.tokens[c].owned ==> |l| <= |evm.Tokens(c)|
    requires l[ch.moduleAddress] >= evm.Tokens(c)[ch.moduleAddress] + extra
    ensures Covered(ch, bank, evm.SetTokens(c, l), p, k + if c == Contract(p) then extra else 0)
  {
    hide Contract, IsVoucher;
  }

  // What an honest operation moves to the module is what its log has pending.
  lemma OpKeepsCover(ch: Chain, bank: Bank, evm: Evm, op: TokenOp, p: TokenPair, k: nat)
    requires ch.Sound() && HonestOp(ch, evm, op) && RunOp(ch, evm, op).Some?
    requires Contract(p) in evm.tokens && Covered(ch, bank, evm, p, k)
    ensures var (evm', log) := RunOp(ch, evm, op).value;
            Covered(ch, bank, evm', p, k + PendingIn(ch, log, Contract(p)))
  {
    hide Contract, Covered, PendingIn, TransferLog, Amount, Evm.SetTokens;
    var m := ch.moduleAddress;
    match op
    case UserTransfer(c, from, to, n) =>
      PendingInTransfer(ch, c, from, to, n, Contract(p));
      CoveredAfterSet(ch, bank, evm, p, k, c, Move(evm.Tokens(c), from, to, n), if to == m then n else 0);
    case UserMint(c, to, n) =>
      PendingInTransfer(ch, c, 0, to, n, Contract(p));
      CoveredAfterSet(ch, bank, evm, p, k, c, Credit(evm.Tokens(c), to, n), if to == m then n else 0);
    case UserBurn(c, from, n) =>
      PendingInTransfer(ch, c, from, 0, n, Contract(p));
      CoveredAfterSet(ch, bank, evm, p, k, c, Debit(evm.Tokens(c), from, n), 0);
    case EmitLog(log) => NothingPending(ch, evm, log, Contract(p));
  }

  lemma NothingPending(ch: Chain, evm: Evm, log: Log, c: Address)
    requires c in evm.tokens && (log.address !in evm.tokens || Amount(ch, log) == 0)
    ensures PendingIn(ch, log, c) == 0
  {
  }

  lemma {:induction false} OpsKeepCover(ch: Chain, bank: Bank, evm: Evm, ops: seq<TokenOp>, p: TokenPair, k: nat)
    requires ch.Sound() && HonestOps(ch, evm, ops) && RunOps(ch, evm, ops).Some?
    requires Contract(p) in evm.tokens && Covered(ch, bank, evm, p, k)
    ensures var (evm', logs) := RunOps(ch, evm, ops).value;
            Covered(ch, bank, evm', p, k + Pending(ch, logs, Contract(p)))
    decreases |ops|
  {
    hide Covered, HonestOp, RunOp, PendingIn, Contract;
    if |ops| > 0 {
      var first := RunOp(ch, evm, ops[0]).value;
      OpKeepsCover(ch, bank, evm, ops[0], p, k);
      RunOpKeepsCode(ch, evm, ops[0]);
      OpsKeepCover(ch, bank, first.0, ops[1..], p, k + PendingIn(ch, first.1, Contract(p)));
      assert RunOps(ch, evm, ops).value.1[1..] == RunOps(ch, first.0, ops[1..]).value.1;
    }
  }

  lemma NonePending(ch: Chain, c: Address)
    ensures Pending(ch, [], c) == 0
  {
  }

  lemma OpsKeepPair(ch: Chain, s: State, ops: seq<TokenOp>, id: Bytes)
    requires ch.Sound() && Backed(ch, s) && id in s.reg.pairs && Contract(s.reg.pairs[id]) in s.evm.tokens
    requires HonestOps(ch, s.evm, ops) && RunOps(ch, s.evm, ops).Some?
    ensures Covered(ch, s.bank, RunOps(ch, s.evm, ops).value.0, s.reg.pairs[id],
                    Pending(ch, RunOps(ch, s.evm, ops).value.1, Contract(s.reg.pairs[id])))
  {
    hide Covered, HonestOps, RunOps, Contract, NoStrayVouchers, Pending;
    NonePending(ch, Contract(s.reg.pairs[id]));
    OpsKeepCover(ch, s.bank, s.evm, ops, s.reg.pairs[id], 0);
  }

  // After the operations of a transaction, everything is covered with what its logs say.
  lemma OpsKeepBacking(ch: Chain, s: State, ops: seq<TokenOp>)
    requires ch.Sound() && Core(ch, s) && Backed(ch, s)
    requires HonestOps(ch, s.evm, ops) && RunOps(ch, s.evm, ops).Some?
    ensures BackedWith(ch, s.(evm := RunOps(ch, s.evm, ops).value.0), RunOps(ch, s.evm, ops).value.1)
  {
    PairsHaveCode(ch, s);
    hide Core, Covered, HonestOps, RunOps, Contract, NoStrayVouchers, Pending;
    forall id | id in s.reg.pairs
      ensures Covered(ch, s.bank, RunOps(ch, s.evm, ops).value.0, s.reg.pairs[id],
                      Pending(ch, RunOps(ch, s.evm, ops).value.1, Contract(s.reg.pairs[id])))
    {
      OpsKeepPair(ch, s, ops, id);
    }
  }

  // Less pending is easier to cover.
  lemma CoveredWithLess(ch: Chain, bank: Bank, evm: Evm, p: TokenPair, k: nat, k': nat)
    requires Covered(ch, bank, evm, p, k) && k' <= k
    ensures Covered(ch, bank, evm, p, k')
  {
    hide Contract, IsVoucher;
  }

  lemma BackedWithFewer(ch: Chain, s: State, logs: seq<Log>)
    requires |logs| > 0 && BackedWith(ch, s, logs)
    ensures BackedWith(ch, s, logs[1..])
  {
    hide Covered, Contract, NoStrayVouchers;
    forall id | id in s.reg.pairs
      ensures Covered(ch, s.bank, s.evm, s.reg.pairs[id], Pending(ch, logs[1..], Contract(s.reg.pairs[id])))
    {
      var c := Contract(s.reg.pairs[id]);
      CoveredWithLess(ch, s.bank, s.evm, s.reg.pairs[id], Pending(ch, logs, c), Pending(ch, logs[1..], c));
    }
  }

  // The ledgers that one log with an effect leaves alone.
  lemma LogTouchesOnePair(ch: Chain, s: State, log: Log, v: Verdict, p: TokenPair)
    requires ProcessLog(ch, s, log, v).Swallow? || ProcessLog(ch, s, log, v).Convert?
    requires PairOf(s.reg, log) == Some(p)
    ensures var s' := ProcessLog(ch, s, log, v).state;
            && OnlyLedgers(s, s')
            && (forall d :: d != p.denom ==> s'.bank.Coins(d) == s.bank.Coins(d))
            && s'.evm.tokens.Keys == s.evm.tokens.Keys
            && (forall c :: c != log.address && c in s.evm.tokens ==> s'.evm.tokens[c] == s.evm.tokens[c])
  {
    hide ProcessLog, Release, Bank.SendFromModule, PairOf, Amount, Bank.Coins;
    var q, r := EffectOfLog(ch, s, log, v);
    ReleaseTouchesOne(ch, s, p, log.address, Amount(ch, log), v);
    SendKeepsLists(ch, r.bank, Sender(log), p.denom, Amount(ch, log));
  }

  lemma ReleaseTouchesOne(ch: Chain, s: State, p: TokenPair, a: Address, n: nat, v: Verdict)
    ensures var s' := Release(ch, s, p, a, n, v).0;
            && (forall d :: d != p.denom ==> s'.bank.Coins(d) == s.bank.Coins(d))
            && s'.evm.tokens.Keys == s.evm.tokens.Keys
            && (forall c :: c != a && c in s.evm.tokens ==> s'.evm.tokens[c] == s.evm.tokens[c])
  {
    hide Execute, Credit;
  }

  // The pair itself stays covered when what its log had pending is done.
  lemma LogKeepsCover(ch: Chain, s: State, log: Log, v: Verdict, p: TokenPair, k: nat)
    requires ProcessLog(ch, s, log, v).Swallow? || ProcessLog(ch, s, log, v).Convert?
    requires PairOf(s.reg, log) == Some(p) && Contract(p) == log.address
    requires Covered(ch, s.bank, s.evm, p, k + PendingIn(ch, log, log.address))
    ensures var s' := ProcessLog(ch, s, log, v).state;
            Covered(ch, s'.bank, s'.evm, p, k)
  {
    hide ProcessLog, Release, Bank.SendFromModule, PairOf, Contract, Covered, Amount;
    var n := Amount(ch, log);
    var q, r := EffectOfLog(ch, s, log, v);
    ReleaseKeepsCover(ch, s, p, log.address, n, v, k);
    if Release(ch, s, p, log.address, n, v).1 && r.bank.SendFromModule(ch, Sender(log), p.denom, n).Ok? {
      SendKeepsCover(ch, r, p, Sender(log), n, k);
    }
  }

  // After the release, a native coin's escrow exceeds the supply by what is about to be sent.
  lemma ReleaseKeepsCover(ch: Chain, s: State, p: TokenPair, c: Address, n: nat, v: Verdict, k: nat)
    requires Contract(p) == c && Covered(ch, s.bank, s.evm, p, k + n)
    ensures var (s', ok) := Release(ch, s, p, c, n, v);
            && Covered(ch, s'.bank, s'.evm, p, k)
            && (ok && p.contractOwner == OWNER_MODULE ==>
                  s'.bank.Coins(p.denom)[ch.moduleAddress] >= |s'.evm.Tokens(c)| + n)
  {
    hide IsVoucher, Contract;
  }

  lemma SendKeepsCover(ch: Chain, s: State, p: TokenPair, to: Address, n: nat, k: nat)
    requires Covered(ch, s.bank, s.evm, p, k) && s.bank.SendFromModule(ch, to, p.denom, n).Ok?
    requires p.contractOwner == OWNER_MODULE ==>
               s.bank.Coins(p.denom)[ch.moduleAddress] >= |s.evm.Tokens(Contract(p))| + n
    ensures Covered(ch, s.bank.SendFromModule(ch, to, p.denom, n).value, s.evm, p, k)
  {
    hide IsVoucher, Contract;
  }

  lemma CoveredFrame(ch: Chain, s: State, s': State, q: TokenPair, k: nat)
    requires Covered(ch, s.bank, s.evm, q, k)
    requires s'.bank.Coins(q.denom) == s.bank.Coins(q.denom)
    requires s'.evm.tokens.Keys == s.evm.tokens.Keys
    requires Contract(q) in s.evm.tokens ==> s'.evm.tokens[Contract(q)] == s.evm.tokens[Contract(q)]
    ensures Covered(ch, s'.bank, s'.evm, q, k)
  {
    hide IsVoucher, Contract;
  }

  lemma PairOfIsStored(ch: Chain, r: Registry, log: Log)
    requires Bijective(ch, r) && PairOf(r, log).Some?
    ensures log.address in r.byErc20 && r.byErc20[log.address] in r.pairs
    ensures PairOf(r, log).value == r.pairs[r.byErc20[log.address]] && Contract(PairOf(r, log).value) == log.address
  {
    hide Contract, GetID;
  }

  // A pair of another log.
  lemma LogKeepsOther(ch: Chain, s: State, logs: seq<Log>, v: Verdict, p: TokenPair, i: Bytes)
    requires Bijective(ch, s.reg) && |logs| > 0
    requires ProcessLog(ch, s, logs[0], v).Swallow? || ProcessLog(ch, s, logs[0], v).Convert?
    requires PairOf(s.reg, logs[0]) == Some(p)
    requires i in s.reg.pairs && i != s.reg.byErc20[logs[0].address]
    requires Covered(ch, s.bank, s.evm, s.reg.pairs[i], Pending(ch, logs, Contract(s.reg.pairs[i])))
    ensures var s', q := ProcessLog(ch, s, logs[0], v).state, s.reg.pairs[i];
            Covered(ch, s'.bank, s'.evm, q, Pending(ch, logs[1..], Contract(q)))
  {
    hide ProcessLog, Covered, Contract, GetID, PairOf, PendingIn, Bijective;
    var q, s' := s.reg.pairs[i], ProcessLog(ch, s, logs[0], v).state;
    var c := Contract(q);
    PairOfIsStored(ch, s.reg, logs[0]);
    LogTouchesOnePair(ch, s, logs[0], v, p);
    NoSharing(ch, s.reg, i, s.reg.byErc20[logs[0].address]);
    CoveredWithLess(ch, s.bank, s.evm, q, Pending(ch, logs, c), Pending(ch, logs[1..], c));
    CoveredFrame(ch, s, s', q, Pending(ch, logs[1..], c));
  }

  lemma LogKeepsBacking(ch: Chain, s: State, logs: seq<Log>, v: Verdict)
    requires Bijective(ch, s.reg) && |logs| > 0 && BackedWith(ch, s, logs)
    requires ProcessLog(ch, s, logs[0], v).Swallow? || ProcessLog(ch, s, logs[0], v).Convert?
    ensures BackedWith(ch, ProcessLog(ch, s, logs[0], v).state, logs[1..])
  {
    assert PairOf(s.reg, logs[0]).Some?;
    hide ProcessLog, Covered, Contract, GetID, IsVoucher, PairOf, PendingIn, Bijective;
    var log, s' := logs[0], ProcessLog(ch, s, logs[0], v).state;
    PairOfIsStored(ch, s.reg, log);
    var p, id := PairOf(s.reg, log).value, s.reg.byErc20[log.address];
    LogTouchesOnePair(ch, s, log, v, p);
    StrayFrame(ch, s, s', p, id);
    hide NoStrayVouchers, OnlyLedgers;
    LogKeepsCover(ch, s, log, v, p, Pending(ch, logs[1..], log.address));
    forall i | i in s.reg.pairs
      ensures Covered(ch, s'.bank, s'.evm, s.reg.pairs[i], Pending(ch, logs[1..], Contract(s.reg.pairs[i])))
    {
      if i != id {
        LogKeepsOther(ch, s, logs, v, p, i);
      }
    }
  }

  lemma StrayFrame(ch: Chain, s: State, s': State, p: TokenPair, id: Bytes)
    requires Bijective(ch, s.reg) && id in s.reg.pairs && s.reg.pairs[id] == p
    requires NoStrayVouchers(s.bank, s.reg) && s'.reg == s.reg
    requires forall d :: d != p.denom ==> s'.bank.Coins(d) == s.bank.Coins(d)
    ensures NoStrayVouchers(s'.bank, s'.reg)
  {
    hide IsVoucher, Contract, GetID;
  }

  // The loop keeps every pair covered, whatever fails in it.
  lemma {:induction false} LoopKeepsBacking(ch: Chain, s: State, logs: seq<Log>, vs: seq<Verdict>)
    requires Core(ch, s) && |vs| == |logs| && BackedWith(ch, s, logs)
    requires !ProcessLogs(ch, s, logs, vs).aborted
    ensures Backed(ch, ProcessLogs(ch, s, logs, vs).state)
    decreases |logs|
  {
    hide ProcessLog, BackedWith, Core, OnlyLedgers;
    if |logs| == 0 {
      assert logs == [];
    } else {
      CoreIsBijective(ch, s);
      match ProcessLog(ch, s, logs[0], vs[0])
      case Skip =>
        BackedWithFewer(ch, s, logs);
        LoopKeepsBacking(ch, s, logs[1..], vs[1..]);
      case Abort =>
      case Swallow(s') =>
        LogKeepsCore(ch, s, logs[0], vs[0]);
        LogKeepsBacking(ch, s, logs, vs[0]);
        LoopKeepsBacking(ch, s', logs[1..], vs[1..]);
      case Convert(s') =>
        LogKeepsCore(ch, s, logs[0], vs[0]);
        LogKeepsBacking(ch, s, logs, vs[0]);
        LoopKeepsBacking(ch, s', logs[1..], vs[1..]);
    }
  }

  lemma LogKeepsCore(ch: Chain, s: State, log: Log, v: Verdict)
    requires Core(ch, s)
    requires ProcessLog(ch, s, log, v).Swallow? || ProcessLog(ch, s, log, v).Convert?
    ensures Core(ch, ProcessLog(ch, s, log, v).state)
  {
    hide ProcessLog, Bijective;
    ProcessLogContinues(ch, s, log, v);
    CoreFrame(ch, s, ProcessLog(ch, s, log, v).state);
  }

  lemma EthTxKeepsBacking(ch: Chain, s: State, ops: seq<TokenOp>, vs: seq<Verdict>, hooked: bool)
    requires ch.Sound() && Core(ch, s) && Backed(ch, s) && HonestOps(ch, s.evm, ops)
    requires EthTx(ch, s, ops, vs, hooked).Ok?
    ensures Backed(ch, EthTx(ch, s, ops, vs, hooked).value)
  {
    hide RunOps, HonestOps, Core, BackedWith, ProcessLogs;
    OpsKeepBacking(ch, s, ops);
    var (evm, logs) := RunOps(ch, s.evm, ops).value;
    var s1 := s.(evm := evm);
    RunOpsKeepCore(ch, s, ops);
    if hooked {
      LoopKeepsBacking(ch, s1, logs, vs);
    } else {
      BackedWithNone(ch, s1, logs);
    }
  }

  lemma RunOpsKeepCore(ch: Chain, s: State, ops: seq<TokenOp>)
    requires Core(ch, s) && RunOps(ch, s.evm, ops).Some?
    ensures Core(ch, s.(evm := RunOps(ch, s.evm, ops).value.0))
  {
    hide RunOps, Bijective;
    RunOpsKeepCode(ch, s.evm, ops);
    CoreFrame(ch, s, s.(evm := RunOps(ch, s.evm, ops).value.0));
  }

  lemma {:induction false} BackedWithNone(ch: Chain, s: State, logs: seq<Log>)
    requires BackedWith(ch, s, logs)
    ensures Backed(ch, s)
    decreases |logs|
  {
    hide BackedWith;
    if |logs| == 0 {
      assert logs == [];
    } else {
      BackedWithFewer(ch, s, logs);
      BackedWithNone(ch, s, logs[1..]);
    }
  }

  // ---- Registration, migration and the other steps -----------------------------------

  // A new pair joins covered pairs whose ledgers do not change.
  lemma InsertKeepsBacking(ch: Chain, s: State, s': State, p: TokenPair)
    requires Backed(ch, s) && Bijective(ch, s.reg)
    requires s'.reg == Insert(ch, s.reg, p) && s'.bank.coins == s.bank.coins
    requires s'.evm.tokens.Keys >= s.evm.tokens.Keys
    requires forall c :: c in s.evm.tokens ==> s'.evm.tokens[c] == s.evm.tokens[c]
    requires forall id :: id in s.reg.pairs ==> Contract(s.reg.pairs[id]) in s.evm.tokens
    requires Covered(ch, s'.bank, s'.evm, p, 0)
    ensures Backed(ch, s')
  {
    InsertIndexes(ch, s.reg, p);
    hide Insert, GetID, Contract, IsVoucher, Bijective;
    assert forall d :: s'.bank.Coins(d) == s.bank.Coins(d);
    forall id | id in s'.reg.pairs
      ensures Covered(ch, s'.bank, s'.evm, s'.reg.pairs[id], 0)
    {
      if id != GetID(ch, p) {
        assert Covered(ch, s.bank, s.evm, s.reg.pairs[id], Pending(ch, [], Contract(s.reg.pairs[id])));
      }
    }
  }

  lemma PairsHaveCode(ch: Chain, s: State)
    requires Core(ch, s)
    ensures forall id :: id in s.reg.pairs ==> Contract(s.reg.pairs[id]) in s.evm.tokens
  {
    hide Contract, GetID;
  }

  lemma RegisterCoinKeepsBacking(ch: Chain, s: State, meta: Metadata<DenomUnit>, v: Verdict)
    requires ch.Sound() && Core(ch, s) && Backed(ch, s) && ValidCoinProposal(meta) && RegisterCoin(ch, s, meta, v).Ok?
    ensures Backed(ch, RegisterCoin(ch, s, meta, v).value)
  {
    var p, c, t := RegisterCoinFacts(ch, s, meta, v);
    ValidBaseIsNoVoucher(meta.base);
    PairsHaveCode(ch, s);
    hide RegisterCoin, Core, Backed, Contract, IsVoucher, Insert, Text, IsHexAddress;
    CoreIsBijective(ch, s);
    InsertKeepsBacking(ch, s, RegisterCoin(ch, s, meta, v).value, p);
  }

  lemma RegisterERC20KeepsBacking(ch: Chain, s: State, c: Address, q: Query, valid: bool)
    requires ch.Sound() && Core(ch, s) && Backed(ch, s) && RegisterERC20(ch, s, c, q, valid).Ok?
    ensures Backed(ch, RegisterERC20(ch, s, c, q, valid).value)
  {
    var p, meta := RegisterERC20Facts(ch, s, c, q, valid);
    VoucherIsVoucher(ch, c);
    PairsHaveCode(ch, s);
    assert |s.bank.Coins(p.denom)| == 0;
    hide RegisterERC20, Core, Backed, Contract, IsVoucher, Insert, Text, IsHexAddress, Voucher;
    CoreIsBijective(ch, s);
    InsertKeepsBacking(ch, s, RegisterERC20(ch, s, c, q, valid).value, p);
  }

  lemma ToggleKeepsBacking(ch: Chain, s: State, token: Bytes)
    requires Core(ch, s) && Backed(ch, s) && ToggleRelay(ch, s, token).Ok?
    ensures Backed(ch, ToggleRelay(ch, s, token).value)
  {
    var id := ToggleFacts(ch, s, token);
    hide ToggleRelay, Core, Bijective, IsVoucher, NoStrayVouchers;
    var s' := ToggleRelay(ch, s, token).value;
    forall i | i in s'.reg.pairs
      ensures Covered(ch, s'.bank, s'.evm, s'.reg.pairs[i], Pending(ch, [], Contract(s'.reg.pairs[i])))
    {
      assert Covered(ch, s.bank, s.evm, s.reg.pairs[i], Pending(ch, [], Contract(s.reg.pairs[i])));
      assert Contract(s'.reg.pairs[i]) == Contract(s.reg.pairs[i]);
    }
    StrayVouchersFrame(s, s');
  }

  lemma StrayVouchersFrame(s: State, s': State)
    requires NoStrayVouchers(s.bank, s.reg)
    requires s'.bank.coins == s.bank.coins && s'.reg.byDenom.Keys == s.reg.byDenom.Keys
    ensures NoStrayVouchers(s'.bank, s'.reg)
  {
    hide IsVoucher;
  }

  // A successful migration onto a free or the same contract keeps everything backed exactly
  // when the pair is covered at that contract.
  lemma UpdateKeepsBackingIff(ch: Chain, s: State, oldAddr: Address, newAddr: Address, q: Query)
    requires ch.Sound() && Core(ch, s) && Backed(ch, s)
    requires UpdateTokenPairERC20(ch, s, oldAddr, newAddr, q).Ok?
    requires newAddr !in s.reg.byErc20 || newAddr == oldAddr
    ensures oldAddr in s.reg.byErc20 && s.reg.byErc20[oldAddr] in s.reg.pairs
    ensures Backed(ch, UpdateTokenPairERC20(ch, s, oldAddr, newAddr, q).value) <==>
            CoveredAt(ch, s, s.reg.pairs[s.reg.byErc20[oldAddr]], newAddr)
  {
    var id := UpdateFacts(ch, s, oldAddr, newAddr, q);
    var p, s' := s.reg.pairs[id], UpdateTokenPairERC20(ch, s, oldAddr, newAddr, q).value;
    var p', id' := MigrateWrites(ch, s.reg, id, newAddr);
    MigrateIndexes(ch, s.reg, id, newAddr);
    PairsStayCovered(ch, s, s', id, id', p');
    hide UpdateTokenPairERC20, Core, Migrate, IsVoucher, Text, GetID, IsHexAddress, NoStrayVouchers, Contract;
    StrayVouchersFrame(s, s');
    CoveredMoves(ch, s, s', p, p');
    assert Pending(ch, [], newAddr) == 0;
    assert id in s.reg.pairs && Covered(ch, s.bank, s.evm, p, Pending(ch, [], Contract(p)));
    assert Backed(ch, s') ==> Covered(ch, s'.bank, s'.evm, s'.reg.pairs[id'], Pending(ch, [], newAddr));
  }

  lemma CoveredMoves(ch: Chain, s: State, s': State, p: TokenPair, p': TokenPair)
    requires Covered(ch, s.bank, s.evm, p, 0)
    requires p'.denom == p.denom && p'.contractOwner == p.contractOwner
    requires s'.bank.coins == s.bank.coins && s'.evm.tokens == s.evm.tokens
    ensures Covered(ch, s'.bank, s'.evm, p', 0) <==> CoveredAt(ch, s, p, Contract(p'))
  {
    hide Contract, IsVoucher;
  }

  lemma PairsStayCovered(ch: Chain, s: State, s': State, id: Bytes, id': Bytes, p': TokenPair)
    requires Backed(ch, s) && id in s.reg.pairs
    requires s'.reg.pairs == (s.reg.pairs - {id})[id' := p'] && (id' == id || id' !in s.reg.pairs)
    requires s'.bank.coins == s.bank.coins && s'.evm.tokens == s.evm.tokens
    ensures PairsCovered(ch, s'.bank, s'.evm, s'.reg, []) <==>
            Covered(ch, s'.bank, s'.evm, p', Pending(ch, [], Contract(p')))
  {
    hide Contract, Covered, Pending, NoStrayVouchers;
    forall i | i in s.reg.pairs && i != id
      ensures Covered(ch, s'.bank, s'.evm, s.reg.pairs[i], Pending(ch, [], Contract(s.reg.pairs[i])))
    {
      SameLedgersSameCover(ch, s, s', s.reg.pairs[i], Pending(ch, [], Contract(s.reg.pairs[i])));
    }
    assert s'.reg.pairs[id'] == p';
  }

  lemma SameLedgersSameCover(ch: Chain, s: State, s': State, p: TokenPair, k: nat)
    requires s'.bank.coins == s.bank.coins && s'.evm.tokens == s.evm.tokens
    ensures Covered(ch, s'.bank, s'.evm, p, k) <==> Covered(ch, s.bank, s.evm, p, k)
  {
    hide Contract, IsVoucher;
  }

  // Changes of one denomination's ledger by others: a voucher's supply does not grow, and the
  // module account loses nothing.
  lemma BankStepKeepsBacking(ch: Chain, s: State, s': State, d: Bytes, l: Ledger)
    requires Backed(ch, s) && s'.reg == s.reg && s'.evm == s.evm && s'.bank == s.bank.SetCoins(d, l)
    requires l[ch.moduleAddress] >= s.bank.Coins(d)[ch.moduleAddress]
    requires IsVoucher(d) ==> |l| <= |s.bank.Coins(d)|
    ensures Backed(ch, s')
  {
    StrayAfterSet(s.bank, s.reg, d, l);
    hide Contract, IsVoucher, Covered, NoStrayVouchers, Bank.SetCoins;
    forall i | i in s'.reg.pairs
      ensures Covered(ch, s'.bank, s'.evm, s'.reg.pairs[i], Pending(ch, [], Contract(s'.reg.pairs[i])))
    {
      CoveredAfterSetCoins(ch, s.bank, s.evm, d, l, s.reg.pairs[i], Pending(ch, [], Contract(s.reg.pairs[i])));
    }
  }

  lemma StrayAfterSet(b: Bank, r: Registry, d: Bytes, l: Ledger)
    requires NoStrayVouchers(b, r) && (IsVoucher(d) ==> |l| <= |b.Coins(d)|)
    ensures NoStrayVouchers(b.SetCoins(d, l), r)
  {
    hide IsVoucher;
  }

  lemma CoveredAfterSetCoins(ch: Chain, b: Bank, evm: Evm, d: Bytes, l: Ledger, p: TokenPair, k: nat)
    requires Covered(ch, b, evm, p, k)
    requires l[ch.moduleAddress] >= b.Coins(d)[ch.moduleAddress] && (IsVoucher(d) ==> |l| <= |b.Coins(d)|)
    ensures Covered(ch, b.SetCoins(d, l), evm, p, k)
  {
    hide Contract, IsVoucher;
  }

  lemma DeployKeepsBacking(ch: Chain, s: State, s': State, at: Address, t: Token)
    requires Core(ch, s) && Backed(ch, s) && at !in s.evm.tokens
    requires s'.reg == s.reg && s'.bank == s.bank && s'.evm == s.evm.(tokens := s.evm.tokens[at := t])
    ensures Backed(ch, s')
  {
    PairsHaveCode(ch, s);
    hide Contract, Core, Covered, NoStrayVouchers;
    forall i | i in s'.reg.pairs
      ensures Covered(ch, s'.bank, s'.evm, s'.reg.pairs[i], Pending(ch, [], Contract(s'.reg.pairs[i])))
    {
      NewContractKeepsCover(ch, s.bank, s.evm, at, t, s.reg.pairs[i], Pending(ch, [], Contract(s.reg.pairs[i])));
    }
  }

  lemma NewContractKeepsCover(ch: Chain, b: Bank, evm: Evm, at: Address, t: Token, p: TokenPair, k: nat)
    requires Covered(ch, b, evm, p, k) && Contract(p) in evm.tokens && at !in evm.tokens
    ensures Covered(ch, b, evm.(tokens := evm.tokens[at := t]), p, k)
  {
    hide Contract, IsVoucher;
  }

  lemma OtherStepKeepsBacking(ch: Chain, s: State, step: Step)
    requires Core(ch, s) && Backed(ch, s) && Honest(ch, s, step) && Try(ch, s, step).Ok?
    requires step.StepParams? || step.StepDeploy? || step.StepBankSend? || step.StepBankMint? || step.StepBankBurn?
             || step.StepSendDisabled?
    ensures Backed(ch, Next(ch, s, step))
  {
    hide Core, Backed, IsVoucher;
    var s' := Next(ch, s, step);
    match step
    case StepParams(params) => SameCoinsBacked(ch, s, s');
    case StepSendDisabled(denoms) => SameCoinsBacked(ch, s, s');
    case StepDeploy(at, t) => DeployKeepsBacking(ch, s, s', at, t);
    case StepBankSend(from, to, d, n) => BankStepKeepsBacking(ch, s, s', d, Move(s.bank.Coins(d), from, to, n));
    case StepBankMint(to, d, n) => BankStepKeepsBacking(ch, s, s', d, Credit(s.bank.Coins(d), to, n));
    case StepBankBurn(from, d, n) => BankStepKeepsBacking(ch, s, s', d, Debit(s.bank.Coins(d), from, n));
    case _ =>
  }

  lemma SameCoinsBacked(ch: Chain, s: State, s': State)
    requires Backed(ch, s) && s'.reg == s.reg && s'.evm == s.evm && s'.bank.coins == s.bank.coins
    ensures Backed(ch, s')
  {
    hide Contract, IsVoucher, Covered;
    forall i | i in s'.reg.pairs
      ensures Covered(ch, s'.bank, s'.evm, s'.reg.pairs[i], Pending(ch, [], Contract(s'.reg.pairs[i])))
    {
      SameLedgersSameCover(ch, s, s', s.reg.pairs[i], Pending(ch, [], Contract(s.reg.pairs[i])));
    }
  }

  // Every honest step keeps the bridge backed.
  lemma StepKeepsBacking(ch: Chain, s: State, step: Step)
    requires ch.Sound() && Core(ch, s) && Backed(ch, s) && Honest(ch, s, step)
    ensures Backed(ch, Next(ch, s, step))
  {
    hide ConvertCoin, ConvertERC20, RegisterCoin, RegisterERC20, ToggleRelay, UpdateTokenPairERC20, EthTx, Core, Backed,
         CoveredAt;
    if Try(ch, s, step).Ok? {
      match step
      case StepConvertCoin(msg, v) => ConvertCoinKeepsBacking(ch, s, msg, v);
      case StepConvertERC20(msg, v) => ConvertERC20KeepsBacking(ch, s, msg, v);
      case StepRegisterCoin(meta, v) => RegisterCoinKeepsBacking(ch, s, meta, v);
      case StepRegisterERC20(c, q, valid) => RegisterERC20KeepsBacking(ch, s, c, q, valid);
      case StepToggle(token) => ToggleKeepsBacking(ch, s, token);
      case StepUpdate(oldAddr, newAddr, q) => UpdateKeepsBackingIff(ch, s, oldAddr, newAddr, q);
      case StepEthTx(ops, vs, hooked) => EthTxKeepsBacking(ch, s, ops, vs, hooked);
      case _ => OtherStepKeepsBacking(ch, s, step);
    }
  }
}
