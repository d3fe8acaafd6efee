// What holds over whole runs of the bridge.
module Runs {
  import opened Base
  import opened Chains
  import opened Ledgers
  import opened Registries
  import opened TokenPairCodec
  import opened GenesisCodec
  import opened States
  import opened Conversions
  import opened Governance
  import opened Hook
  import opened Steps
  import opened Backing
  import Genesis

  function Run(ch: Chain, s: State, steps: seq<Step>): State
    decreases |steps|
  {
    if |steps| == 0 then s else Run(ch, Next(ch, s, steps[0]), steps[1..])
  }

  ghost predicate AllProper(ch: Chain, s: State, steps: seq<Step>)
    decreases |steps|
  {
    |steps| > 0 ==> Proper(ch, s, steps[0]) && AllProper(ch, Next(ch, s, steps[0]), steps[1..])
  }

  ghost predicate AllHonest(ch: Chain, s: State, steps: seq<Step>)
    decreases |steps|
  {
    |steps| > 0 ==> Honest(ch, s, steps[0]) && AllHonest(ch, Next(ch, s, steps[0]), steps[1..])
  }

  // Nothing is registered, no module contract exists and no voucher circulates.
  ghost predicate Initial(ch: Chain, s: State)
  {
    && s.reg == EMPTY && ch.moduleAddress in s.bank.blocked
    && s.evm.Nonce(ch.moduleAddress) <= MAX_NONCE
    && (forall n: nat :: n < TWO_64 ==> ch.create(n) !in s.evm.tokens)
    && (forall d :: d in s.bank.metadata ==> s.bank.metadata[d].base == d)
    && (forall d :: IsVoucher(d) ==> |s.bank.Coins(d)| == 0)
  }

  lemma InitialIsGood(ch: Chain, s: State)
    requires Initial(ch, s)
    ensures Core(ch, s) && Backed(ch, s)
  {
    hide IsVoucher, GetID, Contract;
  }

  // In every reachable state the registry is a bijection, registered contracts have code, code
  // at the module's n-th address implies a nonce above n, and registered denominations have
  // metadata.
  lemma {:induction false} RunKeepsCore(ch: Chain, s: State, steps: seq<Step>)
    requires ch.Sound() && Core(ch, s) && AllProper(ch, s, steps)
    ensures Core(ch, Run(ch, s, steps))
    decreases |steps|
  {
    hide Core, Proper, Next;
    if |steps| > 0 {
      StepKeepsCore(ch, s, steps[0]);
      RunKeepsCore(ch, Next(ch, s, steps[0]), steps[1..]);
    }
  }

  // In every reachable state every pair is backed.
  lemma {:induction false} RunKeepsBacking(ch: Chain, s: State, steps: seq<Step>)
    requires ch.Sound() && Core(ch, s) && Backed(ch, s) && AllHonest(ch, s, steps)
    ensures Core(ch, Run(ch, s, steps)) && Backed(ch, Run(ch, s, steps))
    decreases |steps|
  {
    if |steps| > 0 {
      HonestIsProper(ch, s, steps[0]);
      hide Core, Backed, Honest, Proper, Next;
      StepKeepsCore(ch, s, steps[0]);
      StepKeepsBacking(ch, s, steps[0]);
      RunKeepsBacking(ch, Next(ch, s, steps[0]), steps[1..]);
    }
  }

  lemma HonestIsProper(ch: Chain, s: State, step: Step)
    requires Honest(ch, s, step)
    ensures Proper(ch, s, step)
  {
  }

  // Escrow and voucher backing, spelled out for one pair after any honest run.
  lemma BackingInEveryRun(ch: Chain, s: State, steps: seq<Step>, id: Bytes)
    requires ch.Sound() && Initial(ch, s) && AllHonest(ch, s, steps)
    requires id in Run(ch, s, steps).reg.pairs
    ensures var s', p := Run(ch, s, steps), Run(ch, s, steps).reg.pairs[id];
            && (p.contractOwner == OWNER_MODULE ==>
                  s'.bank.Coins(p.denom)[ch.moduleAddress] >= |s'.evm.Tokens(Contract(p))|)
            && (p.contractOwner == OWNER_EXTERNAL ==>
                  |s'.bank.Coins(p.denom)| <= s'.evm.Tokens(Contract(p))[ch.moduleAddress])
  {
    hide Run, AllHonest, Initial, Core, Contract;
    InitialIsGood(ch, s);
    RunKeepsBacking(ch, s, steps);
    var s', p := Run(ch, s, steps), Run(ch, s, steps).reg.pairs[id];
    assert Covered(ch, s'.bank, s'.evm, p, Pending(ch, [], Contract(p)));
  }

  // Importing the export of any reachable state, in any order of its pairs, rebuilds the
  // registry, and Validate finds no duplicate in it.
  lemma ReachableGenesisRoundTrip(ch: Chain, s: State, steps: seq<Step>, ps: seq<TokenPair>)
    requires ch.Sound() && Initial(ch, s) && AllProper(ch, s, steps) && Genesis.Enumerates(ps, Run(ch, s, steps).reg)
    ensures Genesis.Import(ch, EMPTY, ps) == Run(ch, s, steps).reg
    ensures Genesis.DistinctAddresses(ps) && Genesis.DistinctDenoms(ps)
  {
    hide Run, AllProper, Initial, Core, Bijective, Genesis.Import, Genesis.Enumerates;
    InitialIsGood(ch, s);
    RunKeepsCore(ch, s, steps);
    CoreIsBijective(ch, Run(ch, s, steps));
    Genesis.ExportImportRoundTrip(ch, Run(ch, s, steps).reg, ps);
    Genesis.ExportHasNoDuplicates(ch, Run(ch, s, steps).reg, ps);
  }

  // ---- Nonces ------------------------------------------------------------------------

  lemma StepKeepsNonce(ch: Chain, s: State, step: Step)
    requires ch.Sound() && Core(ch, s) && Proper(ch, s, step)
    ensures s.evm.Nonce(ch.moduleAddress) <= Next(ch, s, step).evm.Nonce(ch.moduleAddress)
    ensures s.evm.tokens.Keys <= Next(ch, s, step).evm.tokens.Keys
  {
    hide ConvertCoin, ConvertERC20, RegisterCoin, RegisterERC20, ToggleRelay, UpdateTokenPairERC20, Core, Proper;
    if Try(ch, s, step).Ok? {
      match step
      case StepConvertCoin(msg, v) => ConvertCoinKeepsCore(ch, s, msg, v);
      case StepConvertERC20(msg, v) => ConvertERC20KeepsCore(ch, s, msg, v);
      case StepRegisterCoin(meta, v) =>
        ProposalHasUnits(ch, s, meta, v);
        var p, c, t := RegisterCoinFacts(ch, s, meta, v);
      case StepRegisterERC20(c, q, valid) =>
        var p, meta := RegisterERC20Facts(ch, s, c, q, valid);
      case StepToggle(token) =>
        var id := ToggleFacts(ch, s, token);
      case StepUpdate(oldAddr, newAddr, q) =>
        var id := UpdateFacts(ch, s, oldAddr, newAddr, q);
      case StepEthTx(ops, vs, hooked) => EthTxContinues(ch, s, ops, vs, hooked);
      case _ =>
    }
  }

  lemma ProposalHasUnits(ch: Chain, s: State, meta: Metadata<DenomUnit>, v: Verdict)
    requires Proper(ch, s, StepRegisterCoin(meta, v))
    ensures |meta.units| > 0 && ValidateIBCBase(meta.base)
  {
  }

  lemma EthTxContinues(ch: Chain, s: State, ops: seq<TokenOp>, vs: seq<Verdict>, hooked: bool)
    requires Core(ch, s) && EthTx(ch, s, ops, vs, hooked).Ok?
    ensures Continues(ch, s, EthTx(ch, s, ops, vs, hooked).value)
  {
    assert s.evm.Nonce(ch.moduleAddress) <= MAX_NONCE;
    hide Core, RunOps, ProcessLogs;
    RunOpsKeepCode(ch, s.evm, ops);
    if hooked {
      ProcessLogsContinue(ch, s.(evm := RunOps(ch, s.evm, ops).value.0), RunOps(ch, s.evm, ops).value.1, vs);
    }
  }

  // The module's nonce never goes down, and code never disappears.
  lemma {:induction false} RunKeepsNonce(ch: Chain, s: State, steps: seq<Step>)
    requires ch.Sound() && Core(ch, s) && AllProper(ch, s, steps)
    ensures s.evm.Nonce(ch.moduleAddress) <= Run(ch, s, steps).evm.Nonce(ch.moduleAddress)
    ensures s.evm.tokens.Keys <= Run(ch, s, steps).evm.tokens.Keys
    decreases |steps|
  {
    hide Core, Proper, Next;
    if |steps| > 0 {
      StepKeepsCore(ch, s, steps[0]);
      StepKeepsNonce(ch, s, steps[0]);
      RunKeepsNonce(ch, Next(ch, s, steps[0]), steps[1..]);
    }
  }

  // ---- Denominations are permanent ---------------------------------------------------

  // The pair that a denomination belongs to.
  ghost function PairWith(r: Registry, d: Bytes): Option<TokenPair>
  {
    if d in r.byDenom && r.byDenom[d] in r.pairs then Some(r.pairs[r.byDenom[d]]) else None
  }

  // d resolves to a pair with the same owner kind and denomination in r' as in r.
  ghost predicate StillPaired(r: Registry, r': Registry, d: Bytes)
  {
    PairWith(r, d).Some? ==>
      && PairWith(r', d).Some?
      && PairWith(r', d).value.contractOwner == PairWith(r, d).value.contractOwner
      && PairWith(r', d).value.denom == d
  }

  lemma InsertKeepsPairing(ch: Chain, r: Registry, p: TokenPair, d: Bytes)
    requires Bijective(ch, r) && p.denom !in r.byDenom && GetID(ch, p) !in r.pairs
    ensures StillPaired(r, Insert(ch, r, p), d)
  {
    hide GetID, Contract;
  }

  lemma MigrateKeepsPairing(ch: Chain, r: Registry, id: Bytes, to: Address, d: Bytes)
    requires ch.Sound() && Bijective(ch, r) && id in r.pairs
    ensures StillPaired(r, Migrate(ch, r, r.pairs[id], Contract(r.pairs[id]), to), d)
  {
    hide Migrate, Text, GetID, Contract, IsHexAddress;
    var p', id' := MigrateWrites(ch, r, id, to);
    DenomsPointAtPairs(ch, r, d);
    DenomsPointAtPairs(ch, r, p'.denom);
    hide Bijective;
  }

  lemma DenomsPointAtPairs(ch: Chain, r: Registry, d: Bytes)
    requires Bijective(ch, r)
    ensures d in r.byDenom ==> r.byDenom[d] in r.pairs && r.pairs[r.byDenom[d]].denom == d
  {
    hide GetID, Contract, IsHexAddress;
  }

  lemma FreshIDs(ch: Chain, r: Registry, p: TokenPair)
    requires ch.Sound() && Bijective(ch, r) && IsHexAddress(p.erc20Address)
    requires Contract(p) !in r.byErc20 && p.denom !in r.byDenom
    ensures GetID(ch, p) !in r.pairs
  {
    hide Bijective;
    InsertKeepsBijection(ch, r, p);
  }

  // Registered and described as before, or more.
  ghost predicate KeepsPairing(s: State, s': State, d: Bytes)
  {
    StillPaired(s.reg, s'.reg, d) && s.bank.metadata.Keys <= s'.bank.metadata.Keys
  }

  lemma SameRegistryKeepsPairing(ch: Chain, s: State, s': State, d: Bytes)
    requires Core(ch, s) && s'.reg == s.reg && s'.bank.metadata == s.bank.metadata
    ensures KeepsPairing(s, s', d)
  {
    hide GetID, Contract;
  }

  lemma RegisterCoinKeepsPairing(ch: Chain, s: State, meta: Metadata<DenomUnit>, v: Verdict, d: Bytes)
    requires ch.Sound() && Core(ch, s) && |meta.units| > 0 && RegisterCoin(ch, s, meta, v).Ok?
    ensures KeepsPairing(s, RegisterCoin(ch, s, meta, v).value, d)
  {
    hide RegisterCoin, Insert, GetID, Contract, IsHexAddress, StillPaired, Core;
    CoreIsBijective(ch, s);
    var p, c, t := RegisterCoinFacts(ch, s, meta, v);
    FreshIDs(ch, s.reg, p);
    InsertKeepsPairing(ch, s.reg, p, d);
  }

  lemma RegisterERC20KeepsPairing(ch: Chain, s: State, c: Address, q: Query, valid: bool, d: Bytes)
    requires ch.Sound() && Core(ch, s) && RegisterERC20(ch, s, c, q, valid).Ok?
    ensures KeepsPairing(s, RegisterERC20(ch, s, c, q, valid).value, d)
  {
    hide RegisterERC20, Insert, GetID, Contract, IsHexAddress, StillPaired, Core, Voucher;
    CoreIsBijective(ch, s);
    var p, meta := RegisterERC20Facts(ch, s, c, q, valid);
    FreshIDs(ch, s.reg, p);
    InsertKeepsPairing(ch, s.reg, p, d);
  }

  lemma UpdateKeepsPairing(ch: Chain, s: State, oldAddr: Address, newAddr: Address, q: Query, d: Bytes)
    requires ch.Sound() && Core(ch, s) && UpdateTokenPairERC20(ch, s, oldAddr, newAddr, q).Ok?
    ensures KeepsPairing(s, UpdateTokenPairERC20(ch, s, oldAddr, newAddr, q).value, d)
  {
    hide UpdateTokenPairERC20, Migrate, GetID, Contract, StillPaired, Core;
    CoreIsBijective(ch, s);
    var id := UpdateFacts(ch, s, oldAddr, newAddr, q);
    MigrateKeepsPairing(ch, s.reg, id, newAddr, d);
  }

  lemma ToggleKeepsPairing(ch: Chain, s: State, token: Bytes, d: Bytes)
    requires Core(ch, s) && ToggleRelay(ch, s, token).Ok?
    ensures KeepsPairing(s, ToggleRelay(ch, s, token).value, d)
  {
    hide ToggleRelay, GetID, Contract;
    var id := ToggleFacts(ch, s, token);
  }

  lemma StepKeepsPairing(ch: Chain, s: State, step: Step, d: Bytes)
    requires ch.Sound() && Core(ch, s) && Proper(ch, s, step)
    ensures KeepsPairing(s, Next(ch, s, step), d)
  {
    hide ConvertCoin, ConvertERC20, RegisterCoin, RegisterERC20, ToggleRelay, UpdateTokenPairERC20, EthTx, Proper, Core,
         KeepsPairing;
    SameRegistryKeepsPairing(ch, s, s, d);
    if Try(ch, s, step).Ok? {
      match step
      case StepConvertCoin(msg, v) =>
        ConvertCoinKeepsCore(ch, s, msg, v);
        SameRegistryKeepsPairing(ch, s, Next(ch, s, step), d);
      case StepConvertERC20(msg, v) =>
        ConvertERC20KeepsCore(ch, s, msg, v);
        SameRegistryKeepsPairing(ch, s, Next(ch, s, step), d);
      case StepRegisterCoin(meta, v) =>
        ProposalHasUnits(ch, s, meta, v);
        RegisterCoinKeepsPairing(ch, s, meta, v, d);
      case StepRegisterERC20(c, q, valid) => RegisterERC20KeepsPairing(ch, s, c, q, valid, d);
      case StepToggle(token) => ToggleKeepsPairing(ch, s, token, d);
      case StepUpdate(oldAddr, newAddr, q) => UpdateKeepsPairing(ch, s, oldAddr, newAddr, q, d);
      case StepEthTx(ops, vs, hooked) =>
        EthTxKeepsCore(ch, s, ops, vs, hooked);
        SameRegistryKeepsPairing(ch, s, Next(ch, s, step), d);
      case _ => SameRegistryKeepsPairing(ch, s, Next(ch, s, step), d);
    }
  }

  // Once registered, a denomination stays with a pair of the same owner kind, and metadata is
  // never removed.
  lemma {:induction false} DenomsArePermanent(ch: Chain, s: State, steps: seq<Step>, d: Bytes)
    requires ch.Sound() && Core(ch, s) && AllProper(ch, s, steps)
    ensures KeepsPairing(s, Run(ch, s, steps), d)
    decreases |steps|
  {
    hide Core, Proper, Next;
    if |steps| == 0 {
      SameRegistryKeepsPairing(ch, s, s, d);
    } else {
      StepKeepsCore(ch, s, steps[0]);
      StepKeepsPairing(ch, s, steps[0], d);
      DenomsArePermanent(ch, Next(ch, s, steps[0]), steps[1..], d);
    }
  }

  // A contract that RegisterERC20 registered once can never be registered by it again, also
  // not after its pair has moved to another contract.
  lemma NeverRegisteredAgain(ch: Chain, s: State, c: Address, q: Query, valid: bool, steps: seq<Step>, q': Query,
                             valid': bool)
    requires ch.Sound() && Core(ch, s) && RegisterERC20(ch, s, c, q, valid).Ok?
    requires AllProper(ch, RegisterERC20(ch, s, c, q, valid).value, steps)
    ensures RegisterERC20(ch, Run(ch, RegisterERC20(ch, s, c, q, valid).value, steps), c, q', valid').Err?
  {
    hide Run, Core, Voucher, RegisterERC20, Insert, AllProper, StillPaired, IsHexAddress, Contract;
    var s1 := RegisterERC20(ch, s, c, q, valid).value;
    RegisterERC20KeepsCore(ch, s, c, q, valid);
    var p, meta := RegisterERC20Facts(ch, s, c, q, valid);
    DenomsArePermanent(ch, s1, steps, p.denom);
    DescribedVoucherIsRefused(ch, Run(ch, s1, steps), c, q', valid');
  }

  lemma DescribedVoucherIsRefused(ch: Chain, s: State, c: Address, q: Query, valid: bool)
    requires Voucher(ch, c) in s.bank.metadata
    ensures RegisterERC20(ch, s, c, q, valid).Err?
  {
    hide Voucher, QueryERC20, Insert, Text, CreateDenomDescription;
  }

  // ---- A disabled pair is frozen -----------------------------------------------------

  // Conversions and hooked transactions.
  predicate MovesValue(step: Step)
  {
    step.StepConvertCoin? || step.StepConvertERC20? || step.StepEthTx?
  }

  // While a pair is disabled, a conversion or a hooked transaction changes an account's coins of
  // its denomination, and with them escrow or supply, exactly when it is a ConvertCoin that
  // names this coin and finds another pair that lets it through.
  lemma DisabledIsFrozenIff(ch: Chain, s: State, step: Step, id: Bytes)
    requires Core(ch, s) && id in s.reg.pairs && !s.reg.pairs[id].enabled && MovesValue(step)
    requires step.StepConvertCoin? ==> step.coinMsg.sender != ch.moduleAddress
    ensures var d := s.reg.pairs[id].denom;
            Next(ch, s, step).bank.Coins(d) == s.bank.Coins(d) <==>
            !(step.StepConvertCoin? && step.coinMsg.denom == d && step.coinMsg.amount > 0 && Try(ch, s, step).Ok?)
  {
    hide ConvertCoin, ConvertERC20, EthTx, Core;
    if Try(ch, s, step).Ok? {
      match step
      case StepConvertCoin(msg, v) => FrozenForCoinIff(ch, s, msg, v, s.reg.pairs[id].denom);
      case StepConvertERC20(msg, v) => FrozenForERC20(ch, s, msg, v, id);
      case StepEthTx(ops, vs, hooked) => FrozenForEthTx(ch, s, ops, vs, hooked, id);
    }
  }

  // A coin that finds its own pair finds a disabled one, and nothing is converted.
  lemma DisabledOwnPairIsRefused(ch: Chain, s: State, msg: MsgConvertCoin, v: Verdict, id: Bytes)
    requires Core(ch, s) && id in s.reg.pairs && !s.reg.pairs[id].enabled && msg.denom == s.reg.pairs[id].denom
    requires FindsOwnPair(s.reg, msg.denom)
    ensures ConvertCoin(ch, s, msg, v).Err?
  {
    hide ConvertCoin, MintingEnabled, Core, GetID, Contract, Resolve;
    if ConvertCoin(ch, s, msg, v).Ok? {
      ConvertCoinEnabled(ch, s, msg, v);
      ResolvedHasCode(ch, s, msg.sender, msg.receiver, msg.denom);
      DifferentPairsDiffer(ch, s, MintingEnabled(s, msg.sender, msg.receiver, msg.denom).value, id);
    }
  }

  lemma DifferentPairsDiffer(ch: Chain, s: State, p: TokenPair, id: Bytes)
    requires Core(ch, s) && GetID(ch, p) in s.reg.pairs && s.reg.pairs[GetID(ch, p)] == p
    requires id in s.reg.pairs && s.reg.pairs[id] != p
    ensures s.reg.pairs[id].denom != p.denom
  {
    hide GetID, Contract, Fresh, Described;
    NoSharing(ch, s.reg, id, GetID(ch, p));
  }

  // A successful ConvertCoin by a user changes a coin's ledger exactly when it names the coin and
  // converts something.
  lemma FrozenForCoinIff(ch: Chain, s: State, msg: MsgConvertCoin, v: Verdict, d: Bytes)
    requires Core(ch, s) && ConvertCoin(ch, s, msg, v).Ok? && msg.sender != ch.moduleAddress
    ensures ConvertCoin(ch, s, msg, v).value.bank.Coins(d) == s.bank.Coins(d) <==> msg.denom != d || msg.amount == 0
  {
    hide ConvertCoin, MintingEnabled, Core, GetID, Contract, Resolve, BumpsNonce;
    ConvertCoinEnabled(ch, s, msg, v);
    ResolvedHasCode(ch, s, msg.sender, msg.receiver, msg.denom);
    ConvertCoinEffect(ch, s, msg, v);
    TakenIff(s.bank.Coins(msg.denom), msg.sender, ch.moduleAddress, msg.amount);
    hide Move, Debit;
  }

  lemma TakenIff(l: Ledger, from: Address, to: Address, n: nat)
    requires n <= l[from] && from != to
    ensures Move(l, from, to, n) == l <==> n == 0
    ensures Debit(l, from, n) == l <==> n == 0
  {
    assert n > 0 ==> Move(l, from, to, n)[from] != l[from] && Debit(l, from, n)[from] != l[from];
  }

  lemma FrozenForERC20(ch: Chain, s: State, msg: MsgConvertERC20, v: Verdict, id: Bytes)
    requires Core(ch, s) && id in s.reg.pairs && !s.reg.pairs[id].enabled
    requires ConvertERC20(ch, s, msg, v).Ok?
    ensures ConvertERC20(ch, s, msg, v).value.bank.Coins(s.reg.pairs[id].denom) == s.bank.Coins(s.reg.pairs[id].denom)
  {
    hide ConvertERC20, MintingEnabled, Core, GetID, Contract, IsHexAddress, BumpsNonce;
    ConvertERC20Enabled(ch, s, msg, v);
    ResolvedHasCode(ch, s, msg.sender, msg.receiver, msg.contract);
    ConvertERC20Effect(ch, s, msg, v);
    DifferentPairsDiffer(ch, s, MintingEnabled(s, msg.sender, msg.receiver, msg.contract).value, id);
  }

  lemma FrozenForLog(ch: Chain, s: State, log: Log, v: Verdict, id: Bytes)
    requires Core(ch, s) && id in s.reg.pairs && !s.reg.pairs[id].enabled
    requires ProcessLog(ch, s, log, v).Swallow? || ProcessLog(ch, s, log, v).Convert?
    ensures var s' := ProcessLog(ch, s, log, v).state;
            s'.reg == s.reg && s'.bank.Coins(s.reg.pairs[id].denom) == s.bank.Coins(s.reg.pairs[id].denom)
  {
    assert PairOf(s.reg, log).Some? && PairOf(s.reg, log).value.enabled;
    hide ProcessLog, PairOf, Contract, GetID, Fresh, Described;
    var p := PairOf(s.reg, log).value;
    PairOfIsStored(ch, s.reg, log);
    assert GetID(ch, p) == s.reg.byErc20[log.address];
    hide Bijective, Core;
    LogTouchesOnePair(ch, s, log, v, p);
    DifferentPairsDiffer(ch, s, p, id);
  }

  lemma {:induction false} FrozenForLoop(ch: Chain, s: State, logs: seq<Log>, vs: seq<Verdict>, id: Bytes)
    requires Core(ch, s) && id in s.reg.pairs && !s.reg.pairs[id].enabled && |vs| == |logs|
    ensures var s' := ProcessLogs(ch, s, logs, vs).state;
            s'.bank.Coins(s.reg.pairs[id].denom) == s.bank.Coins(s.reg.pairs[id].denom)
    decreases |logs|
  {
    hide ProcessLog, Core;
    if |logs| > 0 {
      match ProcessLog(ch, s, logs[0], vs[0])
      case Skip => FrozenForLoop(ch, s, logs[1..], vs[1..], id);
      case Abort =>
      case Swallow(s') =>
        FrozenForLog(ch, s, logs[0], vs[0], id);
        LogKeepsCore(ch, s, logs[0], vs[0]);
        FrozenForLoop(ch, s', logs[1..], vs[1..], id);
      case Convert(s') =>
        FrozenForLog(ch, s, logs[0], vs[0], id);
        LogKeepsCore(ch, s, logs[0], vs[0]);
        FrozenForLoop(ch, s', logs[1..], vs[1..], id);
    }
  }

  lemma FrozenForEthTx(ch: Chain, s: State, ops: seq<TokenOp>, vs: seq<Verdict>, hooked: bool, id: Bytes)
    requires Core(ch, s) && id in s.reg.pairs && !s.reg.pairs[id].enabled && EthTx(ch, s, ops, vs, hooked).Ok?
    ensures EthTx(ch, s, ops, vs, hooked).value.bank.Coins(s.reg.pairs[id].denom) == s.bank.Coins(s.reg.pairs[id].denom)
  {
    hide RunOps, ProcessLogs, Core;
    RunOpsKeepCore(ch, s, ops);
    if hooked {
      var (evm, logs) := RunOps(ch, s.evm, ops).value;
      FrozenForLoop(ch, s.(evm := evm), logs, vs, id);
    }
  }
}
