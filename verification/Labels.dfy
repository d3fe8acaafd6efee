// The metadata of vouchers follows their contracts: this is what the checks of
// UpdateTokenPairERC20 are for.
module Labels {
  import opened Base
  import opened Chains
  import opened Ledgers
  import opened Registries
  import opened TokenPairCodec
  import opened States
  import opened Conversions
  import opened Governance
  import opened Hook
  import opened Steps
  import opened Runs

  // A pair's metadata shows its contract's name and symbol, has a unit with its name and
  // decimals, and is described by its address.
  ghost predicate LabelFits(ch: Chain, b: Bank, evm: Evm, p: TokenPair)
  {
    var c := Contract(p);
    && c in evm.tokens && p.denom in b.metadata
    && b.metadata[p.denom].display == evm.tokens[c].data.name
    && b.metadata[p.denom].symbol == evm.tokens[c].data.symbol
    && b.metadata[p.denom].description == CreateDenomDescription(Text(ch, c))
    && DenomUnit(evm.tokens[c].data.name, evm.tokens[c].data.decimals) in b.metadata[p.denom].units
  }

  ghost predicate Labelled(ch: Chain, s: State)
  {
    forall id :: id in s.reg.pairs && s.reg.pairs[id].contractOwner == OWNER_EXTERNAL ==>
      LabelFits(ch, s.bank, s.evm, s.reg.pairs[id])
  }

  // Old metadata and old contracts' data stay.
  ghost predicate Extends(s: State, s': State)
  {
    && (forall d :: d in s.bank.metadata ==> d in s'.bank.metadata && s'.bank.metadata[d] == s.bank.metadata[d])
    && (forall c :: c in s.evm.tokens ==> c in s'.evm.tokens && s'.evm.tokens[c].data == s.evm.tokens[c].data)
  }

  lemma LabelStays(ch: Chain, s: State, s': State, p: TokenPair)
    requires LabelFits(ch, s.bank, s.evm, p) && Extends(s, s')
    ensures LabelFits(ch, s'.bank, s'.evm, p)
  {
    hide Contract, Text, CreateDenomDescription;
  }

  // Pairs of s' that are not new were labelled in s.
  lemma LabelledFrame(ch: Chain, s: State, s': State, p: TokenPair)
    requires Labelled(ch, s) && Extends(s, s')
    requires s'.reg.pairs == s.reg.pairs || s'.reg.pairs == s.reg.pairs[GetID(ch, p) := p]
    requires s'.reg.pairs != s.reg.pairs && p.contractOwner == OWNER_EXTERNAL ==> LabelFits(ch, s'.bank, s'.evm, p)
    ensures Labelled(ch, s')
  {
    hide LabelFits, GetID, Extends;
    forall id | id in s'.reg.pairs && s'.reg.pairs[id].contractOwner == OWNER_EXTERNAL
      ensures LabelFits(ch, s'.bank, s'.evm, s'.reg.pairs[id])
    {
      if id in s.reg.pairs && s.reg.pairs[id] == s'.reg.pairs[id] {
        LabelStays(ch, s, s', s.reg.pairs[id]);
      }
    }
  }

  lemma KeepsRestExtends(s: State, s': State)
    requires KeepsRest(s, s')
    ensures Extends(s, s') && s'.reg == s.reg
  {
  }

  lemma RegisterCoinKeepsLabels(ch: Chain, s: State, meta: Metadata<DenomUnit>, v: Verdict)
    requires ch.Sound() && Core(ch, s) && Labelled(ch, s) && |meta.units| > 0 && RegisterCoin(ch, s, meta, v).Ok?
    ensures Labelled(ch, RegisterCoin(ch, s, meta, v).value)
  {
    hide RegisterCoin, Core, Labelled, LabelFits, Insert, GetID, Contract, IsHexAddress, Text;
    var p, c, t := RegisterCoinFacts(ch, s, meta, v);
    InsertIndexes(ch, s.reg, p);
    LabelledFrame(ch, s, RegisterCoin(ch, s, meta, v).value, p);
  }

  lemma VoucherLabelFits(ch: Chain, b: Bank, evm: Evm, c: Address, p: TokenPair)
    requires c in evm.tokens && Contract(p) == c && p.denom == Voucher(ch, c)
    ensures LabelFits(ch, b.SetMetadata(VoucherMetadata(ch, c, evm.tokens[c].data)), evm, p)
  {
    hide Contract, Voucher, Text, CreateDenomDescription;
    var data := evm.tokens[c].data;
    assert VoucherMetadata(ch, c, data).units[1] == DenomUnit(data.name, data.decimals);
  }

  lemma RegisterERC20KeepsLabels(ch: Chain, s: State, c: Address, q: Query, valid: bool)
    requires ch.Sound() && Core(ch, s) && Labelled(ch, s) && RegisterERC20(ch, s, c, q, valid).Ok?
    ensures Labelled(ch, RegisterERC20(ch, s, c, q, valid).value)
  {
    hide RegisterERC20, Core, Labelled, LabelFits, Insert, GetID, Contract, IsHexAddress, Voucher, VoucherMetadata;
    var p, meta := RegisterERC20Facts(ch, s, c, q, valid);
    InsertIndexes(ch, s.reg, p);
    var s' := RegisterERC20(ch, s, c, q, valid).value;
    VoucherLabelFits(ch, s.bank, s.evm, c, p);
    SameTokensSameLabel(ch, s.bank.SetMetadata(meta), s.evm, s'.evm, p);
    LabelledFrame(ch, s, s', p);
  }

  lemma SameTokensSameLabel(ch: Chain, b: Bank, evm: Evm, evm': Evm, p: TokenPair)
    requires LabelFits(ch, b, evm, p) && evm'.tokens == evm.tokens
    ensures LabelFits(ch, b, evm', p)
  {
    hide Contract, Text, CreateDenomDescription;
  }

  lemma ToggleKeepsLabels(ch: Chain, s: State, token: Bytes)
    requires Core(ch, s) && Labelled(ch, s) && ToggleRelay(ch, s, token).Ok?
    ensures Labelled(ch, ToggleRelay(ch, s, token).value)
  {
    hide ToggleRelay, Core, GetID, Text, CreateDenomDescription, HexToAddress;
    var id := ToggleFacts(ch, s, token);
  }

  // The checks of a successful migration make the new contract fit the metadata, apart from
  // the description, which is rewritten.
  lemma UpdateChecks(ch: Chain, s: State, oldAddr: Address, newAddr: Address, q: Query, id: Bytes)
    requires UpdateTokenPairERC20(ch, s, oldAddr, newAddr, q).Ok?
    requires oldAddr in s.reg.byErc20 && id == s.reg.byErc20[oldAddr] && FindPair(s.reg, id).Some?
    ensures var d, s' := FindPair(s.reg, id).value.denom, UpdateTokenPairERC20(ch, s, oldAddr, newAddr, q).value;
            && d in s.bank.metadata && newAddr in s.evm.tokens
            && var m, data := s.bank.metadata[d], s.evm.tokens[newAddr].data;
            && m.display == data.name && m.symbol == data.symbol && CheckUnits(m.units, data).None?
            && s'.bank == s.bank.SetMetadata(m.(description := CreateDenomDescription(Text(ch, newAddr))))
            && s'.evm.tokens == s.evm.tokens
  {
    hide FindPair, Migrate, CheckUnits, Text, CreateDenomDescription;
    QueryNeedsCode(ch, s.evm, newAddr, q);
  }

  lemma UnitIsThere(units: seq<DenomUnit>, data: ERC20Data)
    requires CheckUnits(units, data).None?
    ensures DenomUnit(data.name, data.decimals) in units
  {
    CheckUnitsIff(units, data);
  }

  // The pair that moved is labelled by its new contract, and nothing else is relabelled.
  lemma UpdateRelabels(ch: Chain, s: State, oldAddr: Address, newAddr: Address, q: Query, id: Bytes, p': TokenPair)
    requires Core(ch, s) && UpdateTokenPairERC20(ch, s, oldAddr, newAddr, q).Ok?
    requires oldAddr in s.reg.byErc20 && id == s.reg.byErc20[oldAddr] && id in s.reg.pairs
    requires p'.denom == s.reg.pairs[id].denom && Contract(p') == newAddr
    ensures var s' := UpdateTokenPairERC20(ch, s, oldAddr, newAddr, q).value;
            && LabelFits(ch, s'.bank, s'.evm, p')
            && s'.evm.tokens == s.evm.tokens
            && (forall d :: d in s.bank.metadata && d != p'.denom ==>
                  d in s'.bank.metadata && s'.bank.metadata[d] == s.bank.metadata[d])
  {
    var i := UpdateFindsPair(ch, s, oldAddr, newAddr, q);
    hide UpdateTokenPairERC20, Core, FindPair, CheckUnits, Contract, Text, CreateDenomDescription, LabelFits;
    UpdateChecks(ch, s, oldAddr, newAddr, q, id);
    UnitIsThere(s.bank.metadata[p'.denom].units, s.evm.tokens[newAddr].data);
    var evm := UpdateTokenPairERC20(ch, s, oldAddr, newAddr, q).value.evm;
    FitsWhenDescribed(ch, s.bank, evm, p', s.bank.metadata[p'.denom]);
  }

  lemma FitsWhenDescribed(ch: Chain, b: Bank, evm: Evm, p: TokenPair, m: Metadata<DenomUnit>)
    requires Contract(p) in evm.tokens && m.base == p.denom
    requires m.display == evm.tokens[Contract(p)].data.name && m.symbol == evm.tokens[Contract(p)].data.symbol
    requires DenomUnit(evm.tokens[Contract(p)].data.name, evm.tokens[Contract(p)].data.decimals) in m.units
    ensures LabelFits(ch, b.SetMetadata(m.(description := CreateDenomDescription(Text(ch, Contract(p))))), evm, p)
  {
    hide Contract, Text, CreateDenomDescription;
  }

  lemma UpdateKeepsLabels(ch: Chain, s: State, oldAddr: Address, newAddr: Address, q: Query)
    requires ch.Sound() && Core(ch, s) && Labelled(ch, s) && UpdateTokenPairERC20(ch, s, oldAddr, newAddr, q).Ok?
    ensures Labelled(ch, UpdateTokenPairERC20(ch, s, oldAddr, newAddr, q).value)
  {
    CoreIsBijective(ch, s);
    hide UpdateTokenPairERC20, Core, LabelFits, Migrate, Contract, GetID, Text, IsHexAddress, Bijective;
    var id := UpdateFacts(ch, s, oldAddr, newAddr, q);
    var s' := UpdateTokenPairERC20(ch, s, oldAddr, newAddr, q).value;
    var p', id' := MigrateWrites(ch, s.reg, id, newAddr);
    UpdateRelabels(ch, s, oldAddr, newAddr, q, id, p');
    forall i | i in s.reg.pairs && i != id && s.reg.pairs[i].contractOwner == OWNER_EXTERNAL
      ensures LabelFits(ch, s'.bank, s'.evm, s.reg.pairs[i])
    {
      NoSharing(ch, s.reg, i, id);
      OtherLabelStays(ch, s, s', s.reg.pairs[i], p'.denom);
    }
  }

  lemma OtherLabelStays(ch: Chain, s: State, s': State, p: TokenPair, d: Bytes)
    requires LabelFits(ch, s.bank, s.evm, p) && p.denom != d && s'.evm.tokens == s.evm.tokens
    requires forall e :: e in s.bank.metadata && e != d ==>
               e in s'.bank.metadata && s'.bank.metadata[e] == s.bank.metadata[e]
    ensures LabelFits(ch, s'.bank, s'.evm, p)
  {
    hide Contract, Text, CreateDenomDescription;
  }

  // The hook and the transactions before it leave data and metadata alone.
  lemma {:induction false} LoopKeepsData(ch: Chain, s: State, logs: seq<Log>, vs: seq<Verdict>)
    requires |vs| == |logs|
    ensures Extends(s, ProcessLogs(ch, s, logs, vs).state)
    decreases |logs|
  {
    hide ProcessLog;
    if |logs| > 0 {
      match ProcessLog(ch, s, logs[0], vs[0])
      case Skip => LoopKeepsData(ch, s, logs[1..], vs[1..]);
      case Abort =>
      case Swallow(s') =>
        LogKeepsData(ch, s, logs[0], vs[0]);
        LoopKeepsData(ch, s', logs[1..], vs[1..]);
      case Convert(s') =>
        LogKeepsData(ch, s, logs[0], vs[0]);
        LoopKeepsData(ch, s', logs[1..], vs[1..]);
    }
  }

  lemma LogKeepsData(ch: Chain, s: State, log: Log, v: Verdict)
    requires ProcessLog(ch, s, log, v).Swallow? || ProcessLog(ch, s, log, v).Convert?
    ensures Extends(s, ProcessLog(ch, s, log, v).state)
  {
    hide ProcessLog, Release, Bank.SendFromModule, PairOf, Amount;
    var p, r := EffectOfLog(ch, s, log, v);
    ReleaseKeepsData(ch, s, p, log.address, Amount(ch, log), v);
  }

  lemma ReleaseKeepsData(ch: Chain, s: State, p: TokenPair, c: Address, n: nat, v: Verdict)
    ensures var s' := Release(ch, s, p, c, n, v).0;
            forall k :: k in s.evm.tokens ==> k in s'.evm.tokens && s'.evm.tokens[k].data == s.evm.tokens[k].data
  {
    hide Execute, Credit;
  }

  lemma EthTxKeepsLabels(ch: Chain, s: State, ops: seq<TokenOp>, vs: seq<Verdict>, hooked: bool)
    requires Core(ch, s) && Labelled(ch, s) && EthTx(ch, s, ops, vs, hooked).Ok?
    ensures Labelled(ch, EthTx(ch, s, ops, vs, hooked).value)
  {
    EthTxKeepsCore(ch, s, ops, vs, hooked);
    hide RunOps, ProcessLogs, Core, Labelled;
    RunOpsKeepCode(ch, s.evm, ops);
    if hooked {
      LoopKeepsData(ch, s.(evm := RunOps(ch, s.evm, ops).value.0), RunOps(ch, s.evm, ops).value.1, vs);
    }
    LabelledFrame(ch, s, EthTx(ch, s, ops, vs, hooked).value, ZERO);
  }

  lemma StepKeepsLabels(ch: Chain, s: State, step: Step)
    requires ch.Sound() && Core(ch, s) && Labelled(ch, s) && Proper(ch, s, step)
    ensures Labelled(ch, Next(ch, s, step))
  {
    hide ConvertCoin, ConvertERC20, RegisterCoin, RegisterERC20, ToggleRelay, UpdateTokenPairERC20, EthTx, Core,
         Labelled, Credit, Debit, Move, KeepsRest;
    if Try(ch, s, step).Ok? {
      match step
      case StepConvertCoin(msg, v) =>
        ConvertCoinKeepsCore(ch, s, msg, v);
        KeepsRestExtends(s, Next(ch, s, step));
        LabelledFrame(ch, s, Next(ch, s, step), ZERO);
      case StepConvertERC20(msg, v) =>
        ConvertERC20KeepsCore(ch, s, msg, v);
        KeepsRestExtends(s, Next(ch, s, step));
        LabelledFrame(ch, s, Next(ch, s, step), ZERO);
      case StepRegisterCoin(meta, v) =>
        ProposalHasUnits(ch, s, meta, v);
        RegisterCoinKeepsLabels(ch, s, meta, v);
      case StepRegisterERC20(c, q, valid) => RegisterERC20KeepsLabels(ch, s, c, q, valid);
      case StepToggle(token) => ToggleKeepsLabels(ch, s, token);
      case StepUpdate(oldAddr, newAddr, q) => UpdateKeepsLabels(ch, s, oldAddr, newAddr, q);
      case StepEthTx(ops, vs, hooked) => EthTxKeepsLabels(ch, s, ops, vs, hooked);
      case _ => LabelledFrame(ch, s, Next(ch, s, step), ZERO);
    }
  }

  // In every reachable state, the metadata of each voucher shows the name, symbol, decimals and
  // address of the contract that it is registered with, also after migrations.
  lemma {:induction false} RunKeepsLabels(ch: Chain, s: State, steps: seq<Step>)
    requires ch.Sound() && Core(ch, s) && Labelled(ch, s) && AllProper(ch, s, steps)
    ensures Labelled(ch, Run(ch, s, steps))
    decreases |steps|
  {
    hide Core, Labelled, Proper, Next;
    if |steps| > 0 {
      StepKeepsCore(ch, s, steps[0]);
      StepKeepsLabels(ch, s, steps[0]);
      RunKeepsLabels(ch, Next(ch, s, steps[0]), steps[1..]);
    }
  }
}
