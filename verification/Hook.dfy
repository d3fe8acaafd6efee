// The post-transaction hook of x/intrarelayer/keeper/evm_hooks.go: ERC20 transfers to the
// module account become coins.
module Hook {
  import opened Base
  import opened Chains
  import opened Ledgers
  import opened Registries
  import opened TokenPairCodec
  import opened States

  // A value that the ABI decoder unpacks from the data of a log.
  datatype AbiValue = Number(n: int) | OtherValue

  // data is None when the decoder rejects it.
  datatype Log = Log(address: Address, topics: seq<nat>, data: Option<seq<AbiValue>>)

  // common.BytesToAddress of a topic.
  function TopicAddress(topic: nat): Address
  {
    topic % TWO_160
  }

  // The positive amount of a Transfer event, and 0 for any log that the loop skips early.
  function Amount(ch: Chain, log: Log): nat
  {
    if |log.topics| < 3 then 0
    else if ch.eventName(log.topics[0]) != Some("Transfer") then 0
    else if log.data.None? || |log.data.value| == 0 then 0
    else if !log.data.value[0].Number? || log.data.value[0].n <= 0 then 0
    else log.data.value[0].n
  }

  // The registered pair that a log belongs to.
  function PairOf(r: Registry, log: Log): Option<TokenPair>
  {
    if log.address !in r.byErc20 || |r.byErc20[log.address]| == 0 then None
    else FindPair(r, r.byErc20[log.address])
  }

  // What one turn of the loop does: continue without effect, return an error, continue after a
  // failure that is only logged, or convert.
  datatype Turn = Skip | Abort | Swallow(state: State) | Convert(state: State)

  // Burning or minting, by the owner of the contract.
  function Release(ch: Chain, s: State, p: TokenPair, contract: Address, n: nat, v: Verdict): (State, bool)
  {
    if p.contractOwner == OWNER_MODULE then
      var called := CallEVM(ch, s.evm, ch.moduleAddress, contract, Burn(n), v);
      (s.(evm := called.evm), called.outcome.Ok?)
    else if p.contractOwner == OWNER_EXTERNAL then
      (s.(bank := s.bank.Mint(ch, p.denom, n)), true)
    else
      (s, false)
  }

  function ProcessLog(ch: Chain, s: State, log: Log, v: Verdict): Turn
  {
    var n, pair := Amount(ch, log), PairOf(s.reg, log);
    if n == 0 || pair.None? then Skip
    else if !pair.value.enabled then Abort
    else if TopicAddress(log.topics[2]) != ch.moduleAddress then Skip
    else
      var (s, ok) := Release(ch, s, pair.value, log.address, n, v);
      if !ok then Swallow(s)
      else
        match s.bank.SendFromModule(ch, TopicAddress(log.topics[1]), pair.value.denom, n)
        case Err(_) => Swallow(s)
        case Ok(bank) => Convert(s.(bank := bank))
  }

  // The state after the loop, whether it returned an error, and how many failures it logged.
  datatype Outcome = Outcome(state: State, aborted: bool, swallowed: nat)

  function ProcessLogs(ch: Chain, s: State, logs: seq<Log>, vs: seq<Verdict>): Outcome
    requires |vs| == |logs|
    decreases |logs|
  {
    if |logs| == 0 then Outcome(s, false, 0)
    else
      match ProcessLog(ch, s, logs[0], vs[0])
      case Skip => ProcessLogs(ch, s, logs[1..], vs[1..])
      case Abort => Outcome(s, true, 0)
      case Swallow(s') =>
        var o := ProcessLogs(ch, s', logs[1..], vs[1..]);
        o.(swallowed := o.swallowed + 1)
      case Convert(s') => ProcessLogs(ch, s', logs[1..], vs[1..])
  }

  // PostTxProcessing: an error when the hook is disabled, else the loop.
  function PostTxProcessing(ch: Chain, s: State, logs: seq<Log>, vs: seq<Verdict>): Outcome
    requires |vs| == |logs|
  {
    if !s.params.enableEVMHook then Outcome(s, true, 0) else ProcessLogs(ch, s, logs, vs)
  }

  // Processing a concatenated list is processing the parts in order, up to the first error.
  lemma {:induction false} ProcessConcat(ch: Chain, s: State, a: seq<Log>, va: seq<Verdict>, b: seq<Log>,
                                         vb: seq<Verdict>)
    requires |va| == |a| && |vb| == |b|
    ensures var first := ProcessLogs(ch, s, a, va);
            ProcessLogs(ch, s, a + b, va + vb) ==
            if first.aborted then first
            else
              var second := ProcessLogs(ch, first.state, b, vb);
              second.(swallowed := first.swallowed + second.swallowed)
    decreases |a|
  {
    hide ProcessLog;
    if |a| == 0 {
      assert a + b == b && va + vb == vb;
    } else {
      assert (a + b)[1..] == a[1..] + b && (va + vb)[1..] == va[1..] + vb;
      match ProcessLog(ch, s, a[0], va[0])
      case Skip => ProcessConcat(ch, s, a[1..], va[1..], b, vb);
      case Abort =>
      case Swallow(s') => ProcessConcat(ch, s', a[1..], va[1..], b, vb);
      case Convert(s') => ProcessConcat(ch, s', a[1..], va[1..], b, vb);
    }
  }

  // ---- The declarative sum -----------------------------------------------------------

  // What one log is worth to its sender: the amount of a Transfer to the module on a
  // registered contract.
  function Worth(ch: Chain, r: Registry, log: Log): nat
  {
    if Amount(ch, log) > 0 && PairOf(r, log).Some? && TopicAddress(log.topics[2]) == ch.moduleAddress
    then Amount(ch, log)
    else 0
  }

  function Sender(log: Log): Address
  {
    if |log.topics| < 2 then 0 else TopicAddress(log.topics[1])
  }

  // The sum of what the logs are worth to account a in denomination d.
  function Credits(ch: Chain, r: Registry, logs: seq<Log>, a: Address, d: Bytes): nat
  {
    if |logs| == 0 then 0
    else
      (if Worth(ch, r, logs[0]) > 0 && Sender(logs[0]) == a && PairOf(r, logs[0]).value.denom == d
       then Worth(ch, r, logs[0]) else 0)
      + Credits(ch, r, logs[1..], a, d)
  }

  // The sum of what the logs of pairs with this owner are worth in denomination d.
  function Released(ch: Chain, r: Registry, logs: seq<Log>, owner: Owner, d: Bytes): nat
  {
    if |logs| == 0 then 0
    else
      (if Worth(ch, r, logs[0]) > 0 && PairOf(r, logs[0]).value.denom == d
          && PairOf(r, logs[0]).value.contractOwner == owner
       then Worth(ch, r, logs[0]) else 0)
      + Released(ch, r, logs[1..], owner, d)
  }

  // A log that is not skipped has a sender and a recipient topic.
  lemma AmountNeedsTopics(ch: Chain, log: Log)
    ensures Amount(ch, log) > 0 ==> |log.topics| >= 3
  {
  }

  // The hook never touches the registry, the params, the metadata or the bank's lists.
  ghost predicate OnlyLedgers(s: State, s': State)
  {
    && s'.reg == s.reg && s'.params == s.params
    && s'.bank.metadata == s.bank.metadata && s'.bank.blocked == s.bank.blocked
    && s'.bank.sendDisabled == s.bank.sendDisabled
  }

  lemma ReleaseOnlyModule(ch: Chain, s: State, p: TokenPair, c: Address, n: nat, v: Verdict, a: Address, d: Bytes)
    requires a != ch.moduleAddress
    ensures OnlyLedgers(s, Release(ch, s, p, c, n, v).0)
    ensures Release(ch, s, p, c, n, v).0.bank.Coins(d)[a] == s.bank.Coins(d)[a]
  {
    hide CallEVM;
  }

  lemma SendCredits(ch: Chain, b: Bank, to: Address, denom: Bytes, n: nat, a: Address, d: Bytes)
    requires b.SendFromModule(ch, to, denom, n).Ok? && a != ch.moduleAddress
    ensures var b' := b.SendFromModule(ch, to, denom, n).value;
            && b' == b.(coins := b'.coins)
            && b'.Coins(d)[a] == b.Coins(d)[a] + (if to == a && denom == d then n else 0)
            && |b'.Coins(d)| == |b.Coins(d)|
  {
  }

  // One conversion credits the sender with what the log is worth and nobody else but the
  // module.
  lemma ConvertCredits(ch: Chain, s: State, log: Log, v: Verdict, a: Address, d: Bytes)
    requires ProcessLog(ch, s, log, v).Convert? && a != ch.moduleAddress
    ensures var s' := ProcessLog(ch, s, log, v).state;
            && OnlyLedgers(s, s')
            && Worth(ch, s.reg, log) > 0
            && s'.bank.Coins(d)[a] == s.bank.Coins(d)[a]
                 + (if Sender(log) == a && PairOf(s.reg, log).value.denom == d then Worth(ch, s.reg, log) else 0)
  {
    hide Amount, PairOf, Release, Bank.SendFromModule, Bank.Coins;
    AmountNeedsTopics(ch, log);
    var n, p := Amount(ch, log), PairOf(s.reg, log).value;
    ReleaseOnlyModule(ch, s, p, log.address, n, v, a, d);
    SendCredits(ch, Release(ch, s, p, log.address, n, v).0.bank, Sender(log), p.denom, n, a, d);
  }

  // A log with an effect releases on its pair and then moves coins of the pair's denomination
  // from the module or leaves the bank as it is.
  lemma EffectOfLog(ch: Chain, s: State, log: Log, v: Verdict) returns (p: TokenPair, r: State)
    requires ProcessLog(ch, s, log, v).Swallow? || ProcessLog(ch, s, log, v).Convert?
    ensures PairOf(s.reg, log) == Some(p) && Amount(ch, log) > 0 && |log.topics| >= 3
    ensures TopicAddress(log.topics[2]) == ch.moduleAddress
    ensures r == Release(ch, s, p, log.address, Amount(ch, log), v).0
    ensures OnlyLedgers(s, r)
    ensures var s', sent := ProcessLog(ch, s, log, v).state,
                            r.bank.SendFromModule(ch, Sender(log), p.denom, Amount(ch, log));
            && OnlyLedgers(s, s') && s'.evm == r.evm
            && (s'.bank == r.bank ||
                (Release(ch, s, p, log.address, Amount(ch, log), v).1 && sent.Ok? && s'.bank == sent.value))
  {
    AmountNeedsTopics(ch, log);
    hide Amount, PairOf, Release, Bank.SendFromModule, Bank.Coins;
    p := PairOf(s.reg, log).value;
    var n := Amount(ch, log);
    r := Release(ch, s, p, log.address, n, v).0;
    var a: Address := if ch.moduleAddress == 0 then 1 else 0;
    ReleaseOnlyModule(ch, s, p, log.address, n, v, a, p.denom);
    SendKeepsLists(ch, r.bank, Sender(log), p.denom, n);
  }

  lemma SendKeepsLists(ch: Chain, b: Bank, to: Address, denom: Bytes, n: nat)
    ensures b.SendFromModule(ch, to, denom, n).Ok? ==>
              var b' := b.SendFromModule(ch, to, denom, n).value;
              && b' == b.(coins := b'.coins)
              && (forall d :: d != denom ==> b'.Coins(d) == b.Coins(d))
  {
    hide Move;
  }

  lemma SkipIsWorthless(ch: Chain, s: State, log: Log, v: Verdict)
    requires ProcessLog(ch, s, log, v).Skip?
    ensures Worth(ch, s.reg, log) == 0
  {
  }

  // Without failures, the loop credits each account outside the module, in each denomination,
  // with exactly the declarative sum over the logs.
  lemma {:induction false} LoopIsSum(ch: Chain, s: State, logs: seq<Log>, vs: seq<Verdict>, a: Address, d: Bytes)
    requires |vs| == |logs| && a != ch.moduleAddress
    requires !ProcessLogs(ch, s, logs, vs).aborted && ProcessLogs(ch, s, logs, vs).swallowed == 0
    ensures var s' := ProcessLogs(ch, s, logs, vs).state;
            && OnlyLedgers(s, s')
            && s'.bank.Coins(d)[a] == s.bank.Coins(d)[a] + Credits(ch, s.reg, logs, a, d)
    decreases |logs|
  {
    hide ProcessLog, Worth, PairOf, Sender;
    if |logs| > 0 {
      match ProcessLog(ch, s, logs[0], vs[0])
      case Skip =>
        SkipIsWorthless(ch, s, logs[0], vs[0]);
        LoopIsSum(ch, s, logs[1..], vs[1..], a, d);
      case Swallow(s') =>
      case Abort =>
      case Convert(s') =>
        ConvertCredits(ch, s, logs[0], vs[0], a, d);
        LoopIsSum(ch, s', logs[1..], vs[1..], a, d);
    }
  }

  // With or without failures and errors, no account outside the module ever loses coins or
  // gets more than the declarative sum.
  lemma {:induction false} LoopNeverOvercredits(ch: Chain, s: State, logs: seq<Log>, vs: seq<Verdict>, a: Address,
                                                d: Bytes)
    requires |vs| == |logs| && a != ch.moduleAddress
    ensures var s' := ProcessLogs(ch, s, logs, vs).state;
            && OnlyLedgers(s, s')
            && s.bank.Coins(d)[a] <= s'.bank.Coins(d)[a] <= s.bank.Coins(d)[a] + Credits(ch, s.reg, logs, a, d)
    decreases |logs|
  {
    hide ProcessLog, Worth, PairOf, Sender;
    if |logs| > 0 {
      match ProcessLog(ch, s, logs[0], vs[0])
      case Skip => LoopNeverOvercredits(ch, s, logs[1..], vs[1..], a, d);
      case Abort =>
      case Swallow(s') =>
        SwallowCreditsNobody(ch, s, logs[0], vs[0], a, d);
        LoopNeverOvercredits(ch, s', logs[1..], vs[1..], a, d);
      case Convert(s') =>
        ConvertCredits(ch, s, logs[0], vs[0], a, d);
        LoopNeverOvercredits(ch, s', logs[1..], vs[1..], a, d);
    }
  }

  lemma SwallowCreditsNobody(ch: Chain, s: State, log: Log, v: Verdict, a: Address, d: Bytes)
    requires ProcessLog(ch, s, log, v).Swallow? && a != ch.moduleAddress
    ensures var s' := ProcessLog(ch, s, log, v).state;
            OnlyLedgers(s, s') && s'.bank.Coins(d)[a] == s.bank.Coins(d)[a]
  {
    hide Amount, PairOf, Release, Bank.SendFromModule, Bank.Coins;
    AmountNeedsTopics(ch, log);
    ReleaseOnlyModule(ch, s, PairOf(s.reg, log).value, log.address, Amount(ch, log), v, a, d);
  }

  // Minting cannot fail, so that a failed release leaves the supply alone.
  lemma ReleaseSupply(ch: Chain, s: State, p: TokenPair, c: Address, n: nat, v: Verdict, d: Bytes)
    ensures |Release(ch, s, p, c, n, v).0.bank.Coins(d)| ==
            |s.bank.Coins(d)| + (if p.denom == d && p.contractOwner == OWNER_EXTERNAL then n else 0)
  {
    hide CallEVM;
  }

  // The supply of a denomination grows by what external contracts' logs are worth, and stays
  // for native coins, also when the turn fails: coins that cannot be sent on stay with the
  // module.
  lemma TurnSupply(ch: Chain, s: State, log: Log, v: Verdict, d: Bytes)
    requires ProcessLog(ch, s, log, v).Swallow? || ProcessLog(ch, s, log, v).Convert?
    ensures var s', p := ProcessLog(ch, s, log, v).state, PairOf(s.reg, log);
            && OnlyLedgers(s, s') && p.Some?
            && |s'.bank.Coins(d)| == |s.bank.Coins(d)|
                 + (if p.value.denom == d && p.value.contractOwner == OWNER_EXTERNAL then Worth(ch, s.reg, log) else 0)
  {
    hide ProcessLog, Amount, PairOf, Release, Bank.SendFromModule, Bank.Coins;
    var p, r := EffectOfLog(ch, s, log, v);
    var n := Amount(ch, log);
    ReleaseSupply(ch, s, p, log.address, n, v, d);
    if r.bank.SendFromModule(ch, Sender(log), p.denom, n).Ok? {
      var a := if ch.moduleAddress == 0 then 1 else 0;
      SendCredits(ch, r.bank, Sender(log), p.denom, n, a, d);
    }
  }

  // Whatever the loop swallows, unless it returns an error.
  lemma {:induction false} LoopSupply(ch: Chain, s: State, logs: seq<Log>, vs: seq<Verdict>, d: Bytes)
    requires |vs| == |logs| && !ProcessLogs(ch, s, logs, vs).aborted
    ensures |ProcessLogs(ch, s, logs, vs).state.bank.Coins(d)| ==
            |s.bank.Coins(d)| + Released(ch, s.reg, logs, OWNER_EXTERNAL, d)
    decreases |logs|
  {
    hide ProcessLog, Worth, PairOf;
    if |logs| > 0 {
      match ProcessLog(ch, s, logs[0], vs[0])
      case Skip =>
        SkipIsWorthless(ch, s, logs[0], vs[0]);
        LoopSupply(ch, s, logs[1..], vs[1..], d);
      case Abort =>
      case Swallow(s') =>
        TurnSupply(ch, s, logs[0], vs[0], d);
        LoopSupply(ch, s', logs[1..], vs[1..], d);
      case Convert(s') =>
        TurnSupply(ch, s, logs[0], vs[0], d);
        LoopSupply(ch, s', logs[1..], vs[1..], d);
    }
  }
}
