// PostTxProcessing as the keeper carries it out (x/intrarelayer/keeper/evm_hooks.go). What a
// failed turn has done by then stays.
module EvmHooks {
  import opened Base
  import opened Chains
  import opened Ledgers
  import opened Registries
  import opened TokenPairCodec
  import opened States
  import opened Keepers
  import Spec = Hook

  // The loop's body. It changes nothing when it skips the log or returns an error, and leaves
  // the specified state, whole or partial, otherwise.
  method HandleLog(k: Keeper, log: Spec.Log, v: Verdict) returns (aborted: bool)
    requires k.Valid()
    modifies k`bank, k`evm
    ensures k.Valid()
    ensures match Spec.ProcessLog(k.ch, old(k.View()), log, v)
            case Skip => !aborted && k.View() == old(k.View())
            case Abort => aborted && k.View() == old(k.View())
            case Swallow(s) => !aborted && k.View() == s
            case Convert(s) => !aborted && k.View() == s
  {
    hide FindPair, Ledgers.CallEVM, Bank.SendFromModule, Bank.Mint, Spec.TopicAddress, Keeper.Pairs;
    if |log.topics| < 3 {
      return false;
    }
    var event := k.ch.eventName(log.topics[0]);
    if event.None? {
      return false;
    }
    if event.value != "Transfer" {
      return false;
    }
    if log.data.None? {
      return false;
    }
    var transferEvent := log.data.value;
    if |transferEvent| == 0 {
      return false;
    }
    if !transferEvent[0].Number? || transferEvent[0].n <= 0 {
      return false;
    }
    var tokens := transferEvent[0].n;
    var contractAddr := log.address;
    var id := k.GetERC20Map(contractAddr);
    if id.None? || |id.value| == 0 {
      return false;
    }
    var pair, found := k.GetTokenPair(id);
    if !found {
      return false;
    }
    if !pair.enabled {
      return true;
    }
    if Spec.TopicAddress(log.topics[2]) != k.ch.moduleAddress {
      return false;
    }
    assert Spec.Amount(k.ch, log) == tokens && Spec.PairOf(k.View().reg, log) == Some(pair);
    hide Spec.Amount, Spec.PairOf;
    var ok := Release(k, pair, contractAddr, tokens, v);
    if !ok {
      return false;
    }
    var recipient := Spec.TopicAddress(log.topics[1]);
    var bank := k.bank.SendFromModule(k.ch, recipient, pair.denom, tokens);
    if bank.Err? {
      return false;
    }
    k.bank := bank.value;
    return false;
  }

  // Burn the module's tokens or mint coins, by the owner of the contract.
  method Release(k: Keeper, pair: TokenPair, contract: Address, tokens: nat, v: Verdict) returns (ok: bool)
    requires k.Valid()
    modifies k`bank, k`evm
    ensures k.Valid() && (k.View(), ok) == Spec.Release(k.ch, old(k.View()), pair, contract, tokens, v)
  {
    hide Ledgers.CallEVM, Bank.Mint;
    if pair.contractOwner == OWNER_MODULE {
      var ret := k.CallEVM(k.ch.moduleAddress, contract, Burn(tokens), v);
      return ret.Ok?;
    } else if pair.contractOwner == OWNER_EXTERNAL {
      k.bank := k.bank.Mint(k.ch, pair.denom, tokens);
      return true;
    }
    return false;
  }

  // The state and the error of the loop from the log at index i on.
  ghost predicate Reaches(ch: Chain, s: State, logs: seq<Spec.Log>, vs: seq<Verdict>, end: State, aborted: bool)
    requires |vs| == |logs|
  {
    var o := Spec.ProcessLogs(ch, s, logs, vs);
    o.state == end && o.aborted == aborted
  }

  lemma TurnReaches(ch: Chain, s: State, logs: seq<Spec.Log>, vs: seq<Verdict>, end: State, aborted: bool)
    requires |vs| == |logs| > 0
    ensures Reaches(ch, s, logs, vs, end, aborted) <==>
            match Spec.ProcessLog(ch, s, logs[0], vs[0])
            case Skip => Reaches(ch, s, logs[1..], vs[1..], end, aborted)
            case Abort => end == s && aborted
            case Swallow(s') => Reaches(ch, s', logs[1..], vs[1..], end, aborted)
            case Convert(s') => Reaches(ch, s', logs[1..], vs[1..], end, aborted)
  {
    hide Spec.ProcessLog;
  }

  method PostTxProcessing(k: Keeper, logs: seq<Spec.Log>, vs: seq<Verdict>) returns (aborted: bool)
    requires k.Valid() && |vs| == |logs|
    modifies k`bank, k`evm
    ensures k.Valid()
    ensures var o := Spec.PostTxProcessing(k.ch, old(k.View()), logs, vs);
            aborted == o.aborted && k.View() == o.state
  {
    hide Spec.ProcessLog, Spec.ProcessLogs, Reaches, Keeper.Valid, Keeper.Pairs;
    if !k.params.enableEVMHook {
      return true;
    }
    ghost var o := Spec.ProcessLogs(k.ch, k.View(), logs, vs);
    LoopReaches(k.ch, k.View(), logs, vs);
    for i := 0 to |logs|
      invariant k.Valid() && Reaches(k.ch, k.View(), logs[i..], vs[i..], o.state, o.aborted)
    {
      TurnReaches(k.ch, k.View(), logs[i..], vs[i..], o.state, o.aborted);
      assert logs[i..][1..] == logs[i + 1..] && vs[i..][1..] == vs[i + 1..];
      aborted := HandleLog(k, logs[i], vs[i]);
      if aborted {
        return true;
      }
    }
    NothingLeft(k.ch, k.View(), logs[|logs|..], vs[|logs|..], o.state, o.aborted);
    return false;
  }

  lemma LoopReaches(ch: Chain, s: State, logs: seq<Spec.Log>, vs: seq<Verdict>)
    requires |vs| == |logs|
    ensures var o := Spec.ProcessLogs(ch, s, logs, vs);
            Reaches(ch, s, logs[0..], vs[0..], o.state, o.aborted)
  {
    assert logs[0..] == logs && vs[0..] == vs;
    hide Spec.ProcessLogs;
  }

  lemma NothingLeft(ch: Chain, s: State, logs: seq<Spec.Log>, vs: seq<Verdict>, end: State, aborted: bool)
    requires |vs| == |logs| == 0 && Reaches(ch, s, logs, vs, end, aborted)
    ensures end == s && !aborted
  {
  }
}
