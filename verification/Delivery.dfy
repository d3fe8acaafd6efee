// Delivery of steps to the keeper: each runs on the keeper itself and is undone when it
// returns an error.
module Delivery {
  import opened Base
  import opened Chains
  import opened Ledgers
  import opened Registries
  import opened States
  import opened Steps
  import opened Backing
  import opened Runs
  import opened Keepers
  import opened MsgServer
  import Conversions
  import EvmHooks
  import Governance
  import Hook
  import Proposals

  // The longest string has room in a pair's encoding.
  predicate Fits(step: Step)
  {
    step.StepRegisterCoin? ==> |step.meta.base| <= MAX_STRING
  }

  // A user transaction, and the hook when it is wired in.
  method RunEthTx(k: Keeper, ops: seq<TokenOp>, vs: seq<Verdict>, hooked: bool) returns (err: Option<Error>)
    requires k.Valid()
    modifies k`bank, k`evm
    ensures Performs(k, EthTx(k.ch, old(k.View()), ops, vs, hooked), err)
  {
    hide RunOps, Hook.PostTxProcessing, Keeper.Pairs, Keeper.Valid;
    var ran := RunOps(k.ch, k.evm, ops);
    if ran.None? {
      return Some(OpFailed);
    }
    k.evm := ran.value.0;
    if !hooked {
      return None;
    }
    if |vs| != |ran.value.1| {
      return Some(OpFailed);
    }
    var aborted := EvmHooks.PostTxProcessing(k, ran.value.1, vs);
    return if aborted then Some(HookDisabled) else None;
  }

  // What other modules do to the bank, the params and the contracts.
  method RunOther(k: Keeper, step: Step) returns (err: Option<Error>)
    requires k.Valid()
    requires step.StepParams? || step.StepDeploy? || step.StepBankSend? || step.StepBankMint? || step.StepBankBurn?
             || step.StepSendDisabled?
    modifies k`bank, k`evm, k`params
    ensures Performs(k, Try(k.ch, old(k.View()), step), err)
  {
    hide Keeper.Pairs, Keeper.Valid, Bank.Send, Credit, Debit;
    match step {
      case StepParams(params) =>
        k.params := params;
      case StepDeploy(at, token) =>
        k.evm := k.evm.(tokens := k.evm.tokens[at := token]);
      case StepBankSend(from, to, denom, n) =>
        var bank := k.bank.Send(from, to, denom, n);
        if bank.Err? {
          return Some(bank.error);
        }
        k.bank := bank.value;
      case StepBankMint(to, denom, n) =>
        k.bank := k.bank.SetCoins(denom, Credit(k.bank.Coins(denom), to, n));
      case StepBankBurn(from, denom, n) =>
        if k.bank.Coins(denom)[from] < n {
          return Some(InsufficientFunds);
        }
        k.bank := k.bank.SetCoins(denom, Debit(k.bank.Coins(denom), from, n));
      case StepSendDisabled(denoms) =>
        k.bank := k.bank.(sendDisabled := denoms);
    }
    return None;
  }

  method Handle(k: Keeper, step: Step) returns (err: Option<Error>)
    requires k.Valid() && Fits(step)
    modifies k
    ensures Performs(k, Try(k.ch, old(k.View()), step), err)
  {
    hide Conversions.ConvertCoin, Conversions.ConvertERC20, Governance.RegisterCoin, Governance.RegisterERC20,
         Governance.ToggleRelay, Governance.UpdateTokenPairERC20, EthTx, Keeper.Pairs, Keeper.Valid;
    match step {
      case StepConvertCoin(msg, v) =>
        err := ConvertCoin(k, msg, v);
      case StepConvertERC20(msg, v) =>
        err := ConvertERC20(k, msg, v);
      case StepRegisterCoin(meta, v) =>
        var loaded := Proposals.Load(meta);
        var r := Proposals.RegisterCoin(k, loaded, v);
        err := Proposals.Failure(r);
      case StepRegisterERC20(contract, q, valid) =>
        var r := Proposals.RegisterERC20(k, contract, q, valid);
        err := Proposals.Failure(r);
      case StepToggle(token) =>
        var r := Proposals.ToggleRelay(k, token);
        err := Proposals.Failure(r);
      case StepUpdate(oldAddr, newAddr, q) =>
        var r := Proposals.UpdateTokenPairERC20(k, oldAddr, newAddr, q);
        err := Proposals.Failure(r);
      case StepEthTx(ops, vs, hooked) =>
        err := RunEthTx(k, ops, vs, hooked);
      case _ =>
        err := RunOther(k, step);
    }
  }

  method Deliver(k: Keeper, step: Step)
    requires k.Valid() && Fits(step)
    modifies k
    ensures k.Valid() && k.View() == Next(k.ch, old(k.View()), step)
  {
    hide Try;
    var tokenPairs, byErc20, byDenom, params, bank, evm := k.tokenPairs, k.byErc20, k.byDenom, k.params, k.bank, k.evm;
    var err := Handle(k, step);
    if err.Some? {
      k.tokenPairs, k.byErc20, k.byDenom, k.params, k.bank, k.evm := tokenPairs, byErc20, byDenom, params, bank, evm;
    }
  }

  // A keeper that is delivered a list of steps ends in the state of the run, and if the steps
  // are honest it is backed in the end.
  method DeliverAll(k: Keeper, steps: seq<Step>)
    requires k.Valid() && forall i :: 0 <= i < |steps| ==> Fits(steps[i])
    modifies k
    ensures k.Valid() && k.View() == Run(k.ch, old(k.View()), steps)
    ensures k.ch.Sound() && Initial(k.ch, old(k.View())) && AllHonest(k.ch, old(k.View()), steps) ==>
              Backed(k.ch, k.View())
  {
    hide Fits, Next, Initial, AllHonest, Backed, Core, Keeper.Pairs, Keeper.Valid;
    ghost var s := k.View();
    assert steps[0..] == steps;
    for i := 0 to |steps|
      invariant k.Valid() && Run(k.ch, k.View(), steps[i..]) == Run(k.ch, s, steps)
    {
      assert steps[i..][0] == steps[i] && steps[i..][1..] == steps[i + 1..];
      Deliver(k, steps[i]);
    }
    if k.ch.Sound() && Initial(k.ch, s) && AllHonest(k.ch, s, steps) {
      InitialIsGood(k.ch, s);
      RunKeepsBacking(k.ch, s, steps);
    }
  }
}
