// MintingEnabled and the two conversion messages as the keeper carries them out
// (x/intrarelayer/keeper/mint.go and msg_server.go). A message that returns an error leaves
// the keeper wherever it stopped; rolling back is the caller's work.
module MsgServer {
  import opened Base
  import opened Chains
  import opened Ledgers
  import opened Registries
  import opened TokenPairCodec
  import opened States
  import opened Keepers
  import Spec = Conversions

  // What a message promises: the specified error, or the specified state.
  ghost predicate Performs(k: Keeper, spec: Result<State, Error>, err: Option<Error>)
    reads k
  {
    && k.Valid()
    && match spec
       case Err(e) => err == Some(e)
       case Ok(s) => err == None && k.View() == s
  }

  method MintingEnabled(k: Keeper, sender: Address, receiver: Address, token: Bytes)
    returns (r: Result<TokenPair, Error>)
    requires k.Valid()
    ensures r == States.MintingEnabled(k.View(), sender, receiver, token)
  {
    hide FindPair, IsHexAddress, HexToAddress;
    if !k.params.enableIntrarelayer {
      return Err(BridgeDisabled);
    }
    var id := k.GetTokenPairID(token);
    if id.None? || |id.value| == 0 {
      return Err(NotRegistered);
    }
    var pair, found := k.GetTokenPair(id);
    if !found {
      return Err(PairNotFound);
    }
    if !pair.enabled {
      return Err(PairDisabled);
    }
    if receiver in k.bank.blocked {
      return Err(BlockedReceiver);
    }
    if sender != receiver && pair.denom in k.bank.sendDisabled {
      return Err(SendDisabled);
    }
    return Ok(pair);
  }

  method ConvertCoin(k: Keeper, msg: Spec.MsgConvertCoin, v: Verdict) returns (err: Option<Error>)
    requires k.Valid()
    modifies k`bank, k`evm
    ensures Performs(k, Spec.ConvertCoin(k.ch, old(k.View()), msg, v), err)
  {
    hide States.MintingEnabled, Spec.ConvertCoinNativeCoin, Spec.ConvertCoinNativeERC20;
    var pair := MintingEnabled(k, msg.sender, msg.receiver, msg.denom);
    if pair.Err? {
      return Some(pair.error);
    }
    if pair.value.contractOwner == OWNER_MODULE {
      err := ConvertCoinNativeCoin(k, pair.value, msg, v);
    } else if pair.value.contractOwner == OWNER_EXTERNAL {
      err := ConvertCoinNativeERC20(k, pair.value, msg, v);
    } else {
      err := Some(UndefinedOwner);
    }
  }

  method ConvertERC20(k: Keeper, msg: Spec.MsgConvertERC20, v: Verdict) returns (err: Option<Error>)
    requires k.Valid()
    modifies k`bank, k`evm
    ensures Performs(k, Spec.ConvertERC20(k.ch, old(k.View()), msg, v), err)
  {
    hide States.MintingEnabled, Spec.ConvertERC20NativeCoin, Spec.ConvertERC20NativeToken;
    var pair := MintingEnabled(k, msg.sender, msg.receiver, msg.contract);
    if pair.Err? {
      return Some(pair.error);
    }
    if pair.value.contractOwner == OWNER_MODULE {
      err := ConvertERC20NativeCoin(k, pair.value, msg, v);
    } else if pair.value.contractOwner == OWNER_EXTERNAL {
      err := ConvertERC20NativeToken(k, pair.value, msg, v);
    } else {
      err := Some(UndefinedOwner);
    }
  }

  // Escrow coins, mint tokens.
  method ConvertCoinNativeCoin(k: Keeper, pair: TokenPair, msg: Spec.MsgConvertCoin, v: Verdict)
    returns (err: Option<Error>)
    requires k.Valid()
    modifies k`bank, k`evm
    ensures Performs(k, Spec.ConvertCoinNativeCoin(k.ch, old(k.View()), pair, msg, v), err)
  {
    hide Contract, Ledgers.CallEVM, Bank.Send;
    var bank := k.bank.Send(msg.sender, k.ch.moduleAddress, msg.denom, msg.amount);
    if bank.Err? {
      return Some(bank.error);
    }
    k.bank := bank.value;
    var ret := k.CallEVM(k.ch.moduleAddress, Contract(pair), Call.Mint(msg.receiver, msg.amount), v);
    if ret.Err? {
      return Some(ret.error);
    }
    return None;
  }

  // Escrow coins, release escrowed tokens, burn the coins.
  method ConvertCoinNativeERC20(k: Keeper, pair: TokenPair, msg: Spec.MsgConvertCoin, v: Verdict)
    returns (err: Option<Error>)
    requires k.Valid()
    modifies k`bank, k`evm
    ensures Performs(k, Spec.ConvertCoinNativeERC20(k.ch, old(k.View()), pair, msg, v), err)
  {
    hide Contract, Ledgers.CallEVM, Bank.Send, Bank.Burn;
    var bank := k.bank.Send(msg.sender, k.ch.moduleAddress, msg.denom, msg.amount);
    if bank.Err? {
      return Some(bank.error);
    }
    k.bank := bank.value;
    var ret := k.CallEVM(k.ch.moduleAddress, Contract(pair), Transfer(msg.receiver, msg.amount), v);
    if ret.Err? {
      return Some(ret.error);
    }
    if ret.value.None? {
      return Some(NoBoolReturned);
    }
    if !ret.value.value {
      return Some(TransferFailed);
    }
    bank := k.bank.Burn(k.ch, msg.denom, msg.amount);
    if bank.Err? {
      return Some(bank.error);
    }
    k.bank := bank.value;
    return None;
  }

  // Burn tokens, release escrowed coins.
  method ConvertERC20NativeCoin(k: Keeper, pair: TokenPair, msg: Spec.MsgConvertERC20, v: Verdict)
    returns (err: Option<Error>)
    requires k.Valid()
    modifies k`bank, k`evm
    ensures Performs(k, Spec.ConvertERC20NativeCoin(k.ch, old(k.View()), pair, msg, v), err)
  {
    hide Contract, Ledgers.CallEVM, Bank.SendFromModule;
    var ret := k.CallEVM(k.ch.moduleAddress, Contract(pair), BurnCoins(msg.sender, msg.amount), v);
    if ret.Err? {
      return Some(ret.error);
    }
    var bank := k.bank.SendFromModule(k.ch, msg.receiver, pair.denom, msg.amount);
    if bank.Err? {
      return Some(bank.error);
    }
    k.bank := bank.value;
    return None;
  }

  // Escrow tokens, mint coins and send them on.
  method ConvertERC20NativeToken(k: Keeper, pair: TokenPair, msg: Spec.MsgConvertERC20, v: Verdict)
    returns (err: Option<Error>)
    requires k.Valid()
    modifies k`bank, k`evm
    ensures Performs(k, Spec.ConvertERC20NativeToken(k.ch, old(k.View()), pair, msg, v), err)
  {
    hide Contract, Ledgers.CallEVM, Bank.SendFromModule, Bank.Mint;
    var ret := k.CallEVM(msg.sender, Contract(pair), Transfer(k.ch.moduleAddress, msg.amount), v);
    if ret.Err? {
      return Some(ret.error);
    }
    if ret.value.None? {
      return Some(NoBoolReturned);
    }
    if !ret.value.value {
      return Some(TransferFailed);
    }
    k.bank := k.bank.Mint(k.ch, pair.denom, msg.amount);
    var bank := k.bank.SendFromModule(k.ch, msg.receiver, pair.denom, msg.amount);
    if bank.Err? {
      return Some(bank.error);
    }
    k.bank := bank.value;
    return None;
  }
}
