// The four conversion flows of x/intrarelayer/keeper/msg_server.go, as functions from the
// state before a message to the state after it. A message that fails is rolled back as a
// whole, so that a failure carries no state.
module Conversions {
  import opened Base
  import opened Chains
  import opened Ledgers
  import opened Registries
  import opened TokenPairCodec
  import opened States

  datatype MsgConvertCoin = MsgConvertCoin(denom: Bytes, amount: nat, receiver: Address, sender: Address)
  datatype MsgConvertERC20 = MsgConvertERC20(contract: Bytes, amount: nat, receiver: Address, sender: Address)

  function ConvertCoin(ch: Chain, s: State, msg: MsgConvertCoin, v: Verdict): Result<State, Error>
  {
    var pair :- MintingEnabled(s, msg.sender, msg.receiver, msg.denom);
    if pair.contractOwner == OWNER_MODULE then ConvertCoinNativeCoin(ch, s, pair, msg, v)
    else if pair.contractOwner == OWNER_EXTERNAL then ConvertCoinNativeERC20(ch, s, pair, msg, v)
    else Err(UndefinedOwner)
  }

  function ConvertERC20(ch: Chain, s: State, msg: MsgConvertERC20, v: Verdict): Result<State, Error>
  {
    var pair :- MintingEnabled(s, msg.sender, msg.receiver, msg.contract);
    if pair.contractOwner == OWNER_MODULE then ConvertERC20NativeCoin(ch, s, pair, msg, v)
    else if pair.contractOwner == OWNER_EXTERNAL then ConvertERC20NativeToken(ch, s, pair, msg, v)
    else Err(UndefinedOwner)
  }

  // Escrow coins, mint tokens.
  function ConvertCoinNativeCoin(ch: Chain, s: State, pair: TokenPair, msg: MsgConvertCoin, v: Verdict)
    : Result<State, Error>
  {
    var bank :- s.bank.Send(msg.sender, ch.moduleAddress, msg.denom, msg.amount);
    var called := CallEVM(ch, s.evm, ch.moduleAddress, Contract(pair), Call.Mint(msg.receiver, msg.amount), v);
    var _ :- called.outcome;
    Ok(s.(bank := bank, evm := called.evm))
  }

  // Escrow coins, release escrowed tokens, burn the coins.
  function ConvertCoinNativeERC20(ch: Chain, s: State, pair: TokenPair, msg: MsgConvertCoin, v: Verdict)
    : Result<State, Error>
  {
    var bank :- s.bank.Send(msg.sender, ch.moduleAddress, msg.denom, msg.amount);
    var called := CallEVM(ch, s.evm, ch.moduleAddress, Contract(pair), Transfer(msg.receiver, msg.amount), v);
    var ret :- called.outcome;
    if ret.None? then Err(NoBoolReturned)
    else if !ret.value then Err(TransferFailed)
    else
      var bank :- bank.Burn(ch, msg.denom, msg.amount);
      Ok(s.(bank := bank, evm := called.evm))
  }

  // Burn tokens, release escrowed coins.
  function ConvertERC20NativeCoin(ch: Chain, s: State, pair: TokenPair, msg: MsgConvertERC20, v: Verdict)
    : Result<State, Error>
  {
    var called := CallEVM(ch, s.evm, ch.moduleAddress, Contract(pair), BurnCoins(msg.sender, msg.amount), v);
    var _ :- called.outcome;
    var bank :- s.bank.SendFromModule(ch, msg.receiver, pair.denom, msg.amount);
    Ok(s.(bank := bank, evm := called.evm))
  }

  // Escrow tokens, mint coins.
  function ConvertERC20NativeToken(ch: Chain, s: State, pair: TokenPair, msg: MsgConvertERC20, v: Verdict)
    : Result<State, Error>
  {
    var called := CallEVM(ch, s.evm, msg.sender, Contract(pair), Transfer(ch.moduleAddress, msg.amount), v);
    var ret :- called.outcome;
    if ret.None? then Err(NoBoolReturned)
    else if !ret.value then Err(TransferFailed)
    else
      var bank := s.bank.Mint(ch, pair.denom, msg.amount);
      var bank :- bank.SendFromModule(ch, msg.receiver, pair.denom, msg.amount);
      Ok(s.(bank := bank, evm := called.evm))
  }

  // ---- The net effect of a conversion ------------------------------------------------

  // Everything but one denomination's ledger, one contract's ledger and nonces is as before,
  // and these two ledgers are l and t.
  ghost predicate Rewrites(s: State, s': State, denom: Bytes, l: Ledger, contract: Address, t: Ledger)
  {
    && s'.reg == s.reg && s'.params == s.params
    && s'.bank == s.bank.SetCoins(denom, l)
    && contract in s.evm.tokens && s'.evm.tokens == s.evm.SetTokens(contract, t).tokens
  }

  // The nonce of one account goes up by one.
  ghost predicate BumpsNonce(s: State, s': State, a: Address)
  {
    && s.evm.Nonce(a) < MAX_NONCE
    && forall b :: s'.evm.Nonce(b) == s.evm.Nonce(b) + if b == a then 1 else 0
  }

  lemma BumpedOne(s: State, s': State, a: Address)
    requires s.evm.Nonce(a) < MAX_NONCE && s'.evm.nonces == s.evm.Bump(a).nonces
    ensures BumpsNonce(s, s', a)
  {
  }

  // Sending coins to the module and burning them there takes them from the sender.
  lemma SendThenBurn(ch: Chain, b: Bank, from: Address, denom: Bytes, n: nat)
    requires b.Coins(denom)[from] >= n
    ensures var m := ch.moduleAddress;
            var sent := b.Send(from, m, denom, n).value;
            sent.Burn(ch, denom, n) == Ok(b.SetCoins(denom, Debit(b.Coins(denom), from, n)))
  {
    var m, l := ch.moduleAddress, b.Coins(denom);
    assert Debit(Move(l, from, m, n), m, n) == Debit(l, from, n);
    assert b.coins[denom := Move(l, from, m, n)][denom := Debit(l, from, n)] == b.coins[denom := Debit(l, from, n)];
  }

  // Minting coins in the module and sending them on credits the recipient.
  lemma MintThenSend(ch: Chain, b: Bank, to: Address, denom: Bytes, n: nat)
    requires to !in b.blocked
    ensures b.Mint(ch, denom, n).SendFromModule(ch, to, denom, n) ==
            Ok(b.SetCoins(denom, Credit(b.Coins(denom), to, n)))
  {
    var m, l := ch.moduleAddress, b.Coins(denom);
    assert Move(Credit(l, m, n), m, to, n) == Credit(l, to, n);
    assert b.coins[denom := Credit(l, m, n)][denom := Credit(l, to, n)] == b.coins[denom := Credit(l, to, n)];
  }

  lemma CoinNativeCoinEffect(ch: Chain, s: State, p: TokenPair, msg: MsgConvertCoin, v: Verdict)
    requires ConvertCoinNativeCoin(ch, s, p, msg, v).Ok? && Contract(p) in s.evm.tokens
    ensures var m, n, c, s' := ch.moduleAddress, msg.amount, Contract(p), ConvertCoinNativeCoin(ch, s, p, msg, v).value;
            var l, t := s.bank.Coins(msg.denom), s.evm.Tokens(c);
            && l[msg.sender] >= n && s.evm.tokens[c].owned && BumpsNonce(s, s', m)
            && Rewrites(s, s', msg.denom, Move(l, msg.sender, m, n), c, Credit(t, msg.receiver, n))
  {
    hide Contract, Move, Credit, BumpsNonce;
    CallRuns(ch, s.evm, ch.moduleAddress, Contract(p), Call.Mint(msg.receiver, msg.amount), v);
    BumpedOne(s, ConvertCoinNativeCoin(ch, s, p, msg, v).value, ch.moduleAddress);
  }

  lemma CoinNativeERC20Effect(ch: Chain, s: State, p: TokenPair, msg: MsgConvertCoin, v: Verdict)
    requires ConvertCoinNativeERC20(ch, s, p, msg, v).Ok? && Contract(p) in s.evm.tokens
    ensures var m, n, c, s' := ch.moduleAddress, msg.amount, Contract(p),
                               ConvertCoinNativeERC20(ch, s, p, msg, v).value;
            var l, t := s.bank.Coins(msg.denom), s.evm.Tokens(c);
            && l[msg.sender] >= n && t[m] >= n && BumpsNonce(s, s', m)
            && Rewrites(s, s', msg.denom, Debit(l, msg.sender, n), c, Move(t, m, msg.receiver, n))
  {
    var m, n := ch.moduleAddress, msg.amount;
    SendThenBurn(ch, s.bank, msg.sender, msg.denom, n);
    hide Contract, BumpsNonce, Move, Debit, Bank.Burn, Bank.SetCoins;
    CallRuns(ch, s.evm, m, Contract(p), Transfer(msg.receiver, n), v);
    BumpedOne(s, ConvertCoinNativeERC20(ch, s, p, msg, v).value, m);
  }

  lemma ERC20NativeCoinEffect(ch: Chain, s: State, p: TokenPair, msg: MsgConvertERC20, v: Verdict)
    requires ConvertERC20NativeCoin(ch, s, p, msg, v).Ok? && Contract(p) in s.evm.tokens
    ensures var m, n, c, s' := ch.moduleAddress, msg.amount, Contract(p),
                               ConvertERC20NativeCoin(ch, s, p, msg, v).value;
            var l, t := s.bank.Coins(p.denom), s.evm.Tokens(c);
            && t[msg.sender] >= n && l[m] >= n && s.evm.tokens[c].owned && BumpsNonce(s, s', m)
            && Rewrites(s, s', p.denom, Move(l, m, msg.receiver, n), c, Debit(t, msg.sender, n))
  {
    hide Contract, Move, Credit, BumpsNonce;
    CallRuns(ch, s.evm, ch.moduleAddress, Contract(p), BurnCoins(msg.sender, msg.amount), v);
    BumpedOne(s, ConvertERC20NativeCoin(ch, s, p, msg, v).value, ch.moduleAddress);
  }

  lemma ERC20NativeTokenEffect(ch: Chain, s: State, p: TokenPair, msg: MsgConvertERC20, v: Verdict)
    requires ConvertERC20NativeToken(ch, s, p, msg, v).Ok? && Contract(p) in s.evm.tokens
    ensures var m, n, c, s' := ch.moduleAddress, msg.amount, Contract(p),
                               ConvertERC20NativeToken(ch, s, p, msg, v).value;
            var l, t := s.bank.Coins(p.denom), s.evm.Tokens(c);
            && t[msg.sender] >= n && BumpsNonce(s, s', msg.sender)
            && Rewrites(s, s', p.denom, Credit(l, msg.receiver, n), c, Move(t, msg.sender, m, n))
  {
    var m, n := ch.moduleAddress, msg.amount;
    assert msg.receiver !in s.bank.blocked;
    MintThenSend(ch, s.bank, msg.receiver, p.denom, n);
    hide Contract, BumpsNonce, Move, Credit, Bank.Mint, Bank.SendFromModule, Bank.SetCoins;
    CallRuns(ch, s.evm, msg.sender, Contract(p), Transfer(m, n), v);
    BumpedOne(s, ConvertERC20NativeToken(ch, s, p, msg, v).value, msg.sender);
  }

  // Coins of msg.sender become tokens of msg.receiver. On the module's side a native coin goes
  // into escrow, and for a native ERC20 the voucher coins disappear and tokens leave escrow.
  ghost predicate CoinsBecomeTokens(ch: Chain, s: State, s': State, p: TokenPair, msg: MsgConvertCoin)
  {
    var m, n, c := ch.moduleAddress, msg.amount, Contract(p);
    var l, t := s.bank.Coins(msg.denom), s.evm.Tokens(c);
    && l[msg.sender] >= n
    && BumpsNonce(s, s', m)
    && (p.contractOwner == OWNER_MODULE || p.contractOwner == OWNER_EXTERNAL)
    && (p.contractOwner == OWNER_MODULE ==>
          && c in s.evm.tokens && s.evm.tokens[c].owned
          && Rewrites(s, s', msg.denom, Move(l, msg.sender, m, n), c, Credit(t, msg.receiver, n)))
    && (p.contractOwner == OWNER_EXTERNAL ==>
          && t[m] >= n
          && Rewrites(s, s', msg.denom, Debit(l, msg.sender, n), c, Move(t, m, msg.receiver, n)))
  }

  // Tokens of msg.sender become coins of msg.receiver.
  ghost predicate TokensBecomeCoins(ch: Chain, s: State, s': State, p: TokenPair, msg: MsgConvertERC20)
  {
    var m, n, c := ch.moduleAddress, msg.amount, Contract(p);
    var l, t := s.bank.Coins(p.denom), s.evm.Tokens(c);
    && t[msg.sender] >= n
    && (p.contractOwner == OWNER_MODULE || p.contractOwner == OWNER_EXTERNAL)
    && BumpsNonce(s, s', if p.contractOwner == OWNER_MODULE then m else msg.sender)
    && (p.contractOwner == OWNER_MODULE ==>
          && l[m] >= n && c in s.evm.tokens && s.evm.tokens[c].owned
          && Rewrites(s, s', p.denom, Move(l, m, msg.receiver, n), c, Debit(t, msg.sender, n)))
    && (p.contractOwner == OWNER_EXTERNAL ==>
          Rewrites(s, s', p.denom, Credit(l, msg.receiver, n), c, Move(t, msg.sender, m, n)))
  }

  lemma ConvertCoinEffect(ch: Chain, s: State, msg: MsgConvertCoin, v: Verdict)
    requires ConvertCoin(ch, s, msg, v).Ok?
    requires Contract(MintingEnabled(s, msg.sender, msg.receiver, msg.denom).value) in s.evm.tokens
    ensures CoinsBecomeTokens(ch, s, ConvertCoin(ch, s, msg, v).value,
                              MintingEnabled(s, msg.sender, msg.receiver, msg.denom).value, msg)
  {
    hide MintingEnabled, Contract, ConvertCoinNativeCoin, ConvertCoinNativeERC20, BumpsNonce, Rewrites;
    var p := MintingEnabled(s, msg.sender, msg.receiver, msg.denom).value;
    if p.contractOwner == OWNER_MODULE {
      CoinNativeCoinEffect(ch, s, p, msg, v);
    } else {
      CoinNativeERC20Effect(ch, s, p, msg, v);
    }
  }

  lemma ConvertERC20Effect(ch: Chain, s: State, msg: MsgConvertERC20, v: Verdict)
    requires ConvertERC20(ch, s, msg, v).Ok?
    requires Contract(MintingEnabled(s, msg.sender, msg.receiver, msg.contract).value) in s.evm.tokens
    ensures TokensBecomeCoins(ch, s, ConvertERC20(ch, s, msg, v).value,
                              MintingEnabled(s, msg.sender, msg.receiver, msg.contract).value, msg)
  {
    hide MintingEnabled, Contract, ConvertERC20NativeCoin, ConvertERC20NativeToken, BumpsNonce, Rewrites;
    var p := MintingEnabled(s, msg.sender, msg.receiver, msg.contract).value;
    if p.contractOwner == OWNER_MODULE {
      ERC20NativeCoinEffect(ch, s, p, msg, v);
    } else {
      ERC20NativeTokenEffect(ch, s, p, msg, v);
    }
  }

  // What a conversion leaves alone.
  ghost predicate KeepsRest(s: State, s': State)
  {
    && s'.reg == s.reg && s'.params == s.params
    && s'.bank.metadata == s.bank.metadata && s'.bank.blocked == s.bank.blocked
    && s'.bank.sendDisabled == s.bank.sendDisabled
    && s'.evm.tokens.Keys == s.evm.tokens.Keys
    && (forall c :: c in s.evm.tokens ==>
          s'.evm.tokens[c].owned == s.evm.tokens[c].owned && s'.evm.tokens[c].data == s.evm.tokens[c].data)
    && (forall a :: s.evm.Nonce(a) <= s'.evm.Nonce(a) && (s.evm.Nonce(a) <= MAX_NONCE ==> s'.evm.Nonce(a) <= MAX_NONCE))
  }

  lemma CoinsBecomeTokensKeeps(ch: Chain, s: State, s': State, p: TokenPair, msg: MsgConvertCoin)
    requires CoinsBecomeTokens(ch, s, s', p, msg)
    ensures KeepsRest(s, s')
  {
    hide Contract, Move, Credit, Debit;
  }

  lemma TokensBecomeCoinsKeeps(ch: Chain, s: State, s': State, p: TokenPair, msg: MsgConvertERC20)
    requires TokensBecomeCoins(ch, s, s', p, msg)
    ensures KeepsRest(s, s')
  {
    hide Contract, Move, Credit, Debit;
  }

  // ---- Conservation outside the module -----------------------------------------------

  // What accounts other than the module hold of a denomination and of a contract together.
  ghost function Held(ch: Chain, s: State, denom: Bytes, contract: Address): nat
  {
    Outside(s.bank.Coins(denom), ch.moduleAddress) + Outside(s.evm.Tokens(contract), ch.moduleAddress)
  }

  // No other denomination and no other contract changes.
  ghost predicate OthersUntouched(s: State, s': State, denom: Bytes, contract: Address)
  {
    && (forall d :: d != denom ==> s'.bank.Coins(d) == s.bank.Coins(d))
    && (forall c :: c != contract ==>
          (c in s'.evm.tokens <==> c in s.evm.tokens) && s'.evm.Tokens(c) == s.evm.Tokens(c))
  }

  lemma RewritesTouchOne(s: State, s': State, denom: Bytes, l: Ledger, contract: Address, t: Ledger)
    requires Rewrites(s, s', denom, l, contract, t)
    ensures OthersUntouched(s, s', denom, contract)
    ensures s'.bank.Coins(denom) == l && s'.evm.Tokens(contract) == t
  {
  }

  // A successful ConvertCoin conserves the value of its pair outside the module exactly when the
  // coin that the message names is the pair's and the sender is not the module account itself;
  // the receiver is not, as that is blocked. Otherwise value appears from nowhere, as much as
  // was converted. Measured in the message's own coin, value is kept if the sender is not the
  // module.
  lemma ConvertCoinConserves(ch: Chain, s: State, msg: MsgConvertCoin, v: Verdict)
    requires ConvertCoin(ch, s, msg, v).Ok?
    requires ch.moduleAddress in s.bank.blocked
    requires Contract(MintingEnabled(s, msg.sender, msg.receiver, msg.denom).value) in s.evm.tokens
    ensures var p, s' := MintingEnabled(s, msg.sender, msg.receiver, msg.denom).value, ConvertCoin(ch, s, msg, v).value;
            var c, n := Contract(p), msg.amount;
            && OthersUntouched(s, s', msg.denom, c)
            && Held(ch, s', p.denom, c) ==
                 Held(ch, s, p.denom, c) + (if p.denom == msg.denom && msg.sender != ch.moduleAddress then 0 else n)
            && Held(ch, s', msg.denom, c) ==
                 Held(ch, s, msg.denom, c) + (if msg.sender != ch.moduleAddress then 0 else n)
  {
    ConvertCoinEffect(ch, s, msg, v);
    MintingFacts(s, msg.sender, msg.receiver, msg.denom);
    hide ConvertCoin, MintingEnabled, Contract, CoinsBecomeTokens, OthersUntouched, Held;
    EffectOnHeld(ch, s, ConvertCoin(ch, s, msg, v).value,
                 MintingEnabled(s, msg.sender, msg.receiver, msg.denom).value, msg);
  }

  lemma EffectOnHeld(ch: Chain, s: State, s': State, p: TokenPair, msg: MsgConvertCoin)
    requires CoinsBecomeTokens(ch, s, s', p, msg) && msg.receiver != ch.moduleAddress
    ensures var c, n := Contract(p), msg.amount;
            && OthersUntouched(s, s', msg.denom, c)
            && Held(ch, s', p.denom, c) ==
                 Held(ch, s, p.denom, c) + (if p.denom == msg.denom && msg.sender != ch.moduleAddress then 0 else n)
            && Held(ch, s', msg.denom, c) ==
                 Held(ch, s, msg.denom, c) + (if msg.sender != ch.moduleAddress then 0 else n)
  {
    hide Contract, Rewrites, BumpsNonce;
    var m, n, c := ch.moduleAddress, msg.amount, Contract(p);
    var l, t := s.bank.Coins(msg.denom), s.evm.Tokens(c);
    if p.contractOwner == OWNER_MODULE {
      RewritesTouchOne(s, s', msg.denom, Move(l, msg.sender, m, n), c, Credit(t, msg.receiver, n));
    } else {
      RewritesTouchOne(s, s', msg.denom, Debit(l, msg.sender, n), c, Move(t, m, msg.receiver, n));
    }
  }

  // The same for ConvertERC20.
  lemma ConvertERC20Conserves(ch: Chain, s: State, msg: MsgConvertERC20, v: Verdict)
    requires ConvertERC20(ch, s, msg, v).Ok? && msg.amount > 0
    requires ch.moduleAddress in s.bank.blocked
    requires Contract(MintingEnabled(s, msg.sender, msg.receiver, msg.contract).value) in s.evm.tokens
    ensures var p, s' := MintingEnabled(s, msg.sender, msg.receiver, msg.contract).value,
                         ConvertERC20(ch, s, msg, v).value;
            && OthersUntouched(s, s', p.denom, Contract(p))
            && (Held(ch, s', p.denom, Contract(p)) == Held(ch, s, p.denom, Contract(p)) <==>
                msg.sender != ch.moduleAddress)
  {
    ConvertERC20Effect(ch, s, msg, v);
    MintingFacts(s, msg.sender, msg.receiver, msg.contract);
    hide ConvertERC20, MintingEnabled, Contract, Rewrites, BumpsNonce, OthersUntouched;
    var p := MintingEnabled(s, msg.sender, msg.receiver, msg.contract).value;
    var m, n := ch.moduleAddress, msg.amount;
    var c, s' := Contract(p), ConvertERC20(ch, s, msg, v).value;
    var l, t := s.bank.Coins(p.denom), s.evm.Tokens(c);
    if p.contractOwner == OWNER_MODULE {
      RewritesTouchOne(s, s', p.denom, Move(l, m, msg.receiver, n), c, Debit(t, msg.sender, n));
    } else {
      RewritesTouchOne(s, s', p.denom, Credit(l, msg.receiver, n), c, Move(t, msg.sender, m, n));
    }
  }
}
