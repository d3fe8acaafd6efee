// Converting coins to tokens and back undoes itself, whatever other users convert in between.
module ThereAndBack {
  import opened Base
  import opened Chains
  import opened Ledgers
  import opened Registries
  import opened TokenPairCodec
  import opened States
  import opened Conversions
  import opened Steps
  import opened Backing

  // ---- When a conversion succeeds ----------------------------------------------------

  ghost predicate CoinGuard(ch: Chain, s: State, p: TokenPair, msg: MsgConvertCoin, v: Verdict)
  {
    var m, n, c := ch.moduleAddress, msg.amount, Contract(p);
    && c in s.evm.tokens
    && v.Ran? && s.evm.Nonce(m) < MAX_NONCE
    && s.bank.Coins(msg.denom)[msg.sender] >= n
    && (|| (p.contractOwner == OWNER_MODULE && s.evm.tokens[c].owned)
        || (p.contractOwner == OWNER_EXTERNAL && v.accept && s.evm.Tokens(c)[m] >= n))
  }

  ghost predicate TokenGuard(ch: Chain, s: State, p: TokenPair, msg: MsgConvertERC20, v: Verdict)
  {
    var m, n, c := ch.moduleAddress, msg.amount, Contract(p);
    && c in s.evm.tokens
    && v.Ran? && s.evm.Nonce(if p.contractOwner == OWNER_MODULE then m else msg.sender) < MAX_NONCE
    && s.evm.Tokens(c)[msg.sender] >= n
    && (|| (p.contractOwner == OWNER_MODULE && s.evm.tokens[c].owned && s.bank.Coins(p.denom)[m] >= n)
        || (p.contractOwner == OWNER_EXTERNAL && v.accept))
  }

  // A call on a contract with code succeeds exactly when it runs and the contract does not
  // revert.
  lemma CallSucceedsIff(ch: Chain, evm: Evm, from: Address, c: Address, call: Call, v: Verdict)
    requires c in evm.tokens
    ensures var called := CallEVM(ch, evm, from, c, call, v);
            var reply := Execute(ch, evm.tokens[c], from, call, v.Ran? && v.accept);
            && (called.outcome.Ok? <==> v.Ran? && evm.Nonce(from) < MAX_NONCE && reply.Some?)
            && (called.outcome.Ok? ==> called.outcome.value == reply.value.ret)
  {
    hide Execute;
  }

  // On an enabled pair whose contract has code, ConvertCoin succeeds exactly when the sender
  // has the coins, the call goes through, and the module may mint or holds the tokens.
  lemma ConvertCoinSucceedsIff(ch: Chain, s: State, p: TokenPair, msg: MsgConvertCoin, v: Verdict)
    requires MintingEnabled(s, msg.sender, msg.receiver, msg.denom) == Ok(p) && Contract(p) in s.evm.tokens
    ensures ConvertCoin(ch, s, msg, v).Ok? <==> CoinGuard(ch, s, p, msg, v)
  {
    hide MintingEnabled, Contract, ConvertCoinNativeCoin, ConvertCoinNativeERC20;
    if p.contractOwner == OWNER_MODULE {
      NativeCoinSucceedsIff(ch, s, p, msg, v);
    } else if p.contractOwner == OWNER_EXTERNAL {
      NativeERC20SucceedsIff(ch, s, p, msg, v);
    }
  }

  lemma NativeCoinSucceedsIff(ch: Chain, s: State, p: TokenPair, msg: MsgConvertCoin, v: Verdict)
    requires Contract(p) in s.evm.tokens && p.contractOwner == OWNER_MODULE
    ensures ConvertCoinNativeCoin(ch, s, p, msg, v).Ok? <==> CoinGuard(ch, s, p, msg, v)
  {
    hide Contract, Move, Credit, CallEVM;
    CallSucceedsIff(ch, s.evm, ch.moduleAddress, Contract(p), Call.Mint(msg.receiver, msg.amount), v);
  }

  lemma BurnFollowsSend(ch: Chain, b: Bank, from: Address, denom: Bytes, n: nat)
    ensures var sent := b.Send(from, ch.moduleAddress, denom, n);
            && (sent.Ok? <==> b.Coins(denom)[from] >= n)
            && (sent.Ok? ==> sent.value.Burn(ch, denom, n).Ok?)
  {
    if b.Coins(denom)[from] >= n {
      SendThenBurn(ch, b, from, denom, n);
    }
    hide Bank.Burn;
  }

  lemma NativeERC20SucceedsIff(ch: Chain, s: State, p: TokenPair, msg: MsgConvertCoin, v: Verdict)
    requires Contract(p) in s.evm.tokens && p.contractOwner == OWNER_EXTERNAL
    ensures ConvertCoinNativeERC20(ch, s, p, msg, v).Ok? <==> CoinGuard(ch, s, p, msg, v)
  {
    hide Contract, Move, Debit, Bank.Burn, Bank.SetCoins, Bank.Send, CallEVM;
    BurnFollowsSend(ch, s.bank, msg.sender, msg.denom, msg.amount);
    CallSucceedsIff(ch, s.evm, ch.moduleAddress, Contract(p), Transfer(msg.receiver, msg.amount), v);
  }

  // ConvertERC20 succeeds exactly when the sender has the tokens, the call goes through, and
  // for a native coin the escrow suffices.
  lemma ConvertERC20SucceedsIff(ch: Chain, s: State, p: TokenPair, msg: MsgConvertERC20, v: Verdict)
    requires MintingEnabled(s, msg.sender, msg.receiver, msg.contract) == Ok(p) && Contract(p) in s.evm.tokens
    ensures ConvertERC20(ch, s, msg, v).Ok? <==> TokenGuard(ch, s, p, msg, v)
  {
    MintingFacts(s, msg.sender, msg.receiver, msg.contract);
    hide MintingEnabled, Contract, ConvertERC20NativeCoin, ConvertERC20NativeToken;
    if p.contractOwner == OWNER_MODULE {
      BackToCoinSucceedsIff(ch, s, p, msg, v);
    } else if p.contractOwner == OWNER_EXTERNAL {
      BackToVoucherSucceedsIff(ch, s, p, msg, v);
    }
  }

  lemma BackToCoinSucceedsIff(ch: Chain, s: State, p: TokenPair, msg: MsgConvertERC20, v: Verdict)
    requires Contract(p) in s.evm.tokens && p.contractOwner == OWNER_MODULE && msg.receiver !in s.bank.blocked
    ensures ConvertERC20NativeCoin(ch, s, p, msg, v).Ok? <==> TokenGuard(ch, s, p, msg, v)
  {
    hide Contract, Move, CallEVM;
    CallSucceedsIff(ch, s.evm, ch.moduleAddress, Contract(p), BurnCoins(msg.sender, msg.amount), v);
  }

  lemma BackToVoucherSucceedsIff(ch: Chain, s: State, p: TokenPair, msg: MsgConvertERC20, v: Verdict)
    requires Contract(p) in s.evm.tokens && p.contractOwner == OWNER_EXTERNAL && msg.receiver !in s.bank.blocked
    ensures ConvertERC20NativeToken(ch, s, p, msg, v).Ok? <==> TokenGuard(ch, s, p, msg, v)
  {
    MintThenSend(ch, s.bank, msg.receiver, p.denom, msg.amount);
    hide Contract, Move, CallEVM, Bank.Mint, Bank.SendFromModule;
    CallSucceedsIff(ch, s.evm, msg.sender, Contract(p), Transfer(ch.moduleAddress, msg.amount), v);
  }

  // ---- Conversions as shifts of the two ledgers --------------------------------------

  // What converting n coins of user into tokens adds to the balances of a pair's denomination.
  function CoinDelta(ch: Chain, p: TokenPair, user: Address, n: nat, d: Bytes, a: Address): int
  {
    if d != p.denom then 0
    else (if a == user then 0 - n else 0) + (if p.contractOwner == OWNER_MODULE && a == ch.moduleAddress then n else 0)
  }

  // And to the balances of its contract.
  function TokenDelta(ch: Chain, p: TokenPair, user: Address, n: nat, c: Address, a: Address): int
  {
    if c != Contract(p) then 0
    else (if a == user then n else 0) - (if p.contractOwner == OWNER_EXTERNAL && a == ch.moduleAddress then n else 0)
  }

  // Everything but balances and nonces is the same.
  ghost predicate SameFrame(s: State, t: State)
  {
    && t.reg == s.reg && t.params == s.params
    && t.bank.metadata == s.bank.metadata && t.bank.blocked == s.bank.blocked
    && t.bank.sendDisabled == s.bank.sendDisabled
    && t.evm.tokens.Keys == s.evm.tokens.Keys
    && (forall c :: c in s.evm.tokens ==>
          t.evm.tokens[c].owned == s.evm.tokens[c].owned && t.evm.tokens[c].data == s.evm.tokens[c].data)
  }

  // t is s after n coins of u became tokens of r on pair p.
  ghost predicate Shifted(ch: Chain, s: State, t: State, p: TokenPair, u: Address, r: Address, n: nat)
  {
    && SameFrame(s, t)
    && (forall d, a :: t.bank.Coins(d)[a] == s.bank.Coins(d)[a] + CoinDelta(ch, p, u, n, d, a))
    && (forall c, a :: t.evm.Tokens(c)[a] == s.evm.Tokens(c)[a] + TokenDelta(ch, p, r, n, c, a))
  }

  // Rewriting the two ledgers by these amounts is a shift.
  lemma RewriteIsShift(ch: Chain, s: State, s': State, p: TokenPair, u: Address, r: Address, n: nat, l: Ledger,
                       t: Ledger)
    requires SameFrame(s, s') && Rewrites(s, s', p.denom, l, Contract(p), t)
    requires forall a :: l[a] == s.bank.Coins(p.denom)[a] + CoinDelta(ch, p, u, n, p.denom, a)
    requires forall a :: t[a] == s.evm.Tokens(Contract(p))[a] + TokenDelta(ch, p, r, n, Contract(p), a)
    ensures Shifted(ch, s, s', p, u, r, n)
  {
    RewritesTouchOne(s, s', p.denom, l, Contract(p), t);
    hide Contract, Rewrites, SameFrame;
  }

  // And rewriting them back is a shift from the state after to the state before.
  lemma RewriteIsShiftBack(ch: Chain, s: State, s': State, p: TokenPair, u: Address, r: Address, n: nat, l: Ledger,
                           t: Ledger)
    requires SameFrame(s', s) && Rewrites(s, s', p.denom, l, Contract(p), t)
    requires forall a :: s.bank.Coins(p.denom)[a] == l[a] + CoinDelta(ch, p, u, n, p.denom, a)
    requires forall a :: s.evm.Tokens(Contract(p))[a] == t[a] + TokenDelta(ch, p, r, n, Contract(p), a)
    ensures Shifted(ch, s', s, p, u, r, n)
  {
    RewritesTouchOne(s, s', p.denom, l, Contract(p), t);
    hide Contract, Rewrites, SameFrame;
  }

  lemma KeepsRestIsFrame(s: State, s': State)
    requires KeepsRest(s, s')
    ensures SameFrame(s, s') && SameFrame(s', s)
    ensures forall a :: s.evm.Nonce(a) <= s'.evm.Nonce(a)
  {
  }

  // The deltas of the four flows, on a denomination's ledger and on a contract's.
  lemma EscrowDeltas(ch: Chain, p: TokenPair, l: Ledger, t: Ledger, u: Address, r: Address, n: nat)
    requires p.contractOwner == OWNER_MODULE && n <= l[u]
    ensures forall a :: Move(l, u, ch.moduleAddress, n)[a] == l[a] + CoinDelta(ch, p, u, n, p.denom, a)
    ensures forall a :: Credit(t, r, n)[a] == t[a] + TokenDelta(ch, p, r, n, Contract(p), a)
  {
    hide Contract;
  }

  lemma VoucherDeltas(ch: Chain, p: TokenPair, l: Ledger, t: Ledger, u: Address, r: Address, n: nat)
    requires p.contractOwner == OWNER_EXTERNAL && n <= l[u] && n <= t[ch.moduleAddress]
    ensures forall a :: Debit(l, u, n)[a] == l[a] + CoinDelta(ch, p, u, n, p.denom, a)
    ensures forall a :: Move(t, ch.moduleAddress, r, n)[a] == t[a] + TokenDelta(ch, p, r, n, Contract(p), a)
  {
    hide Contract;
  }

  lemma EscrowDeltasBack(ch: Chain, p: TokenPair, l: Ledger, t: Ledger, u: Address, r: Address, n: nat)
    requires p.contractOwner == OWNER_MODULE && n <= l[ch.moduleAddress] && n <= t[r]
    ensures forall a :: l[a] == Move(l, ch.moduleAddress, u, n)[a] + CoinDelta(ch, p, u, n, p.denom, a)
    ensures forall a :: t[a] == Debit(t, r, n)[a] + TokenDelta(ch, p, r, n, Contract(p), a)
  {
    hide Contract;
  }

  lemma VoucherDeltasBack(ch: Chain, p: TokenPair, l: Ledger, t: Ledger, u: Address, r: Address, n: nat)
    requires p.contractOwner == OWNER_EXTERNAL && n <= t[r]
    ensures forall a :: l[a] == Credit(l, u, n)[a] + CoinDelta(ch, p, u, n, p.denom, a)
    ensures forall a :: t[a] == Move(t, r, ch.moduleAddress, n)[a] + TokenDelta(ch, p, r, n, Contract(p), a)
  {
    hide Contract;
  }

  // ConvertCoin shifts, and ConvertERC20 shifts back.
  lemma ConvertCoinShifts(ch: Chain, s: State, s': State, p: TokenPair, msg: MsgConvertCoin)
    requires CoinsBecomeTokens(ch, s, s', p, msg) && p.denom == msg.denom
    ensures Shifted(ch, s, s', p, msg.sender, msg.receiver, msg.amount)
    ensures forall a :: s.evm.Nonce(a) <= s'.evm.Nonce(a)
  {
    CoinsBecomeTokensKeeps(ch, s, s', p, msg);
    KeepsRestIsFrame(s, s');
    hide Contract, Rewrites, SameFrame, Shifted, BumpsNonce, KeepsRest, Move, Credit, Debit, CoinDelta, TokenDelta;
    var m, n, u, r := ch.moduleAddress, msg.amount, msg.sender, msg.receiver;
    var l, t := s.bank.Coins(p.denom), s.evm.Tokens(Contract(p));
    if p.contractOwner == OWNER_MODULE {
      EscrowDeltas(ch, p, l, t, u, r, n);
      RewriteIsShift(ch, s, s', p, u, r, n, Move(l, u, m, n), Credit(t, r, n));
    } else {
      VoucherDeltas(ch, p, l, t, u, r, n);
      RewriteIsShift(ch, s, s', p, u, r, n, Debit(l, u, n), Move(t, m, r, n));
    }
  }

  lemma ConvertERC20ShiftsBack(ch: Chain, s: State, s': State, p: TokenPair, msg: MsgConvertERC20)
    requires TokensBecomeCoins(ch, s, s', p, msg)
    ensures Shifted(ch, s', s, p, msg.receiver, msg.sender, msg.amount)
    ensures forall a :: s.evm.Nonce(a) <= s'.evm.Nonce(a)
  {
    TokensBecomeCoinsKeeps(ch, s, s', p, msg);
    KeepsRestIsFrame(s, s');
    hide Contract, Rewrites, SameFrame, Shifted, BumpsNonce, KeepsRest, Move, Credit, Debit, CoinDelta, TokenDelta;
    var m, n, u, r := ch.moduleAddress, msg.amount, msg.receiver, msg.sender;
    var l, t := s.bank.Coins(p.denom), s.evm.Tokens(Contract(p));
    if p.contractOwner == OWNER_MODULE {
      EscrowDeltasBack(ch, p, l, t, u, r, n);
      RewriteIsShiftBack(ch, s, s', p, u, r, n, Move(l, m, u, n), Debit(t, r, n));
    } else {
      VoucherDeltasBack(ch, p, l, t, u, r, n);
      RewriteIsShiftBack(ch, s, s', p, u, r, n, Credit(l, u, n), Move(t, r, m, n));
    }
  }

  // Shifts of the same amount commute with any other shift.
  lemma ShiftsCommute(ch: Chain, s: State, t: State, s': State, t': State,
                      p: TokenPair, u: Address, r: Address, n: nat,
                      q: TokenPair, w: Address, x: Address, k: nat)
    requires Shifted(ch, s, t, p, u, r, n) && SameFrame(s, s') && SameFrame(t, t')
    requires (Shifted(ch, s, s', q, w, x, k) && Shifted(ch, t, t', q, w, x, k))
             || (Shifted(ch, s', s, q, w, x, k) && Shifted(ch, t', t, q, w, x, k))
    ensures Shifted(ch, s', t', p, u, r, n)
  {
    hide CoinDelta, TokenDelta;
  }

  // ---- Runs of conversions -----------------------------------------------------------

  datatype Conversion = FromCoin(coinMsg: MsgConvertCoin, v: Verdict) | FromERC20(tokenMsg: MsgConvertERC20, v: Verdict)

  function Convert(ch: Chain, s: State, x: Conversion): Result<State, Error>
  {
    match x
    case FromCoin(msg, v) => ConvertCoin(ch, s, msg, v)
    case FromERC20(msg, v) => ConvertERC20(ch, s, msg, v)
  }

  // The state after conversions that all succeed.
  function ConvertAll(ch: Chain, s: State, xs: seq<Conversion>): Result<State, Error>
    decreases |xs|
  {
    if |xs| == 0 then Ok(s)
    else
      var s' :- Convert(ch, s, xs[0]);
      ConvertAll(ch, s', xs[1..])
  }

  // A conversion of users other than the module, u for coins and r for tokens.
  predicate ByOthers(ch: Chain, reg: Registry, x: Conversion, u: Address, r: Address)
  {
    match x
    case FromCoin(msg, v) => msg.sender != ch.moduleAddress && msg.sender != u && FindsOwnPair(reg, msg.denom)
    case FromERC20(msg, v) => msg.sender != ch.moduleAddress && msg.sender != r
  }

  // The state t runs ahead of s by a shift, and its nonces are not smaller.
  ghost predicate Ahead(ch: Chain, s: State, t: State, p: TokenPair, u: Address, r: Address, n: nat)
  {
    Shifted(ch, s, t, p, u, r, n) && forall a :: s.evm.Nonce(a) <= t.evm.Nonce(a)
  }

  lemma SameMinting(s: State, t: State, sender: Address, receiver: Address, token: Bytes)
    requires SameFrame(s, t)
    ensures MintingEnabled(t, sender, receiver, token) == MintingEnabled(s, sender, receiver, token)
  {
    hide Resolve;
  }

  // What lets others convert in the shifted state lets them convert without the shift.
  lemma CoinGuardCarries(ch: Chain, s: State, t: State, p: TokenPair, u: Address, r: Address, n: nat,
                         q: TokenPair, msg: MsgConvertCoin, v: Verdict)
    requires Ahead(ch, s, t, p, u, r, n) && u != ch.moduleAddress && r != ch.moduleAddress
    requires msg.sender != ch.moduleAddress && msg.sender != u
    requires CoinGuard(ch, t, q, msg, v)
    ensures CoinGuard(ch, s, q, msg, v)
  {
    hide Contract;
    var m, c := ch.moduleAddress, Contract(q);
    assert t.bank.Coins(msg.denom)[msg.sender] <= s.bank.Coins(msg.denom)[msg.sender] + 0;
    assert t.evm.Tokens(c)[m] <= s.evm.Tokens(c)[m];
    assert s.evm.Nonce(m) <= t.evm.Nonce(m);
  }

  lemma TokenGuardCarries(ch: Chain, s: State, t: State, p: TokenPair, u: Address, r: Address, n: nat,
                          q: TokenPair, msg: MsgConvertERC20, v: Verdict)
    requires Ahead(ch, s, t, p, u, r, n) && u != ch.moduleAddress && r != ch.moduleAddress
    requires msg.sender != ch.moduleAddress && msg.sender != r
    requires Covered(ch, s.bank, s.evm, q, 0)
    requires TokenGuard(ch, t, q, msg, v)
    ensures TokenGuard(ch, s, q, msg, v)
  {
    hide Contract, IsVoucher;
    var m, c := ch.moduleAddress, Contract(q);
    assert t.evm.Tokens(c)[msg.sender] <= s.evm.Tokens(c)[msg.sender];
    assert s.evm.Nonce(m) <= t.evm.Nonce(m) && s.evm.Nonce(msg.sender) <= t.evm.Nonce(msg.sender);
    BalanceWithinSupply(s.evm.Tokens(c), msg.sender);
  }

  lemma SimulateCoin(ch: Chain, s: State, t: State, p: TokenPair, u: Address, r: Address, n: nat,
                     msg: MsgConvertCoin, v: Verdict)
    requires Core(ch, s) && Core(ch, t) && Ahead(ch, s, t, p, u, r, n)
    requires u != ch.moduleAddress && r != ch.moduleAddress
    requires ByOthers(ch, s.reg, FromCoin(msg, v), u, r) && ConvertCoin(ch, t, msg, v).Ok?
    ensures ConvertCoin(ch, s, msg, v).Ok?
    ensures Ahead(ch, ConvertCoin(ch, s, msg, v).value, ConvertCoin(ch, t, msg, v).value, p, u, r, n)
  {
    hide ConvertCoin, MintingEnabled, Core, Contract, GetID, Resolve, CoinGuard, CoinsBecomeTokens, Shifted, SameFrame;
    AheadHasFrame(ch, s, t, p, u, r, n);
    ConvertCoinEnabled(ch, t, msg, v);
    SameMinting(s, t, msg.sender, msg.receiver, msg.denom);
    var q := MintingEnabled(t, msg.sender, msg.receiver, msg.denom).value;
    ResolvedHasCode(ch, t, msg.sender, msg.receiver, msg.denom);
    ResolvedHasCode(ch, s, msg.sender, msg.receiver, msg.denom);
    ConvertCoinSucceedsIff(ch, t, q, msg, v);
    CoinGuardCarries(ch, s, t, p, u, r, n, q, msg, v);
    ConvertCoinSucceedsIff(ch, s, q, msg, v);
    var s', t' := ConvertCoin(ch, s, msg, v).value, ConvertCoin(ch, t, msg, v).value;
    ConvertCoinEffect(ch, s, msg, v);
    ConvertCoinEffect(ch, t, msg, v);
    ConvertCoinShifts(ch, s, s', q, msg);
    ConvertCoinShifts(ch, t, t', q, msg);
    AheadHasFrame(ch, s, s', q, msg.sender, msg.receiver, msg.amount);
    AheadHasFrame(ch, t, t', q, msg.sender, msg.receiver, msg.amount);
    ShiftsCommute(ch, s, t, s', t', p, u, r, n, q, msg.sender, msg.receiver, msg.amount);
    BumpsAlike(ch, s, t, s', t', q, msg);
  }

  lemma AheadHasFrame(ch: Chain, s: State, t: State, p: TokenPair, u: Address, r: Address, n: nat)
    requires Shifted(ch, s, t, p, u, r, n)
    ensures SameFrame(s, t) && SameFrame(t, s)
  {
    hide CoinDelta, TokenDelta;
  }

  lemma BumpsAlike(ch: Chain, s: State, t: State, s': State, t': State, q: TokenPair, msg: MsgConvertCoin)
    requires forall a :: s.evm.Nonce(a) <= t.evm.Nonce(a)
    requires CoinsBecomeTokens(ch, s, s', q, msg) && CoinsBecomeTokens(ch, t, t', q, msg)
    ensures forall a :: s'.evm.Nonce(a) <= t'.evm.Nonce(a)
  {
    hide Contract, Rewrites;
  }

  lemma TokenBumpsAlike(ch: Chain, s: State, t: State, s': State, t': State, q: TokenPair, msg: MsgConvertERC20)
    requires forall a :: s.evm.Nonce(a) <= t.evm.Nonce(a)
    requires TokensBecomeCoins(ch, s, s', q, msg) && TokensBecomeCoins(ch, t, t', q, msg)
    ensures forall a :: s'.evm.Nonce(a) <= t'.evm.Nonce(a)
  {
    hide Contract, Rewrites;
  }

  lemma SimulateERC20(ch: Chain, s: State, t: State, p: TokenPair, u: Address, r: Address, n: nat,
                      msg: MsgConvertERC20, v: Verdict)
    requires Core(ch, s) && Backed(ch, s) && Core(ch, t) && Ahead(ch, s, t, p, u, r, n)
    requires u != ch.moduleAddress && r != ch.moduleAddress
    requires ByOthers(ch, s.reg, FromERC20(msg, v), u, r) && ConvertERC20(ch, t, msg, v).Ok?
    ensures ConvertERC20(ch, s, msg, v).Ok?
    ensures Ahead(ch, ConvertERC20(ch, s, msg, v).value, ConvertERC20(ch, t, msg, v).value, p, u, r, n)
  {
    hide ConvertERC20, MintingEnabled, Core, Backed, Contract, GetID, IsHexAddress, TokenGuard, TokensBecomeCoins,
         Shifted, SameFrame, Covered;
    AheadHasFrame(ch, s, t, p, u, r, n);
    ConvertERC20Enabled(ch, t, msg, v);
    SameMinting(s, t, msg.sender, msg.receiver, msg.contract);
    var q := MintingEnabled(t, msg.sender, msg.receiver, msg.contract).value;
    ResolvedHasCode(ch, t, msg.sender, msg.receiver, msg.contract);
    ResolvedHasCode(ch, s, msg.sender, msg.receiver, msg.contract);
    StoredIsCovered(ch, s, q);
    ConvertERC20SucceedsIff(ch, t, q, msg, v);
    TokenGuardCarries(ch, s, t, p, u, r, n, q, msg, v);
    ConvertERC20SucceedsIff(ch, s, q, msg, v);
    var s', t' := ConvertERC20(ch, s, msg, v).value, ConvertERC20(ch, t, msg, v).value;
    ConvertERC20Effect(ch, s, msg, v);
    ConvertERC20Effect(ch, t, msg, v);
    ConvertERC20ShiftsBack(ch, s, s', q, msg);
    ConvertERC20ShiftsBack(ch, t, t', q, msg);
    AheadHasFrame(ch, s', s, q, msg.receiver, msg.sender, msg.amount);
    AheadHasFrame(ch, t', t, q, msg.receiver, msg.sender, msg.amount);
    ShiftsCommute(ch, s, t, s', t', p, u, r, n, q, msg.receiver, msg.sender, msg.amount);
    TokenBumpsAlike(ch, s, t, s', t', q, msg);
  }

  lemma ConversionKeeps(ch: Chain, s: State, x: Conversion, u: Address, r: Address)
    requires Core(ch, s) && ByOthers(ch, s.reg, x, u, r) && Convert(ch, s, x).Ok?
    ensures Core(ch, Convert(ch, s, x).value)
    ensures Backed(ch, s) ==> Backed(ch, Convert(ch, s, x).value)
    ensures Convert(ch, s, x).value.reg == s.reg && SameFrame(s, Convert(ch, s, x).value)
  {
    hide Core, Backed, ConvertCoin, ConvertERC20, Resolve;
    match x
    case FromCoin(msg, v) =>
      ConvertCoinKeepsCore(ch, s, msg, v);
      if Backed(ch, s) {
        ConvertCoinKeepsBacking(ch, s, msg, v);
      }
    case FromERC20(msg, v) =>
      ConvertERC20KeepsCore(ch, s, msg, v);
      if Backed(ch, s) {
        ConvertERC20KeepsBacking(ch, s, msg, v);
      }
  }

  lemma AheadKeepsRegistry(ch: Chain, s: State, t: State, p: TokenPair, u: Address, r: Address, n: nat)
    requires Ahead(ch, s, t, p, u, r, n)
    ensures t.reg == s.reg
  {
    hide CoinDelta, TokenDelta;
  }

  // Conversions of others run the same with and without the shift.
  lemma {:induction false} SimulateAll(ch: Chain, s: State, t: State, p: TokenPair, u: Address, r: Address, n: nat,
                                       xs: seq<Conversion>)
    requires Core(ch, s) && Backed(ch, s) && Core(ch, t) && Ahead(ch, s, t, p, u, r, n)
    requires u != ch.moduleAddress && r != ch.moduleAddress
    requires (forall x :: x in xs ==> ByOthers(ch, s.reg, x, u, r)) && ConvertAll(ch, t, xs).Ok?
    ensures ConvertAll(ch, s, xs).Ok?
    ensures Ahead(ch, ConvertAll(ch, s, xs).value, ConvertAll(ch, t, xs).value, p, u, r, n)
    ensures Core(ch, ConvertAll(ch, t, xs).value)
    decreases |xs|
  {
    hide Core, Backed, Ahead, ByOthers, ConvertCoin, ConvertERC20;
    if |xs| > 0 {
      var x := xs[0];
      assert ByOthers(ch, s.reg, x, u, r);
      AheadKeepsRegistry(ch, s, t, p, u, r, n);
      match x
      {
        case FromCoin(msg, v) => SimulateCoin(ch, s, t, p, u, r, n, msg, v);
        case FromERC20(msg, v) => SimulateERC20(ch, s, t, p, u, r, n, msg, v);
      }
      ConversionKeeps(ch, s, x, u, r);
      ConversionKeeps(ch, t, x, u, r);
      SimulateAll(ch, Convert(ch, s, x).value, Convert(ch, t, x).value, p, u, r, n, xs[1..]);
    }
  }

  // Equal balances everywhere, and equal registries.
  ghost predicate SameBalances(s: State, t: State)
  {
    && SameFrame(s, t)
    && (forall d :: t.bank.Coins(d) == s.bank.Coins(d))
    && (forall c :: t.evm.Tokens(c) == s.evm.Tokens(c))
  }

  lemma ShiftedTwiceIsSame(ch: Chain, s: State, t: State, s': State, p: TokenPair, u: Address, r: Address, n: nat)
    requires Shifted(ch, s, t, p, u, r, n) && Shifted(ch, s', t, p, u, r, n)
    ensures SameBalances(s, s')
  {
    hide CoinDelta, TokenDelta;
    forall d
      ensures s'.bank.Coins(d) == s.bank.Coins(d)
    {
      assert forall a :: s'.bank.Coins(d)[a] == s.bank.Coins(d)[a];
    }
    forall c
      ensures s'.evm.Tokens(c) == s.evm.Tokens(c)
    {
      assert forall a :: s'.evm.Tokens(c)[a] == s.evm.Tokens(c)[a];
    }
  }

  lemma FrameTwice(s: State, t: State, u: State)
    requires SameFrame(s, t) && SameFrame(t, u)
    ensures SameFrame(s, u)
  {
  }

  lemma {:induction false} AllKeep(ch: Chain, s: State, xs: seq<Conversion>, u: Address, r: Address)
    requires Core(ch, s) && Backed(ch, s) && ConvertAll(ch, s, xs).Ok?
    requires forall x :: x in xs ==> ByOthers(ch, s.reg, x, u, r)
    ensures var s' := ConvertAll(ch, s, xs).value;
            Core(ch, s') && Backed(ch, s') && SameFrame(s, s')
    decreases |xs|
  {
    hide ConvertCoin, ConvertERC20, Core, Backed, ByOthers;
    if |xs| > 0 {
      assert xs[0] in xs;
      var s' := Convert(ch, s, xs[0]).value;
      ConversionKeeps(ch, s, xs[0], u, r);
      AllKeep(ch, s', xs[1..], u, r);
      FrameTwice(s, s', ConvertAll(ch, s, xs).value);
    }
  }

  lemma ModuleIsBlocked(ch: Chain, s: State)
    requires Core(ch, s)
    ensures ch.moduleAddress in s.bank.blocked
  {
  }

  // What is assumed of a journey: u converts coins into tokens of r, and others convert in
  // either direction.
  ghost predicate Journey(ch: Chain, s: State, out: MsgConvertCoin, v: Verdict, xs: seq<Conversion>)
  {
    && Core(ch, s) && Backed(ch, s)
    && ConvertCoin(ch, s, out, v).Ok? && out.sender != ch.moduleAddress && FindsOwnPair(s.reg, out.denom)
    && (forall x :: x in xs ==> ByOthers(ch, s.reg, x, out.sender, out.receiver))
    && ConvertAll(ch, ConvertCoin(ch, s, out, v).value, xs).Ok?
  }

  // Before the way back, the state is ahead of what the others alone would have reached.
  lemma BeforeTheWayBack(ch: Chain, s: State, out: MsgConvertCoin, v: Verdict, xs: seq<Conversion>)
    returns (p: TokenPair)
    requires Journey(ch, s, out, v, xs)
    ensures MintingEnabled(s, out.sender, out.receiver, out.denom) == Ok(p) && Resolve(s.reg, out.denom) == Ok(p)
    ensures p.contractOwner == OWNER_MODULE || p.contractOwner == OWNER_EXTERNAL
    ensures out.receiver != ch.moduleAddress && ConvertAll(ch, s, xs).Ok?
    ensures var t1 := ConvertAll(ch, ConvertCoin(ch, s, out, v).value, xs).value;
            && Ahead(ch, ConvertAll(ch, s, xs).value, t1, p, out.sender, out.receiver, out.amount)
            && Core(ch, t1) && Backed(ch, t1) && SameFrame(s, t1)
            && GetID(ch, p) in t1.reg.pairs && t1.reg.pairs[GetID(ch, p)] == p && Contract(p) in t1.evm.tokens
  {
    hide ConvertCoin, ConvertAll, MintingEnabled, Resolve, Core, Backed, Contract, GetID, ByOthers, Shifted, SameFrame,
         CoinsBecomeTokens;
    var u, r, n, t := out.sender, out.receiver, out.amount, ConvertCoin(ch, s, out, v).value;
    ConvertCoinEnabled(ch, s, out, v);
    p := MintingEnabled(s, u, r, out.denom).value;
    ResolvedHasCode(ch, s, u, r, out.denom);
    ModuleIsBlocked(ch, s);
    ConvertCoinEffect(ch, s, out, v);
    OwnerIsKnown(ch, s, t, p, out);
    ConvertCoinShifts(ch, s, t, p, out);
    ConvertCoinKeepsCore(ch, s, out, v);
    ConvertCoinKeepsBacking(ch, s, out, v);
    AheadHasFrame(ch, s, t, p, u, r, n);
    FrameKeepsRegistry(s, t);
    SimulateAll(ch, s, t, p, u, r, n, xs);
    AllKeep(ch, t, xs, u, r);
    var t1 := ConvertAll(ch, t, xs).value;
    FrameTwice(s, t, t1);
    FrameKeepsRegistry(s, t1);
    SameMinting(s, t1, u, r, out.denom);
    ResolvedHasCode(ch, t1, u, r, out.denom);
  }

  lemma OwnerIsKnown(ch: Chain, s: State, t: State, p: TokenPair, msg: MsgConvertCoin)
    requires CoinsBecomeTokens(ch, s, t, p, msg)
    ensures p.contractOwner == OWNER_MODULE || p.contractOwner == OWNER_EXTERNAL
  {
    hide Contract, Rewrites, BumpsNonce;
  }

  lemma FrameKeepsRegistry(s: State, t: State)
    requires SameFrame(s, t)
    ensures t.reg == s.reg
  {
  }

  // There and back: u converts n coins into tokens of r, others convert in either direction,
  // and r converts n tokens back into coins of u. The others' conversions would have succeeded
  // on their own, and all balances, escrows and supplies end up as if only they had happened.
  lemma RoundTripLeavesNoTrace(ch: Chain, s: State, out: MsgConvertCoin, v: Verdict, xs: seq<Conversion>,
                               back: MsgConvertERC20, w: Verdict)
    requires Journey(ch, s, out, v, xs)
    requires back.sender == out.receiver && back.receiver == out.sender && back.amount == out.amount
    requires Resolve(s.reg, back.contract) == Resolve(s.reg, out.denom)
    requires ConvertERC20(ch, ConvertAll(ch, ConvertCoin(ch, s, out, v).value, xs).value, back, w).Ok?
    ensures ConvertAll(ch, s, xs).Ok?
    ensures SameBalances(ConvertAll(ch, s, xs).value,
                         ConvertERC20(ch, ConvertAll(ch, ConvertCoin(ch, s, out, v).value, xs).value, back, w).value)
  {
    var p := BeforeTheWayBack(ch, s, out, v, xs);
    hide Journey, ConvertCoin, ConvertERC20, ConvertAll, MintingEnabled, Resolve, Core, Backed, Contract, GetID,
         Shifted, SameFrame, TokensBecomeCoins, SameBalances;
    var u, r, n := out.sender, out.receiver, out.amount;
    var s1, t1 := ConvertAll(ch, s, xs).value, ConvertAll(ch, ConvertCoin(ch, s, out, v).value, xs).value;
    var end := ConvertERC20(ch, t1, back, w).value;
    FrameKeepsRegistry(s, t1);
    ConvertERC20Enabled(ch, t1, back, w);
    MintingFacts(t1, r, u, back.contract);
    ConvertERC20Effect(ch, t1, back, w);
    ConvertERC20ShiftsBack(ch, t1, end, p, back);
    ShiftedTwiceIsSame(ch, s1, t1, end, p, u, r, n);
  }

  // A coin that finds another pair does not come back.
  lemma ForeignCoinsStayAway(ch: Chain, s: State, out: MsgConvertCoin, v: Verdict, back: MsgConvertERC20, w: Verdict)
    requires Core(ch, s) && ConvertCoin(ch, s, out, v).Ok? && out.sender != ch.moduleAddress && out.amount > 0
    requires !FindsOwnPair(s.reg, out.denom) && Resolve(s.reg, back.contract) == Resolve(s.reg, out.denom)
    requires ConvertERC20(ch, ConvertCoin(ch, s, out, v).value, back, w).Ok?
    ensures !SameBalances(s, ConvertERC20(ch, ConvertCoin(ch, s, out, v).value, back, w).value)
  {
    hide ConvertCoin, ConvertERC20, MintingEnabled, Resolve, Core, Contract, GetID, SameFrame, BumpsNonce;
    var t := ConvertCoin(ch, s, out, v).value;
    ConvertCoinEnabled(ch, s, out, v);
    ResolvedHasCode(ch, s, out.sender, out.receiver, out.denom);
    ConvertCoinEffect(ch, s, out, v);
    ConvertCoinKeepsCore(ch, s, out, v);
    ConvertERC20Enabled(ch, t, back, w);
    ResolvedHasCode(ch, t, back.sender, back.receiver, back.contract);
    ConvertERC20Effect(ch, t, back, w);
    assert t.bank.Coins(out.denom)[out.sender] == s.bank.Coins(out.denom)[out.sender] - out.amount;
  }

  // The way back never lacks tokens or escrow: it succeeds exactly when the guard lets it
  // through, which can be checked before the journey, and the call itself goes through.
  lemma WayBackSucceedsIff(ch: Chain, s: State, out: MsgConvertCoin, v: Verdict, xs: seq<Conversion>,
                           back: MsgConvertERC20, w: Verdict)
    requires Journey(ch, s, out, v, xs)
    requires back.sender == out.receiver && back.receiver == out.sender && back.amount == out.amount
    requires Resolve(s.reg, back.contract) == Resolve(s.reg, out.denom)
    ensures Resolve(s.reg, out.denom).Ok?
    ensures var t1, p := ConvertAll(ch, ConvertCoin(ch, s, out, v).value, xs).value, Resolve(s.reg, out.denom).value;
            ConvertERC20(ch, t1, back, w).Ok? <==>
            && MintingEnabled(s, back.sender, back.receiver, back.contract).Ok?
            && w.Ran? && (p.contractOwner == OWNER_EXTERNAL ==> w.accept)
            && t1.evm.Nonce(if p.contractOwner == OWNER_MODULE then ch.moduleAddress else back.sender) < MAX_NONCE
  {
    var p := BeforeTheWayBack(ch, s, out, v, xs);
    var u, r, n := out.sender, out.receiver, out.amount;
    assert u != ch.moduleAddress;
    hide Journey, ConvertCoin, ConvertERC20, ConvertAll, MintingEnabled, Resolve, Core, Backed, Contract, GetID, Ahead,
         SameFrame, TokenGuard;
    var s1, t1 := ConvertAll(ch, s, xs).value, ConvertAll(ch, ConvertCoin(ch, s, out, v).value, xs).value;
    SameMinting(s, t1, r, u, back.contract);
    if MintingEnabled(s, r, u, back.contract).Ok? {
      MintingFacts(s, r, u, back.contract);
      StoredIsCovered(ch, t1, p);
      ConvertERC20SucceedsIff(ch, t1, p, back, w);
      WayBackGuard(ch, s1, t1, p, u, n, back, w);
    } else if ConvertERC20(ch, t1, back, w).Ok? {
      ConvertERC20Enabled(ch, t1, back, w);
    }
  }

  // What the journey brought is there for the way back.
  lemma WayBackGuard(ch: Chain, s1: State, t1: State, p: TokenPair, u: Address, n: nat, back: MsgConvertERC20,
                     w: Verdict)
    requires Ahead(ch, s1, t1, p, u, back.sender, n) && back.amount == n
    requires u != ch.moduleAddress && back.sender != ch.moduleAddress
    requires Covered(ch, t1.bank, t1.evm, p, 0) && Contract(p) in t1.evm.tokens
    requires p.contractOwner == OWNER_MODULE || p.contractOwner == OWNER_EXTERNAL
    ensures TokenGuard(ch, t1, p, back, w) <==>
            && w.Ran? && (p.contractOwner == OWNER_EXTERNAL ==> w.accept)
            && t1.evm.Nonce(if p.contractOwner == OWNER_MODULE then ch.moduleAddress else back.sender) < MAX_NONCE
  {
    hide Contract, IsVoucher, SameFrame;
    var c, m := Contract(p), ch.moduleAddress;
    assert t1.evm.Tokens(c)[back.sender] == s1.evm.Tokens(c)[back.sender] + n;
    assert p.contractOwner == OWNER_MODULE ==> t1.bank.Coins(p.denom)[m] == s1.bank.Coins(p.denom)[m] + n;
  }

  // ---- Redemption --------------------------------------------------------------------

  // Whoever the guard lets through can turn any tokens of a native coin that they hold into the
  // coin, unless the virtual machine fails.
  lemma HoldersCanRedeem(ch: Chain, s: State, p: TokenPair, msg: MsgConvertERC20, v: Verdict)
    requires Core(ch, s) && Backed(ch, s) && p.contractOwner == OWNER_MODULE
    requires MintingEnabled(s, msg.sender, msg.receiver, msg.contract) == Ok(p)
    requires msg.amount <= s.evm.Tokens(Contract(p))[msg.sender]
    ensures ConvertERC20(ch, s, msg, v).Ok? <==> v.Ran? && s.evm.Nonce(ch.moduleAddress) < MAX_NONCE
  {
    hide MintingEnabled, ConvertERC20, Core, Backed, Contract, GetID, Resolve, IsVoucher;
    ResolvedHasCode(ch, s, msg.sender, msg.receiver, msg.contract);
    StoredIsCovered(ch, s, p);
    BalanceWithinSupply(s.evm.Tokens(Contract(p)), msg.sender);
    ConvertERC20SucceedsIff(ch, s, p, msg, v);
  }

  // And any vouchers into the tokens that they stand for.
  lemma VoucherHoldersCanRedeem(ch: Chain, s: State, p: TokenPair, msg: MsgConvertCoin, v: Verdict)
    requires Core(ch, s) && Backed(ch, s) && p.contractOwner == OWNER_EXTERNAL && msg.denom == p.denom
    requires MintingEnabled(s, msg.sender, msg.receiver, msg.denom) == Ok(p)
    requires msg.amount <= s.bank.Coins(p.denom)[msg.sender]
    ensures ConvertCoin(ch, s, msg, v).Ok? <==> v.Ran? && v.accept && s.evm.Nonce(ch.moduleAddress) < MAX_NONCE
  {
    hide MintingEnabled, ConvertCoin, Core, Backed, Contract, GetID, Resolve, IsVoucher;
    ResolvedHasCode(ch, s, msg.sender, msg.receiver, msg.denom);
    StoredIsCovered(ch, s, p);
    BalanceWithinSupply(s.bank.Coins(p.denom), msg.sender);
    ConvertCoinSucceedsIff(ch, s, p, msg, v);
  }
}
