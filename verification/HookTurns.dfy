// When a turn of the hook's loop skips, returns an error, gives up or pays out, written out in
// terms of the log and the state, and when a whole transaction is paid out.
module HookTurns {
  import opened Base
  import opened Chains
  import opened Ledgers
  import opened Registries
  import opened TokenPairCodec
  import opened States
  import opened Conversions
  import opened Hook
  import opened Steps
  import opened Backing
  import opened Outcomes
  import opened ThereAndBack
  import opened Tightness

  // ---- Logs --------------------------------------------------------------------------

  // The log of an ERC20 transfer of a positive amount.
  predicate IsTransfer(ch: Chain, log: Log)
  {
    && |log.topics| >= 3 && ch.eventName(log.topics[0]) == Some("Transfer")
    && log.data.Some? && |log.data.value| > 0 && log.data.value[0].Number? && log.data.value[0].n > 0
  }

  // A transfer on a registered contract.
  predicate Concerns(ch: Chain, r: Registry, log: Log)
  {
    IsTransfer(ch, log) && log.address in r.byErc20 && r.byErc20[log.address] in r.pairs
  }

  function PairAt(r: Registry, c: Address): TokenPair
    requires c in r.byErc20 && r.byErc20[c] in r.pairs
  {
    r.pairs[r.byErc20[c]]
  }

  predicate ToModule(ch: Chain, log: Log)
  {
    |log.topics| >= 3 && log.topics[2] % TWO_160 == ch.moduleAddress
  }

  lemma AmountIs(ch: Chain, log: Log)
    ensures Amount(ch, log) == if IsTransfer(ch, log) then log.data.value[0].n else 0
  {
  }

  lemma PairIs(ch: Chain, r: Registry, log: Log)
    requires ch.Sound() && Bijective(ch, r)
    ensures PairOf(r, log) ==
            if log.address in r.byErc20 && r.byErc20[log.address] in r.pairs then Some(PairAt(r, log.address)) else None
    ensures log.address in r.byErc20 ==> r.byErc20[log.address] in r.pairs
  {
    if log.address in r.byErc20 {
      RegisteredIsFound(ch, r, log.address);
    }
    hide FindPair, Bijective, Chain.Sound;
  }

  // What a log is worth, which the declarative sums add up.
  lemma WorthIs(ch: Chain, r: Registry, log: Log)
    requires ch.Sound() && Bijective(ch, r)
    ensures Worth(ch, r, log) == if Concerns(ch, r, log) && ToModule(ch, log) then log.data.value[0].n else 0
  {
    PairIs(ch, r, log);
    AmountIs(ch, log);
    hide Amount, PairOf, Bijective, Chain.Sound;
  }

  // ---- Turns -------------------------------------------------------------------------

  lemma KindOfTurn(ch: Chain, s: State, log: Log, v: Verdict)
    ensures ProcessLog(ch, s, log, v).Skip? <==>
            || Amount(ch, log) == 0 || PairOf(s.reg, log).None?
            || (PairOf(s.reg, log).value.enabled && !ToModule(ch, log))
    ensures ProcessLog(ch, s, log, v).Abort? <==>
            Amount(ch, log) > 0 && PairOf(s.reg, log).Some? && !PairOf(s.reg, log).value.enabled
  {
    AmountNeedsTopics(ch, log);
    hide Amount, PairOf, Release, Bank.SendFromModule;
  }

  // A turn skips exactly the logs that are no transfers of a positive amount, or on no
  // registered contract, or on an enabled pair and not to the module.
  lemma SkipIff(ch: Chain, s: State, log: Log, v: Verdict)
    requires ch.Sound() && Bijective(ch, s.reg)
    ensures ProcessLog(ch, s, log, v).Skip? <==>
            !Concerns(ch, s.reg, log) || (PairAt(s.reg, log.address).enabled && !ToModule(ch, log))
  {
    hide ProcessLog, Amount, PairOf, Bijective, Chain.Sound, ToModule;
    PairIs(ch, s.reg, log);
    AmountIs(ch, log);
    KindOfTurn(ch, s, log, v);
  }

  // A turn returns an error exactly for a transfer on a disabled pair, whoever receives it.
  lemma AbortIff(ch: Chain, s: State, log: Log, v: Verdict)
    requires ch.Sound() && Bijective(ch, s.reg)
    ensures ProcessLog(ch, s, log, v).Abort? <==>
            Concerns(ch, s.reg, log) && !PairAt(s.reg, log.address).enabled
  {
    hide ProcessLog, Amount, PairOf, Bijective, Chain.Sound, ToModule;
    PairIs(ch, s.reg, log);
    AmountIs(ch, log);
    KindOfTurn(ch, s, log, v);
  }

  // All other turns release on the pair and then send to the sender of the transfer.
  lemma TurnUnfolds(ch: Chain, s: State, log: Log, v: Verdict)
    requires ch.Sound() && Bijective(ch, s.reg) && Concerns(ch, s.reg, log)
    requires PairAt(s.reg, log.address).enabled && ToModule(ch, log)
    ensures var p, n := PairAt(s.reg, log.address), log.data.value[0].n;
            var (r, ok) := Release(ch, s, p, log.address, n, v);
            var sent := r.bank.SendFromModule(ch, log.topics[1] % TWO_160, p.denom, n);
            ProcessLog(ch, s, log, v) == if ok && sent.Ok? then Convert(r.(bank := sent.value)) else Swallow(r)
  {
    PairIs(ch, s.reg, log);
    AmountIs(ch, log);
    hide Amount, PairOf, Bijective, Chain.Sound, Release, Bank.SendFromModule;
  }

  // Burning runs exactly when the call does and the module holds the tokens.
  ghost predicate Burns(ch: Chain, s: State, c: Address, n: nat, v: Verdict)
  {
    v.Ran? && s.evm.Nonce(ch.moduleAddress) < MAX_NONCE && s.evm.Tokens(c)[ch.moduleAddress] >= n
  }

  lemma ReleaseOfNative(ch: Chain, s: State, p: TokenPair, c: Address, n: nat, v: Verdict)
    requires p.contractOwner == OWNER_MODULE && c in s.evm.tokens
    ensures var (r, ok) := Release(ch, s, p, c, n, v);
            && (ok <==> Burns(ch, s, c, n, v))
            && r == s.(evm := r.evm)
            && r.evm.tokens == (if ok then s.evm.SetTokens(c, Debit(s.evm.Tokens(c), ch.moduleAddress, n)).tokens
                                else s.evm.tokens)
            && (ok ==> BumpsNonce(s, r, ch.moduleAddress))
            && r.evm.Nonce(ch.moduleAddress) <= s.evm.Nonce(ch.moduleAddress) + 1
  {
    CallFrame(ch, s.evm, ch.moduleAddress, c, Burn(n), v);
    CallSucceedsIff(ch, s.evm, ch.moduleAddress, c, Burn(n), v);
    if CallEVM(ch, s.evm, ch.moduleAddress, c, Burn(n), v).outcome.Ok? {
      CallRuns(ch, s.evm, ch.moduleAddress, c, Burn(n), v);
    }
    hide CallEVM, Debit;
  }

  lemma ReleaseOfExternal(ch: Chain, s: State, p: TokenPair, c: Address, n: nat, v: Verdict)
    requires p.contractOwner == OWNER_EXTERNAL
    ensures Release(ch, s, p, c, n, v) ==
            (s.(bank := s.bank.SetCoins(p.denom, Credit(s.bank.Coins(p.denom), ch.moduleAddress, n))), true)
  {
  }

  // The sender of a transfer and what its pair must allow.
  ghost predicate Payable(ch: Chain, s: State, log: Log, v: Verdict)
    requires Concerns(ch, s.reg, log)
  {
    var p, n := PairAt(s.reg, log.address), log.data.value[0].n;
    && log.topics[1] % TWO_160 !in s.bank.blocked
    && (p.contractOwner == OWNER_MODULE || p.contractOwner == OWNER_EXTERNAL)
    && (p.contractOwner == OWNER_MODULE ==> Burns(ch, s, log.address, n, v))
  }

  // A turn pays out exactly a transfer of a positive amount to the module, on a registered and
  // enabled contract, from an account that is not blocked, and on a native coin only when the
  // burning runs. The escrow of a covered pair always suffices.
  lemma ConvertIff(ch: Chain, s: State, log: Log, v: Verdict)
    requires ch.Sound() && Core(ch, s)
    requires Concerns(ch, s.reg, log) ==> Covered(ch, s.bank, s.evm, PairAt(s.reg, log.address), 0)
    ensures ProcessLog(ch, s, log, v).Convert? <==>
            && Concerns(ch, s.reg, log) && PairAt(s.reg, log.address).enabled && ToModule(ch, log)
            && Payable(ch, s, log, v)
  {
    CoreIsBijective(ch, s);
    SkipIff(ch, s, log, v);
    AbortIff(ch, s, log, v);
    if Concerns(ch, s.reg, log) && PairAt(s.reg, log.address).enabled && ToModule(ch, log) {
      PairOfIsStored(ch, s.reg, log);
      PairIs(ch, s.reg, log);
      PaidIff(ch, s, log, v);
    }
    hide ProcessLog, Bijective, Core, Chain.Sound, Covered, Payable, IsTransfer, PairOf;
  }

  lemma PaidIff(ch: Chain, s: State, log: Log, v: Verdict)
    requires ch.Sound() && Bijective(ch, s.reg) && Concerns(ch, s.reg, log)
    requires PairAt(s.reg, log.address).enabled && ToModule(ch, log)
    requires Contract(PairAt(s.reg, log.address)) == log.address
    requires Covered(ch, s.bank, s.evm, PairAt(s.reg, log.address), 0)
    ensures ProcessLog(ch, s, log, v).Convert? <==> Payable(ch, s, log, v)
  {
    TurnUnfolds(ch, s, log, v);
    hide ProcessLog, Bijective, Chain.Sound, Release, Covered, Contract, Payable, Bank.SendFromModule;
    if PairAt(s.reg, log.address).contractOwner == OWNER_MODULE {
      NativePaidIff(ch, s, log, v);
    } else {
      ForeignPaidIff(ch, s, log, v);
    }
  }

  // Releasing and sending on both succeed.
  ghost predicate CanSendOn(ch: Chain, s: State, log: Log, v: Verdict)
    requires Concerns(ch, s.reg, log)
  {
    var p, n := PairAt(s.reg, log.address), log.data.value[0].n;
    var (r, ok) := Release(ch, s, p, log.address, n, v);
    ok && r.bank.SendFromModule(ch, log.topics[1] % TWO_160, p.denom, n).Ok?
  }

  lemma NativePaidIff(ch: Chain, s: State, log: Log, v: Verdict)
    requires Concerns(ch, s.reg, log) && PairAt(s.reg, log.address).contractOwner == OWNER_MODULE
    requires Contract(PairAt(s.reg, log.address)) == log.address
    requires Covered(ch, s.bank, s.evm, PairAt(s.reg, log.address), 0)
    ensures CanSendOn(ch, s, log, v) <==> Payable(ch, s, log, v)
  {
    hide Contract, IsVoucher, Release, Debit, Move, BumpsNonce;
    var p, n := PairAt(s.reg, log.address), log.data.value[0].n;
    ReleaseOfNative(ch, s, p, log.address, n, v);
    BalanceWithinSupply(s.evm.Tokens(log.address), ch.moduleAddress);
  }

  lemma ForeignPaidIff(ch: Chain, s: State, log: Log, v: Verdict)
    requires Concerns(ch, s.reg, log) && PairAt(s.reg, log.address).contractOwner != OWNER_MODULE
    ensures CanSendOn(ch, s, log, v) <==> Payable(ch, s, log, v)
  {
    hide Release, Credit, Move;
    var p, n := PairAt(s.reg, log.address), log.data.value[0].n;
    ReleaseNeedsOwner(ch, s, p, log.address, n, v);
    if p.contractOwner == OWNER_EXTERNAL {
      ReleaseOfExternal(ch, s, p, log.address, n, v);
      CreditedBalance(s.bank.Coins(p.denom), ch.moduleAddress, n);
    }
  }

  lemma CreditedBalance(l: Ledger, a: Address, n: nat)
    ensures Credit(l, a, n)[a] >= n
  {
  }

  lemma ReleaseNeedsOwner(ch: Chain, s: State, p: TokenPair, c: Address, n: nat, v: Verdict)
    ensures p.contractOwner != OWNER_MODULE && p.contractOwner != OWNER_EXTERNAL ==>
              Release(ch, s, p, c, n, v) == (s, false)
  {
  }

  // What a paid turn changes: tokens of the module are burned and escrowed coins go to the
  // sender, or vouchers are minted for the sender.
  ghost predicate Paid(ch: Chain, s: State, s': State, log: Log)
    requires Concerns(ch, s.reg, log)
  {
    var p, n, m, from := PairAt(s.reg, log.address), log.data.value[0].n, ch.moduleAddress, log.topics[1] % TWO_160;
    var l, t := s.bank.Coins(p.denom), s.evm.Tokens(log.address);
    && (p.contractOwner == OWNER_MODULE ==>
          && l[m] >= n && t[m] >= n && BumpsNonce(s, s', m)
          && Rewrites(s, s', p.denom, Move(l, m, from, n), log.address, Debit(t, m, n)))
    && (p.contractOwner == OWNER_EXTERNAL ==>
          s' == s.(bank := s.bank.SetCoins(p.denom, Credit(l, from, n))))
  }

  lemma ConvertPays(ch: Chain, s: State, log: Log, v: Verdict)
    requires ch.Sound() && Bijective(ch, s.reg) && Concerns(ch, s.reg, log) && log.address in s.evm.tokens
    requires ProcessLog(ch, s, log, v).Convert?
    ensures Paid(ch, s, ProcessLog(ch, s, log, v).state, log)
  {
    SkipIff(ch, s, log, v);
    AbortIff(ch, s, log, v);
    hide ProcessLog, Bijective, Chain.Sound, IsTransfer, Release;
    TurnUnfolds(ch, s, log, v);
    if PairAt(s.reg, log.address).contractOwner == OWNER_MODULE {
      NativePays(ch, s, log, v);
    } else if PairAt(s.reg, log.address).contractOwner == OWNER_EXTERNAL {
      ExternalPays(ch, s, log, v);
    }
    hide Rewrites, BumpsNonce, Move, Debit, Credit;
  }

  // The state after releasing n on the log's pair and sending on.
  ghost predicate SendsOn(ch: Chain, s: State, s': State, log: Log, v: Verdict)
    requires Concerns(ch, s.reg, log)
  {
    var p, n := PairAt(s.reg, log.address), log.data.value[0].n;
    var (r, ok) := Release(ch, s, p, log.address, n, v);
    var sent := r.bank.SendFromModule(ch, log.topics[1] % TWO_160, p.denom, n);
    ok && sent.Ok? && s' == r.(bank := sent.value)
  }

  lemma NativePays(ch: Chain, s: State, log: Log, v: Verdict)
    requires Concerns(ch, s.reg, log) && log.address in s.evm.tokens
    requires PairAt(s.reg, log.address).contractOwner == OWNER_MODULE
    requires ProcessLog(ch, s, log, v).Convert? && SendsOn(ch, s, ProcessLog(ch, s, log, v).state, log, v)
    ensures Paid(ch, s, ProcessLog(ch, s, log, v).state, log)
  {
    hide ProcessLog, Release, Debit, Credit, Move, BumpsNonce, Bank.SendFromModule;
    var p, n := PairAt(s.reg, log.address), log.data.value[0].n;
    ReleaseOfNative(ch, s, p, log.address, n, v);
    SentOn(ch, s.bank, log.topics[1] % TWO_160, p.denom, n);
    NonceCarries(s, Release(ch, s, p, log.address, n, v).0, ProcessLog(ch, s, log, v).state, ch.moduleAddress);
  }

  lemma ExternalPays(ch: Chain, s: State, log: Log, v: Verdict)
    requires Concerns(ch, s.reg, log)
    requires PairAt(s.reg, log.address).contractOwner == OWNER_EXTERNAL
    requires ProcessLog(ch, s, log, v).Convert? && SendsOn(ch, s, ProcessLog(ch, s, log, v).state, log, v)
    ensures Paid(ch, s, ProcessLog(ch, s, log, v).state, log)
  {
    hide ProcessLog, Release, Debit, Credit, Move, BumpsNonce, Bank.SendFromModule;
    var p, n := PairAt(s.reg, log.address), log.data.value[0].n;
    ReleaseOfExternal(ch, s, p, log.address, n, v);
    MintedAndSent(ch, s.bank, log.topics[1] % TWO_160, p.denom, n);
  }

  lemma NonceCarries(s: State, r: State, s': State, a: Address)
    requires BumpsNonce(s, r, a) && s'.evm == r.evm
    ensures BumpsNonce(s, s', a)
  {
  }

  lemma SentOn(ch: Chain, b: Bank, to: Address, denom: Bytes, n: nat)
    ensures b.SendFromModule(ch, to, denom, n).Ok? ==>
              && b.Coins(denom)[ch.moduleAddress] >= n
              && b.SendFromModule(ch, to, denom, n).value ==
                 b.SetCoins(denom, Move(b.Coins(denom), ch.moduleAddress, to, n))
  {
  }

  lemma MintedAndSent(ch: Chain, b: Bank, to: Address, denom: Bytes, n: nat)
    ensures var minted := b.SetCoins(denom, Credit(b.Coins(denom), ch.moduleAddress, n));
            minted.SendFromModule(ch, to, denom, n).Ok? ==>
              minted.SendFromModule(ch, to, denom, n).value == b.SetCoins(denom, Credit(b.Coins(denom), to, n))
  {
    if to !in b.blocked {
      MintThenSend(ch, b, to, denom, n);
    }
    hide Move;
  }

  // What a turn that gives up leaves behind: burned tokens whose coins stay in escrow, or
  // vouchers that stay with the module, or nothing.
  ghost predicate GivenUp(ch: Chain, s: State, s': State, log: Log, v: Verdict)
    requires Concerns(ch, s.reg, log)
  {
    var p, n, m := PairAt(s.reg, log.address), log.data.value[0].n, ch.moduleAddress;
    var l, t := s.bank.Coins(p.denom), s.evm.Tokens(log.address);
    && (p.contractOwner == OWNER_MODULE ==>
          && s' == s.(evm := s'.evm) && log.address in s.evm.tokens
          && s'.evm.tokens == (if Burns(ch, s, log.address, n, v)
                               then s.evm.SetTokens(log.address, Debit(t, m, n)).tokens else s.evm.tokens))
    && (p.contractOwner == OWNER_EXTERNAL ==> s' == s.(bank := s.bank.SetCoins(p.denom, Credit(l, m, n))))
    && (p.contractOwner != OWNER_MODULE && p.contractOwner != OWNER_EXTERNAL ==> s' == s)
  }

  lemma SwallowLeaves(ch: Chain, s: State, log: Log, v: Verdict)
    requires ch.Sound() && Bijective(ch, s.reg) && Concerns(ch, s.reg, log) && log.address in s.evm.tokens
    requires ProcessLog(ch, s, log, v).Swallow?
    ensures GivenUp(ch, s, ProcessLog(ch, s, log, v).state, log, v)
  {
    SkipIff(ch, s, log, v);
    AbortIff(ch, s, log, v);
    hide ProcessLog, Bijective, Chain.Sound, IsTransfer, Release, Bank.SendFromModule, GivenUp;
    TurnUnfolds(ch, s, log, v);
    ReleaseLeaves(ch, s, log, v);
  }

  lemma ReleaseLeaves(ch: Chain, s: State, log: Log, v: Verdict)
    requires Concerns(ch, s.reg, log) && log.address in s.evm.tokens
    ensures GivenUp(ch, s, Release(ch, s, PairAt(s.reg, log.address), log.address, log.data.value[0].n, v).0, log, v)
  {
    hide Release, Debit, Credit, Burns, BumpsNonce;
    var p, n := PairAt(s.reg, log.address), log.data.value[0].n;
    if p.contractOwner == OWNER_MODULE {
      ReleaseOfNative(ch, s, p, log.address, n, v);
    } else if p.contractOwner == OWNER_EXTERNAL {
      ReleaseOfExternal(ch, s, p, log.address, n, v);
    } else {
      ReleaseNeedsOwner(ch, s, p, log.address, n, v);
    }
  }

  // ---- The loop ----------------------------------------------------------------------

  // The loop returns an error exactly when some log is a transfer on a disabled pair, whatever
  // the turns before it do.
  lemma {:induction false} LoopAbortsIff(ch: Chain, s: State, logs: seq<Log>, vs: seq<Verdict>)
    requires ch.Sound() && Bijective(ch, s.reg) && |vs| == |logs|
    ensures ProcessLogs(ch, s, logs, vs).aborted <==>
            exists i :: 0 <= i < |logs| && Concerns(ch, s.reg, logs[i]) && !PairAt(s.reg, logs[i].address).enabled
    decreases |logs|
  {
    hide ProcessLog, Bijective, Chain.Sound, Concerns;
    if |logs| > 0 {
      AbortIff(ch, s, logs[0], vs[0]);
      FirstOrLater(ch, s.reg, logs);
      match ProcessLog(ch, s, logs[0], vs[0])
      case Skip => LoopAbortsIff(ch, s, logs[1..], vs[1..]);
      case Abort =>
      case Swallow(s') =>
        TurnKeepsRegistry(ch, s, logs[0], vs[0]);
        LoopAbortsIff(ch, s', logs[1..], vs[1..]);
      case Convert(s') =>
        TurnKeepsRegistry(ch, s, logs[0], vs[0]);
        LoopAbortsIff(ch, s', logs[1..], vs[1..]);
    }
  }

  lemma FirstOrLater(ch: Chain, r: Registry, logs: seq<Log>)
    requires |logs| > 0
    ensures (exists i :: 0 <= i < |logs| && Concerns(ch, r, logs[i]) && !PairAt(r, logs[i].address).enabled) <==>
            || (Concerns(ch, r, logs[0]) && !PairAt(r, logs[0].address).enabled)
            || exists i :: 0 <= i < |logs[1..]| && Concerns(ch, r, logs[1..][i])
                           && !PairAt(r, logs[1..][i].address).enabled
  {
    hide IsTransfer;
    if i :| 0 <= i < |logs| && Concerns(ch, r, logs[i]) && !PairAt(r, logs[i].address).enabled {
      if i > 0 {
        assert logs[1..][i - 1] == logs[i];
      }
    }
    if i :| 0 <= i < |logs[1..]| && Concerns(ch, r, logs[1..][i]) && !PairAt(r, logs[1..][i].address).enabled {
      assert logs[i + 1] == logs[1..][i];
    }
  }

  lemma TurnKeepsRegistry(ch: Chain, s: State, log: Log, v: Verdict)
    requires ProcessLog(ch, s, log, v).Swallow? || ProcessLog(ch, s, log, v).Convert?
    ensures OnlyLedgers(s, ProcessLog(ch, s, log, v).state)
  {
    hide ProcessLog, Release, Bank.SendFromModule, PairOf, Amount;
    var p, r := EffectOfLog(ch, s, log, v);
  }

  // A log that is no reason for the loop to fail: if it is a transfer on a registered contract,
  // the pair is enabled, and if it goes to the module, it can be paid out.
  predicate Sane(ch: Chain, r: Registry, blocked: set<Address>, log: Log, v: Verdict)
  {
    Concerns(ch, r, log) ==>
      var p := PairAt(r, log.address);
      && p.enabled
      && (ToModule(ch, log) ==>
            && log.topics[1] % TWO_160 !in blocked
            && (p.contractOwner == OWNER_EXTERNAL || (p.contractOwner == OWNER_MODULE && v.Ran?)))
  }

  predicate AllSane(ch: Chain, r: Registry, blocked: set<Address>, logs: seq<Log>, vs: seq<Verdict>)
    requires |vs| == |logs|
  {
    forall i :: 0 <= i < |logs| ==> Sane(ch, r, blocked, logs[i], vs[i])
  }

  // The module holds what the logs have pending.
  ghost predicate HoldsPending(ch: Chain, s: State, logs: seq<Log>)
  {
    forall c :: c in s.reg.byErc20 ==> s.evm.Tokens(c)[ch.moduleAddress] >= Pending(ch, logs, c)
  }

  lemma PendingIs(ch: Chain, r: Registry, log: Log)
    requires Concerns(ch, r, log) && ToModule(ch, log)
    ensures PendingIn(ch, log, log.address) == log.data.value[0].n
  {
    AmountIs(ch, log);
  }

  // When the module holds what is pending and the nonce suffices, a turn gives up or returns an
  // error exactly on a log that is a reason to.
  lemma TurnPaysIff(ch: Chain, s: State, logs: seq<Log>, v: Verdict)
    requires ch.Sound() && Core(ch, s) && |logs| > 0 && BackedWith(ch, s, logs) && HoldsPending(ch, s, logs)
    requires s.evm.Nonce(ch.moduleAddress) < MAX_NONCE
    ensures ProcessLog(ch, s, logs[0], v).Skip? || ProcessLog(ch, s, logs[0], v).Convert? <==>
            Sane(ch, s.reg, s.bank.blocked, logs[0], v)
  {
    var log := logs[0];
    if Concerns(ch, s.reg, log) {
      LoggedIsCovered(ch, s, logs);
      if ToModule(ch, log) {
        PendingIs(ch, s.reg, log);
      }
    }
    CoreIsBijective(ch, s);
    hide ProcessLog, Core, Bijective, Chain.Sound, Covered, BackedWith, IsTransfer, PendingIn, ToModule;
    SkipIff(ch, s, log, v);
    ConvertIff(ch, s, log, v);
  }

  lemma LoggedIsCovered(ch: Chain, s: State, logs: seq<Log>)
    requires Core(ch, s) && |logs| > 0 && BackedWith(ch, s, logs) && Concerns(ch, s.reg, logs[0])
    ensures Covered(ch, s.bank, s.evm, PairAt(s.reg, logs[0].address), 0)
  {
    hide Covered, Core, IsTransfer, Contract, NoStrayVouchers;
    var p := PairAt(s.reg, logs[0].address);
    CoveredWithLess(ch, s.bank, s.evm, p, Pending(ch, logs, Contract(p)), 0);
  }

  // What a turn burns is no longer pending.
  lemma TurnHoldsPending(ch: Chain, s: State, logs: seq<Log>, v: Verdict)
    requires ch.Sound() && Core(ch, s) && |logs| > 0 && HoldsPending(ch, s, logs)
    requires ProcessLog(ch, s, logs[0], v).Convert? && Concerns(ch, s.reg, logs[0])
    ensures HoldsPending(ch, ProcessLog(ch, s, logs[0], v).state, logs[1..])
    ensures ProcessLog(ch, s, logs[0], v).state.evm.Nonce(ch.moduleAddress) <= s.evm.Nonce(ch.moduleAddress) + 1
  {
    var log, s' := logs[0], ProcessLog(ch, s, logs[0], v).state;
    CoreIsBijective(ch, s);
    assert log.address in s.evm.tokens;
    SkipIff(ch, s, log, v);
    hide ProcessLog, Core, Bijective, Chain.Sound, PendingIn, IsTransfer, Paid, ToModule, HoldsPending;
    ConvertPays(ch, s, log, v);
    PendingIs(ch, s.reg, log);
    OwnerOfPaid(ch, s, log, v);
    TurnKeepsRegistry(ch, s, log, v);
    PaidHoldsPending(ch, s, s', logs);
  }

  lemma PaidHoldsPending(ch: Chain, s: State, s': State, logs: seq<Log>)
    requires |logs| > 0 && HoldsPending(ch, s, logs) && s'.reg == s.reg
    requires Concerns(ch, s.reg, logs[0]) && Paid(ch, s, s', logs[0])
    requires PendingIn(ch, logs[0], logs[0].address) == logs[0].data.value[0].n
    requires var p := PairAt(s.reg, logs[0].address);
             p.contractOwner == OWNER_MODULE || p.contractOwner == OWNER_EXTERNAL
    ensures HoldsPending(ch, s', logs[1..])
    ensures s'.evm.Nonce(ch.moduleAddress) <= s.evm.Nonce(ch.moduleAddress) + 1
  {
    hide PendingIn, IsTransfer, Move, Credit;
  }

  lemma OwnerOfPaid(ch: Chain, s: State, log: Log, v: Verdict)
    requires ch.Sound() && Bijective(ch, s.reg) && Concerns(ch, s.reg, log) && ProcessLog(ch, s, log, v).Convert?
    ensures var p := PairAt(s.reg, log.address);
            p.contractOwner == OWNER_MODULE || p.contractOwner == OWNER_EXTERNAL
  {
    SkipIff(ch, s, log, v);
    AbortIff(ch, s, log, v);
    TurnUnfolds(ch, s, log, v);
    ReleaseNeedsOwner(ch, s, PairAt(s.reg, log.address), log.address, log.data.value[0].n, v);
    hide ProcessLog, Bijective, Chain.Sound, Release, IsTransfer;
  }

  // The loop neither returns an error nor gives up a turn exactly when no log is a reason to.
  lemma {:induction false} LoopPaysIff(ch: Chain, s: State, logs: seq<Log>, vs: seq<Verdict>)
    requires ch.Sound() && Core(ch, s) && |vs| == |logs| && BackedWith(ch, s, logs) && HoldsPending(ch, s, logs)
    requires s.evm.Nonce(ch.moduleAddress) + |logs| <= MAX_NONCE
    ensures !ProcessLogs(ch, s, logs, vs).aborted && ProcessLogs(ch, s, logs, vs).swallowed == 0 <==>
            AllSane(ch, s.reg, s.bank.blocked, logs, vs)
    decreases |logs|
  {
    hide ProcessLog, Core, Bijective, Chain.Sound, BackedWith, HoldsPending, Sane;
    if |logs| > 0 {
      var rest, vs' := logs[1..], vs[1..];
      CoreIsBijective(ch, s);
      SkipIff(ch, s, logs[0], vs[0]);
      TurnPaysIff(ch, s, logs, vs[0]);
      AllSaneSplits(ch, s.reg, s.bank.blocked, logs, vs);
      match ProcessLog(ch, s, logs[0], vs[0])
      case Skip =>
        BackedWithFewer(ch, s, logs);
        FewerPending(ch, s, logs);
        LoopPaysIff(ch, s, rest, vs');
      case Abort =>
      case Swallow(s') =>
      case Convert(s') =>
        LogKeepsCore(ch, s, logs[0], vs[0]);
        LogKeepsBacking(ch, s, logs, vs[0]);
        TurnHoldsPending(ch, s, logs, vs[0]);
        TurnKeepsRegistry(ch, s, logs[0], vs[0]);
        LoopPaysIff(ch, s', rest, vs');
    }
  }

  lemma FewerPending(ch: Chain, s: State, logs: seq<Log>)
    requires |logs| > 0 && HoldsPending(ch, s, logs)
    ensures HoldsPending(ch, s, logs[1..])
  {
    hide PendingIn;
    assert forall c :: Pending(ch, logs[1..], c) <= Pending(ch, logs, c);
  }

  lemma AllSaneSplits(ch: Chain, r: Registry, blocked: set<Address>, logs: seq<Log>, vs: seq<Verdict>)
    requires |vs| == |logs| > 0
    ensures AllSane(ch, r, blocked, logs, vs) <==>
            Sane(ch, r, blocked, logs[0], vs[0]) && AllSane(ch, r, blocked, logs[1..], vs[1..])
  {
    hide Sane;
    assert forall i :: 0 <= i < |logs| - 1 ==> logs[1..][i] == logs[i + 1] && vs[1..][i] == vs[i + 1];
    if Sane(ch, r, blocked, logs[0], vs[0]) && AllSane(ch, r, blocked, logs[1..], vs[1..]) {
      forall i | 0 <= i < |logs|
        ensures Sane(ch, r, blocked, logs[i], vs[i])
      {
        assert i > 0 ==> logs[i] == logs[1..][i - 1] && vs[i] == vs[1..][i - 1];
      }
    }
  }

  // ---- Transactions ------------------------------------------------------------------

  // A hooked transaction goes through exactly when the hook is on and none of its logs is a
  // transfer on a disabled pair.
  lemma HookedTxSucceedsIff(ch: Chain, s: State, ops: seq<TokenOp>, vs: seq<Verdict>)
    requires ch.Sound() && Core(ch, s) && RunOps(ch, s.evm, ops).Some? && |vs| == |ops|
    ensures EthTx(ch, s, ops, vs, true).Ok? <==>
            && s.params.enableEVMHook
            && var logs := RunOps(ch, s.evm, ops).value.1;
            forall i :: 0 <= i < |logs| && Concerns(ch, s.reg, logs[i]) ==> PairAt(s.reg, logs[i].address).enabled
  {
    CoreIsBijective(ch, s);
    hide RunOps, ProcessLogs, Concerns, Core, Bijective, Chain.Sound;
    var (evm, logs) := RunOps(ch, s.evm, ops).value;
    LoopAbortsIff(ch, s.(evm := evm), logs, vs);
  }

  // In a backed state, an honest transaction with sane logs goes through, and every account but
  // the module gets exactly what it transferred to the module on registered contracts.
  lemma HookPaysOut(ch: Chain, s: State, ops: seq<TokenOp>, vs: seq<Verdict>, a: Address, d: Bytes)
    requires ch.Sound() && Core(ch, s) && Backed(ch, s) && s.params.enableEVMHook && a != ch.moduleAddress
    requires HonestOps(ch, s.evm, ops) && RunOps(ch, s.evm, ops).Some? && |vs| == |ops|
    requires s.evm.Nonce(ch.moduleAddress) + |ops| <= MAX_NONCE
    requires AllSane(ch, s.reg, s.bank.blocked, RunOps(ch, s.evm, ops).value.1, vs)
    ensures EthTx(ch, s, ops, vs, true).Ok?
    ensures EthTx(ch, s, ops, vs, true).value.bank.Coins(d)[a] ==
            s.bank.Coins(d)[a] + Credits(ch, s.reg, RunOps(ch, s.evm, ops).value.1, a, d)
  {
    var (evm, logs) := RunOps(ch, s.evm, ops).value;
    var s1 := s.(evm := evm);
    RunOpsKeepCode(ch, s.evm, ops);
    assert evm.Nonce(ch.moduleAddress) == s.evm.Nonce(ch.moduleAddress);
    OpsHoldPending(ch, s, ops);
    hide RunOps, ProcessLogs, HonestOps, Core, BackedWith, HoldsPending, AllSane, Credits, Chain.Sound;
    OpsKeepBacking(ch, s, ops);
    RunOpsKeepCore(ch, s, ops);
    LoopPaysIff(ch, s1, logs, vs);
    LoopIsSum(ch, s1, logs, vs, a, d);
  }

  lemma OpsHoldPending(ch: Chain, s: State, ops: seq<TokenOp>)
    requires ch.Sound() && Core(ch, s) && HonestOps(ch, s.evm, ops) && RunOps(ch, s.evm, ops).Some?
    ensures HoldsPending(ch, s.(evm := RunOps(ch, s.evm, ops).value.0), RunOps(ch, s.evm, ops).value.1)
  {
    assert forall c :: c in s.reg.byErc20 ==> c in s.evm.tokens;
    hide RunOps, HonestOps, Core, Chain.Sound, Pending;
    forall c | c in s.reg.byErc20
      ensures RunOps(ch, s.evm, ops).value.0.Tokens(c)[ch.moduleAddress] >=
              Pending(ch, RunOps(ch, s.evm, ops).value.1, c)
    {
      OpsGain(ch, s.evm, ops, c);
    }
  }
}
