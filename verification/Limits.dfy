// One input each for what the code does not keep. The exact conditions are next to the
// properties: ConvertCoinKeepsMarginIff, ConvertCoinConserves, DisabledIsFrozenIff,
// RegisterCoinKeepsBijectionIff, UpdateKeepsBijectionIff, ImportIsBijectiveIff and
// OverridesIffPeriodsDiffer.
module Limits {
  import opened Base
  import opened Chains
  import opened Ledgers
  import opened Registries
  import opened TokenPairCodec
  import opened GenesisCodec
  import opened States
  import opened Conversions
  import opened Governance
  import opened Steps
  import opened Backing
  import opened ThereAndBack
  import opened Runs

  const ON := Params(true, 1, true)
  const MODULE: Address := 1
  const USER: Address := 2
  const HOLDER: Address := 3

  // An external contract.
  const TWIN := Token(multiset{}, ERC20Data([65], [66], 6), false)

  // The address n after first, with the largest followed by 0.
  function Following(first: Address, n: nat): Address
  {
    if n >= TWO_64 then 0 else if first + n < TWO_160 then first + n else first + n - TWO_160
  }

  // A chain whose module deploys at first, first + 1, and so on.
  function DeployingFrom(first: Address): Chain
  {
    Chain((x: Bytes) => [0] + x, (n: nat) => Following(first, n), (a: Address, i: nat) => false,
          (t: nat) => Some("Transfer"), 0, MODULE)
  }

  lemma DeployingFromIsSound(first: Address)
    ensures DeployingFrom(first).Sound()
  {
    assert forall m: nat, n: nat :: m < TWO_64 && n < TWO_64 && Following(first, m) == Following(first, n) ==> m == n;
    hide Following;
    forall x: Bytes, y: Bytes | [0] + x == [0] + y
      ensures x == y
    {
      assert x == ([0] + x)[1..] == ([0] + y)[1..];
    }
  }

  // ---- A coin whose name reads as a contract's address -------------------------------

  // 40 times the letter a.
  const HEX_DENOM: Bytes := seq(40, i => 97)

  const COIN: Bytes := [98]
  const COIN_METADATA: Metadata<DenomUnit> := Metadata(COIN, COIN, COIN, COIN, [], [DenomUnit(COIN, 0)])

  lemma HexDenomIsAddress()
    ensures IsHexAddress(HEX_DENOM) && !IsVoucher(HEX_DENOM) && !IsVoucher(COIN) && HEX_DENOM != COIN
  {
    assert Strip(HEX_DENOM) == HEX_DENOM;
    assert HEX_DENOM[0] == 97 && COIN[0] == 98 && Ascii("intrarelayer/")[0] == 105;
  }

  // A user converts five of these coins.
  const FIVE: MsgConvertCoin := MsgConvertCoin(HEX_DENOM, 5, USER, USER)

  lemma CoreFromKeys(ch: Chain, s: State)
    requires Bijective(ch, s.reg) && s.reg.byErc20.Keys == s.evm.tokens.Keys
    requires forall n: nat :: n < TWO_64 && ch.create(n) in s.evm.tokens ==> n < s.evm.Nonce(ch.moduleAddress)
    requires s.evm.Nonce(ch.moduleAddress) <= MAX_NONCE && ch.moduleAddress in s.bank.blocked
    requires s.reg.byDenom.Keys == s.bank.metadata.Keys
    requires forall d :: d in s.bank.metadata ==> s.bank.metadata[d].base == d && |s.bank.metadata[d].units| > 0
    ensures Core(ch, s)
  {
    hide Bijective;
  }

  lemma OnePair(ch: Chain, r: Registry, p: TokenPair)
    requires ch.Sound() && r == Insert(ch, EMPTY, p) && IsHexAddress(p.erc20Address)
    ensures Bijective(ch, r) && r.pairs == map[GetID(ch, p) := p]
    ensures r.byErc20.Keys == {Contract(p)} && r.byDenom.Keys == {p.denom}
  {
    hide IsHexAddress, HexToAddress, Text, GetID;
    InsertKeepsBijection(ch, EMPTY, p);
    InsertIndexes(ch, EMPTY, p);
  }

  lemma OnePairBacked(ch: Chain, s: State, p: TokenPair)
    requires s.reg.pairs == map[GetID(ch, p) := p] && s.reg.byDenom.Keys == {p.denom}
    requires Covered(ch, s.bank, s.evm, p, 0)
    requires forall d :: IsVoucher(d) && d != p.denom ==> |s.bank.Coins(d)| == 0
    ensures Backed(ch, s)
  {
    hide IsVoucher, Contract, GetID, Covered;
    assert Pending(ch, [], Contract(p)) == 0;
  }

  // When nothing more is held for the pair that the coins find than is owed, the conversion
  // creates value and leaves the pair uncovered.
  lemma ForeignCoins(ch: Chain, s: State, p: TokenPair)
    requires ch.Sound() && Core(ch, s) && ch.moduleAddress == MODULE
    requires s.params.enableIntrarelayer && USER !in s.bank.blocked
    requires Names(ch, s.reg, HEX_DENOM, p) && p.enabled && p.denom != HEX_DENOM
    requires CoinGuard(ch, s, p, FIVE, Ran(true)) && Margin(ch, s, p) == 0
    ensures ConvertCoin(ch, s, FIVE, Ran(true)).Ok?
    ensures var s' := ConvertCoin(ch, s, FIVE, Ran(true)).value;
            !Backed(ch, s') && Held(ch, s', p.denom, Contract(p)) == Held(ch, s, p.denom, Contract(p)) + 5
  {
    CoreIsBijective(ch, s);
    ModuleIsBlocked(ch, s);
    hide ConvertCoin, Bijective, GetID, Contract, Core, MintingEnabled, Margin, Names, Resolve, Backed, Held,
         OthersUntouched, CoinGuard;
    MintingEnabledIff(ch, s, USER, USER, HEX_DENOM, p);
    ResolvesIff(ch, s.reg, HEX_DENOM, p);
    ResolvedHasCode(ch, s, USER, USER, HEX_DENOM);
    ConvertCoinSucceedsIff(ch, s, p, FIVE, Ran(true));
    ConvertCoinConserves(ch, s, FIVE, Ran(true));
    ConvertCoinKeepsMarginIff(ch, s, FIVE, Ran(true));
    var s' := ConvertCoin(ch, s, FIVE, Ran(true)).value;
    ConvertCoinKeepsCore(ch, s, FIVE, Ran(true));
    if Backed(ch, s') {
      StoredIsCovered(ch, s', p);
      CoveredMeansMargin(ch, s', p);
    }
  }

  lemma CoveredMeansMargin(ch: Chain, s: State, p: TokenPair)
    requires Covered(ch, s.bank, s.evm, p, 0)
    ensures p.contractOwner == OWNER_MODULE || p.contractOwner == OWNER_EXTERNAL ==> Margin(ch, s, p) >= 0
  {
    hide Contract, IsVoucher;
  }

  // One native coin is registered, and a user holds five of another coin, whose name reads as
  // the address of the first coin's contract.
  function NativeState(ch: Chain, c: Address, other: Bytes): State
  {
    State(Insert(ch, EMPTY, NewTokenPair(ch, c, COIN, true, OWNER_MODULE)), ON,
          Bank(map[other := Credit(multiset{}, USER, 5)], map[COIN := COIN_METADATA], {MODULE}, {}),
          Evm(map[c := Token(multiset{}, ERC20Data(COIN, COIN, 18), true)], map[MODULE := 1]))
  }

  lemma NativeLedgers(ch: Chain, c: Address, p: TokenPair)
    requires ch.moduleAddress == MODULE && Contract(p) == c && p.denom == COIN && p.contractOwner == OWNER_MODULE
    ensures var s := NativeState(ch, c, HEX_DENOM);
            && Covered(ch, s.bank, s.evm, p, 0) && Margin(ch, s, p) == 0 && CoinGuard(ch, s, p, FIVE, Ran(true))
            && forall d :: d != HEX_DENOM ==> |s.bank.Coins(d)| == 0
  {
    HexDenomIsAddress();
    hide Contract, Insert, NewTokenPair, IsVoucher, IsHexAddress;
  }

  // The user turns worthless coins into tokens of a native coin that the escrow does not cover.
  lemma HexDenomLosesBacking(ch: Chain)
    requires ch.Sound() && ch.moduleAddress == MODULE && ch.create(0) == HexToAddress(HEX_DENOM)
    ensures var c := HexToAddress(HEX_DENOM);
            var s := NativeState(ch, c, HEX_DENOM);
            && Core(ch, s) && Backed(ch, s) && ConvertCoin(ch, s, FIVE, Ran(true)).Ok?
            && var s' := ConvertCoin(ch, s, FIVE, Ran(true)).value;
            !Backed(ch, s') && Held(ch, s', COIN, c) == Held(ch, s, COIN, c) + 5
  {
    var c := HexToAddress(HEX_DENOM);
    var s, p := NativeState(ch, c, HEX_DENOM), NewTokenPair(ch, c, COIN, true, OWNER_MODULE);
    HexDenomIsAddress();
    TextRoundTrip(ch, c);
    hide HexToAddress, IsHexAddress, IsVoucher, Text;
    OnePair(ch, s.reg, p);
    NativeLedgers(ch, c, p);
    hide Insert, GetID, CoinGuard, Margin, Covered, Bijective;
    CoreFromKeys(ch, s);
    OnePairBacked(ch, s, p);
    hide Core, Backed, ConvertCoin, Held, NativeState;
    ForeignCoins(ch, s, p);
  }

  // One external contract is registered, all five vouchers are backed by the module's five
  // tokens, and a user holds five coins whose name reads as the contract's address.
  function ExternalState(ch: Chain, c: Address, other: Bytes): State
  {
    State(Insert(ch, EMPTY, NewTokenPair(ch, c, Voucher(ch, c), true, OWNER_EXTERNAL)), ON,
          Bank(map[other := Credit(multiset{}, USER, 5), Voucher(ch, c) := Credit(multiset{}, HOLDER, 5)],
               map[Voucher(ch, c) := VoucherMetadata(ch, c, TWIN.data)], {MODULE}, {}),
          Evm(map[c := TWIN.(ledger := Credit(multiset{}, MODULE, 5))], map[]))
  }

  lemma ExternalKeys(ch: Chain, c: Address)
    ensures var s := ExternalState(ch, c, HEX_DENOM);
            && s.reg == Insert(ch, EMPTY, NewTokenPair(ch, c, Voucher(ch, c), true, OWNER_EXTERNAL))
            && s.params == ON && s.bank.blocked == {MODULE} && s.evm.tokens.Keys == {c} && s.evm.nonces == map[]
            && s.bank.metadata.Keys == {Voucher(ch, c)}
            && s.bank.metadata[Voucher(ch, c)].base == Voucher(ch, c)
            && |s.bank.metadata[Voucher(ch, c)].units| == 2
  {
    hide Insert, NewTokenPair, Voucher;
  }

  lemma ExternalLedgers(ch: Chain, c: Address, p: TokenPair)
    requires ch.moduleAddress == MODULE && Contract(p) == c && p.denom == Voucher(ch, c)
    requires p.contractOwner == OWNER_EXTERNAL
    ensures var s := ExternalState(ch, c, HEX_DENOM);
            && Covered(ch, s.bank, s.evm, p, 0) && Margin(ch, s, p) == 0 && CoinGuard(ch, s, p, FIVE, Ran(true))
            && forall d :: d != HEX_DENOM && d != p.denom ==> |s.bank.Coins(d)| == 0
  {
    HexDenomIsAddress();
    VoucherIsVoucher(ch, c);
    hide Contract, Insert, NewTokenPair, IsVoucher, IsHexAddress, Voucher, VoucherMetadata;
  }

  // The user gets the module's tokens, and the vouchers of others stand for nothing.
  lemma HexDenomEmptiesVouchers(ch: Chain)
    requires ch.Sound() && ch.moduleAddress == MODULE
    requires forall n: nat :: n < TWO_64 ==> ch.create(n) != HexToAddress(HEX_DENOM)
    ensures var c := HexToAddress(HEX_DENOM);
            var s, d := ExternalState(ch, c, HEX_DENOM), Voucher(ch, c);
            && Core(ch, s) && Backed(ch, s) && ConvertCoin(ch, s, FIVE, Ran(true)).Ok?
            && var s' := ConvertCoin(ch, s, FIVE, Ran(true)).value;
            !Backed(ch, s') && Held(ch, s', d, c) == Held(ch, s, d, c) + 5
  {
    var c := HexToAddress(HEX_DENOM);
    var s, p := ExternalState(ch, c, HEX_DENOM), NewTokenPair(ch, c, Voucher(ch, c), true, OWNER_EXTERNAL);
    HexDenomIsAddress();
    VoucherIsVoucher(ch, c);
    TextRoundTrip(ch, c);
    ExternalKeys(ch, c);
    hide HexToAddress, IsHexAddress, IsVoucher, Text, Voucher, ExternalState;
    OnePair(ch, s.reg, p);
    ExternalLedgers(ch, c, p);
    hide Insert, GetID, CoinGuard, Margin, Covered, Bijective;
    CoreFromKeys(ch, s);
    OnePairBacked(ch, s, p);
    hide Core, Backed, ConvertCoin, Held;
    ForeignCoins(ch, s, p);
  }

  // Chains on which this happens: the module deploys its first contract at the address that the
  // coin's name reads as, or never deploys there.
  lemma HexChains() returns (native: Chain, external: Chain)
    ensures native.Sound() && native.moduleAddress == MODULE && native.create(0) == HexToAddress(HEX_DENOM)
    ensures external.Sound() && external.moduleAddress == MODULE
    ensures forall n: nat :: n < TWO_64 ==> external.create(n) != HexToAddress(HEX_DENOM)
  {
    var c := HexToAddress(HEX_DENOM);
    hide HexToAddress;
    native, external := DeployingFrom(c), DeployingFrom(Following(c, 1));
    DeployingFromIsSound(c);
    DeployingFromIsSound(Following(c, 1));
    assert forall n: nat :: n < TWO_64 ==> Following(Following(c, 1), n) != c;
  }

  // ---- A disabled pair that thaws ----------------------------------------------------

  // The coin whose name reads as a contract's address is registered as well, and its pair is
  // disabled.
  function FrozenState(ch: Chain, c: Address, d: Address, other: Bytes): State
  {
    State(Insert(ch, Insert(ch, EMPTY, NewTokenPair(ch, c, COIN, true, OWNER_MODULE)), FrozenPair(ch, d, other)), ON,
          Bank(map[other := Credit(multiset{}, USER, 5)], map[COIN := COIN_METADATA, other := OtherMetadata(other)],
               {MODULE}, {}),
          Evm(map[c := Token(multiset{}, ERC20Data(COIN, COIN, 18), true),
                  d := Token(multiset{}, ERC20Data(COIN, COIN, 18), true)],
              map[MODULE := 2]))
  }

  function FrozenPair(ch: Chain, d: Address, other: Bytes): TokenPair
  {
    TokenPair(Text(ch, d), other, false, OWNER_MODULE)
  }

  function OtherMetadata(other: Bytes): Metadata<DenomUnit>
  {
    Metadata(other, other, other, other, [], [DenomUnit(other, 0)])
  }

  lemma FrozenRegistry(ch: Chain, c: Address, d: Address)
    requires ch.Sound() && c != d
    ensures var r, p := FrozenState(ch, c, d, HEX_DENOM).reg, NewTokenPair(ch, c, COIN, true, OWNER_MODULE);
            var q := FrozenPair(ch, d, HEX_DENOM);
            && Bijective(ch, r) && Contract(p) == c && Contract(q) == d
            && GetID(ch, p) in r.pairs && r.pairs[GetID(ch, p)] == p
            && GetID(ch, q) in r.pairs && r.pairs[GetID(ch, q)] == q
            && r.byErc20.Keys == {c, d} && r.byDenom.Keys == {COIN, HEX_DENOM}
  {
    var p, q := NewTokenPair(ch, c, COIN, true, OWNER_MODULE), FrozenPair(ch, d, HEX_DENOM);
    TextRoundTrip(ch, c);
    TextRoundTrip(ch, d);
    HexDenomIsAddress();
    hide IsHexAddress, HexToAddress, Text, GetID, IsVoucher;
    var r := Insert(ch, EMPTY, p);
    OnePair(ch, r, p);
    InsertKeepsBijection(ch, r, q);
    InsertIndexes(ch, r, q);
  }

  lemma FrozenGuard(ch: Chain, c: Address, d: Address, p: TokenPair)
    requires ch.moduleAddress == MODULE && Contract(p) == c && p.contractOwner == OWNER_MODULE
    ensures CoinGuard(ch, FrozenState(ch, c, d, HEX_DENOM), p, FIVE, Ran(true))
  {
    HexDenomIsAddress();
    hide Contract, Insert, NewTokenPair, FrozenPair, IsHexAddress, IsVoucher;
  }

  lemma FrozenKeys(ch: Chain, c: Address, d: Address)
    requires c != d
    ensures var s := FrozenState(ch, c, d, HEX_DENOM);
            && s.params == ON && s.bank.blocked == {MODULE} && s.evm.tokens.Keys == {c, d}
            && s.evm.nonces == map[MODULE := 2] && s.bank.metadata.Keys == {COIN, HEX_DENOM}
            && (forall e :: e in s.bank.metadata ==> s.bank.metadata[e].base == e && |s.bank.metadata[e].units| == 1)
  {
    HexDenomIsAddress();
    hide Insert, NewTokenPair, FrozenPair, IsHexAddress, IsVoucher;
  }

  lemma FirstTwo(ch: Chain, c: Address, d: Address)
    requires ch.Sound() && ch.create(0) == c && ch.create(1) == d
    ensures c != d && forall n: nat :: n < TWO_64 && ch.create(n) in {c, d} ==> n < 2
  {
    assert forall n: nat :: n < TWO_64 && ch.create(n) == ch.create(0) ==> n == 0;
    assert forall n: nat :: n < TWO_64 && ch.create(n) == ch.create(1) ==> n == 1;
  }

  lemma FrozenIsCore(ch: Chain, c: Address, d: Address)
    requires ch.Sound() && ch.moduleAddress == MODULE && ch.create(0) == c && ch.create(1) == d
    ensures c != d && Core(ch, FrozenState(ch, c, d, HEX_DENOM))
  {
    hide Chain.Sound, FrozenState, GetID, Bijective, Contract, NewTokenPair, FrozenPair, Core, HexToAddress,
         IsHexAddress;
    FirstTwo(ch, c, d);
    FrozenRegistry(ch, c, d);
    FrozenKeys(ch, c, d);
    CoreOfTwo(ch, FrozenState(ch, c, d, HEX_DENOM), c, d);
  }

  lemma CoreOfTwo(ch: Chain, s: State, c: Address, d: Address)
    requires Bijective(ch, s.reg) && s.reg.byErc20.Keys == s.evm.tokens.Keys == {c, d}
    requires forall n: nat :: n < TWO_64 && ch.create(n) in {c, d} ==> n < 2
    requires s.evm.nonces == map[MODULE := 2] && ch.moduleAddress == MODULE && s.bank.blocked == {MODULE}
    requires s.reg.byDenom.Keys == s.bank.metadata.Keys
    requires forall e :: e in s.bank.metadata ==> s.bank.metadata[e].base == e && |s.bank.metadata[e].units| == 1
    ensures Core(ch, s)
  {
    hide Bijective;
    assert s.evm.Nonce(ch.moduleAddress) == 2;
  }

  // The coin of the disabled pair finds the other pair, which lets it through.
  lemma FrozenConverts(ch: Chain, c: Address, d: Address)
    requires ch.Sound() && ch.moduleAddress == MODULE && c == HexToAddress(HEX_DENOM) && c != d
    ensures ConvertCoin(ch, FrozenState(ch, c, d, HEX_DENOM), FIVE, Ran(true)).Ok?
  {
    hide Chain.Sound, HexToAddress;
    var s, p := FrozenState(ch, c, d, HEX_DENOM), NewTokenPair(ch, c, COIN, true, OWNER_MODULE);
    FrozenKeys(ch, c, d);
    HexDenomNames(ch, c, d);
    assert p.enabled && p.contractOwner == OWNER_MODULE;
    hide FrozenState, GetID, CoinGuard, Bijective, ConvertCoin, MintingEnabled, NewTokenPair, Contract, Names;
    FrozenGuard(ch, c, d, p);
    MintingEnabledIff(ch, s, USER, USER, HEX_DENOM, p);
    ConvertCoinSucceedsIff(ch, s, p, FIVE, Ran(true));
  }

  lemma HexDenomNames(ch: Chain, c: Address, d: Address)
    requires ch.Sound() && c == HexToAddress(HEX_DENOM) && c != d
    ensures var r, p := FrozenState(ch, c, d, HEX_DENOM).reg, NewTokenPair(ch, c, COIN, true, OWNER_MODULE);
            Bijective(ch, r) && Names(ch, r, HEX_DENOM, p) && Contract(p) == c
  {
    FrozenRegistry(ch, c, d);
    HexDenomIsAddress();
    hide Chain.Sound, FrozenState, HexToAddress, IsHexAddress, IsVoucher, GetID, Bijective, NewTokenPair, Contract;
  }

  // Converting the coin of the disabled pair changes its escrow.
  lemma DisabledPairThaws(ch: Chain)
    requires ch.Sound() && ch.moduleAddress == MODULE && ch.create(0) == HexToAddress(HEX_DENOM)
    ensures var s, q := FrozenState(ch, ch.create(0), ch.create(1), HEX_DENOM), FrozenPair(ch, ch.create(1), HEX_DENOM);
            var s' := Next(ch, s, StepConvertCoin(FIVE, Ran(true)));
            && Core(ch, s) && GetID(ch, q) in s.reg.pairs && s.reg.pairs[GetID(ch, q)] == q && !q.enabled
            && s'.bank.Coins(q.denom) != s.bank.Coins(q.denom)
  {
    hide Chain.Sound;
    var c, d := ch.create(0), ch.create(1);
    var s := FrozenState(ch, c, d, HEX_DENOM);
    FrozenIsCore(ch, c, d);
    FrozenRegistry(ch, c, d);
    FrozenConverts(ch, c, d);
    hide FrozenState, HexToAddress, GetID, Core, Bijective, ConvertCoin, Contract, NewTokenPair, Next;
    DisabledIsFrozenIff(ch, s, StepConvertCoin(FIVE, Ran(true)), GetID(ch, FrozenPair(ch, d, HEX_DENOM)));
  }

  // ---- The same coin registered twice ------------------------------------------------

  const BLANK := State(EMPTY, ON, Bank(map[], map[], {MODULE}, {}), Evm(map[], map[]))

  // Metadata without units, and with a name other than its base.
  const UNITLESS: Metadata<DenomUnit> := Metadata(COIN, [110], [], [], [], [])

  lemma BlankIsGood(ch: Chain)
    requires ch.moduleAddress == MODULE
    ensures Core(ch, BLANK)
  {
    hide GetID, Contract;
  }

  lemma FirstRegistration(ch: Chain)
    ensures RegisterCoin(ch, BLANK, UNITLESS, Ran(true)).Ok?
  {
    hide Insert, NewTokenPair;
  }

  lemma CoinRegisteredTwice(ch: Chain)
    requires ch.Sound() && ch.moduleAddress == MODULE
    ensures var first := RegisterCoin(ch, BLANK, UNITLESS, Ran(true));
            && Core(ch, BLANK) && first.Ok?
            && RegisterCoin(ch, first.value, UNITLESS, Ran(true)).Ok?
            && !Bijective(ch, RegisterCoin(ch, first.value, UNITLESS, Ran(true)).value.reg)
  {
    BlankIsGood(ch);
    FirstRegistration(ch);
    hide RegisterCoin, Bijective, Fresh, Insert, Text, Contract, IsHexAddress, VerifyMetadata;
    var s1 := RegisterCoin(ch, BLANK, UNITLESS, Ran(true)).value;
    SecondRegistrationIff(ch, BLANK, UNITLESS, Ran(true), Ran(true));
    var p, c := RegisterCoinInserts(ch, BLANK, UNITLESS, Ran(true));
    RegisterCoinKeepsBijectionIff(ch, BLANK, UNITLESS, Ran(true));
    InsertIndexes(ch, BLANK.reg, p);
    RegisterCoinKeepsBijectionIff(ch, s1, UNITLESS, Ran(true));
  }

  // ---- A pair moved onto a registered contract ---------------------------------------

  const RUNS := Query(Ran(true), Ran(true), Ran(true))

  // Two external contracts with the same name, symbol and decimals.
  function Twins(c: Address, d: Address): State
  {
    State(EMPTY, ON, Bank(map[], map[], {MODULE}, {}), Evm(map[c := TWIN, d := TWIN], map[]))
  }

  lemma TwinsAreGood(ch: Chain, c: Address, d: Address)
    requires ch.moduleAddress == MODULE
    requires forall n: nat :: n < TWO_64 ==> ch.create(n) != c && ch.create(n) != d
    ensures Core(ch, Twins(c, d))
  {
    hide GetID, Contract;
  }

  lemma QueryTwin(ch: Chain, evm: Evm, c: Address)
    requires c in evm.tokens && evm.tokens[c] == TWIN && evm.Nonce(ch.moduleAddress) < 100
    ensures var r := QueryERC20(ch, evm, c, RUNS);
            && r.Some? && r.value.1 == TWIN.data && r.value.0.tokens == evm.tokens
            && r.value.0.Nonce(ch.moduleAddress) == evm.Nonce(ch.moduleAddress) + 3
  {
  }

  // A twin that is not registered or described can be registered.
  lemma TwinRegisters(ch: Chain, s: State, c: Address)
    requires s.params == ON && c !in s.reg.byErc20 && c in s.evm.tokens && s.evm.tokens[c] == TWIN
    requires s.evm.Nonce(ch.moduleAddress) < 100
    requires Voucher(ch, c) !in s.bank.metadata && Voucher(ch, c) !in s.reg.byDenom
    ensures var r := RegisterERC20(ch, s, c, RUNS, true);
            && r.Ok? && r.value.params == ON && r.value.evm.tokens == s.evm.tokens
            && r.value.evm.Nonce(ch.moduleAddress) == s.evm.Nonce(ch.moduleAddress) + 3
            && r.value.bank == s.bank.SetMetadata(VoucherMetadata(ch, c, TWIN.data))
            && r.value.reg == Insert(ch, s.reg, NewTokenPair(ch, c, Voucher(ch, c), true, OWNER_EXTERNAL))
  {
    QueryTwin(ch, s.evm, c);
    hide QueryERC20, Text, Voucher, CreateDenomDescription, Insert;
  }

  lemma TwinUnitsMatch(ch: Chain, c: Address)
    ensures CheckUnits(VoucherMetadata(ch, c, TWIN.data).units, TWIN.data).None?
  {
    VoucherIsVoucher(ch, c);
    hide Voucher, Text, CreateDenomDescription, IsVoucher, IsHexAddress;
    var units := VoucherMetadata(ch, c, TWIN.data).units;
    assert units[0].denom != TWIN.data.name;
    assert units[1..][0] == DenomUnit(TWIN.data.name, TWIN.data.decimals);
  }

  // The metadata that RegisterERC20 wrote for c fits any twin.
  lemma TwinMoves(ch: Chain, s: State, c: Address, d: Address, id: Bytes)
    requires c in s.reg.byErc20 && id == s.reg.byErc20[c] && |id| > 0 && id in s.reg.pairs
    requires s.reg.pairs[id] == NewTokenPair(ch, c, Voucher(ch, c), true, OWNER_EXTERNAL)
    requires Voucher(ch, c) in s.bank.metadata
    requires s.bank.metadata[Voucher(ch, c)] == VoucherMetadata(ch, c, TWIN.data)
    requires d in s.evm.tokens && s.evm.tokens[d] == TWIN && s.evm.Nonce(ch.moduleAddress) < 100
    ensures UpdateTokenPairERC20(ch, s, c, d, RUNS).Ok?
  {
    QueryTwin(ch, s.evm, d);
    TwinUnitsMatch(ch, c);
    hide QueryERC20, Text, Voucher, CreateDenomDescription, Migrate, CheckUnits;
  }

  // Both twins are registered, and then the first pair moves onto the second contract.
  lemma TwinsCollide(ch: Chain, c: Address, d: Address)
    requires ch.Sound() && ch.moduleAddress == MODULE && c != d
    requires forall n: nat :: n < TWO_64 ==> ch.create(n) != c && ch.create(n) != d
    ensures var first := RegisterERC20(ch, Twins(c, d), c, RUNS, true);
            && first.Ok?
            && var second := RegisterERC20(ch, first.value, d, RUNS, true);
            && second.Ok? && Core(ch, second.value)
            && var third := UpdateTokenPairERC20(ch, second.value, c, d, RUNS);
            third.Ok? && !Bijective(ch, third.value.reg)
  {
    TwinsAreGood(ch, c, d);
    assert Twins(c, d).evm.Nonce(ch.moduleAddress) == 0;
    TwinRegisters(ch, Twins(c, d), c);
    hide RegisterERC20, UpdateTokenPairERC20, Core, Bijective, Insert, NewTokenPair, Voucher, Contract, GetID,
         IsHexAddress, VoucherMetadata;
    var s1 := RegisterERC20(ch, Twins(c, d), c, RUNS, true).value;
    RegisterERC20KeepsCore(ch, Twins(c, d), c, RUNS, true);
    var p, m := RegisterERC20Facts(ch, Twins(c, d), c, RUNS, true);
    InsertIndexes(ch, EMPTY, p);
    if Voucher(ch, c) == Voucher(ch, d) {
      VoucherInjective(ch, c, d);
    }
    VoucherBase(ch, c, TWIN.data);
    TwinDenom(ch, c);
    TwinRegisters(ch, s1, d);
    var s2 := RegisterERC20(ch, s1, d, RUNS, true).value;
    RegisterERC20KeepsCore(ch, s1, d, RUNS, true);
    var p', m' := RegisterERC20Facts(ch, s1, d, RUNS, true);
    InsertIndexes(ch, s1.reg, p');
    VoucherBase(ch, d, TWIN.data);
    FirstStays(ch, s1, p, p', c);
    TwinMoves(ch, s2, c, d, GetID(ch, p));
    UpdateKeepsBijectionIff(ch, s2, c, d, RUNS);
  }

  lemma VoucherBase(ch: Chain, c: Address, data: ERC20Data)
    ensures VoucherMetadata(ch, c, data).base == Voucher(ch, c)
  {
  }

  lemma TwinDenom(ch: Chain, c: Address)
    ensures NewTokenPair(ch, c, Voucher(ch, c), true, OWNER_EXTERNAL).denom == Voucher(ch, c)
  {
  }

  // The pair that was inserted first is still found after a second insertion.
  lemma FirstStays(ch: Chain, s: State, p: TokenPair, p': TokenPair, c: Address)
    requires ch.Sound() && s.reg == Insert(ch, EMPTY, p) && Contract(p) == c && IsHexAddress(p.erc20Address)
    requires Contract(p') != c && IsHexAddress(p'.erc20Address)
    ensures var r := Insert(ch, s.reg, p');
            c in r.byErc20 && r.byErc20[c] == GetID(ch, p) && |GetID(ch, p)| > 0
            && GetID(ch, p) in r.pairs && r.pairs[GetID(ch, p)] == p
  {
    hide IsHexAddress, HexToAddress;
    if GetID(ch, p) == GetID(ch, p') {
      GetIDInjective(ch, p, p');
    }
  }
}
