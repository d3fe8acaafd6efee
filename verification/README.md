# Intrarelayer bridge: a Dafny model

The intrarelayer module of Evmos pairs Cosmos coins with ERC20 contracts and converts value
between the bank and the Ethereum virtual machine. This project models three parts of it and
proves what they are for.

**The bridge as a state machine.** `Registries.dfy` has the three maps (pair by id, id by contract,
id by denomination), `Ledgers.dfy` the bank and the ERC20 contracts, `Conversions.dfy`, `Hook.dfy`
and `Governance.dfy` the four conversion flows, the post-transaction hook and the proposals as
functions on a `State`. `Steps.dfy` puts them next to everything that users and other modules may
do to the two ledgers, and a run is any finite sequence of such steps. The results are about all
runs: the registry stays a bijection (`Steps`, `Runs`), the module account covers what the bridge
owes (`Backing`), and covers vouchers exactly, whatever failures the hook swallows (`Tightness`),
every turn of the hook and every proposal succeeds under exact conditions (`HookTurns`,
`Outcomes`), metadata follows the contracts (`Labels`), a conversion there and back leaves no trace whatever
others convert in between (`ThereAndBack`), and an exported genesis imports to the same registry
(`Genesis`).

**The keeper.** `Keepers.dfy` is a class whose fields the source's methods update: the store keeps
marshalled bytes, and the two ledgers are reached through it. `MsgServer.dfy`, `EvmHooks.dfy`,
`Proposals.dfy` and `KeeperGenesis.dfy` carry the operations out step by step with early returns,
loops and partial effects, and are proved against the functions above. `Delivery.dfy` undoes a
failed step, and its `DeliverAll` connects the keeper to the runs. A conversion, a registration or
a proposal that fails is undone as a whole. A failure inside the hook's loop is only logged, so
that its partial effects stay.

**The codec of what the keeper stores.** `Varint.dfy`, `Wire.dfy`, `Message.dfy`,
`TokenPairCodec.dfy` and `GenesisCodec.dfy` model the generated marshalling code: buffers filled
backwards, unrolled varint loops, nested groups and overflow guards with 64-bit wrap-around. The
format is that of the Protocol Buffers encoding guide, sections "Base 128 Varints", "Groups" and
"Last One Wins". What is accepted and what it means is stated by a grammar of fields that does not
mention the reading code.

**The governance hook.** `GovHooks.dfy` has the proposal store and the active queue.

## What is assumed

- `Chain.Sound` lists what is assumed of libraries: SHA256 is injective and never empty, contract
  addresses of the module are distinct for distinct nonces below 2^64, the module account is not
  the zero address. `Chains.SoundIsPossible` shows that the list can be met. Hexadecimal parsing
  and printing are written out, and the injectivity of `address|denom` is proved.
- ERC20 contracts are honest in the sense of the sections "Methods" and "Events" of EIP-20. What a
  call does beyond the contract's own rules (gas, a paused contract, a transfer that answers
  false) is an arbitrary `Verdict`, so every statement holds for all of them.
- `Proper`, `Honest` and `Tight` say what each invariant assumes of a step. Nobody signs for the
  module account. Proposals passed their stateless validation. A converted coin finds its own pair
  (`FindsOwnPair`), which is the exact condition for what `ConvertCoin` promises.

## Where the code does not keep what it promises

Each has the exact condition under which it is kept, and one input for which it is not.

- `RegisterCoin` looks up the metadata's name and indexes by its base. A registered base is refused
  all the same as long as its metadata has units, because stored units are compared by pointer and
  never match (`RegisteredBaseIsRefused`, `LoadedMetadataEqualIff`). Without units the same coin can
  be registered twice (`SecondRegistrationIff`, `RegisterCoinKeepsBijectionIff`,
  `CoinRegisteredTwice`). Only a direct call reaches the keeper with such metadata, as the
  stateless validation of proposals refuses it. The comment inside `verifyMetadata` promises a
  comparison of contents.
- `UpdateTokenPairERC20` does not look up the new contract (`UpdateKeepsBijectionIff`,
  `TwinsCollide`).
- `ConvertCoin` takes the coin that the message names, while a coin whose name reads as an address
  finds the pair of that address (`FindsOwnPairIff`). Such a coin mints tokens that no escrow covers,
  or takes the tokens behind an external contract's vouchers (`ConvertCoinKeepsMarginIff`,
  `HexDenomLosesBacking`, `HexDenomEmptiesVouchers`); value outside the module grows
  (`ConvertCoinConserves`), a disabled pair's escrow changes (`DisabledIsFrozenIff`,
  `DisabledPairThaws`), and the coin does not come back (`ForeignCoinsStayAway`).
- Genesis validation compares address texts, and the index uses parsed addresses
  (`ImportIsBijectiveIff`, `CaseVariantsPassValidation`).
- The governance hook returns early when the two voting periods are equal, also when the proposal
  was activated under another one (`OverridesIffPeriodsDiffer`, `EqualPeriodsKeepOldEnd`). Its
  comment promises the module's period.
- `NewTokenPair` ignores its flag and always enables the pair. The comment above
  `convertERC20NativeCoin` speaks of escrowed tokens, and the code burns the sender's tokens
  directly. The model follows the code.

## Model

| member | source | states |
|---|---|---|
| Varint.SovIsLength | x/intrarelayer/types/intrarelayer.pb.go:905-907 | The bit-length formula is the number of bytes that the shift loop writes, for every number |
| Varint.SovRange | x/intrarelayer/types/intrarelayer.pb.go:905-907 | A uint64 takes one to ten bytes |
| Varint.EncodeVarint | x/intrarelayer/types/intrarelayer.pb.go:785-795 | In place: writes the varint into the Sov(v) bytes before offset, and nothing else in the buffer changes |
| Varint.ReadInvertsEncode | x/intrarelayer/types/intrarelayer.pb.go:917-930 | The decoding loop recovers every uint64 and its length, whatever bytes follow |
| Varint.ReadLocal | x/intrarelayer/types/intrarelayer.pb.go:917-930 | A varint that was read lies in the bytes, and bytes after it do not matter |
| Varint.ReadsIff | x/intrarelayer/types/intrarelayer.pb.go:917-930 | The loop takes n bytes if and only if the first n bytes are one to ten of which exactly the last has a clear top bit, and reads the number that their low seven bits spell, kept to 64 bits |
| Varint.DecodeVarint | x/intrarelayer/types/intrarelayer.pb.go:917-930 | The loop into a uint64, with its shift and bounds errors, at any index of any byte string |
| Varint.DecodeInt32 | x/intrarelayer/types/intrarelayer.pb.go:1028-1042 | The loop into the int32 owner: the low 32 bits of what the uint64 loop reads, with the same errors |
| Varint.OrIsAddition | x/intrarelayer/types/intrarelayer.pb.go:926-926 | The or of a number below 2^k and a multiple of 2^k is their sum, with bitwise or defined on the binary digits |
| Varint.OrTruncates | x/intrarelayer/types/intrarelayer.pb.go:917-930 | The low bits of an or are the or of the low bits |
| Varint.OrShiftedAdds | x/intrarelayer/types/intrarelayer.pb.go:917-930 | In a word of any width, the or of the next shifted group is the addition of the unbounded value |
| Varint.DecodeWord | x/intrarelayer/types/intrarelayer.pb.go:917-930 | The unrolled loop as it is written, with an or into a word of any width: the groups' value, kept to the word |
| Wire.DecodePayload | x/intrarelayer/types/intrarelayer.pb.go:944-971 | The length prefix and its guards, with wrap-around of the 64-bit index: the payload is in bounds or an error is returned |
| Wire.ReadPayloadInverts | x/intrarelayer/types/intrarelayer.pb.go:944-971 | A length-prefixed payload reads back, whatever follows |
| Wire.SkipBody | x/intrarelayer/types/intrarelayer.pb.go:1701-1752 | One turn of the skipping switch on every input, with sums that may wrap negative |
| Wire.SkipField | x/intrarelayer/types/intrarelayer.pb.go:1681-1758 | The skipping loop terminates on every input and answers as the grammar says, or past the end of the data, which callers reject |
| Wire.SkipAt | x/intrarelayer/types/intrarelayer.pb.go:1043-1056 | The default case of Unmarshal: the skip and its guards never leave the input |
| Wire.SkipTakesField | x/intrarelayer/types/intrarelayer.pb.go:1681-1758 | Skipping takes exactly the bytes of a well-formed field, groups nested to any depth |
| Wire.SkippedIsField | x/intrarelayer/types/intrarelayer.pb.go:1681-1758 | Whatever skipping takes off is the rendering of one well-formed field |
| Wire.SkipIffField | x/intrarelayer/types/intrarelayer.pb.go:1681-1758 | Skipping succeeds with n if and only if the first n bytes are one field of the grammar: a tag with a varint, with eight bytes, with a length and that many bytes, or with four bytes, or a group of fields |
| Wire.BodyReads | x/intrarelayer/types/intrarelayer.pb.go:1701-1749 | The bytes that the switch takes after a tag are exactly those of the grammar: wire types 0, 1, 2 and 5 have a varint, eight bytes, a length with that many bytes, and four bytes |
| Wire.SkipLocal | x/intrarelayer/types/intrarelayer.pb.go:1681-1758 | Bytes after a skipped field do not matter |
| TokenPairCodec.SizeIsLength | x/intrarelayer/types/intrarelayer.pb.go:796-817 | Size agrees with what Marshal writes, and only the zero pair is written as no bytes |
| TokenPairCodec.MarshalToSizedBuffer | x/intrarelayer/types/intrarelayer.pb.go:562-597 | In place, backwards: fills exactly the Size bytes before the end with the encoding, and keeps all others |
| TokenPairCodec.Marshal | x/intrarelayer/types/intrarelayer.pb.go:547-555 | Fills a fresh buffer of exactly Size bytes down to index 0 |
| TokenPairCodec.UnmarshalField | x/intrarelayer/types/intrarelayer.pb.go:914-1057 | One turn of the Unmarshal loop on every byte string: tag checks, the four fields, the skip |
| TokenPairCodec.UnmarshalInto | x/intrarelayer/types/intrarelayer.pb.go:911-1063 | The loop is total and in bounds on every byte string, and merges into any message |
| TokenPairCodec.Unmarshal | x/intrarelayer/types/intrarelayer.pb.go:911-1063 | Unmarshalling into a fresh value |
| TokenPairCodec.ReadFieldLocal | x/intrarelayer/types/intrarelayer.pb.go:911-1063 | Each turn takes at least one byte and none outside the input |
| TokenPairCodec.RoundTrip | x/intrarelayer/types/intrarelayer.pb.go:547-597 | Unmarshal inverts Marshal for every pair, whatever int32 its owner is |
| TokenPairCodec.MarshalInjective | x/intrarelayer/types/intrarelayer.pb.go:547-597 | Two pairs never share an encoding |
| TokenPairCodec.UnmarshalMerges | x/intrarelayer/types/intrarelayer.pb.go:911-1063 | Decoding an encoding into any message, with anything after it, merges the pair into the message |
| TokenPairCodec.ConcatenationMerges | x/intrarelayer/types/intrarelayer.pb.go:939-1057 | Two encodings in a row: the last one wins, field by field |
| TokenPairCodec.LastOneWins | x/intrarelayer/types/intrarelayer.pb.go:939-1057 | The same for any two valid byte strings, unknown and repeated fields included |
| TokenPairCodec.DecodeInOrder | x/intrarelayer/types/intrarelayer.pb.go:911-1063 | Decoding valid bytes followed by more goes on from the decoded message |
| TokenPairCodec.UnknownFieldsAreTransparent | x/intrarelayer/types/intrarelayer.pb.go:1043-1056 | A well-formed unknown field, groups included, between any two parts of an encoding does not change what is decoded |
| TokenPairCodec.UnmarshalIff | x/intrarelayer/types/intrarelayer.pb.go:911-1063 | Unmarshal makes r of m if and only if the bytes are fields of the grammar, none refused (number not positive, known field of another wire type), whose meanings make r of m one after the other |
| TokenPairCodec.EncodingBytes | x/intrarelayer/types/intrarelayer.pb.go:562-597 | The bytes that Marshal writes, tags and field order included |
| Message.DecodesIff | x/intrarelayer/types/intrarelayer.pb.go:911-1063 | For any message whose turns read one field and do what it means, the loop accepts exactly the sequences of fields that are not refused |
| GenesisCodec.SizeIsLength | x/intrarelayer/types/genesis.pb.go:298-313 | Size agrees with what Marshal writes, nested messages included |
| GenesisCodec.MarshalParamsToSizedBuffer | x/intrarelayer/types/genesis.pb.go:251-285 | In place, backwards: exactly the params' bytes, and nothing else |
| GenesisCodec.MarshalToSizedBuffer | x/intrarelayer/types/genesis.pb.go:204-234 | In place, backwards, with the pairs from last to first: exactly the state's bytes, nested lengths included |
| GenesisCodec.Marshal | x/intrarelayer/types/genesis.pb.go:189-197 | Fills a fresh buffer of exactly Size bytes |
| GenesisCodec.UnmarshalParams | x/intrarelayer/types/genesis.pb.go:455-577 | The params' loop is total and in bounds on every byte string |
| GenesisCodec.Unmarshal | x/intrarelayer/types/genesis.pb.go:338-454 | The state's loop is total and in bounds on every byte string, and appends the pairs that it reads |
| GenesisCodec.RoundTrip | x/intrarelayer/types/genesis.pb.go:189-234 | Unmarshal inverts Marshal for every genesis state, nested and repeated messages included |
| GenesisCodec.ConcatenationMerges | x/intrarelayer/types/genesis.pb.go:400-433 | Two encodings in a row decode to the merged params and the concatenated pairs |
| GenesisCodec.PairsConcatenate | x/intrarelayer/types/genesis.pb.go:400-433 | Any two valid byte strings in a row are valid and concatenate their pairs |
| GenesisCodec.ParamsUnmarshalIff | x/intrarelayer/types/genesis.pb.go:455-577 | The same characterisation of what Unmarshal accepts for params |
| GenesisCodec.UnmarshalIff | x/intrarelayer/types/genesis.pb.go:338-454 | And for a genesis state, whose first field is merged into the params and whose second is one more pair |
| GenesisCodec.ParamsEncodingBytes | x/intrarelayer/types/genesis.pb.go:251-285 | The bytes of params, in which the duration is always written |
| GenesisCodec.EncodingBytes | x/intrarelayer/types/genesis.pb.go:204-234 | The bytes of a genesis state |
| Registries.GetIDInjective | x/intrarelayer/types/token_pair.go:20-24 | Two pairs with hexadecimal addresses and the same id agree in address text and denomination |
| Registries.IDText | x/intrarelayer/types/token_pair.go:20-24 | The id is the hash of address text, bar and denomination |
| Registries.NewPairIgnoresFlag | x/intrarelayer/types/token_pair.go:10-18 | A new pair is enabled whatever its flag |
| Registries.StoredIsFoundIff | x/intrarelayer/keeper/token_pairs.go:38-60 | A stored pair is found unless it is the zero pair, which is stored as no bytes |
| Chains.BarSeparates | x/intrarelayer/types/token_pair.go:20-24 | The text address, bar, denomination determines both parts when the address has no bar |
| Chains.TextRoundTrip | x/intrarelayer/types/token_pair.go:10-29 | The text of an address is a hexadecimal address and parses back to it, whatever the capital letters |
| Chains.PrefixDoesNotMatter | x/intrarelayer/types/token_pair.go:26-29 | 40 digits read as the same address with and without 0x or 0X |
| Chains.VoucherInjective | x/intrarelayer/types/proposal.go:43-49 | Voucher denominations of different contracts differ |
| Chains.BarAloneIsAmbiguous | x/intrarelayer/types/token_pair.go:20-24 | With a bar in the address part the text is ambiguous |
| Registries.NoSharing | x/intrarelayer/keeper/token_pairs.go:54-97 | In a good registry two pairs share a denomination or a contract only if they are the same |
| Registries.FindsByAddress | x/intrarelayer/keeper/token_pairs.go:28-35 | A token that parses to a live pair's contract finds the pair |
| Registries.FindsByDenom | x/intrarelayer/keeper/token_pairs.go:28-35 | A live pair's denomination finds the pair unless it reads as an address |
| Registries.InsertKeepsBijectionIff | x/intrarelayer/keeper/proposals.go:34-38 | Storing a new pair keeps the bijection if and only if its contract and its denomination are free |
| Registries.ToggleKeepsBijection | x/intrarelayer/keeper/proposals.go:162-164 | Toggling keeps the bijection and changes one flag |
| Registries.MigrateKeepsBijectionIff | x/intrarelayer/keeper/proposals.go:233-248 | The writes of a migration keep the bijection if and only if the new address is free or the old one |
| States.ResolvesIff | x/intrarelayer/keeper/token_pairs.go:28-52 | A token resolves to a pair if and only if the pair is stored and the token is its contract's address or its denomination |
| States.FindsOwnPairIff | x/intrarelayer/keeper/token_pairs.go:28-35 | A coin finds its own pair unless its name reads as the address of another coin's contract |
| States.MintingEnabledIff | x/intrarelayer/keeper/mint.go:15-49 | Conversions are let through with a pair if and only if the bridge is on, the token names the pair, it is enabled, the receiver is not blocked and sending is enabled or stays with one account |
| States.MintingErrors | x/intrarelayer/keeper/mint.go:15-49 | Which error the guard returns: the first that applies, in the order of its checks |
| Ledgers.CallFrame | x/intrarelayer/keeper/evm.go:80-114 | Whatever the outcome, a call touches one ledger and one nonce; a failed call touches no ledger, and only a refused one leaves the nonce |
| Ledgers.QueryNeedsCode | x/intrarelayer/keeper/evm.go:20-60 | A contract query succeeds only where code exists, and advances the module's nonce by three |
| Conversions.ConvertCoinEffect | x/intrarelayer/keeper/msg_server.go:75-171 | A successful ConvertCoin changes two ledgers, by the amount, on the right sides, and one nonce, and nothing else |
| Conversions.ConvertERC20Effect | x/intrarelayer/keeper/msg_server.go:177-275 | The same for ConvertERC20 |
| Conversions.ConvertCoinConserves | x/intrarelayer/keeper/msg_server.go:75-171 | The pair's coins plus tokens outside the module are unchanged if and only if the message names the pair's coin and the sender is not the module, and grow by the amount otherwise; all other ledgers are untouched |
| Conversions.ConvertERC20Conserves | x/intrarelayer/keeper/msg_server.go:177-275 | The same for ConvertERC20 |
| ThereAndBack.ConvertCoinSucceedsIff | x/intrarelayer/keeper/msg_server.go:18-43 | On an enabled pair, ConvertCoin succeeds if and only if the sender has the coins, the call runs, and the module may mint or holds the tokens |
| ThereAndBack.ConvertERC20SucceedsIff | x/intrarelayer/keeper/msg_server.go:46-70 | On an enabled pair, ConvertERC20 succeeds if and only if the sender has the tokens, the call runs, and the escrow suffices |
| Outcomes.ConvertCoinWithoutCode | x/intrarelayer/keeper/msg_server.go:75-171 | On a contract without code a native coin is escrowed and nothing minted, and an external conversion fails |
| ThereAndBack.ShiftsCommute | x/intrarelayer/keeper/msg_server.go:75-275 | Conversions commute as shifts of the two ledgers |
| ThereAndBack.SimulateAll | x/intrarelayer/keeper/msg_server.go:18-70 | Conversions of other users that succeed after a conversion also succeed without it, with the same difference in the end |
| ThereAndBack.RoundTripLeavesNoTrace | x/intrarelayer/keeper/msg_server.go:18-70 | ConvertCoin, any successful conversions of others, and the reverse ConvertERC20 end with the balances, escrows and supplies of the others' conversions alone |
| ThereAndBack.WayBackSucceedsIff | x/intrarelayer/keeper/msg_server.go:18-70 | The way back never lacks tokens or escrow: it succeeds if and only if the guard lets it through, checked before the journey, and the call goes through |
| ThereAndBack.ForeignCoinsStayAway | x/intrarelayer/keeper/msg_server.go:18-70 | A coin that finds another pair does not come back |
| Hook.ProcessConcat | x/intrarelayer/keeper/evm_hooks.go:32-129 | Processing a concatenated log list is processing the parts in order, up to the first error |
| Hook.LoopIsSum | x/intrarelayer/keeper/evm_hooks.go:32-129 | Without failures each account outside the module is credited, per denomination, exactly the sum of its transfers to the module on registered contracts |
| Hook.LoopNeverOvercredits | x/intrarelayer/keeper/evm_hooks.go:32-129 | With failures and errors, no account loses coins or gets more than that sum |
| Hook.LoopSupply | x/intrarelayer/keeper/evm_hooks.go:99-106 | A denomination's supply grows by what external contracts' logs are worth, whatever failures the loop swallows, and not for native coins |
| HookTurns.WorthIs | x/intrarelayer/keeper/evm_hooks.go:34-94 | What the declarative sums add up: the amounts of positive Transfer events to the module on registered contracts |
| HookTurns.SkipIff | x/intrarelayer/keeper/evm_hooks.go:35-94 | A turn skips a log if and only if it is no positive Transfer event, is on no registered contract, or is on an enabled pair and not to the module |
| HookTurns.AbortIff | x/intrarelayer/keeper/evm_hooks.go:82-84 | A turn returns an error if and only if the log is a transfer on a disabled pair, whoever receives it |
| HookTurns.ConvertIff | x/intrarelayer/keeper/evm_hooks.go:99-128 | In a good state a turn pays out if and only if the log is a positive transfer to the module on an enabled pair, the sender is not blocked, and for a native coin the burning call runs |
| HookTurns.ConvertPays | x/intrarelayer/keeper/evm_hooks.go:99-128 | A turn that pays burns the module's tokens and sends escrowed coins, or mints vouchers for the sender, and changes nothing else |
| HookTurns.SwallowLeaves | x/intrarelayer/keeper/evm_hooks.go:108-128 | What a turn that gives up leaves: burned tokens whose coins stay in escrow, vouchers that stay with the module, or nothing |
| HookTurns.LoopAbortsIff | x/intrarelayer/keeper/evm_hooks.go:32-129 | The loop returns an error if and only if some log is a transfer on a disabled pair |
| HookTurns.LoopPaysIff | x/intrarelayer/keeper/evm_hooks.go:32-129 | In a backed state the loop neither fails nor gives up a turn if and only if no log is a reason to |
| HookTurns.HookedTxSucceedsIff | x/intrarelayer/keeper/evm_hooks.go:24-132 | A hooked transaction goes through if and only if the hook is on and no log is a transfer on a disabled pair |
| HookTurns.HookPaysOut | x/intrarelayer/keeper/evm_hooks.go:24-132 | An honest transaction with sane logs goes through and pays every account exactly what it transferred to the module |
| Steps.DeployedAddressIsFree | x/intrarelayer/keeper/proposals.go:53-75 | The address that RegisterCoin deploys to is never registered |
| Steps.DeployNeverCollides | x/intrarelayer/keeper/proposals.go:53-75 | Deployment succeeds if and only if the virtual machine runs it and the nonce is not exhausted |
| Steps.RegisteredBaseIsRefused | x/intrarelayer/keeper/proposals.go:21-27 | RegisterCoin refuses a registered base although it only looks up the name |
| Governance.LoadedMetadataEqualIff | x/intrarelayer/keeper/utils.go:9-22 | Metadata just loaded equals given metadata if and only if the texts agree and neither has units |
| Governance.CheckUnitsIff | x/intrarelayer/keeper/proposals.go:203-231 | The search over units passes if and only if some unit has the name and decimals and no earlier one has the name |
| Steps.RegisterCoinFacts | x/intrarelayer/keeper/proposals.go:16-40 | What a successful RegisterCoin wrote: an enabled pair at a fresh contract with an empty ledger, under a free base, with new metadata |
| Steps.RegisterCoinKeepsBijectionIff | x/intrarelayer/keeper/proposals.go:16-40 | RegisterCoin keeps the bijection if and only if the base is not registered |
| Steps.SecondRegistrationIff | x/intrarelayer/keeper/proposals.go:16-50 | Registering the same metadata again succeeds if and only if it has no units, its name is not its base, and the deployment runs |
| Outcomes.RegisterCoinSucceedsIff | x/intrarelayer/keeper/proposals.go:16-50 | RegisterCoin succeeds if and only if the written-out conditions hold |
| Outcomes.NewContractAnswers | x/intrarelayer/keeper/proposals.go:53-75 | The deployed contract answers with the coin's name and symbol and 18 decimals |
| Steps.RegisterERC20Facts | x/intrarelayer/keeper/proposals.go:78-146 | What a successful RegisterERC20 wrote: an enabled pair with the voucher of a contract with code, and the voucher's metadata |
| Outcomes.RegisterERC20SucceedsIff | x/intrarelayer/keeper/proposals.go:78-146 | RegisterERC20 succeeds if and only if the written-out conditions hold |
| Outcomes.VoucherIsDescribed | x/intrarelayer/keeper/proposals.go:117-140 | The voucher's metadata: its base unit of exponent 0 and the contract's name, symbol, decimals and address |
| Outcomes.QuerySucceedsIff | x/intrarelayer/keeper/evm.go:20-60 | A query succeeds if and only if the contract has code, all three calls run and the nonce suffices, and answers the contract's data |
| Steps.ToggleTwice | x/intrarelayer/keeper/proposals.go:149-165 | Toggling twice undoes itself |
| Outcomes.ToggleSucceedsIff | x/intrarelayer/keeper/proposals.go:149-165 | Toggling succeeds if and only if the token names a pair, and turns that pair's flag |
| Steps.UpdateFacts | x/intrarelayer/keeper/proposals.go:168-249 | What a successful migration read and wrote |
| Outcomes.UpdateSucceedsIff | x/intrarelayer/keeper/proposals.go:168-231 | A migration succeeds if and only if the old contract is registered, the new one answers, and the pair's metadata describes the old contract and fits the new one's name, symbol and decimals |
| Outcomes.OwnWordsNeverMigrate | x/intrarelayer/keeper/proposals.go:197-201 | A pair whose metadata is described in other words never migrates |
| Steps.UpdateKeepsBijectionIff | x/intrarelayer/keeper/proposals.go:168-249 | A migration keeps the bijection if and only if the new contract is not registered or is the old one |
| Steps.StepKeepsCore | x/intrarelayer/keeper/proposals.go:16-249 | Every proper step keeps the bijection, code at registered contracts, fresh create addresses and described denominations |
| Runs.RunKeepsCore | x/intrarelayer/keeper/proposals.go:16-249 | So does every run |
| Runs.RunKeepsNonce | x/intrarelayer/keeper/evm.go:80-114 | Over any run the module's nonce never goes down and code never disappears |
| Backing.ConvertCoinKeepsBacking | x/intrarelayer/keeper/msg_server.go:75-171 | ConvertCoin keeps every pair backed |
| Backing.ConvertERC20KeepsBacking | x/intrarelayer/keeper/msg_server.go:177-275 | ConvertERC20 keeps every pair backed |
| Backing.ConvertCoinKeepsMarginIff | x/intrarelayer/keeper/msg_server.go:75-171 | For both kinds of owners, ConvertCoin keeps what the module holds in step with what it owes if and only if the coin finds its own pair, and the pair loses the amount otherwise |
| Backing.OpsKeepCover | x/intrarelayer/keeper/evm_hooks.go:32-129 | What a transaction moves to the module is what its logs have pending |
| Backing.LoopKeepsBacking | x/intrarelayer/keeper/evm_hooks.go:96-128 | The loop keeps every pair backed, whatever fails in it |
| Backing.EthTxKeepsBacking | x/intrarelayer/keeper/evm_hooks.go:24-132 | A user transaction of honest operations, hooked or not, keeps every pair backed |
| Backing.UpdateKeepsBackingIff | x/intrarelayer/keeper/proposals.go:168-249 | A migration onto a free contract keeps everything backed if and only if the pair is covered there |
| Backing.StepKeepsBacking | x/intrarelayer/keeper/msg_server.go:75-275 | Every honest step keeps every pair backed |
| Runs.BackingInEveryRun | x/intrarelayer/keeper/msg_server.go:75-275 | In every reachable state a native coin's escrow is at least its contract's supply, and vouchers are at most the module's tokens |
| ThereAndBack.HoldersCanRedeem | x/intrarelayer/keeper/msg_server.go:177-213 | Any tokens of a native coin that a sender holds can be converted back, if and only if the virtual machine runs the call |
| ThereAndBack.VoucherHoldersCanRedeem | x/intrarelayer/keeper/msg_server.go:118-171 | Any vouchers that a sender holds can be converted to the tokens behind them, if and only if the virtual machine runs the call and the contract accepts |
| Tightness.ReleasedIsPending | x/intrarelayer/keeper/evm_hooks.go:99-106 | The vouchers that the hook mints are exactly what the logs moved to the module |
| Tightness.LoopMargin | x/intrarelayer/keeper/evm_hooks.go:32-129 | The loop mints vouchers for exactly what the logs have pending, whatever it swallows |
| Tightness.EthTxKeepsMarginIff | x/intrarelayer/keeper/evm_hooks.go:24-132 | A hooked transaction keeps tokens and vouchers in step whatever the hook swallows, and one without the hook if and only if it moves no tokens of the pair to the module |
| Tightness.RunKeepsMargin | x/intrarelayer/keeper/msg_server.go:118-275 | Along runs the difference between the module's tokens and the vouchers never changes, also when the hook swallows failures |
| Tightness.VouchersMatchEscrow | x/intrarelayer/keeper/msg_server.go:118-275 | From its registration on, a contract's vouchers equal what the module gained in it, also when the hook swallows failures |
| Runs.DenomsArePermanent | x/intrarelayer/keeper/proposals.go:101-249 | Once registered, a denomination stays with a pair of the same owner kind |
| Runs.NeverRegisteredAgain | x/intrarelayer/keeper/proposals.go:101-122 | A contract that RegisterERC20 registered can never be registered by it again, also after its pair moved away |
| Runs.DisabledIsFrozenIff | x/intrarelayer/keeper/mint.go:32-34 | While a pair is disabled, a conversion or hook credit changes coins of its denomination if and only if it is a successful ConvertCoin that names this coin and found another pair |
| Runs.DisabledOwnPairIsRefused | x/intrarelayer/keeper/mint.go:32-34 | A coin that finds its own disabled pair is refused |
| Labels.UpdateChecks | x/intrarelayer/keeper/proposals.go:194-236 | What a successful migration has checked of the new contract |
| Labels.RunKeepsLabels | x/intrarelayer/keeper/proposals.go:101-249 | In every reachable state a voucher's metadata shows its contract's name, symbol, decimals and address, also after migrations |
| Genesis.Validate | x/intrarelayer/types/genesis.go:12-33 | The loop with its two seen-maps accepts if and only if address texts and denominations are distinct, each pair is valid and the period is positive |
| Genesis.ExportImportRoundTrip | x/intrarelayer/genesis.go:11-38 | Importing the exported pairs of a good registry, in any order, rebuilds the three maps exactly |
| Genesis.ExportHasNoDuplicates | x/intrarelayer/types/genesis.go:12-33 | The exported list has no duplicate contract or denomination |
| Genesis.ExportIsAcceptedIff | x/intrarelayer/types/genesis.go:12-33 | Validate accepts an export if and only if the SDK accepts its denominations |
| Genesis.ImportIsBijectiveIff | x/intrarelayer/genesis.go:25-30 | An accepted genesis builds a bijection if and only if the parsed addresses are distinct |
| Genesis.CaseVariantsPassValidation | x/intrarelayer/types/genesis.go:12-33 | A genesis with one address in two cases passes validation and builds no bijection |
| Runs.ReachableGenesisRoundTrip | x/intrarelayer/genesis.go:11-38 | The round trip for every reachable state |
| GovHooks.Keeper.AfterProposalDeposit | x/intrarelayer/keeper/gov_hooks.go:19-66 | The hook's new store and queue, for every proposal and period |
| GovHooks.DepositIsIgnored | x/intrarelayer/keeper/gov_hooks.go:24-53 | The hook changes nothing when the periods are equal, or the proposal is unknown, not voting or of another type |
| GovHooks.DepositMovesEnd | x/intrarelayer/keeper/gov_hooks.go:56-65 | Otherwise it moves the end of this proposal in store and queue, and nothing else |
| GovHooks.RunKeepsAgreement | x/intrarelayer/keeper/gov_hooks.go:60-65 | Store and active queue agree after every run of submissions, activations, deposits, parameter changes and tallies |
| GovHooks.OneEntryWhileVoting | x/intrarelayer/keeper/gov_hooks.go:60-65 | In every run a proposal has one queue entry while voting, at its stored end, and none otherwise |
| GovHooks.DepositIsIdempotent | x/intrarelayer/keeper/gov_hooks.go:19-66 | A second deposit under the same params changes nothing |
| GovHooks.DepositsCommute | x/intrarelayer/keeper/gov_hooks.go:19-66 | Deposits on different proposals commute |
| GovHooks.OverridesIffPeriodsDiffer | x/intrarelayer/keeper/gov_hooks.go:24-28 | The module's period takes effect if and only if the periods differ at the deposit or it was in effect before |
| GovHooks.EqualPeriodsKeepOldEnd | x/intrarelayer/keeper/gov_hooks.go:24-28 | A run in which it does not take effect |
| Keepers.Keeper.GetTokenPair | x/intrarelayer/keeper/token_pairs.go:38-52 | Reads and unmarshals the stored bytes; no bytes means not found |
| Keepers.Keeper.SetTokenPair | x/intrarelayer/keeper/token_pairs.go:55-60 | Marshals the pair under its id and keeps all other pairs |
| Keepers.Keeper.DeleteTokenPair | x/intrarelayer/keeper/token_pairs.go:63-67 | Removes what is stored under the pair's id |
| Keepers.Keeper.GetAllTokenPairs | x/intrarelayer/keeper/token_pairs.go:11-26 | Lists all stored pairs, each once, in the order of their keys |
| Keepers.Keeper.GetTokenPairID | x/intrarelayer/keeper/token_pairs.go:29-35 | Looks up the id by address or by denomination |
| Keepers.Keeper.SetERC20Map | x/intrarelayer/keeper/token_pairs.go:82-85 | One entry of the address index |
| Keepers.Keeper.DeleteERC20Map | x/intrarelayer/keeper/token_pairs.go:88-91 | Removes one entry of the address index |
| Keepers.Keeper.SetDenomMap | x/intrarelayer/keeper/token_pairs.go:94-97 | One entry of the denomination index |
| Keepers.Keeper.CallEVM | x/intrarelayer/keeper/evm.go:63-114 | Applies the message first and then sets the nonce, also after a revert |
| Keepers.Keeper.QueryERC20 | x/intrarelayer/keeper/evm.go:20-60 | Three calls in sequence, each with its own failure |
| Keepers.Keeper.DeployERC20Contract | x/intrarelayer/keeper/proposals.go:53-75 | Computes the address from the nonce before the creation uses it |
| MsgServer.MintingEnabled | x/intrarelayer/keeper/mint.go:15-49 | The chain of checks on the keeper's fields |
| MsgServer.ConvertCoin | x/intrarelayer/keeper/msg_server.go:18-43 | The specified error, or the specified new state |
| MsgServer.ConvertERC20 | x/intrarelayer/keeper/msg_server.go:46-70 | The specified error, or the specified new state |
| MsgServer.ConvertCoinNativeCoin | x/intrarelayer/keeper/msg_server.go:75-112 | Escrow, then mint, with early returns |
| MsgServer.ConvertCoinNativeERC20 | x/intrarelayer/keeper/msg_server.go:118-171 | Escrow, unescrow tokens, check the answer, then burn |
| MsgServer.ConvertERC20NativeCoin | x/intrarelayer/keeper/msg_server.go:177-213 | Burn tokens, then unescrow coins |
| MsgServer.ConvertERC20NativeToken | x/intrarelayer/keeper/msg_server.go:219-275 | Escrow tokens, check the answer, mint, then send |
| EvmHooks.HandleLog | x/intrarelayer/keeper/evm_hooks.go:34-129 | The loop's body, with the partial state that a swallowed failure leaves |
| EvmHooks.PostTxProcessing | x/intrarelayer/keeper/evm_hooks.go:24-132 | The loop with its skips, early error return and swallowed failures reaches the specified state |
| Proposals.EqualMetadata | x/intrarelayer/keeper/utils.go:9-22 | The loop compares units by reference |
| Proposals.VerifyMetadata | x/intrarelayer/keeper/proposals.go:42-50 | Stores new metadata, and compares known metadata with a freshly decoded copy |
| Proposals.RegisterCoin | x/intrarelayer/keeper/proposals.go:16-40 | The specified error, or the specified new state and the pair stored |
| Proposals.CreateCoinMetadata | x/intrarelayer/keeper/proposals.go:101-146 | The voucher's metadata with two units, or the first of its errors |
| Proposals.RegisterERC20 | x/intrarelayer/keeper/proposals.go:78-98 | The specified error, or the specified new state and the pair stored |
| Proposals.ToggleRelay | x/intrarelayer/keeper/proposals.go:149-165 | The specified error, or the specified new state and the toggled pair |
| Proposals.CheckUnits | x/intrarelayer/keeper/proposals.go:203-231 | The searching loop with its continue, early error return and break |
| Proposals.UpdateTokenPairERC20 | x/intrarelayer/keeper/proposals.go:168-249 | The specified error, or the specified new state and the pair at its new contract |
| KeeperGenesis.InitGenesis | x/intrarelayer/genesis.go:11-31 | The loop stores each pair in the three maps |
| KeeperGenesis.ExportGenesis | x/intrarelayer/genesis.go:33-38 | The params and all stored pairs |
| KeeperGenesis.Restart | x/intrarelayer/genesis.go:11-38 | A new keeper that imports an export has the same state |
| Delivery.Deliver | x/intrarelayer/keeper/msg_server.go:18-70 | A step that fails leaves the keeper as it was |
| Delivery.DeliverAll | x/intrarelayer/keeper/msg_server.go:18-70 | A keeper that is delivered any steps ends in the state of the run, and is backed if they are honest |
| Chains.SoundIsPossible | x/intrarelayer/types/token_pair.go:20-24 | The assumptions about hashing and create addresses can be met together |
| Limits.HexChains | x/intrarelayer/keeper/token_pairs.go:29-35 | Chains on which the next three examples happen |
| Limits.HexDenomLosesBacking | x/intrarelayer/keeper/token_pairs.go:29-35 | A coin whose name reads as a native coin's contract mints tokens that nothing backs, and value appears |
| Limits.HexDenomEmptiesVouchers | x/intrarelayer/keeper/token_pairs.go:29-35 | A coin whose name reads as an external contract takes the tokens behind all vouchers, and value appears |
| Limits.DisabledPairThaws | x/intrarelayer/keeper/mint.go:32-34 | A conversion changes the escrow of a disabled pair, whose coin's name reads as another contract |
| Limits.CoinRegisteredTwice | x/intrarelayer/keeper/proposals.go:16-50 | Metadata without units registers twice and breaks the bijection |
| Limits.TwinsCollide | x/intrarelayer/keeper/proposals.go:168-249 | A pair moves onto a registered contract of the same name and breaks the bijection |

## Left out

- Keepers.Keeper.SetTokenPair: requires strings of at most 2^61 bytes, so that every encoding fits a Go slice, as do the methods that store pairs; no process holds longer ones.
- Keepers.Keeper.CallEVM: does not model gas, value, traces or ABI packing; a message is one of the calls that the bridge makes, with an arbitrary verdict.
- Ledgers.Execute: balances do not wrap at 2^256, because a supply that large is refused by the contracts themselves.
- Delivery.Deliver: does not roll back events and gas.
- Hook.ProcessLogs: the hook is modelled as wired into transactions or not, by a flag of each transaction, because app/app.go does not register it.
- KeeperGenesis.InitGenesis: the panic on a missing module account is not modelled.
- GenesisCodec.RoundTrip: the duration inside Params is a parameter whose own codec round-trips on every int64.
- GovHooks.StepKeepsAgreement: submission, activation and tally stand for the governance module, of which only the proposal store and the active queue are modelled.
- A ledger is a multiset with one occurrence of an account for each unit, so that the supply is the sum of all balances by construction. Vesting and locked coins are not modelled.
- MsgServer.ConvertCoin: which error a conversion returns is proved apart from the code only for the shared guard.
- Errors of the codec are one error; error texts, events and logging are not modelled.
- RegisterERC20 returns no pair on success; the model returns the one that it stored.
- The codec of messages, queries and proposals (x/intrarelayer/types/tx.pb.go, query.pb.go and the rest of intrarelayer.pb.go) repeats the pattern of TokenPair.
- Bech32 parsing of message fields happens before a message reaches the keeper: senders and receivers are addresses.
- Stateless validation of proposals is assumed where it matters, as ValidCoinProposal; denomination syntax is a parameter.
- Handlers, queries, command line, app wiring and the transaction counter would add easy members.
