# uptick core, modelled in Dafny

Uptick is a Cosmos-SDK chain with an EVM. This project models six pieces of its core:

- **The collection keeper** (`Collection`). It is the policy layer over the generic NFT store. It issues a denom (a class carrying a creator and mint/update restrictions) and mints, edits, transfers and burns tokens. It also hands a denom to a new creator. Each operation is written twice:
  - as a function from the store's state to an `Outcome` (the new state and the error, if any);
  - as a method of the `Keeper` class. The method follows the Go code step by step, and its `ensures` ties it to that function.
- **The nft message server** (`NftMsgServer`). It handles `Send`, `IssueClass` and `MintNFT`, written in the same two forms.
- **The nft messages' stateless checks** (`NftMsgs`). These are `ValidateBasic` and `GetSigners` of `MsgSend`, `MsgIssueClass` and `MsgMintNFT`, including Go's `strings.TrimSpace`.
- **The ante handler's router** (`Ante`). It sends a transaction to the Ethereum pipeline, the EIP-712 Cosmos pipeline or the plain Cosmos pipeline, or rejects it.
- **The erc721 token pair** (`Erc721TokenPair`). This is the record binding an NFT class to an ERC-721 contract: its id, validation, and owner kind.
- **The erc20 genesis import/export** (`Erc20Genesis`). The erc20 keeper's tables are a class. `InitGenesis` is a loop over the pairs, proved against a fold (`Put`). The fold has last-write-wins lemmas.

The generic store (`NftStore`) is the Cosmos SDK x/nft keeper, which is not part of this repository. Its semantics are the existence checks that store makes before each write: an id already taken, a missing class, a missing token. All other foreign pieces are fields of `Common.Env`, a datatype of function values, and every property holds for every environment. These pieces are:

- bech32 parsing;
- the class id, token id and denom validators;
- the Ethereum address validator;
- `tmhash.Sum`;
- the hex address codec.

Accounts are their bech32 text (`Address = string`). A missing token's owner is the empty address `""`. Errors are `Wrapped(code, message)`, with the formatted message written out as the Go code formats it.

Behaviours of the code worth knowing:

- `TransferDenomOwner` rebuilds the class from its id, name, symbol and the new metadata, so its description, uri and uri hash become empty. `TransferDenomOwnerKeepsDenom` states this.
- An unknown denom is reported as `ErrInvalidDenom`, with the message "denom ID … not exists".
- `TransferOwnership` reports a missing token as `ErrInvalidTokenID`. `EditNFT` reports it as `ErrUnknownNFT`, and only after the restriction and owner checks.
- The x/nft `IssueClass` handler stores the issuer in the class's uri-hash field (`IssueClassStoresMessage`).
- `NewTokenPair` ignores its `enabled` argument and always creates an enabled pair (`NewTokenPairIgnoresEnabled`).

The helpers `GetDenomInfo`, `Authorize` and `Modified` are defined in other files of the collection keeper package, which this project does not model. They are modelled as in the upstream irismod collection module:

- `GetDenomInfo` unpacks the class metadata and fails with `ErrInvalidDenom` when the class is missing.
- `Authorize` passes exactly the token's current owner and fails with `ErrUnauthorized`.
- `Modified(s)` means `s != "[do-not-modify]"`.

## Model

| member | source | states |
|---|---|---|
| NftStore.State.OwnerOf | x/nft/keeper/msg_server.go:22 | the stored owner of the token, or the empty address when the token does not exist |
| NftStore.State.SaveClass | x/collection/keeper/keeper.go:51-56 | (assumed store semantics) refuses an id already taken with `ClassExists`; on error the state is unchanged; keeps `Valid` |
| NftStore.State.UpdateClass | x/collection/keeper/keeper.go:241-246 | (assumed) refuses a missing class with `ClassNotExists`; on error the state is unchanged; keeps `Valid` |
| NftStore.State.Mint | x/collection/keeper/keeper.go:87-97 | (assumed) refuses a missing class (`ClassNotExists`) or a taken token id (`NftExists`); on error the state is unchanged; keeps `Valid` |
| NftStore.State.Update | x/collection/keeper/keeper.go:149 | (assumed) refuses a missing class or token (`ClassNotExists`, `NftNotExists`); on error the state is unchanged; keeps `Valid` |
| NftStore.State.Transfer | x/collection/keeper/keeper.go:206 | (assumed) refuses a missing class or token; on error the state is unchanged; keeps `Valid` |
| NftStore.State.Burn | x/collection/keeper/keeper.go:214 | (assumed) refuses a missing class or token; on error the state is unchanged; keeps `Valid` |
| NftStore.Store.GetNft | x/collection/keeper/keeper.go:120-123 | reports whether the token is stored, and returns it, or the zero token when absent |
| NftStore.Store.GetOwner | x/nft/keeper/msg_server.go:22 | returns `OwnerOf` of the current state |
| NftStore.Store.SaveClass | x/nft/keeper/msg_server.go:49-56 | the new state and error are those of `State.SaveClass` on the old state; keeps `Valid` |
| NftStore.Store.UpdateClass | x/collection/keeper/keeper.go:241-246 | the new state and error are those of `State.UpdateClass`; keeps `Valid` |
| NftStore.Store.Mint | x/nft/keeper/msg_server.go:78-83 | the new state and error are those of `State.Mint`; keeps `Valid` |
| NftStore.Store.Update | x/collection/keeper/keeper.go:202 | the new state and error are those of `State.Update`; keeps `Valid` |
| NftStore.Store.Transfer | x/nft/keeper/msg_server.go:32 | the new state and error are those of `State.Transfer`; keeps `Valid` |
| NftStore.Store.Burn | x/collection/keeper/keeper.go:214 | the new state and error are those of `State.Burn`; keeps `Valid` |
| Collection.GetDenomInfo | x/collection/keeper/keeper.go:70-73 | succeeds exactly when the denom's class exists |
| Collection.Authorize | x/collection/keeper/keeper.go:116-118 | passes exactly when the caller is the token's current owner; a refusal is `ErrUnauthorized` naming the caller |
| Collection.IssueDenomSpec | x/collection/keeper/keeper.go:36-57 | a failed issue leaves the store unchanged; a consistent store stays consistent |
| Collection.Keeper.IssueDenom | x/collection/keeper/keeper.go:36-57 | the keeper's state and error are those of `IssueDenomSpec` on the old state |
| Collection.Modified | x/collection/keeper/keeper.go:125-139 | a field counts as modified exactly when it is not the marker "[do-not-modify]" |
| Collection.IssueDenomReadsBack | x/collection/keeper/keeper.go:41-56 | issue succeeds iff the id is free (else `ClassExists`); the class table gains exactly the new class, with empty description, uri and uri hash, which reads back as the given denom; tokens untouched |
| Collection.MintNFTSpec | x/collection/keeper/keeper.go:60-98 | a failed mint leaves the store unchanged; consistency preserved |
| Collection.Keeper.MintNFT | x/collection/keeper/keeper.go:60-98 | state and error are those of `MintNFTSpec` |
| Collection.MintRestrictedRejectsNonCreator | x/collection/keeper/keeper.go:74-76 | on a mint-restricted denom a non-creator gets the "is not allowed to mint NFT of denom" error and nothing changes |
| Collection.MintNFTCreatesToken | x/collection/keeper/keeper.go:70-97 | mint succeeds iff the denom exists, the sender may mint and the id is free; the token gets the given uri, name and description, no uri hash, and `receiver` as owner; classes untouched |
| Collection.MintThenBurnRestores | x/collection/keeper/keeper.go:87-214 | minting a token and burning it as its receiver gives back the exact pre-mint state |
| Collection.EditNFTSpec | x/collection/keeper/keeper.go:101-150 | a failed edit leaves the store unchanged; consistency preserved |
| Collection.Keeper.EditNFT | x/collection/keeper/keeper.go:101-150 | state and error are those of `EditNFTSpec` |
| Collection.EditRestrictedAlwaysFails | x/collection/keeper/keeper.go:110-113 | on an update-restricted denom every edit fails, whoever asks and whether or not the token exists |
| Collection.EditNFTChangesOnlyModifiedFields | x/collection/keeper/keeper.go:105-149 | edit succeeds iff the denom exists unrestricted and the caller owns an existing token; a non-owner on an unrestricted denom gets `ErrUnauthorized`; only the modified uri, name and description change; owners, classes and other tokens stay |
| Collection.EditNothingIsNoOp | x/collection/keeper/keeper.go:125-149 | an edit with every field "[do-not-modify]" succeeds for the owner and changes nothing |
| Collection.TransferOwnershipSpec | x/collection/keeper/keeper.go:153-207 | a failed transfer leaves the store unchanged; consistency preserved |
| Collection.Keeper.TransferOwnership | x/collection/keeper/keeper.go:153-207 | state and error are those of `TransferOwnershipSpec` |
| Collection.TransferWithoutEditsIgnoresUpdateRestriction | x/collection/keeper/keeper.go:171-206 | a pure ownership transfer succeeds even on an update-restricted denom and only the owner changes |
| Collection.TransferWithEditsOnRestrictedFails | x/collection/keeper/keeper.go:192-194 | a transfer with an edit on an update-restricted denom fails with the restriction error, nothing written |
| Collection.TransferOwnershipOutcome | x/collection/keeper/keeper.go:157-206 | transfer succeeds iff the token exists, `srcOwner` owns it and no edit meets a restriction; a missing token is `ErrInvalidTokenID` and a non-owner `ErrUnauthorized`; afterwards `dstOwner` owns it; when some field is modified the record is rewritten with the uri replaced if modified and the metadata always re-packed with the modified name and description; with no field modified the record is unchanged |
| Collection.BurnNFTSpec | x/collection/keeper/keeper.go:210-215 | a failed burn leaves the store unchanged; consistency preserved |
| Collection.Keeper.BurnNFT | x/collection/keeper/keeper.go:210-215 | state and error are those of `BurnNFTSpec` |
| Collection.BurnNFTRemovesToken | x/collection/keeper/keeper.go:210-215 | burn succeeds iff the caller owns an existing token (a non-owner gets `ErrUnauthorized`), and removes that token and its owner entry only |
| Collection.TransferDenomOwnerSpec | x/collection/keeper/keeper.go:218-247 | a failed hand-over leaves the store unchanged; consistency preserved |
| Collection.Keeper.TransferDenomOwner | x/collection/keeper/keeper.go:218-247 | state and error are those of `TransferDenomOwnerSpec` |
| Collection.TransferDenomOwnerKeepsDenom | x/collection/keeper/keeper.go:227-246 | hand-over succeeds iff the caller is the creator; a missing denom is `ErrInvalidDenom` and a non-creator gets `ErrUnauthorized` "… is not allowed to transfer denom …"; afterwards the denom differs only in its creator, description, uri and uri hash are empty, and nothing else changes |
| Collection.MintAfterDenomTransferUsesNewCreator | x/collection/keeper/keeper.go:74-76 | after a hand-over of a mint-restricted denom only the new creator may mint |
| Collection.CatsScenario | x/collection/keeper/keeper.go:36-97 | issue "cats" restricted to A: B's mint is refused unchanged, A's mint for B succeeds and B owns the token |
| NftMsgServer.SendSpec | x/nft/keeper/msg_server.go:15-44 | a failed send changes nothing and emits no event; consistency preserved |
| NftMsgServer.Keeper.Send | x/nft/keeper/msg_server.go:15-44 | state, error and event are those of `SendSpec` |
| NftMsgServer.SendRejectsNonOwner | x/nft/keeper/msg_server.go:22-25 | a parsed sender who is not the owner gets "… is not the owner of nft …", nothing changes and no event |
| NftMsgServer.SendCheckOrder | x/nft/keeper/msg_server.go:17-30 | sender parse error first, then the owner check, then the receiver parse error |
| NftMsgServer.SendTransfers | x/nft/keeper/msg_server.go:17-41 | send succeeds iff both addresses parse and the sender owns an existing token; only that token's owner changes; the event carries the message's raw fields |
| NftMsgServer.IssueClassSpec | x/nft/keeper/msg_server.go:47-57 | a failed issue changes nothing; consistency preserved |
| NftMsgServer.Keeper.IssueClass | x/nft/keeper/msg_server.go:47-57 | state and error are those of `IssueClassSpec` |
| NftMsgServer.IssueClassStoresMessage | x/nft/keeper/msg_server.go:49-56 | issue succeeds iff the id is free; the class holds the message's fields with the issuer as uri hash and no data |
| NftMsgServer.MintReceiver | x/nft/keeper/msg_server.go:67-77 | the minter must parse; the receiver is the minter unless a non-empty receiver is named, which must parse |
| NftMsgServer.MintNFTSpec | x/nft/keeper/msg_server.go:59-84 | a failed mint changes nothing; consistency preserved |
| NftMsgServer.Keeper.MintNFT | x/nft/keeper/msg_server.go:59-84 | state and error are those of `MintNFTSpec` |
| NftMsgServer.MintNFTOwner | x/nft/keeper/msg_server.go:67-83 | mint succeeds iff the receiver (or else the minter) parses, the class exists and the id is free; the new state is the old one plus exactly the new token, carrying the message's class id, id, uri and uri hash, owned by the receiver or else the minter |
| NftMsgs.MsgSend.ValidateBasic | x/nft/msgs.go:16-34 | valid iff class id, token id, sender and receiver all pass; otherwise the first failure's code and message |
| NftMsgs.MsgSend.GetSigners | x/nft/msgs.go:37-40 | exactly one signer: the parsed sender, or the empty address when it does not parse |
| NftMsgs.SendErrorCodes | x/nft/msgs.go:16-34 | id failures give `ErrInvalidID`; address failures, only once both ids pass, give `ErrInvalidAddress` |
| NftMsgs.MsgIssueClass.ValidateBasic | x/nft/msgs.go:45-55 | an all-white-space issuer is "missing sender address"; otherwise valid iff the issuer parses, else "failed to parse address: …" |
| NftMsgs.MsgIssueClass.GetSigners | x/nft/msgs.go:58-65 | defined (no panic) iff the issuer parses, and then exactly the issuer |
| NftMsgs.MsgMintNFT.ValidateBasic | x/nft/msgs.go:78-85 | valid iff the minter parses, else "invalid minter address" |
| NftMsgs.MsgMintNFT.GetSigners | x/nft/msgs.go:68-75 | defined (no panic) iff the minter parses, and then exactly the minter |
| NftMsgs.MintNftValidationIgnoresAllButMinter | x/nft/msgs.go:78-85 | two mint messages with the same minter validate alike |
| NftMsgs.IsSpace | x/nft/msgs.go:46 | Go's `unicode.IsSpace`: tab, line feed, vertical tab, form feed, carriage return, space, U+0085, U+00A0, U+1680, U+2000 to U+200A, U+2028, U+2029, U+202F, U+205F and U+3000 |
| NftMsgs.TrimSpace | x/nft/msgs.go:46 | `strings.TrimSpace`: a slice of the input with exactly the leading and trailing white space cut off (everything before and after the slice is white space, and a non-empty slice neither starts nor ends with white space) |
| NftMsgs.SkipSpace | x/nft/msgs.go:46 | the first index at or after `i` that holds no white space (or the end): everything skipped is white space and the character found is not |
| NftMsgs.SkipSpaceBack | x/nft/msgs.go:46 | the end of `s[..j]` without its trailing white space: everything dropped is white space and the last character kept is not |
| NftMsgs.TrimLeft | x/nft/msgs.go:46 | a suffix of the input not starting with white space, everything cut off being white space |
| NftMsgs.TrimRight | x/nft/msgs.go:46 | a prefix of the input not ending with white space, everything cut off being white space |
| NftMsgs.TrimSpaceEmptyIff | x/nft/msgs.go:46 | `strings.TrimSpace(s) == ""` holds exactly when every character of `s` is white space |
| Ante.FirstTypeUrl | app/ante/ante.go:27-32 | present exactly when the transaction carries a non-empty option list, and then the first option's type URL |
| Ante.Route | app/ante/ante.go:27-61 | the Ethereum extension routes to the Ethereum pipeline and the Web3 extension to EIP-712, each iff it is the first option; no options means plain Cosmos; any other first option is `ErrUnknownExtensionOptions`; a nil tx is `ErrUnknownRequest` |
| Ante.AnteHandle | app/ante/ante.go:16-66 | on a route, the chosen pipeline's result is returned as is; on a rejection, the incoming context and the error |
| Ante.UnknownExtensionNamed | app/ante/ante.go:41-46 | the rejection message names the unsupported type URL |
| Ante.OnlyFirstOptionMatters | app/ante/ante.go:31-32 | options after the first never change the route |
| Ante.NoOptionsIsPlainCosmos | app/ante/ante.go:27-58 | an empty option list and no option support both go to the plain Cosmos pipeline |
| Ante.RejectionRunsNoPipeline | app/ante/ante.go:41-60 | a rejected tx gets the same result whatever the pipelines do, with its context unchanged |
| Ante.OnlyChosenPipelineRuns | app/ante/ante.go:49-65 | pipelines agreeing on the chosen one give the same result |
| Ante.SameTagSameRoute | app/ante/ante.go:32-47 | transactions with the same first type URL are routed alike |
| Erc721TokenPair.NewTokenPair | x/erc721/types/token_pair.go:13-20 | the pair is always enabled, holds the address's hex text, and keeps the class id and owner kind |
| Erc721TokenPair.NewTokenPairIgnoresEnabled | x/erc721/types/token_pair.go:17 | the `enabled` argument makes no difference |
| Erc721TokenPair.NewTokenPairContract | x/erc721/types/token_pair.go:13-31 | when the hex codec round-trips, `GetERC721Contract` gives back the address the pair was made from |
| Erc721TokenPair.TokenPair.GetID | x/erc721/types/token_pair.go:23-26 | the hash of the address and the class id joined by '\|' |
| Erc721TokenPair.TokenPair.GetERC721Contract | x/erc721/types/token_pair.go:29-31 | the address decoded from the pair's hex text |
| Erc721TokenPair.IdIgnoresFlags | x/erc721/types/token_pair.go:23-26 | the id depends only on the address and the class id |
| Erc721TokenPair.IdPreimageInjective | x/erc721/types/token_pair.go:24 | for addresses without '\|', the hashed text determines both the address and the class id |
| Erc721TokenPair.IdPreimageNeedsPlainAddress | x/erc721/types/token_pair.go:24 | without that condition two different pairs share the hashed text |
| Erc721TokenPair.TokenPair.Validate | x/erc721/types/token_pair.go:34-39 | valid iff the class id passes as a denom and the address validates; a denom failure is returned first |
| Erc721TokenPair.TokenPair.IsNativeNFT | x/erc721/types/token_pair.go:43-45 | holds exactly when the erc721 module owns the contract |
| Erc721TokenPair.TokenPair.IsNativeERC721 | x/erc721/types/token_pair.go:49-51 | holds exactly when the contract is externally owned |
| Erc721TokenPair.OwnerKindsExclusive | x/erc721/types/token_pair.go:43-51 | never both native NFT and native ERC-721; with a specified owner exactly one |
| Erc20Genesis.TokenPair.GetID | x/erc20/genesis.go:31 | the hash of the erc20 address and the denom joined by '\|' |
| Erc20Genesis.TokenPair.GetERC20Contract | x/erc20/genesis.go:34 | the address decoded from the pair's hex text |
| Erc20Genesis.PutLastWins | x/erc20/genesis.go:30-35 | each written key holds the value of its last write |
| Erc20Genesis.PutUntouched | x/erc20/genesis.go:30-35 | a key no pair writes keeps its old value or stays absent |
| Erc20Genesis.PutKeys | x/erc20/genesis.go:30-35 | the keys afterwards are the old keys plus those written |
| Erc20Genesis.PutPairsStoredUnderOwnId | x/erc20/genesis.go:31-32 | writing pairs under their ids keeps every pair under its own id |
| Erc20Genesis.InitGenesisStoresPair | x/erc20/genesis.go:31-32 | after import each pair is stored under its id unless a later pair has that id |
| Erc20Genesis.InitGenesisIndexesDenom | x/erc20/genesis.go:33 | the denom index sends a denom to the id of the last pair with that denom |
| Erc20Genesis.InitGenesisIndexesContract | x/erc20/genesis.go:34 | the contract index sends a contract to the id of the last pair with that contract |
| Erc20Genesis.Keeper.SetParams | x/erc20/genesis.go:23 | the parameters become the given ones; the three tables are unchanged |
| Erc20Genesis.Keeper.SetTokenPair | x/erc20/genesis.go:32 | the pair is written under its id; nothing else changes |
| Erc20Genesis.Keeper.SetDenomMap | x/erc20/genesis.go:33 | the denom index maps the denom to the id; nothing else changes |
| Erc20Genesis.Keeper.SetERC20Map | x/erc20/genesis.go:34 | the contract index maps the contract to the id; nothing else changes |
| Erc20Genesis.InitGenesis | x/erc20/genesis.go:13-36 | params are always set; aborts iff the module account is missing, then tables unchanged; otherwise each table is the fold of the pairs in order; the keeper stays consistent |
| Erc20Genesis.Keeper.GetAllTokenPairs | x/erc20/genesis.go:42 | one entry per stored id, each id exactly once, each entry the pair stored under its id |
| Erc20Genesis.ExportGenesis | x/erc20/genesis.go:39-44 | the stored params, and one entry per stored id, each the pair stored under it |

## Left out

- Codec `Any` packing is left out: nested metadata is a typed optional field. The `NewAnyWithValue` and `Unmarshal` failure branches are not modelled, since they cannot fail for these message types. An absent `Data` unpacks to zero metadata.
- The Cosmos SDK x/nft store is not part of this repository, so its semantics are assumed. They are the existence checks before each write, with the error codes `ClassExists`, `ClassNotExists`, `NftExists` and `NftNotExists`. Supply counters and the store's own events are not modelled.
- `GetDenomInfo`, `Authorize` and `Modified` are modelled as in upstream irismod, since their source files are not part of this model. The value of the "[do-not-modify]" marker is taken from the same module.
- Bech32 parsing, `ValidateClassID`/`ValidateNFTID`, `sdk.ValidateDenom`, `ethermint.ValidateAddress`, `tmhash.Sum` and the hex address codec are foreign code. They are parameters in `Common.Env`.
- `Ante.AnteHandle`: the three pipelines' internals (fee, signature and EVM checks) are a parameter. The deferred `Recover`, which turns a panic into an error, is not modelled because the model has no panics. The debug prints and the fee-market parameter read at the top are left out. Only a nil transaction is modelled as a transaction that is not an `sdk.Tx`.
- `Erc20Genesis.InitGenesis`: the panic on a missing module account is modelled as the result `aborted`. The account keeper is reduced to one boolean. The debug print is left out.
- `Erc20Genesis.Keeper.GetAllTokenPairs` does not state the store's iteration order (ascending by id). `ExportGenesis` inherits this.
- `NftMsgs.MsgIssueClass.GetSigners` and `NftMsgs.MsgMintNFT.GetSigners`: the panic is modelled as `None`.
- The `Send` event: emission errors are ignored as in the code, and the event manager is reduced to the returned event.
- Gas, contexts and the `sdk.Context` wrapping are left out.
- Keeper constructors, the CLI and the daemon entry point are outside the modelled core.
