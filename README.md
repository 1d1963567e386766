# Token operations over a custody service: a Dafny model

This project models the instruction-assembly core of a small TypeScript tool. The tool issues and manages
fungible tokens through a custody service (Fireblocks). It deploys a token and then mints, transfers,
sets a transfer-fee configuration or sets a transfer hook. Every operation except deploy follows the
same steps, each an awaited request to the service:

1. resolve the token link to get the token's contract address;
2. fetch the deployed program's ABI;
3. search the ABI for a function with one exact name (`mintToChecked`, `transferChecked`,
   `setTransferFeeConfig`, `setTransferHook`), and throw if there is none;
4. for a mint only, fetch the vault account;
5. build the instruction envelope from fixed literals;
6. submit it as a write-call to the linked contract.

The source is pure straight-line code, so the model is too: datatypes, functions and lemmas, with no
mutable state.

- `Wrappers`: `Option` and `Result`.
- `Envelope`: the envelope record (function name, accounts with `writable`/`signer` flags and
  addresses, typed arguments). An envelope splits into its *shape* (names, flags and types) and the data
  it carries (addresses and values). `Assemble` puts the parts back together.
- `Abi`: the function lookup over the fetched ABI.
- `Custody`: the service seen from outside.
  - `Sdk` is a record of total functions, one per request kind. Each one answers success or failure.
  - Each operation returns a `Run`: the requests it issued, in order, and its outcome.
- `Mint`, `Transfer`, `ReflectiveToken`: one module per source file.
  - Each has the envelope builder and the fixed shape it produces.
  - Each has a decoder that reads an envelope back. Each decoder comes with a lemma: it accepts exactly the
    builder's envelopes and recovers the builder's inputs.
  - `Mint` also resolves the mint authority.
  - `ReflectiveToken` also builds the deploy request.
- `Orchestrator`: the shared stage sequence `Execute` over a tagged `Operation`. It also holds the four
  entry points and the stage-abort lemmas.

Three behaviours of the code shape the model:

- A failed vault-account request ends a mint: no write-call follows (src/mint.ts:23-25).
- The mint authority falls back to the contract address only when the vault answered but has no asset
  list, has no asset with the configured id, or that asset's address is absent or empty (src/mint.ts:32).
  `ResolveMintAuthority` tags which branch was taken.
- No bound is checked on the fee basis points or on the maximum fee. Amounts are passed on as the
  caller's string, unchanged. Decimals are fixed at 9 in mint and transfer envelopes, whatever decimals
  the token was deployed with.

## Model

| member | source | states |
|---|---|---|
| `Abi.FindFunction` | src/mint.ts:15-17 | finds the first ABI entry whose name equals the requested name exactly; `None` if and only if no entry has that name |
| `Abi.FindFunctionUnique` | src/transfer.ts:20-22 | when names are unique within the program, the lookup returns the one entry with that name |
| `Abi.FindFunctionNamesOnly` | src/reflective-token.ts:51-57 | the lookup depends only on entry names: the matched definition's declared schema plays no part |
| `Mint.FindAsset` | src/mint.ts:32 | finds the first vault asset whose id equals the configured asset id; `None` if and only if there is none |
| `Mint.ResolveMintAuthority` | src/mint.ts:32 | the authority comes from the vault only when it is the address of the first asset with the configured id and is present and non-empty; otherwise it is the contract address, and no vault address exists |
| `Mint.VaultAddressUnique` | src/mint.ts:23-32 | at most one address qualifies as the vault address for an asset id |
| `Mint.BuildMintInstruction` | src/mint.ts:27-38 | `mintToChecked` with accounts mint (writable, contract address), token (writable, recipient) and mintAuthority (signer, resolved authority), and arguments `[amount: u64 = input string, decimals: u8 = 9]` |
| `Mint.DecodeMintExact` | src/mint.ts:27-38 | an envelope decodes as a mint request if and only if it is the mint builder's envelope for that request |
| `Transfer.BuildTransferInstruction` | src/transfer.ts:28-40 | `transferChecked` with accounts source (writable), mint (read-only, contract address), destination (writable) and authority (signer, always the source address), and arguments `[amount: u64, decimals: u8 = 9]` |
| `Transfer.DecodeTransferExact` | src/transfer.ts:28-40 | an envelope decodes as a transfer if and only if it is the transfer builder's envelope; a decoded transfer always has authority equal to source |
| `ReflectiveToken.DeployRequest` | src/reflective-token.ts:14-24 | the issue request carries the configured vault and asset and the token's name, symbol and decimals |
| `ReflectiveToken.DeployIgnoresFeeSettings` | src/reflective-token.ts:3-24 | transferFeeBasisPoints and maxFee are not sent: changing them leaves the issue request unchanged |
| `ReflectiveToken.DeployReflectiveToken` | src/reflective-token.ts:11-33 | deploy issues exactly one request, the issue request, and returns the service's answer or its failure |
| `ReflectiveToken.FeeConfigRecord` | src/reflective-token.ts:66-85 | both authorities are explicit nulls and withheldAmount is `"0"`; the older and newer tiers are identical, each with epoch 0, the input maximum fee and the input basis points, with no bound checked |
| `ReflectiveToken.BuildFeeConfigInstruction` | src/reflective-token.ts:59-87 | `setTransferFeeConfig` with accounts mint (writable), configAuthority (signer) and feeConfigAuthority (read-only), all at the contract address, and the single fee-config struct argument |
| `ReflectiveToken.DecodeFeeConfigExact` | src/reflective-token.ts:59-87 | an envelope decodes as a fee configuration if and only if it is the builder's envelope; decoding recovers the basis points and the maximum-fee string exactly |
| `ReflectiveToken.BuildHookInstruction` | src/reflective-token.ts:122-130 | `setTransferHook` with accounts mint (writable) and authority (signer), both at the contract address, and transferHookProgramId (read-only) equal to the input; no arguments |
| `ReflectiveToken.DecodeHookExact` | src/reflective-token.ts:122-130 | an envelope decodes as a hook request if and only if it is the hook builder's envelope for that request |
| `Orchestrator.Submit` | src/mint.ts:40-47 | the write-call goes after the earlier requests and targets the given contract with the configured asset, the vault and the envelope; the outcome is the service's answer to it, a failure tagged with the submit stage |
| `Orchestrator.DispatchMint` | src/mint.ts:23-47 | after the lookup, a mint issues the vault request; if it fails, that is the last request and the mint fails at the vault stage with the service's cause; if it succeeds, exactly one write-call follows, carrying the mint envelope with the authority resolved from the fetched vault, and the outcome is the service's answer to it |
| `Orchestrator.Dispatch` | src/transfer.ts:28-49 | after the lookup, each operation issues only what its plan has left; unless a mint's vault request failed, the plan completes, the last request is the write-call with the operation's envelope, and the outcome is the service's answer to it |
| `Orchestrator.Execute` | src/mint.ts:6-47 | the requests issued are a prefix of the plan (link, ABI, [vault,] submit) and start with the link lookup; success means every stage was issued; a failure's stage is the last one issued |
| `Orchestrator.ProceedsWhenReady` | src/mint.ts:6-47 | when every stage before the write-call succeeds (link, ABI, function found, and for a mint the vault), the whole plan is issued, the last request is the write-call carrying the operation's envelope for the linked contract, and the outcome is the service's answer to it; otherwise the run stops short of the plan with a failure |
| `Orchestrator.NoStageAfterFailure` | src/transfer.ts:11-49 | after a failure, no later planned stage appears among the requests issued |
| `Orchestrator.LinkFailureStops` | src/mint.ts:6-8 | a failed link lookup is the only request issued, and the operation fails at the link stage with that cause |
| `Orchestrator.AbiFetchedForLinkedContract` | src/transfer.ts:11-18 | the ABI is fetched only after the link resolved, and for the link's contract address and the configured asset |
| `Orchestrator.AbiFailureStops` | src/mint.ts:10-13 | a failed ABI fetch ends the operation: exactly the link and ABI requests were issued, and it fails at the ABI stage with the service's cause |
| `Orchestrator.MissingFunctionStops` | src/mint.ts:15-23 | if the ABI lacks the needed function, the operation fails with that name; only the link and ABI requests were issued, so there is no vault lookup and no write-call |
| `Orchestrator.VaultFailureStops` | src/mint.ts:23-25 | a failed vault-account request ends a mint: exactly the link, ABI and vault requests were issued, and it fails at the vault stage with the service's cause |
| `Orchestrator.WriteOnlyIfDeclared` | src/reflective-token.ts:114-120 | a write-call is issued if and only if the link resolved, the ABI was fetched and declares the needed function, and for a mint the vault account was fetched |
| `Orchestrator.WriteIsLastAndDecides` | src/reflective-token.ts:89-99 | a write-call, when issued, is the last request, and the operation returns exactly the service's answer to it (its response or its failure) |
| `Orchestrator.MintTokens` | src/mint.ts:3-53 | stages link, ABI, vault, submit in that order; a write-call is issued if and only if every earlier stage succeeded, and then the requests are exactly link, ABI, vault and the write-call to the linked contract carrying the mint envelope with the authority resolved from the fetched vault, and the result is the service's answer to it |
| `Orchestrator.TransferTokens` | src/transfer.ts:3-55 | stages link, ABI, submit; a write-call is issued if and only if the link and ABI succeeded and the ABI declares `transferChecked`, and then the requests are exactly link, ABI and the write-call to the linked contract carrying the transfer envelope, and the result is the service's answer to it |
| `Orchestrator.SetTransferFeeConfig` | src/reflective-token.ts:35-100 | stages link, ABI, submit; a write-call is issued if and only if the link and ABI succeeded and the ABI declares `setTransferFeeConfig`, and then the requests are exactly link, ABI and the write-call carrying the fee-config envelope for the linked contract, and the result is the service's answer to it |
| `Orchestrator.SetTransferHook` | src/reflective-token.ts:102-143 | stages link, ABI, submit; a write-call is issued if and only if the link and ABI succeeded and the ABI declares `setTransferHook`, and then the requests are exactly link, ABI and the write-call carrying the hook envelope for the linked contract and the hook program id, and the result is the service's answer to it |

## Left out

- Command-line dispatch, defaults and usage messages (src/reflective-token.ts:145-184, src/mint.ts:55-64,
  src/transfer.ts:57-67): shell glue that relies on JavaScript `parseInt`/`isNaN`.
- src/config/fireblocks.ts is not part of this model. Its vault account id and asset id come in as a
  `Config` parameter, and client construction is not modelled.
- src/index.ts (status queries printed to the console) and src/deploy.ts (one issue request with fixed
  literals) are not part of this model. The deploy request shape is covered by `DeployRequest`.
- The custody SDK's internals: transport, signing, custody, promises. Its answers are given as total
  functions of the request. Within one operation each request is issued at most once, so this loses
  nothing about a single invocation.
- Console logging. Error message text: a missing function is reported as `FunctionNotFound(name)`, not
  as the thrown message "<name> instruction not found in IDL".
- JavaScript runtime faults on malformed responses: a token link without `tokenMetadata`, or an ABI
  response without `data.abi`. A token link here always has a contract address, and an ABI is always a
  list of named entries.
- Range checks: u64 amounts and u8 decimals are not range-checked by the source, and not by the model.
- JavaScript `number` parameters (`transferFeeBasisPoints` at src/reflective-token.ts:37, `decimals` at
  src/reflective-token.ts:6) are modelled as `int`. Fractional values, `NaN` and `Infinity` cannot be
  represented. The command line passes `parseInt` results, and `NaN` basis points are rejected at
  src/reflective-token.ts:162.
