# Multi-chain wallet session core, modelled in Dafny

This project models the three stateful parts of a non-custodial multi-chain wallet web app:

- **The wallet API route** (`src/app/api/wallet/route.ts`). It is one POST endpoint whose `action`
  picks one of these operations:
  - generate a BIP-39 mnemonic;
  - validate a mnemonic;
  - derive addresses for a list of chain codes;
  - export a chain's private key as hex;
  - sign a message and check the signature by recovering the signer;
  - reset.

  A closed registry maps 14 chain codes to wallet-core coin types. `OM` is an ERC-20 token and reuses Ethereum's coin type.
  The model is the pure function `WalletRoute.Handle` from a provider and a request to a `Response(status, body)`.
  The derivation loop is also written as the method the route runs, `WalletRoute.DeriveAddresses`. That method is
  proved equal to the reference function `WalletRoute.Derivation`.
  `WalletRoute.RouteModule` holds the module-level `coreInitialized` flag.
- **The `useWallet` hook** (`src/app/hooks/useWallet.ts`). It holds one record: mnemonic, address book and selected chain.
  Generate, import, derive, select and clear each replace that record. The class `UseWallet.Wallet` holds the record.
  Its methods apply the pure transitions `WithMnemonic`, `WithDerived`, `WithSelectedChain` and `ImportStep`.
  Each asynchronous mutation with its `onSuccess` is one atomic step. The step's input is what the mutation function
  returned, or `None` when that call failed.
- **The inactivity monitor** (`src/app/contexts/SessionTimeout.tsx`). It works in integer milliseconds, with a
  300 000 ms window and a warning strictly inside the last 60 000 ms. `SessionTimeout.Monitor` holds a reference
  to the wallet. `Tick(now)` is the one-second interval callback. `Activity(now)` is the listeners' `resetTimer`.
  Both are inert while the wallet is not loaded.

The wallet-core and ethers primitives are foreign code. They are the fields of the `KeyProvider.Provider`
record, which every route operation takes as a parameter. A primitive that can throw returns an `Option` (`createWithMnemonic` is a `bool`: whether it returned),
where `None` means it threw. All such throws fall into the route's `catch` and give status 500.
The private key's hex text is a real function, `Hex.Encode`, with its inverse `Hex.Decode`.
The case-insensitive address comparison is `AsciiCase.EqualIgnoringCase`.

Where the code behaves differently from what a reader might expect, the model follows the code:

- An `OM` request without `ETH` yields no `OM` entry. The code assigns `addresses['OM'] = addresses['ETH']`, which is
  `undefined`, and the JSON body drops it. The `ETH` address is not pulled in for it.
- Any provider throw during derivation fails the whole request with 500. There is no per-chain error outcome.
- The hook's derive has no loaded-session guard. Its result is merged even when no mnemonic is held, so addresses
  can be non-empty while the mnemonic is null (`UseWallet.DeriveWithoutSessionFillsAddresses`).
- `setSelectedChain` accepts any string; the registry is not consulted.
- The route's key export and signing take the mnemonic from the request. There is no session on the server.
- The monitor's `lastActivity` starts at mount time and is not reset when a wallet is loaded. A wallet loaded five
  minutes or more after the last recorded activity is cleared by the first tick, unless an activity event comes
  first (`SessionTimeout.FirstTickAfterLateLoadClears`).
- The warning needs `0 < remaining < 60000`, strict at both ends.
- There is no CSV export of the address book.

## Model

| member | source | states |
|---|---|---|
| ChainRegistry.RegistryIsClosed | src/app/api/wallet/route.ts:16-31 | the registry's keys are exactly the fourteen chain codes |
| ChainRegistry.OnlyOmSharesACoinType | src/app/api/wallet/route.ts:16-31 | two distinct registered codes share a coin type exactly when they are ETH and OM |
| ChainRegistry.Lookup | src/app/api/wallet/route.ts:65-67 | corrected lookup: a coin type exactly for registered codes, namely the registry's entry |
| ChainRegistry.LookupArg | src/app/api/wallet/route.ts:83-85 | an absent chain is looked up as "undefined" and finds nothing; a registered chain finds exactly its registry coin type, any other nothing |
| ChainRegistry.CoinTypeMapProperty | src/app/api/wallet/route.ts:83 | as written, a property read finds exactly the registry's coin type for registered codes and an inherited member for Object.prototype names; it is undefined only for the rest |
| ChainRegistry.InheritedMemberPassesGuard | src/app/api/wallet/route.ts:83-87 | as written, "toString" is not in the registry and still passes the `=== undefined` guard |
| ChainRegistry.LookupIsGuardWithoutInherited | src/app/api/wallet/route.ts:85 | the corrected lookup accepts exactly what the guard accepts, minus inherited member names |
| Hex.Encode | src/app/api/wallet/route.ts:90 | the hex text of a key has two characters per byte |
| Hex.EncodeAt | src/app/api/wallet/route.ts:90 | characters 2i and 2i+1 are the high and low nibble digits of byte i |
| Hex.EncodeIsLowerHex | src/app/api/wallet/route.ts:90 | every character of the encoding is one of 0-9, a-f |
| Hex.DecodeEncode | src/app/api/wallet/route.ts:90 | decoding the encoding gives back the key bytes |
| Hex.EncodeDecode | src/app/api/wallet/route.ts:90 | any decodable text is the encoding of what it decodes to |
| Hex.EncodeInjective | src/app/api/wallet/route.ts:90 | different keys give different hex text |
| AsciiCase.LowerAt | src/app/api/wallet/route.ts:118 | lowering maps each character independently and keeps the length |
| AsciiCase.LowerIdempotent | src/app/api/wallet/route.ts:118 | lowering twice equals lowering once |
| AsciiCase.EqualIgnoringCaseIff | src/app/api/wallet/route.ts:118 | the comparison holds iff both addresses have the same length and agree character by character up to letter case |
| AsciiCase.EqualIgnoringCaseOfLower | src/app/api/wallet/route.ts:118 | an address matches itself and its lower-cased form |
| WalletRoute.StrengthOf | src/app/api/wallet/route.ts:45 | an absent params, absent strength or zero strength gives 128; any other strength is used as given |
| WalletRoute.GenerateUsesStrength | src/app/api/wallet/route.ts:44-47 | generateMnemonic answers 200 with the provider's mnemonic for that strength, or 500 when generation throws |
| WalletRoute.AliasOm | src/app/api/wallet/route.ts:73-75 | codes other than OM are untouched; a requested OM takes ETH's entry or, without one, is removed |
| WalletRoute.LoopResult | src/app/api/wallet/route.ts:64-70 | the loop's map has exactly the requested registered codes, each with the provider address for its coin type |
| WalletRoute.LoopResultSnoc | src/app/api/wallet/route.ts:64-70 | one more loop iteration adds the next code's provider address when it is registered and changes nothing otherwise |
| WalletRoute.Derivation | src/app/api/wallet/route.ts:61-75 | fails exactly when some requested registered code's provider call throws. Otherwise: keys are requested registered codes; each non-OM entry is the provider address; OM is present iff ETH was requested too, with ETH's value |
| WalletRoute.DeriveAddresses | src/app/api/wallet/route.ts:61-75 | the forEach loop with the OM overwrite computes exactly Derivation |
| WalletRoute.Handle | src/app/api/wallet/route.ts:39-133 | every answer has status 200, 400 or 500, and is non-200 exactly when it carries an error body; a missing or unknown action gives 400 'Invalid action' |
| WalletRoute.ValidateAnswers | src/app/api/wallet/route.ts:49-51 | validateMnemonic answers 200 with the provider's verdict, or 500 when the check throws |
| WalletRoute.ResetAnswers | src/app/api/wallet/route.ts:122-125 | resetWallet answers 200 with success true, whatever the params |
| WalletRoute.MissingParamsGivesInternalError | src/app/api/wallet/route.ts:50-96 | validate, derive, key export and signing without params throw on the destructuring and get 500 |
| WalletRoute.DeriveThrowGivesInternalError | src/app/api/wallet/route.ts:53-78 | a throwing validity check, a failed wallet creation, a missing chain list or a throwing derivation gives 500 |
| WalletRoute.DeriveRejectsInvalidMnemonic | src/app/api/wallet/route.ts:56-58 | a mnemonic the provider rejects gives 400 'Invalid mnemonic' and no addresses |
| WalletRoute.DeriveAnswersDerivation | src/app/api/wallet/route.ts:53-78 | deriveAddresses answers 200 exactly when validation passes, the wallet is created, chains are given and no derivation throws; the body is then Derivation's map |
| WalletRoute.UnknownCodesAreSkipped | src/app/api/wallet/route.ts:64-70 | appending unregistered codes to the request leaves the outcome unchanged |
| WalletRoute.OmWithEthSharesAddress | src/app/api/wallet/route.ts:73-74 | OM requested with ETH: both present, equal, and equal to the Ethereum provider address |
| WalletRoute.OmWithoutEthIsDropped | src/app/api/wallet/route.ts:73-74 | OM requested without ETH: no OM entry in the answer |
| WalletRoute.PrivateKeyRejectsUnsupportedChain | src/app/api/wallet/route.ts:80-87 | once the wallet is created, an absent or unregistered chain gives 400 'Unsupported chain' |
| WalletRoute.PrivateKeyUnsupportedIgnoresKeyForCoin | src/app/api/wallet/route.ts:83-89 | for an unregistered chain the answer does not depend on getKeyForCoin at all |
| WalletRoute.PrivateKeyThrowGivesInternalError | src/app/api/wallet/route.ts:80-93 | a failed wallet creation, or a throwing key derivation for a registered chain, gives 500 |
| WalletRoute.PrivateKeyIsLowercaseHex | src/app/api/wallet/route.ts:89-92 | for a registered chain whose key is derived, the answer is 200 with lowercase hex of twice the key's length, which decodes to the key |
| WalletRoute.SignRequiresMnemonicAndMessage | src/app/api/wallet/route.ts:98-100 | a missing or empty mnemonic or message gives 400 |
| WalletRoute.SignVerifiedIsCaseInsensitiveMatch | src/app/api/wallet/route.ts:102-119 | a 200 answer always signs with the Ethereum key, reports the recovered and the Ethereum address, and sets verified iff they are equal ignoring case |
| WalletRoute.SignAnswersComparison | src/app/api/wallet/route.ts:102-119 | with every primitive returning, the answer is 200 with the signature, both addresses and verified equal to their case-insensitive comparison, so a mismatch gives verified false |
| WalletRoute.SignThrowGivesInternalError | src/app/api/wallet/route.ts:102-112 | past the argument check, a throw in wallet creation, key derivation, signing, recovery or address derivation gives 500 |
| WalletRoute.SignRoundTripVerifies | src/app/api/wallet/route.ts:107-118 | when recovery returns the derived Ethereum address, the answer is 200 with verified true |
| WalletRoute.RouteModule.InitWalletCore | src/app/api/wallet/route.ts:6-13 | initialize is called only while the flag is down; the flag is up afterwards iff it was up or the call succeeded |
| WalletRoute.RouteModule.Post | src/app/api/wallet/route.ts:36-134 | with the flag down, initialize is called exactly once and the flag rises iff it succeeds; with the flag up, it is not called; at most one call succeeds; the answer is Handle's, or an unhandled 500 when initialisation fails |
| UseWallet.WithMnemonic | src/app/hooks/useWallet.ts:27-32 | a new mnemonic empties the address book and keeps the selected chain; loaded iff the mnemonic is non-empty |
| UseWallet.WithDerived | src/app/hooks/useWallet.ts:65-72 | the merged book's keys are the union; new codes take the new value; other entries are kept; mnemonic and chain are unchanged |
| UseWallet.WithSelectedChain | src/app/hooks/useWallet.ts:85-87 | only the selected chain changes |
| UseWallet.ImportStep | src/app/hooks/useWallet.ts:44-59 | imports iff the validator accepted; rejected (Invalid mnemonic) iff it refused; otherwise the state is unchanged |
| UseWallet.Wallet.constructor | src/app/hooks/useWallet.ts:18-22 | starts with no mnemonic, no addresses, ETH selected, not loaded |
| UseWallet.Wallet.Generate | src/app/hooks/useWallet.ts:25-36 | a generated mnemonic replaces the state as WithMnemonic; a failed call changes nothing |
| UseWallet.Wallet.Import | src/app/hooks/useWallet.ts:44-59 | the new state and the outcome are ImportStep's |
| UseWallet.Wallet.Derive | src/app/hooks/useWallet.ts:62-76 | a derived map is merged as WithDerived, with no session guard; a failed call changes nothing |
| UseWallet.Wallet.SetSelectedChain | src/app/hooks/useWallet.ts:85-87 | the state becomes WithSelectedChain of any given string |
| UseWallet.Wallet.Clear | src/app/hooks/useWallet.ts:90-97 | any state becomes the initial state, so clearing twice equals clearing once |
| UseWallet.InitialStateIsUnloaded | src/app/hooks/useWallet.ts:18-22 | the initial state has no mnemonic and no addresses, selects ETH and is not loaded |
| UseWallet.ImportFailsClosed | src/app/hooks/useWallet.ts:45-48 | a refused or failed validation leaves the state exactly as it was |
| UseWallet.DerivesAccumulate | src/app/hooks/useWallet.ts:66-72 | two derives in a row keep the later result, the earlier result for other codes, and older entries for the rest |
| UseWallet.DeriveMergesRouteResult | src/app/hooks/useWallet.ts:62-76 | merging the route's map for ETH and OM stores equal addresses for both and keeps unrelated earlier entries |
| UseWallet.DeriveWithoutSessionFillsAddresses | src/app/hooks/useWallet.ts:62-76 | merging into the unloaded initial state fills addresses while no mnemonic is held |
| UseWallet.SelectAcceptsUnregisteredChain | src/app/hooks/useWallet.ts:85-87 | an unregistered code such as XYZ becomes the selected chain |
| UseWallet.LoadedIffNonEmptyMnemonic | src/app/hooks/useWallet.ts:108 | loaded exactly when the mnemonic is a non-empty string |
| SessionTimeout.Remaining | src/app/contexts/SessionTimeout.tsx:34-36 | the remaining time is never negative: the window minus the elapsed time, or 0 once the window has passed |
| SessionTimeout.Monitor.constructor | src/app/contexts/SessionTimeout.tsx:13-15 | mounting records the mount time as the last activity, hides the warning and shows 300 seconds |
| SessionTimeout.Monitor.Activity | src/app/contexts/SessionTimeout.tsx:18-30 | for a loaded wallet, sets lastActivity to now and hides the warning; otherwise does nothing |
| SessionTimeout.Monitor.Tick | src/app/contexts/SessionTimeout.tsx:33-50 | the new clock is TickStep's, and the wallet is cleared exactly when TickStep says so, otherwise untouched |
| SessionTimeout.Monitor.BannerVisible | src/app/contexts/SessionTimeout.tsx:60 | the banner shows only for a loaded wallet with the warning raised |
| SessionTimeout.TickTimeLeft | src/app/contexts/SessionTimeout.tsx:34-38 | with now at or after lastActivity, timeLeft is the floor of the remaining milliseconds over 1000, between 0 and 300 |
| SessionTimeout.TickWarning | src/app/contexts/SessionTimeout.tsx:40-43 | after a tick the warning is up iff it was, or the wallet is loaded and 0 < remaining < 60000; ticks never lower it |
| SessionTimeout.TickClearsExactlyOnExpiry | src/app/contexts/SessionTimeout.tsx:45-49 | a tick clears the wallet iff it is loaded and at least 300000 ms have elapsed |
| SessionTimeout.ExpiringTickRaisesNoWarning | src/app/contexts/SessionTimeout.tsx:35-49 | a clearing tick leaves the warning as it was and shows 0 seconds |
| SessionTimeout.ActivityRestarts | src/app/contexts/SessionTimeout.tsx:18-21 | activity sets lastActivity to now and hides the warning, and a tick at that instant does not clear |
| SessionTimeout.InertWhileUnloaded | src/app/contexts/SessionTimeout.tsx:23-24 | while unloaded, ticks and activity change nothing and clear nothing |
| SessionTimeout.ExpiryClearsOnce | src/app/contexts/SessionTimeout.tsx:23-49 | after a clearing tick the session is unloaded and every later tick is a no-op |
| SessionTimeout.FirstTickAfterLateLoadClears | src/app/contexts/SessionTimeout.tsx:13-46 | lastActivity is not reset on load, so a wallet loaded 300 s after mount with no activity is cleared by the first tick |
| SessionTimeout.WarningBandExample | src/app/contexts/SessionTimeout.tsx:40-43 | idle 240001 ms raises the warning; 270000 ms shows 30 s; exactly 240000 or 300000 ms raises none |

## Left out

- The wallet-core and ethers primitives are not modelled inside: BIP-39 generation and validation, BIP-32/44 derivation, EIP-191 signing and recovery. They are the `Provider` parameter and may return anything or throw.
- Next.js plumbing (`request.json`, `NextResponse`, `console.error`) is not modelled. A body that fails to parse, or is `null`, is the request `None`. A handler that rejects before the `try` block gives the framework's 500, `UnhandledRejection`.
- JSON values of unexpected types are not modelled. Examples: a non-string mnemonic or message, a non-array `chains`, non-string chain codes, a non-integer or string `strength`, a non-object `params`. An absent field is modelled, as `None`.
- WalletRoute.Handle: `toLowerCase` is modelled for the ASCII letters only. Addresses are hexadecimal text, but non-ASCII case mapping is not captured.
- WalletRoute.Handle: `Handle`, `Derivation` and `DeriveAddresses` use the corrected lookup `ChainRegistry.Lookup`, not the as-written property read `ChainRegistry.CoinTypeMapProperty` (see Findings). For an inherited `Object.prototype` name such as `toString`, the route model therefore answers as for an unregistered code.
- Concurrency is not modelled: overlapping requests can both call `initialize` before the flag is set, and hook mutations and timer callbacks can interleave. Each request, mutation and tick is one sequential step.
- React Query cache calls (`invalidateQueries`, `setQueryData`, `queryClient.clear`) are not modelled; the cache is external.
- The hook's `validateMnemonic` and `getPrivateKey` mutations hold no state; only the route's side of them is modelled.
- Navigation on expiry (`router.push('/')`), listener registration and the one-second cadence of the interval are not modelled. A tick is one call of the callback at time `now`.
- Erasing the mnemonic from memory is not modelled; clearing drops the reference.
- The client fetch wrappers (`src/app/services/walletServices.ts`, `src/app/hooks/useMessageSigning.ts`) are not part of this model. Each throws when the route answers with a non-2xx status, so `onSuccess` does not run and the hook model's input is `None`. The signing hook also refuses to sign with no wallet loaded.
- Market data and balance hooks are not part of this model: mock data with timers, randomness and floating point.
- `src/app/wallet/route.ts` is not part of this model; it is an older copy of the route.

## Findings

| source | as written | input that shows it | evidently intended | confidence | as-written member | corrected member |
|---|---|---|---|---|---|---|
| src/app/api/wallet/route.ts:83-85 | `COIN_TYPE_MAP[chain] === undefined` is the only supported-chain check. The table is a plain object literal, so names inherited from `Object.prototype` are found too. | getPrivateKey with chain `"toString"` (also `"constructor"`, `"__proto__"`, …): the guard passes and `getKeyForCoin` is called with a value that is not a coin type (an inherited method, or `Object.prototype` for `__proto__`). deriveAddresses (:65-67) does the same. | Only the fourteen registered codes pass, and every other code gets 400 'Unsupported chain' or is skipped. | medium, not executed | ChainRegistry.InheritedMemberPassesGuard | ChainRegistry.LookupIsGuardWithoutInherited |
