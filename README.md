# Candy machine minting page: admission and settlement rules in Dafny

This project models the client-side rules of a React minting page for a Solana
candy machine. They decide what the page shows and when the mint button works:

- **Pricing** (`src/Home.tsx`): the price scale of an SPL token comes from a decimal
  text, "1" followed by `decimals` zeros. The price is shown in that token or in SOL,
  and a whitelist discount price replaces the whitelist price.
- **Session state** (`src/Home.tsx`): the counters a refresh loads. A confirmed mint
  settles them: one item fewer, one more redeemed, a whitelist mint used, the owned
  count up, and the cooldown record written. A failed mint becomes a user message.
- **Mint button** (`src/MintButton.tsx`): the `disabled` predicate and the label
  cascade. A handshake with the human-verification gateway turns a click into a
  token request, and `onMint` fires once the gateway reports ACTIVE.
- **Collectibles scan** (`src/utils.ts`): token accounts are filtered to NFT
  candidates. Their metadata accounts are fetched in pages of at most 100, and the
  NUL padding is stripped. Each wallet gets the number of records that match an
  authority/name filter, and any failure falls back to the number 3.

Modules: `Wrappers` (Option), `CandyMachine` (the on-chain state the page reads),
`Pricing` and `MintErrors` (the pure parts of `Home.tsx`), `Home` (class
`MintSession`: the React state the mint flow reads or writes, and the two
`localStorage` entries, are fields; `page`, `balance`, `progress` and
`intervalId` are not, and `mintable`, which the page never sets, is replaced by
the `true` the page passes to the button), `MintButton` (pure predicates, the handshake as functions and as class
`GatewayButton`), `Utils` and `Collectibles` (`utils.ts`).

The RPC calls are modelled as inputs. A `Ledger` value gives each wallet's parsed
token accounts and every account's data. The metadata address derivation and the
borsh decoder are function parameters. Prices are exact `real`s: the raw integer
price divided by its scale.

The model follows the code as written, including where it departs from what
its comments and names suggest. There is one exception: the owned-count reading
in `Home.OwnedCount` and `Home.MintSession.RefreshOwnership` follows the corrected
reading described under Findings. `Home.OwnedCountAsWritten` keeps the reading as
written. The departures are these:
- The code replaces the whitelist price whenever the discount is non-null. It
  compares BN objects by reference, so the discount never equals the base price.
- The code's handshake has no cancel transition. `AbandonedHandshakeStaysPending`
  proves that it stays pending.
- The code has no single admission function. Admission is the button's `disabled`
  expression plus the page's `wallet && isActive` render guard.
- The failure fallback of the ownership scan is meant to count as owned items,
  so that a failed scan limits the wallet. As written it does not. See Findings.

## Model

| member | source | states |
|---|---|---|
| `Utils.ToDate` | src/utils.ts:28-34 | absent gives absent (a zero BN is present); otherwise a whole number of milliseconds that divides back to the seconds |
| `Utils.Format` | src/utils.ts:43-49 | "--" exactly for an absent value or 0; any other value is formatted as itself |
| `Utils.AsNumber` | src/utils.ts:50-56 | absent exactly when the input is absent; otherwise the SOL amount times 10^9 is the lamports |
| `Utils.CreateAssociatedTokenAccountInstruction` | src/utils.ts:100-148 | seven metas in the fixed order payer, ATA, wallet, mint, system program, token program, rent sysvar; only the payer signs; only payer and ATA are writable; empty data; ATA program as target |
| `Utils.IndexOfFrom` | src/utils.ts:242 | `indexOf` gives the first occurrence at or after the start, or -1 when there is none |
| `Utils.IndexOfZeroIffPrefix` | src/Home.tsx:378-383 | `indexOf` is 0 exactly when the text starts with the pattern |
| `Utils.IndexOfFindsOccurrence` | src/utils.ts:242 | `indexOf(...) >= 0` exactly when the pattern occurs somewhere |
| `Utils.StripNul` | src/utils.ts:157-159 | the result has no NUL, is no longer than the input, and keeps every other character with its multiplicity |
| `Utils.StripNulAppend` | src/utils.ts:151-159 | stripping distributes over concatenation, so the order of the other characters is kept |
| `Utils.StripNulOfNulFree` | src/utils.ts:151-159 | a text without NUL is unchanged |
| `Utils.StripNulIdempotent` | src/utils.ts:151-159 | stripping twice equals stripping once |
| `Utils.StripNulPadding` | src/utils.ts:151-159 | a NUL-free text padded with any number of NULs strips back to itself |
| `Utils.NulsStripToEmpty` | src/utils.ts:151-159 | pure NUL padding strips to the empty text |
| `Utils.Clean` | src/utils.ts:157-159 | name, symbol and uri become `StripNul` of the old fields, so they are NUL-free and keep every other character in order; authority and mint are kept |
| `Utils.CleanIdempotent` | src/utils.ts:157-159 | cleaning is idempotent, and a NUL-free record is already clean |
| `Utils.DecodeMetadata` | src/utils.ts:150-161 | fails exactly when the deserializer fails; otherwise it is the cleaned deserialized record |
| `Collectibles.IsNftCandidate` | src/utils.ts:191-198 | an account with amount text "0" or with decimals is excluded; the amount is compared as text, so "00" with 0 decimals is kept |
| `Collectibles.PotentialNfts` | src/utils.ts:181-201 | no more candidates than token accounts |
| `Collectibles.PotentialNftsAppend` | src/utils.ts:185-199 | the filter and map distribute over concatenation, so candidates keep the order and multiplicity of their accounts |
| `Collectibles.PotentialNftsExact` | src/utils.ts:191-199 | a candidate is listed iff some account with amount other than '0' and 0 decimals projects to it |
| `Collectibles.ProgramAddresses` | src/utils.ts:204-220 | one entry per candidate, in order, with the derived metadata address |
| `Collectibles.Programs` | src/utils.ts:225 | the requested addresses are the derived ones, index by index |
| `Collectibles.GetMultipleAccountsInfo` | src/utils.ts:224-226 | one answer per requested address, at the same index, null for a missing account |
| `Collectibles.FetchAccountInfos` | src/utils.ts:221-229 | requests hold 1 to 100 addresses each, there are ceil(n/100) of them, together they are the address list in order, and the joined answers line up with the addresses |
| `Collectibles.Pair` | src/utils.ts:230-233 | each answer is paired with the candidate at the same index |
| `Collectibles.NonNull` | src/utils.ts:234 | an entry is kept iff it is in the input and has an account |
| `Collectibles.NonNullAppend` | src/utils.ts:234 | the filter distributes over concatenation, so the kept entries keep their order |
| `Collectibles.FilterMatches` | src/utils.ts:242 | a filter matches iff the authority is equal and the collection name occurs somewhere in the record's name |
| `Collectibles.FindFilter` | src/utils.ts:242 | finds a filter with equal authority and the name containing the collection name, and finds none only when no filter matches |
| `Collectibles.Kept` | src/utils.ts:234-252 | the entries meant to be counted: an entry is in it iff it is in the input, has an account, decodes, and some filter matches the record |
| `Collectibles.KeptAppend` | src/utils.ts:238-250 | the selection distributes over concatenation, so it keeps the input order |
| `Collectibles.KeptOfNonNull` | src/utils.ts:234 | removing the null accounts first selects the same entries |
| `Collectibles.MatchingInfos` | src/utils.ts:235-250 | the kept list is no longer than the non-null accounts |
| `Collectibles.MatchingInfosFailure` | src/utils.ts:238-241 | the decode loop fails exactly when some account in its input does not decode |
| `Collectibles.MatchingInfosSound` | src/utils.ts:238-250 | every kept account comes from the input and decodes to a record that some filter matches |
| `Collectibles.MatchingInfosExact` | src/utils.ts:238-250 | a completed decode loop keeps exactly the selected entries, in input order: every matching account is kept and nothing else |
| `Collectibles.CollectMatching` | src/utils.ts:235-252 | the decode loop computes exactly the kept list, or fails |
| `Collectibles.WalletCount` | src/utils.ts:202-253 | fails iff the wallet's token-account lookup throws or one of its fetched metadata accounts does not decode; otherwise it is the number of its candidates whose metadata account exists, decodes and matches a filter |
| `Collectibles.CountForWallet` | src/utils.ts:202-253 | one wallet's pipeline gives that wallet's count, or fails when its lookup or a decode fails |
| `Collectibles.CountBoundedByCandidates` | src/utils.ts:202-253 | a wallet's count is at most its number of NFT candidates, which is at most its number of token accounts |
| `Collectibles.AllCollectibles` | src/utils.ts:163-260 | the fallback is 3; a count list has one entry per wallet, in wallet order, each that wallet's count |
| `Collectibles.GetAllCollectibles` | src/utils.ts:163-260 | computes the per-wallet counts, or the fallback |
| `Collectibles.CollectiblesShape` | src/utils.ts:174-259 | the fallback is returned iff some wallet's scan fails |
| `Pricing.SplTokenDecimals` | src/Home.tsx:32 | the configured decimals, 9 when unset |
| `Pricing.SplTokenName` | src/Home.tsx:33 | the configured name when non-empty, "TOKEN" otherwise; never empty |
| `Pricing.JoinZeros` | src/Home.tsx:206 | `new Array(n).join('0')` is n-1 zeros (none for n = 0) |
| `Pricing.Divider` | src/Home.tsx:204-207 | the number parsed from "1" + `new Array(decimals).join('0')` + "0" is 10^decimals, and the divider is 1 for decimals = 0 |
| `Pricing.Scale` | src/Home.tsx:210-220 | the scale is at least 1 |
| `Pricing.UnitPrice` | src/Home.tsx:215-228 | the displayed price times its scale is the raw price, and it is never negative |
| `Pricing.ScaleIsPowerOfTen` | src/Home.tsx:204-220 | with a token mint the scale is 10^decimals, without one 10^9 lamports per SOL |
| `Pricing.PriceExamples` | src/Home.tsx:210-220 | 10^9 base units show as 1 SOL, and as 1000 tokens with 6 decimals |
| `MintErrors.Classify` | src/Home.tsx:372-390 | the message is one of the five fixed texts, or the error's own `msg` |
| `MintErrors.ClassifyCases` | src/Home.tsx:372-390 | with `msg`: code 311 gives "SOLD OUT!", 312 gives the not-started text, else the `msg`; with neither field: the timeout text; with only `message`: "SOLD OUT!" iff it starts with "0x138", the generic text otherwise |
| `MintErrors.InsufficientFundsUnreachable` | src/Home.tsx:378-383 | without `msg` the insufficient-funds text is never shown |
| `MintButton.Disabled` | src/MintButton.tsx:74-82 | an enabled button has a connected wallet and an active, unsold sale, and shows "MINT HERE" or, with no machine loaded yet, "CONNECTING..." |
| `MintButton.ButtonLabel` | src/MintButton.tsx:95-118 | each label holds iff its condition does. "CONNECTING..." means no machine. With a machine: "SOLD OUT" if sold out. Otherwise, when active, the first true of verifying ("VERIFYING..."), minting ("Minting..."), not mintable (countdown), limited ("Mint limited."), else "MINT HERE". When inactive: "SOON" with a go-live date, "UNAVAILABLE" without one |
| `MintButton.EnabledIffMintHere` | src/MintButton.tsx:74-118 | with a machine loaded, the button is enabled iff its text is "MINT HERE" and a wallet is connected |
| `MintButton.SoldOutDominates` | src/MintButton.tsx:74-98 | sold out (machine or prop) shows the text "SOLD OUT" over every other label and disables the button |
| `MintButton.ActiveLabels` | src/MintButton.tsx:95-118 | the verifying/minting/countdown/limited/"MINT HERE" labels appear iff a machine is loaded, it is not sold out and the sale is active |
| `MintButton.ClickStep` | src/MintButton.tsx:83-92 | a click requests a gateway token iff the sale is active, a machine is loaded whose state has a gatekeeper (`candyMachine?.state.gatekeeper`, falsy without a machine) and the gateway is not ACTIVE, and then sets `clicked`; every other click calls `onMint` and changes nothing |
| `MintButton.EffectStep` | src/MintButton.tsx:60-70 | afterwards `isVerifying` iff the status is COLLECTING_USER_INFORMATION and `clicked`; `onMint` fires iff ACTIVE and `clicked`; `clicked` stays set iff it was set and the status is not ACTIVE |
| `MintButton.ActiveFiresOnce` | src/MintButton.tsx:65-69 | a second evaluation with ACTIVE does not mint again |
| `MintButton.MintsBoundedByClicks` | src/MintButton.tsx:60-92 | over any run of clicks and effect evaluations, calls of `onMint` never exceed the clicks (plus a pending click) |
| `MintButton.AbandonedHandshakeStaysPending` | src/MintButton.tsx:49-70 | without ACTIVE, a pending handshake never returns to idle and nothing mints |
| `MintButton.GatewayButton.constructor` | src/MintButton.tsx:49-50 | `clicked` and `isVerifying` start false |
| `MintButton.GatewayButton.OnClick` | src/MintButton.tsx:83-92 | the handler's new state and action are those of `ClickStep` |
| `MintButton.GatewayButton.RunEffect` | src/MintButton.tsx:60-70 | the effect's new state and mint are those of `EffectStep` |
| `Home.Succeeded` | src/Home.tsx:342-353 | only a confirmation counts as success: without a transaction id the status stays `{err: true}`; a status whose `err` is set fails, a null status succeeds |
| `Home.AfterSuccess` | src/Home.tsx:291-301 | remaining -1, redeemed +1, their sum kept; sold out iff the new remaining is 0; a positive (possibly fractional) whitelist balance drops by 1 and `isActive` becomes new balance > 0; a balance that is not positive leaves both alone |
| `Home.SuccessesSettle` | src/Home.tsx:291-301 | after k mints remaining is -k, redeemed is +k, the sum is kept, sold out iff remaining was k; a positive whitelist balance b becomes b - min(k, ceil(b)), any other stays |
| `Home.WhitelistRunsOut` | src/Home.tsx:296-300 | with a positive whitelist balance b, after mint k (1 <= k <= ceil(b)) the page is active iff k < b |
| `Home.FractionalWhitelistBalance` | src/Home.tsx:296-300 | a balance of 0.5 admits one mint, then reads -0.5 and is inactive, and stays -0.5 |
| `Home.OwnedCountAsWritten` | src/Home.tsx:439 | as written, the fallback number has no element 0 and reads as undefined; a count list gives its first count |
| `Home.TooManyTokensAsWritten` | src/Home.tsx:517 | as written, undefined is never limited; a number is limited iff it is at least 1 |
| `Home.ScanFailureAdmitsAsWritten` | src/Home.tsx:436-439 | as written, a failed scan yields the bare 3, and `nftNum[0] >= 1` is then false, so the wallet is not limited |
| `Home.OwnedCount` | src/Home.tsx:439 | corrected reading (see Findings): the owned count is element 0 of the counts, or the fallback number itself |
| `Home.ScanFailureLimits` | src/utils.ts:256-259 | for one wallet the result has one count; a failed scan gives an owned count >= 1; a successful one gives the wallet's count |
| `Home.MintSession.ButtonProps` | src/Home.tsx:509-520 | the button always gets `mintable`, and `tooManyTokens` iff the owned count is at least 1 |
| `Home.MintSession.constructor` | src/Home.tsx:142-167 | the initial state values: zero counters, "SOL" label, nothing active; stored cooldown record kept |
| `Home.MintSession.Refresh` | src/Home.tsx:182-268 | machine and counters loaded; prices resolved; with a wallet and whitelist settings the balance is the looked-up `uiAmount` (a real number) or 0, and `isActive` iff it is positive, otherwise both unchanged; loading ends false |
| `Home.MintSession.ResolvePrices` | src/Home.tsx:204-234 | price and whitelist price are raw over the scale (the discount when non-null); `whitelistEnabled` iff settings exist; an SPL price takes the token name, a SOL price keeps the old label |
| `Home.MintSession.RefreshWhitelistBalance` | src/Home.tsx:242-261 | with whitelist settings the balance is the lookup or 0 and `isActive` iff it is positive |
| `Home.MintSession.SetLastMintTime` | src/Home.tsx:320-326 | both cooldown keys are written iff a wallet is connected |
| `Home.MintSession.DisplaySuccess` | src/Home.tsx:291-301 | the counters become `AfterSuccess` of the old counters |
| `Home.MintSession.OnMint` | src/Home.tsx:328-401 | minting and loading end false; a confirmed mint settles counters, owned count +1, cooldown and success alert; a missing id, an error status or a throw change no counter and raise the failure or classified alert; without wallet or machine only the flags change |
| `Home.MintSession.RefreshOwnership` | src/Home.tsx:429-442 | corrected reading (see Findings): the owned count is the wallet's count, or 3 when the scan fails, so the button is limited unless the scan found 0 |

## Left out

- Rendering, styled-components, the snackbar, `Countdown` widgets and confetti are presentation only.
- The `Countdown` callbacks that set `isActive` at the go-live date (src/Home.tsx:523-530) are timer-driven rendering and are not modelled.
- RPC and wallet calls are inputs: `getCandy`, `getCandyMachineState`, `mintOneToken`, `awaitTransactionSignatureConfirmation`, `getTokenAccountBalance`, `getParsedTokenAccountsByOwner`, `getMultipleAccountsInfo` and `requestGatewayToken`. src/candy-machine.ts is not part of this model.
- `getBalance` (src/Home.tsx:433-434) and the `balance` state it sets are left out; `balance` is never rendered. Only the fee update in `displaySuccess` (src/Home.tsx:303-305) reads it, and that update is left out as well (see below).
- Transport failure of `getMultipleAccountsInfo` is not a separate input. A wallet without an entry in the ledger's token accounts stands for every failure that reaches the catch.
- `PublicKey.findProgramAddress`, `getAtaForMint`, `getNetworkExpire` and `getNetworkToken` need SHA-256 and curve checks inside a library. The metadata address derivation is a function parameter.
- borsh deserialization and the metadata schema are foreign. The decoder is a function parameter, and only the fields the scan reads are kept.
- Utils.DecodeMetadata: the in-place overwrite of the freshly decoded record is modelled as building the cleaned value. Nobody holds the record before it is returned, so no aliasing is lost.
- `metadataList` is built but never read (src/utils.ts:243-246), so it is not modelled.
- Utils.Format: returns the number to format rather than the en-US text with two decimals, because `Intl.NumberFormat` is a foreign library.
- Floating point is not modelled. Prices and the whitelist token balance are exact reals. The SOL balance update with the 0.012 fee (src/Home.tsx:302-305) and the `Math.round` progress bar (src/Home.tsx:202, 294) are left out. Numbers above 2^53 and non-numeric or negative decimals settings are not modelled.
- A whitelist `discountPrice` that is `undefined` rather than `null` is not modelled. It would give a NaN price.
- The 1-second cooldown interval (src/Home.tsx:404-427) has empty branch bodies and changes nothing. It is left out together with timers.
- React scheduling is not modelled: batching of state updates, effect ordering and stale closures. Each handler runs to completion on the current state.
- A refresh whose fetch rejects is not modelled, because the fetches are inputs.
- A thrown `null` or `undefined` is not modelled; reading `error.msg` would throw again inside the catch. A thrown string or number behaves like an error with neither `msg` nor `message`, which `MintError(None, None, None)` covers.
- Page navigation (`goToHome`/`goToMint`) and `localStorage` as storage are left out. Only the two values written are kept, as fields.

## Findings

| source | as written | input that shows it | evidently intended | confidence | as-written member | corrected member |
|---|---|---|---|---|---|---|
| src/Home.tsx:439 | On any failure `getAllCollectibles` returns the bare number 3 (src/utils.ts:258). `setTooManyTokens(nftNum[0])` then stores `undefined`, and `tooManyTokens >= 1` (src/Home.tsx:517) is false. After a mint, `undefined + 1` is NaN and still compares false. | a wallet whose token-account lookup throws, so `WalletCount` is `None` | the fallback counts as owned items, so that a failed scan limits the wallet | high; not executed | `Home.ScanFailureAdmitsAsWritten` | `Home.ScanFailureLimits` (via `Home.OwnedCount`, used by `Home.MintSession.RefreshOwnership`) |
