# BBC wallet front end: wallet store, display helpers and transaction views

This project models the client-side logic of the BBC wallet web app and proves properties of that model. The app is a browser wallet for the BigBlackCoin token on a local development chain. The model covers:

- **The wallet store** (`Store`). This is the zustand store `useWalletStore`. It holds the connection, both balances, the exchange-rate table, the capped transaction history, the set of pending hashes, token metadata, the gas estimate and the last error.
  - zustand keeps one state object and replaces it on every `set` with a copy that has the given fields merged in. `Store.WalletStore` does the same: it has one field `state: WalletState`, and each method reassigns it with a record update, in the same order as the source's `set` calls.
  - Each method is proved equal to a step function on `WalletState`, and the lemmas are stated about those step functions.
  - Browser `localStorage` is the field `storage`, a map from key to `Stored`. A stored value is either a plain string or the transaction list the store serialised. `JSON.parse(JSON.stringify(list))` gives the same records back, so the list is kept as the list itself.
  - Every answer from outside is a parameter of the action: provider and contract answers, receipts, thrown values, whether a storage write succeeded, and the clock.
  - Every sequence of actions is covered. Starting from the initial store, the store never stays "connecting", it has no address while disconnected, and its rate table has exactly the supported symbols. The pending set stays empty. When the history persisted before the start holds at most 50 entries, the history in memory and in storage never exceeds 50 entries; `loadInitialData` restores a longer persisted list as it is, so without that condition there is no such bound.
- **The display and validation helpers** (`Utils`). These are `formatBalance`, `formatAddress`, `shortenHash`, `isValidAddress` and `timeAgo`.
  - `formatBalance` is modelled digit by digit on the decimal rendering of the balance.
  - It is proved to read back to the balance it renders, and its output is canonical: no trailing "." and no trailing fraction zero.
  - The zero-decimals case is reported under Findings.
- **The transaction hooks** (`TransactionHooks`): the statistics, the newest-first sort (a permutation, newest first, stable), the per-type view, the five most recent entries, and `addNewTransaction`.
- **The transaction history page** (`TransactionsPage`): the four filters, the stat cards, and the sent/received classification of each row.
- **The blockchain helpers** (`Blockchain`): the chain-switch decisions of `connectWallet`, the 20% gas buffer, the `getGasPrice` default, `formatTransaction`, and the memoised `getDeploymentInfo`.
- **Error messages** (`Types`): `getErrorMessage` over the values a JavaScript `throw` can carry.

Three modules are helpers:

- `JsText` holds the JavaScript string built-ins the code relies on: `slice` with negative indices, `padStart`, the trailing-zero `replace`, ASCII `toLowerCase`, and bigint `toString`.
- `TxQuery` holds `filter` and counting over sequences.
- `Wrappers` holds `Option`, `Result` and `Outcome`.

**Facts about the code that the model keeps:**

- `frontend/src/lib/coingecko.ts` keeps no price cache and no rate limiter, so every call fetches afresh. Nothing of it is modelled.
- `addTransaction` does not check that hashes are unique, so the model does not assume they are.
- `disconnect` and the history restore in `loadInitialData` write nothing to storage. The model does the same.

**The three loads inside `loadInitialData`** (`Promise.all` of `refreshBalances`, `refreshExchangeRates` and `loadTokenInfo`) are run one after another.

- `Promise.all` starts all three loads at once, and each reads `address`, `bbcAddress` and `oracleAddress` before its first `await` (store.ts 177, 196, 270). So all three see the values from before any of them writes.
- `loadTokenInfo` writes `bbcAddress` and `oracleAddress` (store.ts 296-297), which the other two read. `Store.WalletStore.LoadInitialData` runs it last, so the other two still read the earlier values, as they do in the source.
- The three loads write disjoint fields. The one read after an `await`, `exchangeRates` in `refreshExchangeRates` (store.ts 203), is written by no other load.
- So running them in this order gives the same final state as any interleaving.

## Model

| member | source | states |
|---|---|---|
| Types.GetErrorMessage | frontend/src/types/index.ts:27-31 | an Error gives its message; otherwise a string gives itself; any other value gives "An unknown error occurred" |
| Types.ErrorTestsDisjoint | frontend/src/types/index.ts:28-29 | no Error instance has `typeof` "string", and `typeof` is "string" exactly for strings, so the Error case precedes the string case without overlap |
| Utils.FormatBalanceZeroDecimalsLosesWhole | frontend/src/lib/utils.ts:18-23 | as written, 120 base units with 0 decimals render as ".12", which does not read back as any amount |
| Utils.FormatBalanceAgrees | frontend/src/lib/utils.ts:15-24 | for a zero balance or at least one decimal, the corrected rendering is exactly the source's |
| Utils.FormatBalanceParts | frontend/src/lib/utils.ts:16-23 | zero renders as "0"; otherwise the whole units ("0" below one unit), then "." and the zero-padded remainder with trailing zeros stripped, only when the remainder is not zero; with 0 decimals the integer itself |
| Utils.UnitsSplit | frontend/src/lib/utils.ts:21-22 | whole units times 10^d plus the remainder is the balance, and the remainder is below 10^d |
| Utils.UnitsAreDivMod | frontend/src/lib/utils.ts:21-22 | the integer part is `balance / 10^d` and the remainder is `balance % 10^d` |
| Utils.SplitNatToString | frontend/src/lib/utils.ts:21-22 | a rendering longer than d digits splits into the rendering of the whole units and the d low-order digits |
| Utils.PaddedNatToString | frontend/src/lib/utils.ts:18-19 | a rendering of at most d digits, padded to d with zeros, is the d low-order digits, and there are no whole units |
| Utils.TrimTrailingZerosShape | frontend/src/lib/utils.ts:19-22 | stripping `/0+$/` keeps a prefix that does not end in "0", and everything removed is "0" |
| Utils.TrimTrailingZerosValue | frontend/src/lib/utils.ts:19-22 | on digits, stripping divides the value by 10 per removed zero, and leaves "" exactly when the value is 0 |
| Utils.BalancePartsAre | frontend/src/lib/utils.ts:17-22 | both branches produce the rendering of the whole units and the stripped d low-order digits |
| Utils.BalancePartsMeaning | frontend/src/lib/utils.ts:17-22 | the integer part denotes the whole units, and the fraction (at most d digits) scaled back by 10^(d - length) is the remainder |
| Utils.FormatBalanceJoinsParts | frontend/src/lib/utils.ts:23 | the result is integer "." fraction, or just the integer when the fraction is empty |
| Utils.FormatBalanceRoundTrip | frontend/src/lib/utils.ts:15-24 | reading the rendering back as a decimal with d places gives exactly the balance, for every balance and every d |
| Utils.FormatBalanceCanonical | frontend/src/lib/utils.ts:15-24 | a rendering is never empty, never ends in ".", and never ends in "0" once it has a "." |
| Utils.FormatAddress | frontend/src/lib/utils.ts:9-12 | "" maps to ""; otherwise the first min(6, n) and last min(4, n) characters around "...", 13 characters when n >= 6 |
| Utils.ShortenHash | frontend/src/lib/utils.ts:47-50 | "" maps to ""; otherwise the first and last min(c, n) characters around "..." (length 2k+3) for c >= 1, and "..." plus the hash for c = 0 |
| Utils.HexRunOfMeaning | frontend/src/lib/utils.ts:54 | the `[a-fA-F0-9]{40}$` matcher accepts exactly a string of that length made of hex digits |
| Utils.IsValidAddress | frontend/src/lib/utils.ts:53-55 | true iff the length is 42, the string starts with "0x", and characters 2..41 are hex digits |
| Utils.TimeAgo | frontend/src/lib/utils.ts:68-88 | "just now" iff fewer than 60 whole seconds have elapsed (future timestamps included); otherwise the first unit, year to minute, with a count of at least 1, that count, and an "s" iff the count exceeds 1 |
| Blockchain.ConnectWallet | frontend/src/lib/blockchain.ts:82-122 | with no provider it fails with the no-wallet error before any call; the chain switch is requested iff the earlier calls succeed and the chain is not 31337; add-chain runs iff the switch failed with code 4902; any other switch error is re-thrown; on success the result is the first account |
| Blockchain.GasLimit | frontend/src/lib/blockchain.ts:174-176 | the limit `(estimate*120)/100` is at least the estimate and at most 6/5 of it, with integer truncation |
| Blockchain.GetGasPrice | frontend/src/lib/blockchain.ts:266-269 | the fee data's gas price, or 0 when it has none |
| Blockchain.ReceiptDisplayStatus | frontend/src/lib/blockchain.ts:289 | success iff a receipt with status 1; failed iff a receipt with status 0; pending otherwise |
| Blockchain.IsBbcTransferIgnoresCase | frontend/src/lib/blockchain.ts:288 | recognising the token contract ignores letter case on both addresses |
| Blockchain.FormatTransaction | frontend/src/lib/blockchain.ts:283-318 | keeps hash and sender; an empty recipient becomes absent; status from the receipt; kind "send" on every path; "BBC" iff the recipient equals the token address ignoring case, else "ETH"; value is the decoded transfer amount for a decoded BBC transfer, else the native value or "0" |
| Blockchain.DeploymentCache.constructor | frontend/src/lib/blockchain.ts:56 | the memo starts empty with nothing loaded |
| Blockchain.DeploymentCache.Get | frontend/src/lib/blockchain.ts:58-69 | the first call loads the generated file, or the template when that is missing, and caches it; later calls return the cached record and load nothing |
| Blockchain.GetTwice | frontend/src/lib/blockchain.ts:58-69 | two calls return the same record, whatever files the second one would find, and at most one load happens |
| Store.ParseCurrency | frontend/src/lib/store.ts:374 | a code is accepted iff it is one of USD, EUR, GBP, BBC, ETH, BTC, and the accepted currency has that code |
| Store.Prepend | frontend/src/lib/store.ts:330 | the new list has length min(n+1, 50), the new entry first, then the previous entries in order with the oldest dropped |
| Store.PrependFull | frontend/src/lib/store.ts:330 | on a full 50-entry list the new entry pushes out exactly the oldest entry and the length stays 50 |
| Store.WithStatus | frontend/src/lib/store.ts:341-343 | same length and order; entries with the hash get the new status with every other field kept; all other entries are untouched |
| Store.WithStatusIdempotent | frontend/src/lib/store.ts:341-343 | applying the same status update twice is the same as applying it once |
| Store.CollectRates | frontend/src/lib/store.ts:201-211 | the table built by the loop has exactly the supported symbols as keys, each mapped by the per-symbol rule |
| Store.AddTransactionSpec | frontend/src/lib/store.ts:328-336 | the history becomes `[tx] + old[..k]`, at most 50 long; with a successful write the storage key "bbc-tx-history" holds exactly that list; a failed write leaves storage alone but not the history; no other field changes |
| Store.UpdateTransactionStatusSpec | frontend/src/lib/store.ts:339-354 | length and order kept, matching entries get the status, others unchanged; the hash leaves the pending set and every other pending hash stays; the list is persisted on a successful write; every other field is unchanged |
| Store.DisconnectSpec | frontend/src/lib/store.ts:164-173 | address absent, disconnected, both balances 0, history empty; every other field, including storage, currency, rates, error, connecting flag, pending set, token and gas fields, contract addresses and supported list, unchanged |
| Store.RefreshBalancesSpec | frontend/src/lib/store.ts:176-192 | nothing changes without an address or token address, or when any query fails; otherwise both balances are replaced together and nothing else changes |
| Store.RefreshExchangeRatesSpec | frontend/src/lib/store.ts:195-217 | nothing changes without an oracle address or when the provider fails; otherwise only the table changes; it has exactly the supported symbols; a succeeded query gives its price; a failed one gives the previous rate, or 1 when that was missing or 0 |
| Store.SendSuccessSpec | frontend/src/lib/store.ts:220-251 | returns the receipt hash; error cleared; exactly one record prepended, with the receipt hash, the current address or "", the recipient, amount and time, type send, token BBC, status success iff receipt status is 1, never pending; the new list is persisted on a successful write; the balances are those of a successful refresh, otherwise unchanged; every other field is unchanged |
| Store.SendFailureSpec | frontend/src/lib/store.ts:222-256 | a failure before the receipt re-throws the same value, stores its message as the error, and changes nothing else (no record added) |
| Store.ConnectSuccessSpec | frontend/src/lib/store.ts:124-139 | a successful connection ends connected with the wallet's account, not connecting, error cleared |
| Store.ConnectFailureSpec | frontend/src/lib/store.ts:125-160 | a failed connection sets the error to the message of what was thrown and ends connecting; every other field, the connection flag included, is unchanged |
| Store.CurrencySpec | frontend/src/lib/store.ts:260-263 | the in-memory currency becomes c; a successful write stores its code under "bbc-selected-currency"; a failed write is re-thrown after the in-memory change; every other field is unchanged |
| Store.ClearErrorSpec | frontend/src/lib/store.ts:266 | the error becomes null and nothing else changes |
| Store.LoadTokenInfoSpec | frontend/src/lib/store.ts:269-307 | without a token address or on any failure nothing changes; otherwise the four token fields and both contract addresses from the deployment record are set, and nothing else |
| Store.EstimateGasSpec | frontend/src/lib/store.ts:310-325 | without a token address or on any failure nothing changes; otherwise the estimate and the gas price (0 when the fee data has none) are set, and nothing else |
| Store.RestoreCurrencySpec | frontend/src/lib/store.ts:373-376 | a saved currency is adopted iff it is one of the six codes; otherwise the store is unchanged |
| Store.RefreshBalancesFrame | frontend/src/lib/store.ts:176-192 | the balance refresh leaves the session, the history, the pending set, storage, rates and currency alone |
| Store.RefreshExchangeRatesFrame | frontend/src/lib/store.ts:195-217 | the rate refresh leaves the session, history, pending set, storage and currency alone, and keeps the table over exactly the supported symbols |
| Store.LoadTokenInfoFrame | frontend/src/lib/store.ts:269-307 | loading token metadata leaves the session, history, pending set, storage, rates and currency alone |
| Store.RestoreCurrencyFrame | frontend/src/lib/store.ts:373-376 | the currency restore changes no field but the currency |
| Store.LoadInitialDataFrame | frontend/src/lib/store.ts:357-377 | `loadInitialData` ends with the saved history when there is one; it leaves the session, pending set and storage alone; it leaves the error alone; it keeps the rate table over the supported symbols; it ends with the saved currency when that names a known currency, and with the current one otherwise |
| Store.CurrencyPersists | frontend/src/lib/store.ts:373-376 | a currency stored by `setSelectedCurrency` is the one `loadInitialData` restores, whatever the in-memory choice was since |
| Store.HistoryPersists | frontend/src/lib/store.ts:359-364 | the history written by `addTransaction` is the one `loadInitialData` restores after a disconnect |
| Store.InitialConsistent | frontend/src/lib/store.ts:92-121 | the initial store is not connecting, has no address, its rate table matches the six supported symbols, and its pending set is empty |
| Store.LoadInitialDataKeeps | frontend/src/lib/store.ts:357-377 | `loadInitialData` keeps the store consistent, the session and pending set unchanged, and the history within 50 |
| Store.ConnectKeeps | frontend/src/lib/store.ts:124-161 | `connect`, on either outcome, keeps the store consistent and the history within 50 |
| Store.SendKeeps | frontend/src/lib/store.ts:220-257 | `sendBBC`, on either outcome, keeps the store consistent and the history within 50 |
| Store.AddTransactionKeeps | frontend/src/lib/store.ts:328-336 | `addTransaction` keeps the store consistent, the pending set unchanged and the history within 50 |
| Store.UpdateTransactionStatusKeeps | frontend/src/lib/store.ts:339-354 | a status update keeps the store consistent and the history within 50, and never adds to the pending set |
| Store.CurrencyKeeps | frontend/src/lib/store.ts:260-263 | choosing a currency keeps the store consistent, the pending set unchanged and the history within 50 |
| Store.ApplyKeeps | frontend/src/lib/store.ts:124-377 | every action keeps the store consistent and the history within 50, and never adds to the pending set |
| Store.RunKeeps | frontend/src/lib/store.ts:339-354 | across any sequence of actions the store stays consistent, the history stays within 50, and the pending set only shrinks |
| Store.ReachableStates | frontend/src/lib/store.ts:110 | every store reachable from the initial one is consistent, within the cap, and has an empty pending set |
| Store.WalletStore.constructor | frontend/src/lib/store.ts:92-121 | the store starts in the initial state over the persisted storage |
| Store.WalletStore.Connect | frontend/src/lib/store.ts:124-161 | performs the `connect` step, loading the initial data in place on success |
| Store.WalletStore.Disconnect | frontend/src/lib/store.ts:164-173 | performs the `disconnect` step |
| Store.WalletStore.RefreshBalances | frontend/src/lib/store.ts:176-192 | performs the balance refresh step |
| Store.WalletStore.RefreshExchangeRates | frontend/src/lib/store.ts:195-217 | performs the rate refresh step, building the table with `BuildRates` |
| Store.BuildRates | frontend/src/lib/store.ts:201-211 | the loop over the supported symbols builds exactly the table the rate refresh step specifies |
| Store.WalletStore.SendBBC | frontend/src/lib/store.ts:220-257 | performs the send step through `AddTransaction` and `RefreshBalances`, and returns its hash or re-throws |
| Store.WalletStore.SetSelectedCurrency | frontend/src/lib/store.ts:260-263 | performs the currency step and returns the write's exception |
| Store.WalletStore.ClearError | frontend/src/lib/store.ts:266 | performs the clear-error step |
| Store.WalletStore.LoadTokenInfo | frontend/src/lib/store.ts:269-307 | performs the token-metadata step |
| Store.WalletStore.EstimateGas | frontend/src/lib/store.ts:310-325 | performs the gas-estimate step |
| Store.WalletStore.AddTransaction | frontend/src/lib/store.ts:328-336 | performs the capped prepend and its persistence |
| Store.WalletStore.UpdateTransactionStatus | frontend/src/lib/store.ts:339-354 | performs the status update, its persistence and the pending-set removal |
| Store.WalletStore.LoadInitialData | frontend/src/lib/store.ts:357-377 | restores the history, runs the three loads, then restores the currency |
| TransactionHooks.Stats | frontend/src/hooks/useTransactions.ts:103-110 | total is the length; sent, received, pending, successful and failed are the numbers of positions in the history whose entry has that type or status |
| TransactionHooks.StatusCountsAddUp | frontend/src/hooks/useTransactions.ts:107-109 | pending + successful + failed is the total |
| TransactionHooks.SentAndReceivedWithinTotal | frontend/src/hooks/useTransactions.ts:105-106 | sent + received + approvals is the total, so sent + received is at most the total |
| TransactionHooks.Insert | frontend/src/hooks/useTransactions.ts:55-57 | inserting makes the list one longer and starts with the newer of the new entry and the old head |
| TransactionHooks.InsertPermutes | frontend/src/hooks/useTransactions.ts:55-57 | inserting adds exactly the one entry, as a multiset |
| TransactionHooks.InsertNewestFirst | frontend/src/hooks/useTransactions.ts:55-57 | inserting into a newest-first list keeps it newest first |
| TransactionHooks.SortedByTime | frontend/src/hooks/useTransactions.ts:55-57 | the sorted list is newest first and a permutation of the history |
| TransactionHooks.InsertAtTime | frontend/src/hooks/useTransactions.ts:55-57 | inserting keeps the entries of each timestamp in their previous order |
| TransactionHooks.SortStable | frontend/src/hooks/useTransactions.ts:55-57 | the sort is stable: entries sharing a timestamp keep the history's order |
| TransactionHooks.InsertCount | frontend/src/hooks/useTransactions.ts:55-57 | inserting raises a count by one exactly when the new entry passes the test |
| TransactionHooks.SortedCount | frontend/src/hooks/useTransactions.ts:55-57 | sorting changes no count |
| TransactionHooks.FilterNotNewer | frontend/src/hooks/useTransactions.ts:64 | filtering keeps an upper bound on the timestamps |
| TransactionHooks.FilterNewestFirst | frontend/src/hooks/useTransactions.ts:64 | filtering a newest-first list leaves it newest first |
| TransactionHooks.TransactionsByTypeSpec | frontend/src/hooks/useTransactions.ts:62-67 | exactly the entries of the type, each as often as in the history, newest first, in the sorted list's order |
| TransactionHooks.PrefixNewestFirst | frontend/src/hooks/useTransactions.ts:72 | the first k entries of a newest-first list are newest first and none of the rest is newer |
| TransactionHooks.RecentTransactionsSpec | frontend/src/hooks/useTransactions.ts:72 | the first min(5, n) entries of the sorted list, none of the rest newer than any of them |
| TransactionHooks.WithHash | frontend/src/hooks/useTransactions.ts:43-46 | the new entry has the given hash and exactly the caller's other fields |
| TransactionHooks.FieldsWithHash | frontend/src/hooks/useTransactions.ts:43-46 | an entry is its caller fields plus its hash, so nothing is lost |
| TransactionHooks.AddNewTransaction | frontend/src/hooks/useTransactions.ts:41-49 | adds to the store the caller's fields unchanged with the supplied hash, at the head of the history |
| TransactionsPage.FilteredTransactionsSpec | frontend/src/app/transactions/page.tsx:26-32 | "all" returns the list unchanged; "pending", "sent" and "received" keep exactly the pending, send and receive entries, each as often as the history holds it; every result is an order-preserving subsequence |
| TransactionsPage.StatsMatchFilters | frontend/src/app/transactions/page.tsx:78-101 | each stat card equals the length of the list its filter shows |
| TransactionsPage.StatsAgreeWithHook | frontend/src/app/transactions/page.tsx:78-101 | the page's four cards equal the statistics hook's counts |
| TransactionsPage.Row | frontend/src/app/transactions/page.tsx:151-194 | the amount sign is "-" iff the row is sent (type send, or sender equal to the connected address ignoring case), "+" otherwise |
| TransactionsPage.RowCounterparty | frontend/src/app/transactions/page.tsx:182-183 | a sent row shows "To:" and the recipient, a received row "From:" and the sender |
| TransactionsPage.IsSentIgnoresCase | frontend/src/app/transactions/page.tsx:151-153 | the address comparison ignores letter case on either side |
| TransactionsPage.IsSentWithoutAddress | frontend/src/app/transactions/page.tsx:151-153 | with no connected address only sends count as sent |
| TransactionsPage.SentTransferShowsAsSent | frontend/src/app/transactions/page.tsx:151-153 | every record `sendBBC` adds is shown as "Sent BBC" to its recipient with "-" |
| TransactionsPage.View | frontend/src/app/transactions/page.tsx:16-32 | a disconnected store shows the notice; a connected one shows one row per filtered entry, in order |

## Left out

- Browser I/O as effects. Provider and contract calls, `window.ethereum`, the clock (`Date.now()`) and storage write failures are parameters. `localStorage` is a map field that never throws on read.
- JSON text at the history key. Any value there other than a serialised transaction list is treated as unreadable and ignored. In the source, `JSON.parse` of other JSON text puts that value into `transactions`.
- Promise concurrency. `Promise.all` in `loadInitialData` and in the balance and token loads, and interleavings with other actions (a disconnect during a refresh), are not modelled. Each action runs to completion.
- Listeners and timers. The account and network listeners installed by `connect`, their removal in `disconnect`, the 10 s balance poll, and the `setTimeout` pending watcher in `useTransactions` are left out. `Store.ReachableStates` proves the pending set the watcher reads is always empty.
- Floating point. Exchange rates are `real`, so NaN and rounding are not modelled. `fromWei`, `toWei`, `formatCurrency`, the conversion hooks (store.ts 384-420) and `parseFloat(tx.amount).toFixed(4)` on the page are left out.
- ethers internals. ABI decoding is an input to `FormatTransaction`, as is the decimal conversion `formatUnits`. `parseUnits` and the contract calls themselves are left out.
- `Blockchain.FormatTransaction`: the displayed value is a base-unit amount, not its rendering by `formatUnits`.
- `Store.WalletStore.SendBBC`: the 20% gas buffer applied inside the transfer is proved separately in `Blockchain.GasLimit` and is not linked to the receipt the store receives.
- `Store.WalletStore.EstimateGas`: the recipient and amount only feed the external estimate, so the model takes the estimate's outcome instead.
- `Blockchain.ConnectWallet`: a switch error that is `null` or `undefined` makes `switchError.code` throw a TypeError. The model reads its code as absent and re-throws the original value.
- `getDeploymentInfo` raising when neither deployment file exists. Both `require` calls are bundled at build time, so the template is taken as always present.
- `Utils.FormatBalanceParts`: negative bigint balances are not modelled; balances are `nat` (on-chain `uint256`).
- `JsText.ToLower`: folds ASCII letters only, which is enough for hex addresses.
- `JsText.Slice`, `JsText.PadStart`, `Utils.FormatAddress` and `Utils.ShortenHash`: strings are sequences of Unicode code points, while JavaScript's `length` and `slice` count UTF-16 code units. On a string with a character outside the Basic Multilingual Plane the source cuts at a different place. This is exact for the ASCII hex addresses and hashes the app passes.
- `TransactionHooks.AddNewTransaction`: the `Math.random` hash is the parameter `hash`.
- UI rendering, `cn`, `copyToClipboard`, the market-data fetch wrappers in coingecko.ts, the deploy scripts and the Solidity contracts are outside the core and not modelled.

## Findings

| source | as written | input that shows it | evidently intended | confidence | as-written member | corrected member |
|---|---|---|---|---|---|---|
| frontend/src/lib/utils.ts:21-23 | with `decimals = 0`, `str.slice(0, -0)` is `""` and `str.slice(-0)` is the whole string, so the integer part is lost | `formatBalance(120n, 0)` gives ".12" | "120": with no decimal places the rendering is the integer itself | not executed | Utils.FormatBalanceZeroDecimalsLosesWhole | Utils.FormatBalanceRoundTrip |
