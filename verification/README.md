# Token ledger and its browser client, modelled in Dafny

The repository is a small fungible-token service for the Internet Computer.
It has two parts that this project models.

- **The Rust ledger** (`src/token_backend/src/lib.rs`).
  - Its state is one map from token symbol to `Token`.
  - A token holds its name, symbol and image, a fixed `total_supply` and an owner.
  - It also holds a per-principal balance map and a per-principal transaction history.
  - `create_token` inserts a token, or replaces one wholesale. The owner gets the whole supply and one mint record.
  - `transfer` moves an amount from `from` to `to` when `from` holds enough. It logs the same record in both histories.
  - There is no check of who asks for a transfer.
  - Four queries read the state.
- **The React client's cache and sync logic** (`src/token_frontend/src/App.jsx`).
  - The client keeps the token list, a balance map, a flattened transaction list and a notification list.
  - It mirrors the first three in the browser's local storage.
  - It refreshes them from the ledger.
  - It checks a transfer form before it submits it.
  - It patches the cached balance optimistically afterwards.
  - It serves a cached token list to signed-out visitors under a 24-hour rule.

## Files

| file | module | what it holds |
|---|---|---|
| `outcomes.dfy` | `Outcomes` | `Option` and `Remote` (the client's `{success, data \| error}` answer) |
| `ledger.dfy` | `TokenLedger` | see below |
| `client_data.dfy` | `ClientData` | the client's records for tokens and transactions, and a stored entry that may not parse |
| `refreshers.dfy` | `Refreshers` | see below |
| `local_checks.dfy` | `LocalChecks` | the transfer pre-checks, the optimistic patch, the single-symbol reconciliation and the token-cache age rule |
| `notifications.dfy` | `Notifications` | the notification list, with expiry by id and removal by index |
| `storage_json.dfy` | `StorageJson` | `prepareForStorage` as a walk over a JavaScript value |
| `client_app.dfy` | `ClientApp` | see below |
| `agreement.dfy` | `Agreement` | how the client's checks and patch relate to the ledger's `transfer` |

- **`ledger.dfy`** contains:
  - the `u64` type and the `Token` value;
  - the conservation invariant (the sum of balances equals `total_supply`);
  - `TransferEffect`, the specification of `transfer`;
  - the `Ledger` class, with a map field and the ledger's operations.
- **`refreshers.dfy`** contains:
  - the per-item loops of `loadTokens`, `loadBalances`/`forceLoadBalances` and `loadTransactions`;
  - the stable newest-first ordering.
- **`client_app.dfy`** contains the `App` class. React state and local storage are fields of this one object, and the handlers are its methods.

How the model represents the outside world:

- Remote calls are arguments. A single answer is a `Remote<T>` value. A per-symbol lookup is a function from the symbol to its answer, so within one handler the ledger is taken not to change between calls.
- The ledger's clock `ic_cdk::api::time()` is a parameter.
- The client's `Date.now()` is a parameter.
- The principal parser `Principal.fromText` is a parameter, a partial function that gives canonical text or nothing.
- The identity provider's answer in `verifyAuthentication` is a boolean parameter.

### Behaviour of the code that differs from its stated intent

The model follows the code in each of these cases, and a contract states each one.

- **A stale token cache is still served.**
  - The first render reads "ic-tokens" with no age check (App.jsx:26-34).
  - On mount, the effect that persists tokens (App.jsx:1004-1011) runs before the 24-hour check (App.jsx:1023-1057). It re-stamps a non-empty cached list with the current time, so the check never finds it old.
  - `ClientApp.App.RunMountEffects` states this: after the mount effects, a non-empty cached list is kept whatever its stored age.
- **A ledger refusal is reported as a success.**
  - `transfer` answers `false` when the balance is short.
  - `safeCanisterCall` only turns exceptions into failures, so the client shows "Successfully transferred" and debits its cache anyway.
  - `ClientApp.App.SubmitTransfer` states this: any `Ok` answer is `Submitted`.
  - `Agreement.OverstatedCacheIsRefused` states when this happens: the cache overstates the balance, the ledger refuses, and the client still patches.
- **A single-symbol transaction reload replaces the whole list** with that token's records. The list becomes empty if that lookup fails (App.jsx:276-296).
- **`loadDataFromCanister` reloads balances and transactions for the old token list.**
  - `loadBalances` and `loadTransactions` read the `tokens` of the render that started the load, not the list `loadTokens` has just fetched.
  - The model passes that list explicitly (`seen`).
- **A mint record's sender is shown as the empty string, not "Unknown".**
  - The client writes `tx.from ? principalToString(tx.from) : "Unknown"` (App.jsx:287, 314).
  - The sender is a Candid `opt principal` (token_backend.did.js:4), which the JavaScript agent decodes as an array: `[]` or `[p]`.
  - Both arrays are truthy, so the fallback is never taken. `principalToString` turns `[p]` into `p`'s text and `[]` into `""` (App.jsx:346-351).
  - `Refreshers.View` states this. The array decoding is the agent library's behaviour, and the agent library is not part of this model.
- **Notifications added in the same millisecond share an id.** The first one's timer removes all of them (`Notifications.SameMillisecondExpiresTogether`).

## Model

| member | source | states |
|---|---|---|
| TokenLedger.Minted | src/token_backend/src/lib.rs:38-65 | A new token is well formed. The owner holds the whole supply and every other principal holds 0. The owner's history is exactly one mint record with no sender, and every other history is empty. |
| TokenLedger.ReceiverCannotOverflow | src/token_backend/src/lib.rs:86-93 | While balances sum to the supply, after the sender's debit the receiver's balance plus the amount is at most the supply, so the `+=` cannot exceed u64. |
| TokenLedger.TransferEffect | src/token_backend/src/lib.rs:80-110 | It succeeds iff the sender's balance covers the amount. Name, symbol, image, owner and supply never change. |
| TokenLedger.TransferRefusalIsUnobservable | src/token_backend/src/lib.rs:86-89 | A refused transfer changes no balance that a query reads and no history. |
| TokenLedger.TransferMovesAmount | src/token_backend/src/lib.rs:86-93 | See the note below the table. |
| TokenLedger.TransferLogsRecord | src/token_backend/src/lib.rs:95-102 | An accepted transfer appends one record, with `from = Some(sender)`, to the sender's and to the receiver's history. For a self-transfer it is appended twice to the one history. No other history changes. |
| TokenLedger.TransferOn | src/token_backend/src/lib.rs:86-104 | The step-by-step updates of `transfer` on a found token produce exactly `TransferEffect`'s answer and token. |
| TokenLedger.TransferConserves | src/token_backend/src/lib.rs:86-93 | A transfer keeps the sum of all balances equal to `total_supply`. |
| TokenLedger.TransferKeepsHistoriesAboutHolder | src/token_backend/src/lib.rs:95-102 | After a transfer, every record in a principal's history still names that principal as sender or receiver. |
| TokenLedger.TransferKeepsWellFormed | src/token_backend/src/lib.rs:80-110 | A transfer preserves conservation and the history invariant together. |
| TokenLedger.SelfTransferMovesNothing | src/token_backend/src/lib.rs:86-102 | A self-transfer, which is how the client mints, succeeds when covered. It changes no balance and appends the record twice to that one history. |
| TokenLedger.ListingHasOneEntryPerToken | src/token_backend/src/lib.rs:132-143 | When every token is stored under its own symbol, the listing has exactly one triple per token. |
| TokenLedger.Ledger.constructor | src/token_backend/src/lib.rs:29-35 | `init`: the map starts empty and valid. |
| TokenLedger.Ledger.CreateToken | src/token_backend/src/lib.rs:37-78 | Inserts or wholesale replaces the token under the symbol and returns true. Afterwards `balance_of` gives the supply for the owner and 0 for anyone else, the owner's history is the one mint record, and the state stays valid. |
| TokenLedger.Ledger.Transfer | src/token_backend/src/lib.rs:80-110 | An unknown symbol gives false and no change. Otherwise the token becomes `TransferEffect`'s result, even when refused (the sender's `or_insert(0)` stays). No other token changes, and the state stays valid. |
| TokenLedger.Ledger.BalanceOf | src/token_backend/src/lib.rs:112-120 | 0 for an unknown symbol or principal. Never above the token's supply. |
| TokenLedger.Ledger.TotalSupply | src/token_backend/src/lib.rs:122-130 | 0 for an unknown symbol. Otherwise it equals the sum of that token's balances. |
| TokenLedger.Ledger.GetTokenList | src/token_backend/src/lib.rs:132-143 | Every stored token's `(name, symbol, image_url)` is listed, and nothing else. There is one entry per token, and each listed symbol is a stored key. |
| TokenLedger.Ledger.GetTransactions | src/token_backend/src/lib.rs:145-153 | Empty for an unknown symbol or principal. Every record returned involves the queried principal. |
| Refreshers.FetchSupplies | src/token_frontend/src/App.jsx:129-173 | One token per listed triple, in list order, with `id` = symbol and the fetched supply, or 0 where that lookup failed. |
| Refreshers.FetchBalances | src/token_frontend/src/App.jsx:209-245 | A new map with exactly one key per token symbol, holding the fetched balance or 0. |
| Refreshers.ForceFetchBalances | src/token_frontend/src/App.jsx:1128-1200 | The same map, plus the symbol of the token being created when one is pending. Every value is the fetched balance or 0. |
| Refreshers.CollectTransactions | src/token_frontend/src/App.jsx:303-326 | The gathered list is the concatenation, in token order, of each token's records. A failed lookup adds nothing. |
| Refreshers.View | src/token_frontend/src/App.jsx:285-292 | A listed record is a "transfer" of the queried symbol with the ledger record's receiver, amount and timestamp. A present sender shows as its own text, a mint record's sender as the empty string, and "Unknown" is never shown for a real sender. |
| Refreshers.ConcatenatedSplits | src/token_frontend/src/App.jsx:303-326 | Gathering over a split token list gives the two halves' results joined. |
| Refreshers.FailedTokenContributesNothing | src/token_frontend/src/App.jsx:305-324 | Removing a token whose lookup failed leaves the gathered list unchanged. |
| Refreshers.ConcatenatedRecordsComeFromSucceededTokens | src/token_frontend/src/App.jsx:311-318 | Every gathered record is a "transfer" that carries the symbol of a listed token whose lookup succeeded. |
| Refreshers.InsertNewestFirst | src/token_frontend/src/App.jsx:329 | Insertion lengthens the list by one, and the head is either the new record or the old head. |
| Refreshers.InsertKeepsNewestFirst | src/token_frontend/src/App.jsx:329 | Inserting into a newest-first list keeps it newest-first. |
| Refreshers.InsertAddsOne | src/token_frontend/src/App.jsx:329 | Insertion adds exactly that record: the multiset grows by it and by nothing else. |
| Refreshers.SortNewestFirst | src/token_frontend/src/App.jsx:329 | The sorted list has the length of its input. |
| Refreshers.SortIsNewestFirst | src/token_frontend/src/App.jsx:329 | The sorted list is ordered by non-increasing timestamp. |
| Refreshers.SortPermutes | src/token_frontend/src/App.jsx:329 | The sorted list is a permutation of its input. |
| Refreshers.InsertKeepsTies | src/token_frontend/src/App.jsx:329 | Insertion places the new record before the equal-timestamp records already in the list. Since the sort inserts earlier records into the sorted rest, earlier records stay ahead. |
| Refreshers.SortKeepsTies | src/token_frontend/src/App.jsx:329 | The sort is stable: records with equal timestamps keep their relative order. |
| LocalChecks.TransferCheck | src/token_frontend/src/App.jsx:1233-1268 | See the note below the table. |
| LocalChecks.OptimisticDebit | src/token_frontend/src/App.jsx:1299-1305 | The symbol's entry becomes `max(0, cached - amount)`, created if absent. Every other entry is unchanged. |
| LocalChecks.Reconciled | src/token_frontend/src/App.jsx:1424-1434 | A successful single-symbol lookup overwrites only that key. A failed one changes nothing. |
| LocalChecks.ReconcileAgreesWithReload | src/token_frontend/src/App.jsx:1319-1323 | Re-reading one symbol after a full reload against the same ledger state keeps every entry equal to the fetched value. It can only add its own key. |
| LocalChecks.ReconcileSupersedesPatch | src/token_frontend/src/App.jsx:1299-1323 | A successful re-read of the patched symbol erases the optimistic patch completely. |
| LocalChecks.TokenCacheVerdict | src/token_frontend/src/App.jsx:1032-1054 | See the note below the table. |
| Notifications.WithoutId | src/token_frontend/src/App.jsx:96-98 | A record survives expiry iff it was present and its id differs. |
| Notifications.WithoutIdDistributes | src/token_frontend/src/App.jsx:93-98 | Expiry filters each part of a list independently. |
| Notifications.WithoutAbsentId | src/token_frontend/src/App.jsx:96-98 | Expiring an id that no record carries changes nothing. |
| Notifications.DropPosition | src/token_frontend/src/App.jsx:102-104 | Filtering by position from an offset removes exactly the element at that position, if it is in range. |
| Notifications.WithoutIndex | src/token_frontend/src/App.jsx:102-104 | Removes exactly the record at the index and keeps the others in order. An out-of-range index changes nothing. |
| Notifications.ExpiryUndoesAdd | src/token_frontend/src/App.jsx:90-99 | Appending a record with a fresh id and then expiring that id gives back the original list. |
| Notifications.SameMillisecondExpiresTogether | src/token_frontend/src/App.jsx:91-98 | Two records stamped in the same millisecond are both removed by the first timer. |
| StorageJson.Prepared | src/token_frontend/src/App.jsx:354-374 | The prepared value holds no BigInt and has the input's shape: each BigInt becomes the Number of the same integer, and keys and order are kept. |
| StorageJson.PrepareForStorage | src/token_frontend/src/App.jsx:354-374 | The recursive walk with its accumulator loops computes `Prepared`. |
| StorageJson.PreparedKeepsBigIntFree | src/token_frontend/src/App.jsx:354-374 | A value without BigInts comes back unchanged. |
| StorageJson.PreparedIdempotent | src/token_frontend/src/App.jsx:354-374 | Preparing twice is the same as preparing once. |
| ClientApp.App.Mount | src/token_frontend/src/App.jsx:26-74 | The first render reads the three lists from storage, falling back to empty when absent or unparsable, with no age check. It is signed in iff both auth entries are truthy. |
| ClientApp.App.AddNotification | src/token_frontend/src/App.jsx:90-94 | Appends one record stamped with the current millisecond and keeps the earlier ones in order. |
| ClientApp.App.ExpireNotification | src/token_frontend/src/App.jsx:96-98 | Removes every record with that id. |
| ClientApp.App.RemoveNotification | src/token_frontend/src/App.jsx:102-104 | Removes the record at that index. |
| ClientApp.App.PersistTokens | src/token_frontend/src/App.jsx:1004-1011 | A non-empty token list is stored and stamped with the current time. An empty one changes nothing. |
| ClientApp.App.CheckCachedTokens | src/token_frontend/src/App.jsx:1023-1057 | When signed out with no actor, a young stored list is adopted, and an old or corrupt one has both entries removed. Otherwise nothing changes. |
| ClientApp.App.RunMountEffects | src/token_frontend/src/App.jsx:1004-1057 | A non-empty cached list is re-stamped and kept whatever its age. An empty one follows the 24-hour verdict on the stored entries when signed out with no actor; the stamp is rewritten only by a purge. When signed in or with an actor, an empty list and both stored entries are left as they are. |
| ClientApp.App.LoadTokens | src/token_frontend/src/App.jsx:107-189 | With no actor, nothing changes. If the list call succeeds, the tokens are the listed ones with supplies, stored and stamped. If it fails, the tokens are untouched and one error notice carries the error text. |
| ClientApp.App.LoadBalances | src/token_frontend/src/App.jsx:192-259 | With no actor or principal, nothing changes. Otherwise the map is replaced by one key per token, with the value fetched or 0, and stored. |
| ClientApp.App.ForceLoadBalances | src/token_frontend/src/App.jsx:1119-1212 | The same as `LoadBalances`, with the pending symbol's key added. |
| ClientApp.App.LoadTransactions | src/token_frontend/src/App.jsx:262-343 | With no actor or principal, nothing changes. Otherwise the list becomes the newest-first sort of either one symbol's records or all tokens' gathered records, and is stored. |
| ClientApp.App.RefreshTokenBalance | src/token_frontend/src/App.jsx:1410-1442 | With an actor, a principal, a symbol and a successful lookup, only that key is overwritten and the map is stored. Otherwise nothing changes. |
| ClientApp.App.ForceRefreshTokenBalance | src/token_frontend/src/App.jsx:1445-1494 | The same as `RefreshTokenBalance`, and the re-render counter goes up by one on success. |
| ClientApp.App.LoadDataFromCanister | src/token_frontend/src/App.jsx:974-1001 | See the note below the table. |
| ClientApp.App.LoadAll | src/token_frontend/src/App.jsx:985-992 | See the note on `LoadDataFromCanister`: the same outcomes, without the flag. |
| ClientApp.App.HandleLogout | src/token_frontend/src/App.jsx:765-807 | Signs out. Empties the tokens, balances and transactions, removes all six stored entries and appends the "logged out" notice. |
| ClientApp.App.ClearStorage | src/token_frontend/src/App.jsx:789-797 | All six stored entries are gone. |
| ClientApp.App.VerifyAuthentication | src/token_frontend/src/App.jsx:377-422 | See the note below the table. |
| ClientApp.App.SubmitTransfer | src/token_frontend/src/App.jsx:1214-1331 | See the note below the table. |
| ClientApp.App.ReloadBalancesAfterTransfer | src/token_frontend/src/App.jsx:1319-1323 | After the full reload and the symbol's re-read, every entry is the fetched value or 0. The keys are the token symbols, the pending symbol, and the transferred symbol when its lookup succeeded. |
| ClientApp.App.SubmitChecked | src/token_frontend/src/App.jsx:1233-1305 | Past the session check: a refusal or failed call adds its notice and leaves balances and their stored copy unchanged. An `Ok` answer adds the success notice and stores the optimistic debit. |
| ClientApp.App.HandleTransfer | src/token_frontend/src/App.jsx:1214-1339 | See the note below the table. |
| ClientApp.App.ReloadAfterTransfer | src/token_frontend/src/App.jsx:1319-1326 | The token list is unchanged, and the reloaded balances and transactions are both stored. For a named symbol, every balance is the ledger's answer or 0, the keys are the token symbols, the pending one and the transferred one, and the list is that symbol's records, newest first. |
| ClientApp.App.HandleMint | src/token_frontend/src/App.jsx:1341-1407 | Proceeds iff the session is confirmed. An unconfirmed session changes nothing without an actor or principal, and otherwise logs out with the "expired" and "logged out" notices. A confirmed one keeps the session, the tokens and the stored token entries. On an `Ok` answer it shows the "minted" notice, reloads balances and that symbol's records, and stores both. On `Err` it shows the error and changes no data and no stored entry. |
| ClientApp.App.ReportMint | src/token_frontend/src/App.jsx:1374-1399 | Past the session check: on `Ok` the "minted" notice, then fresh balances and the newest-first records, both stored. On `Err` the error notice and nothing else. |
| Agreement.CheckedTransferIsAccepted | src/token_frontend/src/App.jsx:1233-1305 | See the note below the table. |
| Agreement.OverstatedCacheIsRefused | src/token_frontend/src/App.jsx:1283-1308 | If the cache overstates the sender's balance, the client submits, the ledger refuses and moves nothing, and the client's cache is still debited. |

Notes on the longer rows:

- **TokenLedger.TransferMovesAmount**
  - A success between distinct principals lowers the sender by exactly the amount and raises the receiver by exactly the amount.
  - A self-transfer changes no balance.
  - Every other principal's balance is unchanged.
- **LocalChecks.TransferCheck**
  - It refuses in source order, and each refusal is stated as an if-and-only-if over the earlier checks passing:
    - first a cached balance below the amount;
    - then an amount ≤ 0;
    - then a recipient that does not parse;
    - then, with the recipient parsed, a sender that does not parse;
    - then, with both parsed, the same principal on both sides.
  - It proceeds iff the amount is positive and covered, both principals parse, and they differ.
  - When it proceeds, it names the two parsed principals.
- **LocalChecks.TokenCacheVerdict**
  - With either entry missing, there is nothing to do.
  - The list is adopted iff both entries parse and the list is strictly younger than 86 400 000 ms.
  - Otherwise both entries are purged.
- **ClientApp.App.LoadDataFromCanister**
  - It does nothing while a load is flagged.
  - Otherwise it refreshes tokens, then balances, then the transactions of all tokens, and always ends unflagged.
  - Without an actor, no list, no notice and no stored entry changes.
  - A successful list call stores the listed tokens, stamps them when non-empty, and adds no notice. A failed one keeps the tokens and their stored entries and adds one error notice.
  - Without a principal, the balances, the transactions and their stored copies are unchanged.
  - With a principal, the balances and transactions it produces are those of the token list held when it started, and both are stored.
- **ClientApp.App.VerifyAuthentication**
  - It confirms iff there is an actor and a principal, and either the stored flag is "true" with a stored principal or the identity provider vouches for the session.
  - A confirmation changes nothing.
  - Without an actor or a principal it changes nothing.
  - Otherwise it shows the "expired" notice and logs out, leaving the signed-out state with all six stored entries removed.
- **ClientApp.App.SubmitTransfer**
  - It stops at an unconfirmed session (`Unverified`). Without an actor or a principal nothing changes. With both but no vouching, the "expired" notice and the logout notice are shown, and the state is signed out with all six stored entries removed.
  - Past the session check, the session and every stored entry other than "ic-balances" are unchanged, and so are the tokens and transactions.
  - A local refusal shows its own notice and leaves the balances and their stored copy unchanged.
  - A failed call shows the error verbatim and leaves the balances and their stored copy unchanged.
  - Any `Ok` answer, even the ledger's `false`, shows the success notice, applies the optimistic debit and stores it.
- **ClientApp.App.HandleTransfer**
  - An unconfirmed session ends as in `SubmitTransfer`.
  - A refusal names the failed check. A failed call carries the error, and only then was the check passed.
  - After either, the session, the balances, every stored entry, the tokens and the transactions are unchanged, and exactly one error notice is added: the refusal's own text or the call's error.
  - A submitted transfer passed the check on an `Ok` answer and added the success notice. The session, the tokens and the stored token entries are unchanged, and the reloaded balances and transactions are stored. For a named symbol, its balances then agree with the ledger's answers and the list is that symbol's records, newest first.
- **Agreement.CheckedTransferIsAccepted**
  - Take a transfer of the ledger's token for the form's symbol that the client lets through when its cached balance equals the ledger's.
  - The ledger accepts it.
  - The optimistic debit equals the sender's new ledger balance.
  - The receiver gains exactly the amount.

## Left out

- **Identity and login.**
  - `handleLogin`, `handleDevLogin`, `restoreCanisterActor` and the session-restoring mount effect are not modelled. They depend on cryptographic key derivation and an external identity provider.
  - `verifyAuthentication`'s provider query is reduced to a boolean argument.
  - Its outer `catch` (a second notice text) cannot be reached once the provider's answer is an argument, so it is not modelled.
- **Timers and concurrency.**
  - The 5-second notification expiry, the 5-minute authentication interval, the 500 ms delay before a forced balance refresh, and the activity listeners are not modelled. The expiry is the separate step `ExpireNotification`.
  - Async interleaving is not modelled: every handler runs to completion as one sequential step. Because of this, the `dataLoading` guard behaves as a real lock here, while in the browser it reads a possibly stale value.
- **Form and rendering state.**
  - The JSX, `loading`, `activeTab`, `activeTokenSymbol` and the resetting of the transfer form are not modelled.
  - The re-render counter is modelled only as a number that goes up.
- **Floating point.**
  - Amounts, supplies and timestamps are unbounded naturals on the client.
  - `Number(bigint)` rounds above 2^53, and `Date.now()` arithmetic is in doubles. Neither is modelled.
- **`parseInt`.** The transfer amount arrives already parsed as an integer. A non-numeric amount gives `NaN` in the source, which passes both numeric checks; this is not modelled.
- **Serialisation.**
  - Local storage holds typed values instead of JSON strings. A written entry always reads back parsed.
  - `JSON.stringify` and `JSON.parse` are not modelled.
  - An empty stored string, which the code treats as absent, is not distinguished from absence.
- **`prepareForStorage` is not called on the stored values.** The client's records hold no BigInts, so the walk returns them unchanged (`StorageJson.PreparedKeepsBigIntFree`). The stored values are therefore the state values themselves.
- **Exceptions other than the modelled ones.**
  - `safeCanisterCall` never throws, and the per-token `try`/`catch` blocks wrap it. Those `catch` branches ("Failed to load tokens", "Failed to load balances", "Failed to load transactions", "Failed to load data from canister", and the "Canister actor not available" throw after a successful session check) cannot be reached in the model and are not represented.
  - The one reachable exception, `toText()` on a sender that does not parse, is modelled as the `SenderUnreadable` refusal. Its message is the context text only, because the exception's own message comes from library code.
- **`handleCreateToken`** and the rest of the token-creation form are not modelled. The creation form's current symbol (`newToken.symbol`), which `forceLoadBalances` reads, is the field `pendingSymbol` of the client state.
- **Rust runtime plumbing.**
  - `#[ic_cdk::init]`, `static mut`/`unsafe` and `export_candid!` are not modelled.
  - The `unwrap` panic when the map is uninitialised is not modelled: the map always exists.
  - The failure branch of `create_token` when the map is missing is therefore unreachable and not modelled.
  - `ic_cdk::api::time()` is a parameter.
- **`get_token_list` order.** It follows `HashMap` iteration order, so it is returned as a set.
- **`Array.prototype.sort` is library code.** The sort is modelled by its result: an insertion sort that is proved ordered, a permutation, and stable. The comparator `b.timestamp - a.timestamp` is exact on the model's integers.
- **`canister.js`.** Actor creation and the `BigInt`/`Number` conversions are not modelled. `Principal.fromText` is the `parse` argument.
