# Uniswap-V2 cost basis and token-holder collection, modelled in Dafny

This project models the bookkeeping core of a TypeScript service. For one
wallet and one ERC-20 token, the service rebuilds the wallet's net holding and
cost basis from Uniswap-V2 swaps. It also collects the addresses that ever
held a token.

The model covers five parts:

- **Cost-basis engine** (`CostBasis`, cost.dfy, for `Cost` in src/cost-class.ts).
  - It finds the pairs that hold the token and the Swap events whose recipient is the wallet.
  - Each hop of a trade path is bound to the first Swap log its pair emitted.
  - The in and out amount slots are chosen against each pool's `token0`.
  - The result is a signed change of holding and cost.
  - The changes are summed. Costs go into buckets keyed by decimals, and each bucket is scaled once at the end.
  - `Aggregate` is the accumulation loop. It is proved equal to the order-independent sum of every change's scaled cost.
- **Batched range scanner** (`Scanner`, scanner.dfy, for `AbstractCollect` in src/transfer-collect.ts).
  - The upper bound is clamped to the chain head.
  - The range is partitioned by `splitTasks`.
  - Batches run one after the other, and every window query goes through `retry`.
  - The result is either every event in batch and window order, or the first failure.
  - The filter-selecting subclasses are one `EventKind`.
  - The older duplicate in src/transfer-collector.ts is `LegacyScanner` (legacy_scanner.dfy). It runs the same scan with the bare `Transfer()` filter and three attempts.
- **Helpers** (`Utils`, utils.dfy, for src/utils.ts): `splitTasks`, `retry`, `strip0x`/`add0x`, `extractTransferAddress`, the chunked `getBalances` loop, and `timestampToDateTimestamp`.
- **Holder** (`Holders`, holder.dfy, for src/holder.ts).
  - A class whose `from` field steps by `collectBatch` through a block range.
  - It inserts the addresses each window yields, or writes their balances.
  - It also pages through the stored addresses by offset.
  - `LastBlockScanned` states the off-by-one the loop has: block `to` is never scanned when `to - from` is an exact multiple of `collectBatch`. The model keeps this behaviour as written.
- **Price oracle** (`Prices`, price.dfy, for src/price.ts).
  - The CoinGecko symbol table.
  - The per-token, per-day price memo.
  - The `getPrice` control flow: resolve the id, normalise the timestamp to its day, fetch, store, and return the stored entry.

Asynchronous results are `Outcome<T>` (common.dfy): `Done(value)`, `Failed(error)`, or `Pending`. `Pending` is a promise that never settles, and it also stands for a source loop that never ends. Examples: `retry` with zero attempts, `splitTasks` with a zero window length, and the holder loops with `collectBatch < 1`. Operations are therefore total. The only restriction the source does not impose is that retry counts are natural numbers (see the `Utils.Retry` line under "## Left out").

How JavaScript constructs map to the model:

- `Promise.all` is `Common.All`.
- `Promise.allSettled` followed by a throwing `forEach` is `Common.Settle`.
- Every chain, contract, database and HTTP call is a function-valued parameter.

The source's contract with its callers, as the model reads it:

- A symbol missing from the CoinGecko table is looked up as `undefined`. `getPrice` then calls `fetchPrice` with it, because the `id === null` test never holds. The model follows this behaviour (`Prices.UnknownSymbolFetchesUndefined`).
- The scan result carries the collector's own constructor bounds, not the clamped bound (`Scanner.ScanSuccess`).
- Swap events are not deduplicated by transaction (`CostBasis.RepeatedSwapCountsTwice`).

## Model

| member | source | states |
|---|---|---|
| Common.AllMeaning | src/cost-class.ts:54 | `Promise.all` resolves iff every promise resolves. It then yields their values in order. Otherwise it rejects with the first rejection in order, or stays pending when nothing rejects. |
| Common.SettleMeaning | src/transfer-collect.ts:40-49 | `allSettled` followed by the throwing `forEach` stays pending iff some promise never settles. It resolves iff all resolve, and then yields the concatenation of their values. Otherwise it throws the first rejection, all earlier ones having resolved. |
| Common.LowerIdempotent | src/cost-class.ts:138-140 | Lower-casing an already lower-cased address changes nothing. |
| Utils.PartitionCovers | src/utils.ts:65-75 | The windows are empty iff start > end. The first window starts at `start` and the last ends at `end`. Every window lies inside [start, end] and holds at most `length` blocks. Consecutive windows are contiguous. |
| Utils.PartitionOrdered | src/utils.ts:69-70 | Windows are strictly increasing: each one ends before any later one starts. |
| Utils.PartitionMember | src/utils.ts:67-71 | A block lies in some window iff it lies in [start, end]. |
| Utils.PartitionDrop | src/utils.ts:69 | Dropping the first k windows leaves the partition that starts k·length blocks later. |
| Utils.PartitionLength | src/utils.ts:67-72 | There are no more windows than blocks in the range. |
| Utils.ChunkShape | src/utils.ts:67-72 | The batches concatenate back to the window list. Each batch holds between 1 and `count` windows, and all but the last hold exactly `count`. |
| Utils.FirstBatch | src/utils.ts:68-71 | The inner loop collects exactly the first min(`count`, remaining) windows starting at `i`. |
| Utils.SplitTasks | src/utils.ts:65-75 | The nested loops return the window partition cut into batches of `count` windows, whenever the loops terminate. |
| Utils.RetryMeaning | src/utils.ts:43-63 | With zero attempts the promise never settles. Otherwise it resolves with the first success among the first `times` attempts and makes no further attempt. If all `times` attempts fail, it rejects with the last error. |
| Utils.RetryFromMeaning | src/utils.ts:52-61 | The same, for the attempts from number k on: the loop always settles, success is the first successful attempt, and failure means all attempts failed. |
| Utils.Retry | src/utils.ts:43-63 | For a count of zero or more, the `while (times--)` loop agrees with `RetryOutcome`. The error callback receives, in order, the error of every failed attempt, and nothing else. |
| Utils.Add0xPrefixed | src/utils.ts:79 | `add0x` always yields a string with the "0x" prefix, and it is idempotent. |
| Utils.Strip0xAdd0x | src/utils.ts:77-79 | `strip0x(add0x(s)) == strip0x(s)`. A string without the prefix is left unchanged by `strip0x`, and `add0x` only prepends "0x" to it. |
| Utils.IndexOf | src/utils.ts:17 | The position of the first occurrence of an element. |
| Utils.Unique | src/utils.ts:17 | `Array.from(new Set(xs))` has no duplicates and the same elements as `xs`, in first-occurrence order. |
| Utils.Without | src/utils.ts:17 | The zero-address filter keeps exactly the elements different from the zero address. |
| Utils.WithoutKeepsOrder | src/utils.ts:17 | Filtering leaves a duplicate-free list duplicate-free and in first-occurrence order. |
| Utils.ExtractTransferAddress | src/utils.ts:10-23 | `from` and `to` are copied through. The addresses are exactly the non-zero participants (`args[0]`, `args[1]` of each event with args), without duplicates and in first-occurrence order. |
| Utils.SliceMeaning | src/utils.ts:29-35 | One chunk's `Promise.all` resolves iff every `balanceOf` call on addresses[i..i+100) resolves. It then yields those balances in order, each paired with the address at the same index (the definitions `Lookups` and `Rows`). A failure or a pending call is one of the chunk's own calls. |
| Utils.BalancesFromMeaning | src/utils.ts:25-41 | The chunked lookup from index i resolves iff every remaining address's balance resolves. It then returns one row per address, `result[k].address == addresses[i + k]`, carrying that address's balance. A failure is the failure of some address's call. |
| Utils.GetBalances | src/utils.ts:25-41 | The `for` loop over chunks of 100 agrees with `BalancesOutcome`. On success it visits ceil(n/100) chunks. |
| Utils.TimestampToDateTimestamp | src/utils.ts:120-123 | The day start is a multiple of 86400 and lies at most one day below the timestamp. |
| Utils.DayStartUnique | src/utils.ts:120-123 | It is the only such multiple. |
| Utils.DayStartIdempotent | src/utils.ts:120-123 | Normalising a day start again leaves it unchanged. |
| Utils.DayStartExample | test/utils.spec.ts:44-46 | 1617171792 maps to 1617148800. |
| Scanner.QueryFilter | src/transfer-collect.ts:63-86 | One window's query is the retried provider call. Its provider calls are the retry's attempts. A final failure is rethrown. |
| Scanner.RunBatch | src/transfer-collect.ts:40-42 | The batch's settled outcomes are the windows' outcomes in order (the definition `Outs`: one `queryFilter` outcome per window). Its calls are the windows' calls in order. |
| Scanner.SettleStep | src/transfer-collect.ts:43-49 | Once every outcome has settled, the first fulfilled one is appended and the walk goes on, while the first rejected one is thrown. |
| Scanner.ThrowFirst | src/transfer-collect.ts:43-49 | The `forEach` appends every fulfilled value to `events`, in order, and throws the first rejection. |
| Scanner.SettleBatch | src/transfer-collect.ts:40-49 | One batch comes to `allSettled` over its windows, then the throwing walk. |
| Scanner.GetEvents | src/transfer-collect.ts:25-59 | The batch loop agrees with `EventsOutcome`. The provider calls issued agree with `EventsCalls`. |
| Scanner.ScanRange | src/transfer-collect.ts:30-36 | The windows scanned are the partition of [from, min(to, latest)] into windows of `blocks` blocks. |
| Scanner.ScanBatchesDone | src/transfer-collect.ts:39-50 | When every window resolves, the events are the concatenation of the window results in batch order, then window order, and every window is queried. |
| Scanner.ScanSuccess | src/transfer-collect.ts:25-59 | When every window resolves, `getEvents` returns the constructor's `from`/`to` (not the clamped bound) and all events in order. Its calls are exactly those of the windows. |
| Scanner.ScanEmptyRange | src/transfer-collect.ts:31-37 | When from > min(to, latest), no query is issued and `events` is empty. |
| Scanner.FailedWindow | src/transfer-collect.ts:39-49 | A failed scan fails with the error of some window, and every earlier window resolved. |
| Scanner.FailedCalls | src/transfer-collect.ts:39-49 | A failed scan stops after the first failing batch. No later batch issues a query, and every earlier batch resolved. |
| Scanner.ScanDone | src/transfer-collect.ts:25-59 | The converse of ScanSuccess: `getEvents` resolves only if the range splits into batches and every window's query resolved. With ScanSuccess, a scan returns the events of all its windows or of none. |
| Scanner.ScanFailure | src/transfer-collect.ts:39-49 | A rejected `getEvents` rethrows the error of the first rejected window, all earlier windows having resolved. The calls made stop with the failing batch, which is the first batch that failed. No partial result is returned. |
| Scanner.BatchCallsShape | src/transfer-collect.ts:41-42 | Every call of a batch queries the scan's contract and filter, on one of the batch's windows, with an attempt number below the retry count. |
| Scanner.ScanCallsShape | src/transfer-collect.ts:39-42 | The same holds for every call of a whole scan, over its windows. |
| Scanner.ScanCallsWellFormed | src/transfer-collect.ts:25-86 | Every provider call of `getEvents` queries the collector's contract with the subclass filter (`GetFilter`: the subclass's event with the unchanged parameter list). Its window lies inside [from, min(to, latest)], and its attempt number is below `Configuration.retry`. |
| LegacyScanner.GetEvents | src/transfer-collector.ts:23-73 | TransferCollector's scan is the same range scan with `Transfer()` and 3 attempts per window. It returns the constructor's bounds. Every call uses the bare Transfer filter, stays inside the clamped range, and is attempt 0, 1 or 2. |
| CostBasis.SwapLogs | src/cost-class.ts:164-166 | Exactly the logs whose topic0 is the Swap signature are kept. |
| CostBasis.Tag | src/cost-class.ts:168-173 | Every Swap log is decoded and bound to its emitter's lowercased address, in order. A log that does not decode makes the whole call throw. |
| CostBasis.Find | src/cost-class.ts:184 | `find` returns the first entry whose address equals the pair, or none when no entry does. |
| CostBasis.Bind | src/cost-class.ts:183-192 | Every hop is bound, in order, to the first Swap log of its pair. The call throws 'no swap event emitted!' iff some pair has none. |
| CostBasis.FindIsFirstSwapLog | src/cost-class.ts:164-184 | The entry found for a pair is the first Swap log whose lowercased emitter is that pair, with its decoded event. |
| CostBasis.PairAndEventsIsBind | src/cost-class.ts:163-193 | Once the pairs resolve, `getPairAndEvents` binds the lowercased pairs to the tagged Swap logs. |
| CostBasis.PairAndEventsMeaning | src/cost-class.ts:163-193 | `getPairAndEvents` returns `path.length - 1` hops in hop order, each holding the lowercased pair of `getPair(path[i], path[i+1])` (the definitions `HopPairs` and `LowerAll`) and bound to that pair's first Swap log (the definition `GetPairAndEvents`). It throws 'no swap event emitted!' iff some pair emitted none. |
| CostBasis.PurchaseDelta | src/cost-class.ts:195-206 | Once the hops are known, a purchase (the source token is not the token) with a non-zero price gives hold = +amountOut and cost = +amountIn × price(fromToken), in fromToken's decimals (the definition `GetResult`). |
| CostBasis.SaleDelta | src/cost-class.ts:195-206 | Once the hops are known, a sale (the source token is the token) with a non-zero price gives hold = −amountIn and cost = −amountOut × price(toToken), in toToken's decimals (the definition `GetResult`). |
| CostBasis.SwapIn | src/cost-class.ts:158-160 | A purchase of the token (the token is the path's destination) gives hold = +amountOut and cost = +amountIn × price(fromToken), with fromToken's decimals (the definitions `GetHoldAndCost`, `HopsDelta`, `AmountIn`/`AmountOut`). |
| CostBasis.SwapOut | src/cost-class.ts:158-160 | A sale (the token is the path's source) resolves, with hold = −amountIn, cost = −amountOut × price(toToken) and toToken's decimals (the definitions `GetHoldAndCost`, `HopsDelta`, `AmountIn`/`AmountOut`). |
| CostBasis.ZeroPriceIsZeroDelta | src/cost-class.ts:196-200 | A zero price yields hold 0, cost 0, decimals 0 instead of an error (the definition `GetResult`). |
| CostBasis.UnrelatedIsZeroDelta | src/cost-class.ts:137-143 | A path whose two ends both differ from the token contributes the zero delta. |
| CostBasis.NotRouterIsZeroDelta | src/cost-class.ts:85-89 | A transaction not sent to the router contributes the zero delta (the definition `GetHoldAndCostFrom`). |
| CostBasis.BucketsMeaning | src/cost-class.ts:56-69 | A decimals key has a bucket iff some change with those decimals has a non-zero cost. The bucket holds the sum of the costs with those decimals. |
| CostBasis.BucketsCost | src/cost-class.ts:71-76 | Summing bucket / 10^decimals over the buckets equals summing cost_i / 10^d_i over the changes. |
| CostBasis.DirectCostPermutation | src/cost-class.ts:56-76 | The total cost does not depend on the order of the transactions. |
| CostBasis.Aggregate | src/cost-class.ts:54-76 | The reduce loop builds exactly the buckets. The totals are the plain sum of holds and the sum of every change's scaled cost. |
| CostBasis.Start | src/cost-class.ts:35-77 | `start()` agrees with `StartOutcome`: pairs from the two PairCreated scans, then the Swap scans of every pair, then one change per hash, then aggregation. |
| CostBasis.ScanSwaps | src/cost-class.ts:45 | The loop over the pairs yields `SwapScans`: one Swap scan per pair, in pair order, each the scan `getSwapEvents` runs for that pair. |
| CostBasis.PairScanWindows | src/cost-class.ts:94-99 | The window size `getPairs` passes, `latest - factoryDeployBlock + 1`, makes each PairCreated scan a single batch holding the one window [factoryDeployBlock, latest]. It is no window at all when the head is below the deploy block (the definitions `PairScans`/`PairsOf`). |
| CostBasis.SwapScanOneBatch | src/cost-class.ts:115-122 | `getSwapEvents` passes the deploy block as the window size and the head as the batch size. A pair deployed at block d ≥ 1 is therefore scanned in one batch holding every d-block window from d to the head (the definitions `SwapScan`/`HashesOf`). |
| CostBasis.NoPairsIsZero | src/cost-class.ts:41-43 | With no pair found, the result is hold 0 and cost 0. |
| CostBasis.NoSwapsIsZero | src/cost-class.ts:49-51 | With no matching Swap event, the result is hold 0 and cost 0. |
| CostBasis.PairsOfEmpty | src/cost-class.ts:100-112 | Scans without events give no pairs. |
| CostBasis.HashesOfEmpty | src/cost-class.ts:45-47 | Scans without events give no hashes. |
| CostBasis.RepeatedSwapCountsTwice | src/cost-class.ts:45-54 | Hashes are not deduplicated: `Deltas` makes one `getHoldAndCostFrom` per hash, so a transaction with two matching Swap events is evaluated twice and counted twice in both totals. |
| Holders.Next | src/holder.ts:58-60 | `getNext` never passes `to`. The window [from, next] holds at most `collectBatch` blocks and is non-empty while from < to. |
| Holders.HolderWindowsShape | src/holder.ts:26-35 | The loop visits ceil((to − from₀)/batch) windows, none when from₀ ≥ to. Window k starts at from₀ + k·batch, and consecutive windows are contiguous. |
| Holders.LastBlockScanned | src/holder.ts:26-35 | Block `to` ends the last window iff (to − from₀) is not a multiple of `collectBatch`. So it is never scanned at exact multiples. |
| Holders.HolderWindowAt | src/holder.ts:26-28 | Iteration k runs iff from₀ + k·batch < to, and it scans [from₀ + k·batch, getNext()]. |
| Holders.WindowFoundClean | src/holder.ts:29-30 | The addresses found in a window never include the zero address and hold no duplicate. |
| Holders.WindowFoundAt | src/holder.ts:27-30 | The addresses of iteration k are those found in the window the loop builds from its current `from`. |
| Holders.FindAddresses | src/holder.ts:28-30 | A window's TransferCollect scan followed by `extractTransferAddress` gives the addresses of the window function. |
| Holders.LookUpBalances | src/holder.ts:52 | `getBalances` on a window's addresses gives the lookup function's answer. |
| Holders.AddRunRows | src/holder.ts:22-36 | `count` ends as the number of rows inserted. Each row (the definition `NewRows`) carries the token id, balance 0 and a non-zero address. When it finishes, every window was visited. |
| Holders.UpdateRunRows | src/holder.ts:46-56 | Every row written (the definition `BalanceRows`) carries the token id and the address's `balanceOf`. When it finishes, every window was visited. |
| Holders.OffsetsShape | src/holder.ts:66 | The offsets are 0, limit, 2·limit, …, strictly below `total`, ceil(total/limit) of them. |
| Holders.Holder.constructor | src/holder.ts:15-20 | The holder keeps the token, its contract and both bounds. |
| Holders.Holder.AddAddress | src/holder.ts:22-44 | The `while` loop agrees with `AddRun` over the holder's windows. `from` advances by exactly `collectBatch` per window visited. The token's `current` becomes `to` (not `next`) once any window was visited. With `collectBatch` < 1 every window is empty and the loop never ends; the token's `current` is then `to`. |
| Holders.Holder.UpdateBalance | src/holder.ts:46-56 | The `while` loop agrees with `UpdateRun` over the holder's windows. `from` advances by `collectBatch` per window visited, and the token is unchanged. |
| Holders.Holder.UpdateBalanceInDb | src/holder.ts:62-71 | The offset loop agrees with `PagesFrom`. The pages visited are a prefix of 0, limit, 2·limit, … below `total`, and all of them on success. With limit < 1 and total > 0 it never resolves; a page 0 that fails or hangs is what it comes to, and with limit 0 a page 0 that resolves leaves it pending forever. |
| Holders.FetchPage | src/holder.ts:67-68 | One page is `PageOutcome` (its query, then its balance lookups). A query or lookup that does not resolve is what the whole listing comes to; otherwise the page's rows come before the listing from the next offset. |
| Prices.SymbolTableKeys | src/price.ts:19-22 | A symbol is in the table iff some coin in the list has it. |
| Prices.SymbolTableLastWins | src/price.ts:19-22 | A symbol maps to the id of the last coin in the list with that symbol. |
| Prices.Price.constructor | src/price.ts:9-11 | Both static maps start empty. |
| Prices.Price.Init | src/price.ts:13-23 | `init` throws if the list call rejects or is unsuccessful, and then leaves the table as it was. Otherwise the reduce loop replaces the table with the last-wins table of the coin list. The price memo is untouched. |
| Prices.Put | src/price.ts:37-42 | After a store, the entry for (address, timestamp) holds the price. Every other address and every other timestamp of the same address is unchanged. An inner map created for a new address holds only the new entry. |
| Prices.PutOverwrites | src/price.ts:41 | A second store at the same token and day replaces the first. |
| Prices.Price.PutIntoMemo | src/price.ts:37-42 | `putIntoMemo` creates the inner map if absent and then stores the price, as `Put` says. The symbol table is untouched. |
| Prices.ResolvedPriceFetched | src/price.ts:25-35 | Every resolved price is the answer of a successful history call for the token's id (`IdOf`, the `getId` lookup of the lower-cased symbol) and the timestamp's day, passed through by `FetchPrice`. The memo is never read, and there is no zero fallback. |
| Prices.UnknownSymbolFetchesUndefined | src/price.ts:28-33 | A symbol missing from the table goes to `fetchPrice` with `undefined` (`IdOf` yields `None`). `FetchPrice` then throws 'fetch undefined price fail' on an unsuccessful answer. |
| Prices.Price.GetPrice | src/price.ts:25-35 | `getPrice` resolves as `PriceOf` says. On success it stores the price at the start of the timestamp's day and returns exactly that stored entry. On failure the memo is unchanged, and the symbol table is never changed. |

## Left out

- Chain, contract, ABI and HTTP calls are function-valued parameters, total and deterministic. This covers `getBlockNumber`, `queryFilter`, `getTransaction`, `getTransactionReceipt`, `getBlock`, `getPair`, `token0`, `decimals`, `balanceOf`, `parseTransaction`, `parseLog` and the CoinGecko client. Of the database calls, only `Balances.queryAddress` is such a parameter (`query` of `Holders.Holder.UpdateBalanceInDb`), and `Balances.countByTokenId` is the plain number `total`.
- Holders.Holder.AddAddress, Holders.Holder.UpdateBalance, Holders.Holder.UpdateBalanceInDb: the writes `Balances.addBalance`, `Balances.updateBalances`, `Tokens.updateToken` and the read `Tokens.getTokenById` are assumed to succeed. Their rejections, such as 'Token(id=…) not exists!' from `getTokenById` in src/db/tokens.ts, are not modelled; in the source they end the call with that error.
- Utils.Retry, Common.Config: `retry` and `eth.retry` are natural numbers. With a negative count the source's `while (times--)` never reaches zero: it retries until an attempt succeeds, calling the error callback on every failure, and never settles when none does. An unbounded search for the first success has no loop here.
- Holders.Holder.UpdateBalanceInDb: with a negative `collect.limit` and rows present, the source goes on to offsets limit, 2·limit, … (all below `total`) until a page does not resolve. The model stops after page 0. It promises only that the call never resolves, and that a failing or hanging page 0 is what it comes to. A later failing page is not found, for the same reason.
- Holders.Holder.AddAddress, Holders.Holder.UpdateBalance: with `collectBatch` < 0 the source lowers `from` on every pass of its endless loop. The model states no final `from` for that case.
- The chain head is read once per scan in the source. The model holds it fixed for a whole run.
- Concurrency: every `Promise.all` and `Promise.allSettled` fan-out is evaluated in order. The source preserves result order, so only the interleaving of calls is lost.
- The database is the log of rows written, returned next to the outcome. Its SQL, connection pool and migrations (src/db/) are not part of this model.
- Logging through `Configuration.logger`, the `Date` timers that measure durations, and the log lines themselves are left out. The retry error callback is modelled as the list of errors it receives.
- bignumber.js arithmetic is exact `real` arithmetic (prices, costs) and unbounded `int` (amounts, blocks). The rounding of `div` and JavaScript's 53-bit number precision are not modelled.
- `timestampToDateTimestamp` mixes `getFullYear` (local time) with UTC month and day. The model is the floor to a UTC day, which is what it computes on a UTC host.
- `formatDate` is not part of this model. The history endpoint receives the day start it would format.
- `toLowerCase` is modelled on ASCII letters only, which covers hex addresses and CoinGecko symbols.
- The `id === null` branch of `getPrice` (zero price) is unreachable: the table holds only strings and a missing key is `undefined`. The model therefore has no zero-price path in `getPrice`.
- A history response that resolves successfully but lacks `market_data.current_price.usd` would raise a TypeError. The model's response always carries the price.
- The price sources in src/utils.ts (`getPrice` over The Graph, the empty `getPriceFromCMC`) and `parseRouterTransaction` are not used by the core and are left out. The engine receives its price function as a parameter, as the `Cost` constructor does.
- `Price` keeps its state in static fields. The model makes that state the fields of one `Price` object.
- Holders.Holder.AddAddress: `Tokens.getTokenById` after `Tokens.updateToken(token, to)` is modelled as returning the written token, i.e. the old row with `current` set to `to`.
- Holders.Holder.AddAddress, Holders.Holder.UpdateBalance: the window scans and balance lookups are reached through ghost function parameters. Predicates (`FindsTransfers`, `LooksUp`) tie these parameters to the range scan and to `getBalances`, so the contracts are stated over those functions.
- Calls on `undefined` (a missing transaction or receipt, a decoded call without `path`, an empty `pairPath`) are modelled as a `TypeError` failure, not as crashes with a specific message.
- The entry points (src/monitor.ts, src/update.ts, src/cost.ts), src/config.ts and the test helpers are not part of this model.
- The configuration values are a `Config` parameter.
