# nad.fun trade KPIs — a verified model

This project models, in Dafny, the trade-KPI aggregator of `jsFunctions/nadfun-kpis.mjs`.
The script runs once over a list of bonding-curve tokens. It chooses the first block of
a five-minute window, then reads each token's Buy and Sell events between that block and
the chain head. From those events it counts trades and adds up the native-coin volume in
wei. It then prices each token from a buy quote and compares that price with the one
stored by the previous run, counting the tokens whose price moved by at least
`SPIKE_PCT` percent. At the end it writes a new price snapshot and prints a report.

Modules, one per part of the script:

- `JsValue`: the JavaScript values the script handles: JSON data plus BigInt,
  truthiness, `v?.[k]` property access and `||`.
- `BlockResolver`: `findFromBlockByTime` (a backward doubling probe, then a binary
  search) and the fixed 200-block lookback the script uses instead. Both are available
  through `FromBlockMode`.
- `FieldPick`: `pickBigInt`, a first-match lookup over a list of alias keys.
- `TokenList`: `normalizeTokenList` with its three accepted shapes, followed by
  `trim` and `filter(Boolean)`.
- `TradeAggregation`: the per-token event loop. It classifies events, counts them and
  sums their volume.
- `Prices`: the quote-derived price, `deltaPct` and the spike test.
- `KpiRun`: the token loop of `main`, which computes totals, the most-active token, the
  spike count and the new price map. It also holds the snapshot document and the whole
  run (`Run`).

Each loop of the script is a method with invariants. Each method is proved equal to a
specification function, and the properties are proved as lemmas about those functions.
Remote data enters as parameters:

- `ts`, the block-timestamp lookup, assumed non-decreasing in the by-time mode;
- `fetch(fromBlock, toBlock, token)`, the indexer's events;
- `quote(token)`, the value of `quote?.amount`;
- `cache`, the parsed cache file, or `None` when it is missing or unreadable;
- `parse`, the partial conversion `BigInt(string)`;
- the clock readings.

Behaviour of the script that the model keeps as written:

- Tokens are not de-duplicated. Only blank entries are dropped.
- The model adds no per-token error handling. A failing indexer or quote call is not modelled (see below).
- `typeof prev === "number" && prev > 0` also accepts an infinite previous price. That
  gives `deltaPct = NaN`, which is never a spike.
- The token loop runs tokens one after another, in input order.

## Model

| member | source | states |
|---|---|---|
| `BlockResolver.LastAtOrBefore` | jsFunctions/nadfun-kpis.mjs:58-91 | Reference answer by linear scan: a block `b <= latest` with `ts(b) <= cutoff` (or `b == 0`), and every later block up to `latest` is after the cutoff |
| `BlockResolver.FindFromBlockByTime` | jsFunctions/nadfun-kpis.mjs:58-91 | For non-decreasing timestamps, the doubling probe plus binary search returns exactly the linear-scan answer: the largest block at or before the cutoff, or 0 if none. It returns `latest` without searching when the latest block is already old enough. The probe loop strictly decreases `lo` |
| `BlockResolver.SameAsLinearScan` | jsFunctions/nadfun-kpis.mjs:81-90 | The binary search's exit state (`left + 1 >= right`, `left` at or before the cutoff or 0, `right` after it) determines the linear-scan answer |
| `BlockResolver.FixedLookbackFromBlock` | jsFunctions/nadfun-kpis.mjs:147 | The fixed lookback never passes the latest block, is at most 200 blocks behind it, and is exactly 200 behind unless clamped at block 0 |
| `BlockResolver.ResolveFromBlock` | jsFunctions/nadfun-kpis.mjs:146-147 | In either mode the window's first block is at most the latest block; each mode gives its own answer |
| `JsValue.Or` | jsFunctions/nadfun-kpis.mjs:182 | JavaScript's short-circuit `or` returns one of its operands and is truthy exactly when one of them is |
| `FieldPick.ToBigInt` | jsFunctions/nadfun-kpis.mjs:97-101 | A BigInt is kept as is. A finite number gives its floor. A string gives `BigInt(string)`, the partial `parse`. NaN or an infinity gives nothing, because of the caught RangeError. Only BigInts, numbers and strings can yield a value |
| `FieldPick.Candidate` | jsFunctions/nadfun-kpis.mjs:95-101 | A key contributes nothing when the record is not an object or the key is absent, null or undefined. Otherwise its contribution is exactly the conversion of that field |
| `FieldPick.Pick` | jsFunctions/nadfun-kpis.mjs:93-104 | The lookup returns 0 or the value contributed by one of the listed keys |
| `FieldPick.PickFirstMatch` | jsFunctions/nadfun-kpis.mjs:93-102 | If key `i` is the first whose value is present and convertible, the lookup returns that value's conversion. Nullish and unconvertible keys before it are skipped |
| `FieldPick.PickDefault` | jsFunctions/nadfun-kpis.mjs:93-104 | When no key yields a value, the lookup returns 0 |
| `FieldPick.PickBigInt` | jsFunctions/nadfun-kpis.mjs:93-104 | The loop with early return computes the first-match lookup |
| `TradeAggregation.EventTag` | jsFunctions/nadfun-kpis.mjs:182 | The tag is the first truthy field among `eventType`, `type`, `name`, and otherwise `event` |
| `TradeAggregation.IsBuy` | jsFunctions/nadfun-kpis.mjs:184 | Only objects can be Buys, and a Buy's tag and `eventType` are never "Sell" |
| `TradeAggregation.IsSell` | jsFunctions/nadfun-kpis.mjs:185 | Only objects can be Sells, and a Sell's tag and `eventType` are never "Buy" |
| `TradeAggregation.EventVolume` | jsFunctions/nadfun-kpis.mjs:190-195 | An event that is neither Buy nor Sell adds 0. A Buy with a convertible `amountIn` adds that amount, and a Sell with a convertible `amountOut` adds that. Any other non-zero volume comes from one of the alias keys |
| `TradeAggregation.ClassificationExclusive` | jsFunctions/nadfun-kpis.mjs:182-185 | No event is both a Buy and a Sell. The extra `ev?.eventType === ...` test never changes the classification made from the alias chain |
| `TradeAggregation.TallyOf` | jsFunctions/nadfun-kpis.mjs:181-196 | The reference fold of the event loop. Neither count exceeds the number of events; `TradeCountBound` bounds their sum |
| `TradeAggregation.AggregateEvents` | jsFunctions/nadfun-kpis.mjs:175-196 | The event loop's buy count, sell count and wei volume equal the fold of the events |
| `TradeAggregation.TallyConcat` | jsFunctions/nadfun-kpis.mjs:181-196 | Counts and volume of a concatenation of event lists add up, so aggregation has no hidden state |
| `TradeAggregation.IgnoredEvent` | jsFunctions/nadfun-kpis.mjs:184-195 | An event that is neither a Buy nor a Sell changes no count and no volume wherever it occurs |
| `TradeAggregation.TradeCountBound` | jsFunctions/nadfun-kpis.mjs:187-198 | `buyCount + sellCount` is at most the number of events |
| `TradeAggregation.VolumeBySide` | jsFunctions/nadfun-kpis.mjs:190-195 | Volume is exactly the amount-in alias summed over Buy events plus the amount-out alias summed over Sell events |
| `Prices.PriceOf` | jsFunctions/nadfun-kpis.mjs:212-217 | A price exists exactly when the quoted amount is present and positive. It is then positive and the inverse of tokens per coin |
| `Prices.IsPositiveNumber` | jsFunctions/nadfun-kpis.mjs:222 | `typeof prev === "number" && prev > 0`: a non-number, NaN or negative infinity fails, a finite number passes exactly when positive, and positive infinity passes |
| `Prices.DeltaPct` | jsFunctions/nadfun-kpis.mjs:219-223 | A change exists exactly when there is a current price and the previous one is a positive number. For a finite previous price it is the percentage with `price == prev * (1 + d/100)`; an infinite previous price gives NaN |
| `Prices.IsSpike` | jsFunctions/nadfun-kpis.mjs:224 | No change, or a NaN change, is never a spike. An infinite change in either direction always is. A finite change is a spike exactly when it reaches the threshold in either direction |
| `Prices.SpikeIffRelativeMove` | jsFunctions/nadfun-kpis.mjs:222-224 | A token is a spike exactly when the absolute move `abs(price - prev) * 100` is at least `SPIKE_PCT * prev`, the threshold itself included |
| `TokenList.NormalizeTokenList` | jsFunctions/nadfun-kpis.mjs:106-117 | Accepts exactly an all-string array (returned unchanged), an array of objects with a truthy `address` (mapped to the addresses in order) and an object whose `tokens` is an array (that array). Any other shape is rejected |
| `TokenList.LeadingEnd` | jsFunctions/nadfun-kpis.mjs:130 | Where the leading whitespace ends: everything before it is whitespace and the character at it is not |
| `TokenList.TrailingStart` | jsFunctions/nadfun-kpis.mjs:130 | Where the trailing whitespace starts: everything from it on is whitespace and the character before it is not |
| `TokenList.Trim` | jsFunctions/nadfun-kpis.mjs:130 | `trim` is the contiguous part of `s` that starts where the leading whitespace ends. Everything before it and everything after it is whitespace, and it neither starts nor ends with whitespace |
| `TokenList.TrimIdempotent` | jsFunctions/nadfun-kpis.mjs:130 | Trimming a trimmed string changes nothing |
| `TokenList.TrimAll` | jsFunctions/nadfun-kpis.mjs:130 | Mapping `trim` succeeds exactly when every entry is a string, position by position; otherwise it is the TypeError |
| `TokenList.DropEmpty` | jsFunctions/nadfun-kpis.mjs:130 | `filter(Boolean)` never lengthens the list, and keeps its length exactly when no entry is empty |
| `TokenList.DropEmptyKeepsOnlyNonBlank` | jsFunctions/nadfun-kpis.mjs:130 | `filter(Boolean)` leaves no empty token and only entries of its input |
| `TokenList.DropEmptyKeepsCounts` | jsFunctions/nadfun-kpis.mjs:130 | `filter(Boolean)` keeps every non-empty token as many times as it occurs |
| `TokenList.DropEmptyKeepsOrder` | jsFunctions/nadfun-kpis.mjs:130 | `filter(Boolean)` keeps the input order |
| `TokenList.TrimmedStayTrimmed` | jsFunctions/nadfun-kpis.mjs:130 | Every token left after trimming and filtering is its own trim |
| `TokenList.LoadTokens` | jsFunctions/nadfun-kpis.mjs:129-130 | Loading fails exactly on an unrecognised shape (the format error) or a non-string entry (the TypeError of `trim`). Every loaded token is non-empty and its own trim |
| `TokenList.LoadTokensSpec` | jsFunctions/nadfun-kpis.mjs:129-130 | After a successful load every token is non-empty and trimmed, and the tokens are the trimmed entries in input order with the blanks removed |
| `KpiRun.PrevPrices` | jsFunctions/nadfun-kpis.mjs:149-150 | The previous price map is always truthy. It is the cache's `prices` when that is truthy, and `{}` otherwise: no cache, or a cache whose `prices` is missing or falsy |
| `KpiRun.PrevPrice` | jsFunctions/nadfun-kpis.mjs:219 | A token the previous map does not hold has no previous price (`undefined`). A present one comes from an object entry |
| `KpiRun.TokenKpiOf` | jsFunctions/nadfun-kpis.mjs:175-235 | A token's record carries that token. Its trade count is buys plus sells and at most the number of its events |
| `KpiRun.TokenKpiPrice` | jsFunctions/nadfun-kpis.mjs:212-223 | A record has a price exactly when its quote is positive. It has a change only when it has a price, and never for a token the previous map does not know |
| `KpiRun.TotalTrades` | jsFunctions/nadfun-kpis.mjs:156-199 | The sum of the per-token trade counts, starting from 0. `TotalTradesZeroIff` and `TotalTradesCoversEach` state its properties |
| `KpiRun.MostActive` | jsFunctions/nadfun-kpis.mjs:205-208 | No most-active token, with count -1, exactly when there are no tokens. Otherwise there is one, with a count of at least 0 |
| `KpiRun.SpikeCount` | jsFunctions/nadfun-kpis.mjs:222-224 | The spike count is at most the number of tokens |
| `KpiRun.NextPrices` | jsFunctions/nadfun-kpis.mjs:227 | Every entry of the new price map is stamped with the run time, and the map is empty without tokens |
| `KpiRun.Absorb` | jsFunctions/nadfun-kpis.mjs:199-227 | Taking one more token's record advances the total, the most-active pair, the spike count and the price map exactly as their folds over the longer list |
| `KpiRun.AggregateTokens` | jsFunctions/nadfun-kpis.mjs:156-238 | The token loop produces one per-token record per token in input order, and the total, most-active, spike-count and price-map folds over those records |
| `KpiRun.ProcessToken` | jsFunctions/nadfun-kpis.mjs:168-225 | One token's record: counts and volume from its events, price from its quote, change against its previous price |
| `KpiRun.FoldStep` | jsFunctions/nadfun-kpis.mjs:199-227 | How each fold advances when one token is appended (strict `>` for most-active, last write wins in the price map) |
| `KpiRun.TotalTradesZeroIff` | jsFunctions/nadfun-kpis.mjs:156-199 | The total is 0 exactly when no token traded |
| `KpiRun.TotalTradesCoversEach` | jsFunctions/nadfun-kpis.mjs:199 | Every token's trade count is at most `totalTrades5m` |
| `KpiRun.MostActiveIsFirstMaximum` | jsFunctions/nadfun-kpis.mjs:205-208 | For a non-empty token list the most-active count is the maximum trade count, and the token is the first one in input order that reaches it |
| `KpiRun.SpikeCountBound` | jsFunctions/nadfun-kpis.mjs:222-224 | `spikeTokenCount5m` is at most the number of tokens. It is 0 exactly when no token's change reaches the threshold |
| `KpiRun.NextPricesKeys` | jsFunctions/nadfun-kpis.mjs:227 | The new price map's keys are exactly the current tokens, so tokens known only to the old snapshot are dropped |
| `KpiRun.NextPricesLastOccurrence` | jsFunctions/nadfun-kpis.mjs:227 | A token's entry in the new map is the price computed at its last occurrence, stamped with the run time |
| `KpiRun.NextPricesPositive` | jsFunctions/nadfun-kpis.mjs:217 | Every price stored in the new map is positive when present |
| `KpiRun.NoCacheNoSpikes` | jsFunctions/nadfun-kpis.mjs:149-150 | With a missing or unreadable cache (`{}`), no change is computed and the spike count is 0 |
| `KpiRun.DecimalString` | jsFunctions/nadfun-kpis.mjs:243-244 | `toString()` of a block number is a non-empty string of decimal digits with no leading zero, and it reads back as the number |
| `KpiRun.SnapshotJson` | jsFunctions/nadfun-kpis.mjs:240-247 | The written document's `prices` object has exactly the new map's tokens as keys, and `windowSec` is 300 |
| `KpiRun.SnapshotRoundTrip` | jsFunctions/nadfun-kpis.mjs:240-247 | Reading back the written snapshot gives, for each token, the price this run stored (number or null) and nothing for tokens it did not process |
| `KpiRun.NextRunComparesWithThisRun` | jsFunctions/nadfun-kpis.mjs:219-227 | The next run computes a change for a token exactly when it has a price and this run stored a non-null price for that token |
| `KpiRun.ScenarioTally` | jsFunctions/nadfun-kpis.mjs:175-196 | A Buy carrying `amountIn` of 1 coin and a Sell carrying `amountOut` of 0.5 coin count as one buy, one sell and 1.5 coins of volume in wei |
| `KpiRun.TwoTokenFold` | jsFunctions/nadfun-kpis.mjs:199-208 | A token with two trades followed by one with none gives a total of 2, and the first token stays most active |
| `KpiRun.TwoTokenScenario` | jsFunctions/nadfun-kpis.mjs:175-208 | The two tokens above: 2 trades in total, the first token most active with 2, and a zero record for the token without events |
| `KpiRun.Run` | jsFunctions/nadfun-kpis.mjs:119-265 | A run fails exactly when the token list cannot be loaded. Otherwise the report covers the window `fromBlock <= toBlock == latest` with one record per loaded token in order, and it carries the given clock reading as `generatedAt` and the given threshold. With no tokens the KPIs are `0, null, -1, 0`. The snapshot holds the new price map |

## Left out

- The JSON-RPC helpers `rpc`, `getBlock` and `blockTimestampSec` (lines 37-56) are replaced by the timestamp function `ts`. `FindFromBlockByTime` requires it to be non-decreasing, as block timestamps are. Retries and transport errors are not modelled.
- `initSDK`, `createCurveIndexer`, `getLatestBlock`, `getEvents` and `getAmountOut` are foreign SDK calls. Their results are parameters (`latestBlock`, `fetch`, `quote`). An exception from any of them aborts the script and is not modelled.
- `must`, the `NETWORK` and `SPIKE_PCT` environment reads, `readJson` of `tokens.json`, `safeWriteJson`, `Date.now`, `new Date().toISOString()` and the writes to stdout and stderr are I/O. The model takes the parsed token file, the cache document, the threshold and the clock readings as parameters. It returns the report and the snapshot document instead of writing them.
- `FieldPick.ToBigInt`: `BigInt(string)` is the abstract partial function `parse`. Its grammar (decimal, `0x` hex, surrounding whitespace, `""` as 0) is not modelled.
- `Prices.PriceOf`: `formatUnits`, `Number` and `1 / tokensPerMon` are real arithmetic, not IEEE doubles, so rounding, overflow and subnormal results are not captured.
- `Prices.DeltaPct`: the percentage is real division. Only its existence, its NaN case and the threshold logic are exact.
- `KpiRun.AggregateTokens`: `volumeMon5m` (`Number(formatUnits(volMonWei, 18))`) and `totalVolumeMon5m` are floating-point display values and are left out. The per-token volume is kept exactly, in wei.
- `JsValue.Get`: property access on a non-object value is taken as `undefined`. This differs only for array or string receivers indexed by a numeric-string key, which the alias keys and token addresses are not.
- `KpiRun.SnapshotJson`: `JSON.stringify` followed by `JSON.parse` is taken as the identity on the snapshot document, numbers included.
- A `SPIKE_PCT` that is not a number (`NaN` from a malformed environment value) is not modelled. The threshold is a real parameter.
- `createTokenFunction/nadfun-create.mjs` is not part of this model. It only reads arguments, downloads an image and calls SDK endpoints.
