# BitSlow marketplace core in Dafny

BitSlow is a toy marketplace of "coins". Each coin is identified by three
small integers (its bits), has a fixed value and may have an owner. This
project models and proves three parts of it:

- **The BitSlow fingerprint** (`bitslow.dfy`, `decimal.dfy`). `computeBitSlow`
  runs a million-round BigInt accumulator over the three bits. It then hashes
  the decimal text of the result with MD5.
  - The loop is a method whose invariant ties it to a closed form.
  - BigInt `%` and `/` truncate toward zero, so they are written out for every
    sign.
  - MD5 is a parameter: any function from text to 32 lower-case hex digits.
- **The seed generators** (`seed.dfy`, `store.dfy`, `cardinality.dfy`). These
  are `generateDistinctRandomValues`, `seedClients`, `seedCoins`,
  `seedTransactions` and `seedDatabase`.
  - The three SQLite tables are sequences of rows in a `Database` class.
  - Each table has an AUTOINCREMENT counter. Dropping a table resets it.
  - Rolling back a transaction restores both the rows and the counter.
  - `Math.random()` is a finite list of draws, reals in [0, 1). Each random
    integer is `Math.floor(u * n)` of the next draw.
  - `faker`'s client profiles are a list of `Profile` values.
  - The sets, the arrays and the `coinOwners` record are local variables that
    the loops update.
- **The shop page** (`shop.dfy`). This covers the page slice of 30 coins, the
  page count, the Prev/Next controls, the owner label and the Buy button. The
  component's `coins` and `currentPage` state is a `ShopPage` class.

What the code does, and does not do, in places a reader might expect otherwise:

- The seed code does not keep `coins.client_id` in step with the
  transactions: it never updates the owner when a coin is sold. So a coin's
  owner is not the buyer of its latest transaction, and no such invariant is
  stated.
- Apart from the `/*` route that returns `index.html`, `src/index.tsx` serves
  only `/api/transactions`, `/api/signup` and `/api/login`. It has no
  coin-issue, buy-coin or session-token handlers, so none is modelled.

The model also proves two behaviours of the code that are easy to miss:

- With at most one client, a coin sold twice makes the buyer loop of
  `seedTransactions` run forever. `Seed.DrawBuyer` proves that no list of draws
  ends it.
- The `coinOwners[coinId] || null` lookup would treat an owner id 0 as no
  owner. Buyer ids are never 0, so the lookup always finds the previous buyer.

## Model

| member | source | states |
|---|---|---|
| BitSlow.TruncDiv | src/bitslow.ts:23 | BigInt division by a positive divisor truncates toward zero: the quotient brackets the dividend from below for non-negative and from above for negative dividends |
| BitSlow.TruncRem | src/bitslow.ts:23 | the BigInt remainder satisfies `a == q * d + r` with the sign of the dividend and magnitude below the divisor |
| BitSlow.AccumulatedStep | src/bitslow.ts:22-30 | one more round adds the base term plus `bit2²` on an even round or `bit3³` on an odd one to the closed form |
| BitSlow.Accumulate | src/bitslow.ts:15-30 | the loop ends with the closed form after 1,000,000 rounds: `1_000_000*base + 500_000*bit2² + 500_000*bit3³` |
| BitSlow.ComputeBitSlow | src/bitslow.ts:10-35 | the result is the MD5 hex digest of the decimal text of the closed-form accumulator: it depends on the three bits only and has 32 hex digits |
| BitSlow.BaseOfNonNegative | src/bitslow.ts:23 | for a non-negative `bit1` the truncating operators agree with the Euclidean ones |
| BitSlow.AccumulatorNeverDecreases | src/bitslow.ts:22-30 | for non-negative bits the accumulator is non-negative and never decreases from round to round |
| BitSlow.DistinctAccumulatorsDistinctInput | src/bitslow.ts:32-34 | different accumulators give different text to the digest |
| BitSlow.SwappedTestInputsDiffer | tests/bitslow.test.ts:11-15 | `(123,456,789)` and `(789,456,123)` give different accumulators and different digest inputs |
| BitSlow.ZeroBitsStayZero | src/bitslow.ts:22-30 | with all-zero bits the accumulator is 0 after any number of rounds |
| BitSlow.ZeroInputs | tests/bitslow.test.ts:17-23 | all-zero bits feed the text "0" to the digest |
| Decimal.NatToString | src/bitslow.ts:33 | the decimal text of a natural is non-empty, all digits, a single digit exactly below 10, and starts with '0' only for 0 (no leading zeros) |
| Decimal.IntToString | src/bitslow.ts:33 | `n.toString()`: non-empty, with a leading '-' exactly for negative numbers |
| Decimal.ParseNatToString | src/bitslow.ts:33 | reading back the decimal text gives the number again |
| Decimal.NatToStringInjective | src/bitslow.ts:33 | different naturals have different digit strings |
| Decimal.PrintsZero | src/bitslow.ts:33 | 0 prints as "0" |
| Decimal.NonNegativeHasNoSign | src/seed.ts:168 | a non-negative number prints as digits only, without a '-' |
| Decimal.IntToStringInjective | src/bitslow.ts:33 | different integers print differently |
| Store.CoinValue | src/seed.ts:255-257 | the value of the first coin row with that id, or 0 when there is none |
| Store.Database.constructor | src/seed.ts:59-98 | the three tables start empty with counters at 0 |
| Store.Database.DropAll | src/seed.ts:27-34 | dropping the tables empties them and resets their AUTOINCREMENT counters |
| Store.Database.InsertClient | src/seed.ts:108-111 | the insert succeeds exactly when the email is new; it then appends the row with key counter+1, otherwise nothing changes |
| Store.Database.RollbackClients | src/seed.ts:113-126 | the clients table and its counter return to the state saved when the transaction began |
| Store.Database.InsertCoin | src/seed.ts:138-141 | appends the coin row with key counter+1 |
| Store.Database.InsertTransaction | src/seed.ts:228-231 | appends the transaction row with key counter+1 |
| Seed.RandomBelow | src/seed.ts:211 | `Math.floor(u * n)` lies in `[0, n)` for `n >= 1` and is 0 for `n == 0` |
| Seed.Sampled | src/seed.ts:211 | one candidate per draw, each in `[min, max]` when the range is non-empty |
| Seed.Dedup | src/seed.ts:209-214 | the Set's contents in insertion order: no repeats, exactly the elements added, no longer than the input |
| Seed.DedupGrows | src/seed.ts:210-212 | adding more candidates never shrinks the Set |
| Seed.CollectDistinct | src/seed.ts:209-212 | the loop stops with the Set of the draws used so far, holding `count` values unless the draws ran out, and the draws before the last one had not yet filled it |
| Seed.AddSample | src/seed.ts:211 | one `values.add(...)`: the Set of one more draw, larger by at most one |
| Seed.GenerateDistinctRandomValues | src/seed.ts:198-215 | throws exactly when `max - min + 1 < count`; otherwise returns exactly `count` pairwise-distinct values in `[min, max]`, namely the Set of the draws used, and stops at the first draw that fills the Set |
| Seed.BitKey | src/seed.ts:168 | `${bit1}-${bit2}-${bit3}`: a '-' follows bit1's digits; `Seed.BitKeyInjective` shows the key identifies the combination |
| Seed.BitKeyInjective | src/seed.ts:168 | two bit combinations with the same `${bit1}-${bit2}-${bit3}` key are the same combination |
| Seed.TripleIndexInjective | src/seed.ts:161-166 | distinct valid bit combinations get distinct positions among the 720 ordered triples |
| Seed.TripleSpaceBound | src/seed.ts:146-172 | coins with valid, pairwise-distinct bit combinations number at most 720 |
| Seed.DrawFreshBits | src/seed.ts:161-169 | the retry loop returns three distinct bits in 1..10 whose key has not been used |
| Seed.DrawFreshValue | src/seed.ts:175-178 | the retry loop returns a value in `[10000, 99999]` that has not been used |
| Seed.DrawOwner | src/seed.ts:152-155 | the owner is null or a client id in `[1, clientCount]` (1 when there are no clients) |
| Seed.DrawCoin | src/seed.ts:151-181 | the drawn coin has valid bits, a fresh key, a fresh value in range and an owner as above |
| Seed.NewCoinsExtend | src/seed.ts:171-184 | a coin with a fresh key and a fresh value keeps the coins pairwise distinct in key and in value |
| Seed.NewCoinsFitTripleSpace | src/seed.ts:146-172 | coins with distinct keys have distinct bit combinations, so a finished run has at most 720 coins |
| Seed.SeedCoins | src/seed.ts:134-189 | appends coins keyed in order, each seeded as above and pairwise distinct in key and value, and advances the coin counter by the coins added; a finished run inserts `count` coins, returns their ids and needs `count <= 720`; clients and transactions are untouched |
| Seed.DuplicateEmailSpoilsBatch | src/seed.ts:113-126 | an email already in the table makes every longer batch fail the UNIQUE constraint |
| Seed.FreshEmailsExtend | src/seed.ts:113-126 | a profile with a new email extends a batch the constraint accepts |
| Seed.SeedClients | src/seed.ts:104-129 | succeeds exactly when there are `count` profiles and their emails are new and pairwise distinct; then appends them with consecutive ids and returns the ids; a refused email is that of the first profile whose email was taken or repeated, all before it accepted; running out means fewer than `count` profiles, all accepted; on failure the table and its counter are as before |
| Seed.LastBuyer | src/seed.ts:246 | there is no buyer exactly when no earlier sale of the coin exists; otherwise it is the buyer of the latest such sale |
| Seed.LastBuyerStep | src/seed.ts:278 | after a sale only that coin's latest buyer changes, and it becomes the sale's buyer |
| Seed.OwnersRecordedStep | src/seed.ts:278 | `coinOwners[coinId] = buyerId` keeps the record equal to each coin's latest buyer |
| Seed.SellerOfIsLastBuyer | src/seed.ts:246 | the `coinOwners` lookup, with its falsy fallback to null, is the coin's latest buyer in this run, or null |
| Seed.SellerOf | src/seed.ts:246 | `coinOwners[coinId] || null`: none for a coin never sold, otherwise the recorded owner, never the falsy 0 |
| Seed.SellersChainedExtend | src/seed.ts:246 | a sale whose seller is the coin's latest buyer keeps the seller chain intact |
| Seed.DatesAdvanceExtend | src/seed.ts:263-266 | a sale 1 to 2880 minutes after the previous one keeps dates advancing |
| Seed.NewTransactionsExtend | src/seed.ts:241-279 | one iteration keeps all promises of the inserted transactions |
| Seed.DatesIncrease | src/seed.ts:237-238 | transaction dates strictly increase after the start, by at most 2880 minutes per sale |
| Seed.SellerBoughtEarlier | src/seed.ts:246-252 | a sale has a seller exactly when the coin was sold earlier in the run, and then the seller bought it there; a seller implies at least two clients |
| Seed.DrawBuyer | src/seed.ts:249-252 | the buyer is in `[1, clientCount]` and differs from the seller; with at most one client and that client as the seller, the loop never ends |
| Seed.DrawSale | src/seed.ts:243-263 | a coin id in `[1, coinCount]`, the seller from `coinOwners`, a buyer as above and 1..2880 minutes |
| Seed.InsertSale | src/seed.ts:255-275 | inserts the sale at the coin's stored value, the clock advanced by the drawn minutes |
| Seed.SeedTransactions | src/seed.ts:220-281 | appends sales keyed in order: each coin in range, buyer in range and not the seller, seller the coin's previous buyer in the run, amount the coin's stored value or 0, dates 1..2880 minutes apart; the transaction counter advances by the sales added; a finished run inserts `count` of them; clients and coins are untouched |
| Seed.CoinValueOfNumbered | src/seed.ts:255-257 | with coin keys 1..n, the lookup of id `k` finds the value of coin `k` |
| Seed.CleanSeedReferences | src/seed.ts:83-96 | after seeding emptied tables with at least one client and one coin, every coin owner, coin sold, buyer and seller refers to an existing row, and every amount lies in `[10000, 99999]` |
| Seed.CleanSeedFromSteps | src/seed.ts:40-42 | the three steps into emptied tables leave the requested numbers of rows, keyed from 1, with the facts above |
| Seed.SeededAfterFromSteps | src/seed.ts:40-42 | the clients step and the coin-and-sale steps, each appending to its own tables and advancing its counters, together give the appended-seed facts |
| Seed.CleanSeedOfSeededAfter | src/seed.ts:27-42 | a seed appended to emptied tables with fresh counters is a clean seed (keys from 1, every reference resolves), and each counter ends at its table's size |
| Seed.SeedCoinsAndSales | src/seed.ts:41-42 | the coins then the sales: both tables only grow; on success the new coins are seeded coins owned among client ids 1..n, the new sales are chained sales of coin ids 1..m, both counters advance by the rows added and the coin ids are the new keys; clients are untouched |
| Seed.SeedTables | src/seed.ts:40-42 | every table only grows, its old rows kept as a prefix; on success the clients are the profiles, all emails accepted, keyed after the old counter, the coins are seeded coins whose owners are client ids 1..n (the first n rows, which on a non-empty table are the oldest ones, not the new ones), the sales are chained sales of coin ids 1..m among client ids 1..n with advancing dates, each counter advances by the rows added, and the returned ids are the keys just handed out; a refused email is the first taken or repeated one and leaves every table as it was |
| Seed.SeedEmptyTables | src/seed.ts:27-42 | seeding just-dropped tables: a success is the append of `Seed.SeedTables` to empty tables with zeroed counters (client ids 1..n are the profiles, coin ids 1..m), hence a clean seed with each counter at its table's size; a refused email is the first taken or repeated profile and, the DROP not being part of any transaction, leaves all three tables empty |
| Seed.SeedDatabase | src/seed.ts:9-54 | defaults of 20, 50, 100 and no clearing; without `clearExisting` the existing rows survive as a prefix of each table and a success appends exactly what `Seed.SeedTables` states; with it a success is `Seed.SeededAfter` from empty tables and zeroed counters (client rows are the numbered profiles, returned ids are 1..n and 1..m), hence the clean-seed facts with each counter at its table's size; in both cases a refused email is the first taken or repeated one, counted against the starting table, and it leaves the tables unchanged without clearing and empty with clearing (the DROP is not rolled back) |
| Shop.SliceBound | src/Shop.tsx:100 | a slice bound is clamped to the list, and a non-negative one is `min(i, len)` |
| Shop.Slice | src/Shop.tsx:100 | as ECMA-262 defines `Array.prototype.slice`: `max(end - start, 0)` elements after clamping, element k being the list's element at `start + k` |
| Shop.PageCoins | src/Shop.tsx:98-100 | page `p >= 1` shows `coins[(p-1)*30 .. (p-1)*30+30)` clipped to the list, at most 30 coins |
| Shop.TotalPages | src/Shop.tsx:101 | `ceil(len/30)`: the pages hold every coin, one page fewer would not, and there are no pages exactly when there are no coins |
| Shop.PagesFromRest | src/Shop.tsx:98-101 | pages `p..totalPages` laid end to end are the coins from `(p-1)*30` on |
| Shop.PagesCoverCoins | src/Shop.tsx:98-101 | pages `1..totalPages` laid end to end are exactly the coins |
| Shop.PrevPage | src/Shop.tsx:190 | Prev never goes below 1 and otherwise goes back one page |
| Shop.NextPage | src/Shop.tsx:200 | Next never goes past `totalPages` and otherwise goes forward one page |
| Shop.AfterClick | src/Shop.tsx:187-205 | a click while the controls are hidden changes nothing; from a page in range Prev moves back at most one page and Next forward at most one |
| Shop.AfterClickInRange | src/Shop.tsx:187-205 | a click on the shown, enabled controls keeps the page between 1 and the page count |
| Shop.ClicksStayInRange | src/Shop.tsx:187-205 | any sequence of clicks keeps the page between 1 and the page count |
| Shop.NextReachesEveryPage | src/Shop.tsx:199-204 | from any page, clicking Next reaches every later page |
| Shop.OwnerLabel | src/Shop.tsx:165-167 | "Unowned" when `client_id` is null or 0, otherwise `owner_name` when it is not empty; never empty |
| Shop.ShowsBuyButton | src/Shop.tsx:171 | `!coin.client_id`: Buy shows exactly when `client_id` is null or 0 |
| Shop.BuyButtonMatchesLabel | src/Shop.tsx:165-178 | the Buy button shows exactly for coins labelled "Unowned", unless an owner is named "Unowned" |
| Shop.FallbackLabelsIdentifyOwner | src/Shop.tsx:166 | two `User #<id>` labels are equal only for the same owner id |
| Shop.ShopPage.constructor | src/Shop.tsx:19-22 | no coins, page 1 |
| Shop.ShopPage.Rows | src/Shop.tsx:98-100 | the rows shown are at most 30 of the loaded coins |
| Shop.ShopPage.CoinsLoaded | src/Shop.tsx:50-51 | replaces the coins and keeps the current page |
| Shop.ShopPage.ClickPrev | src/Shop.tsx:189-195 | the page moves as the Prev updater says when the control is shown and enabled, and stays in range |
| Shop.ShopPage.ClickNext | src/Shop.tsx:199-205 | the page moves as the Next updater says when the control is shown and enabled, and stays in range |

## Left out

- The MD5 digest is a parameter of type `string -> HexDigest`. Its internals and its collision behaviour are not modelled. So the test that swapped inputs give different hashes is proved only up to the digest input.
- Dates are integers in milliseconds. `Date`, `setMonth` and `toISOString` are not modelled: the starting time six months back is a parameter.
- Amounts are integers. `toFixed(2)` formatting and the REAL column type are not modelled.
- `faker` is a list of profiles supplied by the caller. The content of the names, phones, addresses and passwords is not modelled.
- `Math.random()` is a finite list of draws. A run that needs more draws than it is given stops with `DrawsExhausted`, and that stands for "has not finished yet". So termination of the retry loops is not claimed. The model states only what holds whenever they do finish.
- Seed.SeedCoins: rows inserted before the draws ran out stay in the table. The source has no such stopping point, and the model does not roll them back.
- Seed.SeedClients: running out of profiles is reported like running out of draws. `faker` itself never runs out.
- Seed.SeedTransactions: coin ids are drawn from 1..coinCount as in the source. Whether those coins exist is stated only for a seed into emptied tables, in `Seed.CleanSeedReferences`.
- JavaScript `number` arguments that are not integers are not modelled. Counts and bits are integers.
- Schema DDL, `db.prepare`/`run`, `lastInsertId`, SQLite's foreign-key enforcement and console logging are not modelled. The UNIQUE constraint on `email` and the AUTOINCREMENT keys are modelled.
- The HTTP route handlers of `src/index.tsx`, the login form and the other React pages are not part of this model. Neither are Shop's fetch, buy, generate-coin and modal code.
