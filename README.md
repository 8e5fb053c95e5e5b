# Senior past-positions list of the SMART Yield portfolio view

This project models the logic of the senior-tranche "past positions" list
(`PastPositionsList`) of the DAO front end. The list fetches a page of the
wallet's senior-bond redemptions and joins each redemption record to the
first known pool with the same SMART Yield address. For each card it derives
the redeemed amount and the realised APY. It keeps a small component state
(`loading`, `data`, `total`, `pageSize`, `page`), which every update changes
through `mergeState`.

- `wrappers.dfy` (`Wrappers`): `Option`, standing for JavaScript's
  `undefined`, and `Lookup`, standing for `Map.prototype.get`.
- `redeems.dfy` (`Redeems`): the redemption record, the pool, the pool and
  market metadata, the list entry, the first-match search done by
  `pools.find`, and the join done by `redeems.data.map`.
- `figures.dfy` (`Figures`): the redeemed amount and the APY, over exact
  reals, with the APY's inverse (`GainAt`) and the lemmas that connect them.
- `past_positions.dfy` (`PastPositions`): the `State` value and
  `InitialState`; `mergeState` as a merge of a partial patch; the three
  patches the component applies; and the class `PastPositionsList`. Its
  methods are the steps of the fetch effect: guards and loading, success,
  failure, and one whole cycle with the endpoint passed in as a function.

External inputs are parameters. The wallet account is an `Option<string>`.
The pool list from the pools provider is a `seq<Pool>`. The static `Pools`
and `Markets` registries are two maps in a `Catalog`. The endpoint
`fetchSYSeniorRedeems` is a function from the request to an outcome.

Points of the code the model follows closely:
- Pools are searched as a list with `pools.find`, and the first pool whose
  address matches wins.
- `bignumber.js` gives Infinity for a non-zero gain over a zero divisor and
  NaN for 0/0; the model gives no value in both cases.
- The account guard `!wallet.account` returns early for an unset account
  and for the empty string alike; the model does the same.

## Model

| member | source | states |
|---|---|---|
| `Redeems.FindFirst` | src/modules/smart-yield/views/portfolio-view/senior/past-positions-list/index.tsx:94 | the result is present iff some pool has the record's `smartYieldAddress`, and then it is the index of the first such pool in list order |
| `Redeems.FirstMatchUnique` | src/modules/smart-yield/views/portfolio-view/senior/past-positions-list/index.tsx:94 | at most one index is the first match, so the pool chosen is well defined |
| `Redeems.FindFirstAppend` | src/modules/smart-yield/views/portfolio-view/senior/past-positions-list/index.tsx:94 | pools after a match never affect the search; without a match in the front part, the search result is the back part's, shifted by the front's length |
| `Redeems.Enrich` | src/modules/smart-yield/views/portfolio-view/senior/past-positions-list/index.tsx:99-103 | the enriched pool is the pool itself; `meta` is present iff `Pools` has the pool's underlying symbol, and is then that entry; `market` likewise from `Markets` by protocol id |
| `Redeems.JoinOne` | src/modules/smart-yield/views/portfolio-view/senior/past-positions-list/index.tsx:94-105 | the entry keeps the record unchanged; its pool is present iff some pool's address matches; that pool is the first match, with `meta` looked up by its underlying symbol and `market` by its protocol id |
| `Redeems.Join` | src/modules/smart-yield/views/portfolio-view/senior/past-positions-list/index.tsx:93-106 | one entry per record, same length, and entry i is record i joined |
| `Redeems.RecordsOfJoin` | src/modules/smart-yield/views/portfolio-view/senior/past-positions-list/index.tsx:96-97 | removing the pools from the joined list gives back exactly the fetched records: no filtering, reordering, duplication or change of fields |
| `Redeems.JoinAppend` | src/modules/smart-yield/views/portfolio-view/senior/past-positions-list/index.tsx:93-106 | the join maps each record on its own: joining a concatenation is the concatenation of the joins |
| `Redeems.JoinUnmatched` | src/modules/smart-yield/views/portfolio-view/senior/past-positions-list/index.tsx:98-104 | when no known pool matches any record (for one, when no pool is known), every entry has no pool (a corollary of the contracts of `JoinOne` and `Join`) |
| `Redeems.JoinSamePool` | src/modules/smart-yield/views/portfolio-view/senior/past-positions-list/index.tsx:94-104 | two records with the same pool address get the same enriched pool (a corollary of the contracts of `JoinOne` and `Join`) |
| `Figures.Apy` | src/modules/smart-yield/views/portfolio-view/senior/past-positions-list/index.tsx:195-200 | the APY has a value iff the deposit and the day count are non-zero, and then APY × deposit × days = gain × 365 × 100 |
| `Figures.GainFromApy` | src/modules/smart-yield/views/portfolio-view/senior/past-positions-list/index.tsx:195-200 | the gain is recovered from the APY shown, the deposit and the days (`GainAt` inverts `Apy`) |
| `Figures.ApyOfGainAt` | src/modules/smart-yield/views/portfolio-view/senior/past-positions-list/index.tsx:195-200 | a record whose gain is the one a rate earns shows exactly that rate (`Apy` inverts `GainAt`) |
| `Figures.ApyOverOneYear` | src/modules/smart-yield/views/portfolio-view/senior/past-positions-list/index.tsx:195-200 | over 365 days the APY is gain / deposit × 100 |
| `Figures.Redeemed` | src/modules/smart-yield/views/portfolio-view/senior/past-positions-list/index.tsx:167-174 | the redeemed amount exceeds the deposit by exactly the gain net of the fee |
| `Figures.RedeemedCoversDeposit` | src/modules/smart-yield/views/portfolio-view/senior/past-positions-list/index.tsx:167-174 | the redeemed amount is at least the deposit iff gain ≥ fee, and equals it iff gain = fee |
| `Figures.RedeemedFromApy` | src/modules/smart-yield/views/portfolio-view/senior/past-positions-list/index.tsx:167-174 | the redeemed amount is the deposit plus the gain implied by the APY shown, minus the fee |
| `Figures.OneYearExample` | src/modules/smart-yield/views/portfolio-view/senior/past-positions-list/index.tsx:167-200 | deposit 1000, gain 50, fee 5, 365 days: 1045 redeemed at an APY of 5 |
| `Figures.FiguresSurviveJoin` | src/modules/smart-yield/views/portfolio-view/senior/past-positions-list/index.tsx:96-97 | a joined entry shows the same redeemed amount and APY as its source record (a corollary of `Join` keeping each record) |
| `PastPositions.MergeState` | src/modules/smart-yield/views/portfolio-view/senior/past-positions-list/index.tsx:78-122 | `mergeState`: each field the patch names takes the patch's value, and every other field keeps its previous value |
| `PastPositions.MergeNothing` | src/modules/smart-yield/views/portfolio-view/senior/past-positions-list/index.tsx:78-122 | a patch that names no field leaves the state unchanged |
| `PastPositions.MergeIdempotent` | src/modules/smart-yield/views/portfolio-view/senior/past-positions-list/index.tsx:78-122 | applying the same patch twice is the same as applying it once |
| `PastPositions.LaterSettlementWins` | src/modules/smart-yield/views/portfolio-view/senior/past-positions-list/index.tsx:108-122 | a later settling update replaces an earlier update's data, total and loading in full, with no mix of the two; page and page size survive both |
| `PastPositions.FailureForgetsPriorState` | src/modules/smart-yield/views/portfolio-view/senior/past-positions-list/index.tsx:115-122 | after a failure the state is the same whatever it was before (beyond the pagination window): empty data and total 0 |
| `PastPositions.FilterOrAll` | src/modules/smart-yield/views/portfolio-view/senior/past-positions-list/index.tsx:59 | an absent filter prop becomes `'all'`; a given one is used as it is |
| `PastPositions.PastPositionsList.constructor` | src/modules/smart-yield/views/portfolio-view/senior/past-positions-list/index.tsx:45-51 | the list starts in `InitialState`: not loading, no data, total 0, page 1, page size 10 |
| `PastPositions.PastPositionsList.BeginFetch` | src/modules/smart-yield/views/portfolio-view/senior/past-positions-list/index.tsx:69-91 | with no pools, or with the account unset or empty, nothing changes and nothing is requested; otherwise only `loading` turns true, and the request carries the account, the current page and page size, and the filters defaulted to `'all'` |
| `PastPositions.PastPositionsList.OnSuccess` | src/modules/smart-yield/views/portfolio-view/senior/past-positions-list/index.tsx:93-114 | loading false, data the joined records, total the server count; page and page size unchanged |
| `PastPositions.PastPositionsList.OnFailure` | src/modules/smart-yield/views/portfolio-view/senior/past-positions-list/index.tsx:115-122 | loading false, empty data, total 0 whatever the prior state; page and page size unchanged |
| `PastPositions.PastPositionsList.RunFetchCycle` | src/modules/smart-yield/views/portfolio-view/senior/past-positions-list/index.tsx:68-124 | a whole effect run: the guards, then the state after success or failure of the request sent, each as a single merge into the state before the run |

## Left out

- Rendering is not modelled: the Antd spinner, the cards, the empty-state display and the CSS.
- The display helpers are not modelled: `formatBigValue`, `formatUSDValue`, `shortenAddr`, `getEtherscanTxUrl` and date-fns `format`. Their code is not part of this model.
- Figures.Redeemed: computed over exact reals. The source converts each field with JavaScript `Number`, so binary floating-point rounding and `NaN` for malformed strings are not captured.
- Figures.Apy: computed over exact reals. `bignumber.js` rounds every division to its configured decimal places, and gives `Infinity` or `NaN` on a zero divisor. The model gives no value in the zero-divisor cases instead.
- The React effect machinery is not modelled: re-running on dependency changes, the lack of cancellation, and a stale response overwriting a newer one. Each step is one atomic method call. `LaterSettlementWins` states only what the last merge leaves behind.
- `fetchSYSeniorRedeems` (the network), `useWallet` and `usePools` are inputs. An absent pool list (`!pools`) is treated like an empty one.
- Pool records keep only `smartYieldAddress`, `underlyingSymbol` and `protocolId`. Pool and market metadata keep only a name and an icon. The other fields are copied by the spread without being read.
- The yield-farming pool details and pools overview views only route, select tabs and lay out fixed cards. They hold no logic to state.
