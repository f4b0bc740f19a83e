# gatherDataPoints: a Dafny model

This project models `gatherDataPoints` (`src/lib/logic/gatherDataPoints.ts`), the
function that builds a score history.

- **Input.** It receives a set of blocks of interest: each queried block height maps
  to the accounts that participate at that block.
- **Visit order.** It visits the heights in the order that JavaScript's comparator-less
  `.sort()` gives the parsed keys. That order compares decimal strings, so heights 50
  and 100 are visited as 100, then 50.
- **Each block.** For each height, the function pins the process-wide call context to
  that block (`setTransactionCallBlockNumber`). It then asks the valuation engine
  (`getUserTVL`) for every participant, one after another. It commits
  `{data: {account: {tvl}}}` under the height, records the height as `lastBlock`, and
  polls the optional cancellation token.
- **Stopping.** A rejected valuation or a cancellation stops the walk. The cause is
  returned as `error`, together with everything committed so far. `error` is absent
  when every block is committed.

The model has four modules:

- `Results`: `Option` and `Result`.
- `KeyOrder` holds:
  - the decimal form of a height and the `parseInt` that inverts it;
  - the code-unit string order used by the default sort, proved to be a strict total
    order;
  - `QueryBlocks`, the visit order of a set of heights, proved to be the one sequence
    of exactly those heights that is sorted in that order.
- `ScoreGatherer` holds:
  - the data types of the source (`BlocksOfInterest`, `ScoreDataPoint`,
    `ScoreDataHistory`, `ScoreDataHistoryResult`);
  - the `CallContext` class, whose field `pinned` is what
    `setTransactionCallBlockNumber` assigns. It also carries a ghost log of the calls
    made;
  - a reference definition of the walk (`Run`/`Gather`) and of the calls it makes
    (`RunCalls`/`GatherCalls`);
  - the imperative `GatherDataPoints` with its account loop `ValueParticipants`. Both
    are proved to return exactly the reference result and to make exactly the
    reference calls.
- `GatherProperties`: what a caller can rely on, proved about the reference walk.

The valuation engine is a function parameter. It receives the account, the block
currently pinned and the configuration, and it returns a value or a rejection. The
cancellation token is a function from the block just committed to an optional cause.

The visit order compares decimal strings, not numbers. So on full success
`lastBlock` is the last height of that order, which need not be the largest;
`TwoBlocksSucceed` shows this on the heights 50 and 100.

## Model

| member | source | states |
|---|---|---|
| KeyOrder.ParseIntInvertsNatToString | src/lib/logic/gatherDataPoints.ts:35-36 | parsing a key's decimal form gives back the height, so a parsed key finds its own entry in the blocks of interest |
| KeyOrder.NatToStringInjective | src/lib/logic/gatherDataPoints.ts:35-36 | distinct heights have distinct object keys |
| KeyOrder.DecimalLessIsStrictTotalOrder | src/lib/logic/gatherDataPoints.ts:37 | the default sort's comparison of heights is irreflexive, asymmetric, transitive and total |
| KeyOrder.First | src/lib/logic/gatherDataPoints.ts:37 | the height chosen comes before every other key in the default sort order |
| KeyOrder.FirstUnique | src/lib/logic/gatherDataPoints.ts:37 | at most one key comes before all the others |
| KeyOrder.QueryBlocks | src/lib/logic/gatherDataPoints.ts:35-37 | the visit order holds each key once, has as many entries as there are keys, and is sorted by the default comparison |
| KeyOrder.SortedDistinct | src/lib/logic/gatherDataPoints.ts:35-37 | a sorted visit order has no repeated height |
| KeyOrder.SortedHead | src/lib/logic/gatherDataPoints.ts:35-37 | a sorted sequence of exactly the keys starts with the first key and continues with a sorted sequence of the others |
| KeyOrder.SortedKeysUnique | src/lib/logic/gatherDataPoints.ts:35-37 | any sorted sequence of exactly the keys equals the visit order, whatever order `Object.keys` lists them in |
| KeyOrder.DefaultSortExample | src/lib/logic/gatherDataPoints.ts:37 | the heights 50 and 100 are visited as 100, then 50 |
| ScoreGatherer.Valuations | src/lib/logic/gatherDataPoints.ts:52-59 | reference definition of a block's account loop: each account in list order is valued under the block's pin and stored as `{tvl}`, and the first rejection ends the loop with its cause |
| ScoreGatherer.BlockScoresAt | src/lib/logic/gatherDataPoints.ts:45-59 | reference definition of one block's scores: the account loop over that block's participants, starting from empty scores |
| ScoreGatherer.Cancellation | src/lib/logic/gatherDataPoints.ts:66-67 | no token never cancels; a token's poll after block `h` yields its cause or nothing |
| ScoreGatherer.Run | src/lib/logic/gatherDataPoints.ts:41-75 | reference definition of the block loop from position `i`. A rejection returns its cause with the history and `lastBlock` so far. Otherwise the block is committed and becomes `lastBlock`, and a cancellation then returns its cause. Past the last block there is no error |
| ScoreGatherer.Gather | src/lib/logic/gatherDataPoints.ts:28-83 | reference result of `gatherDataPoints`: the block loop over the visit order, from an empty history and `lastBlock` 0 |
| ScoreGatherer.ValuationCalls | src/lib/logic/gatherDataPoints.ts:52-53 | the valuation calls of one block: one per account under the block's pin, up to and including the first rejected one |
| ScoreGatherer.RunCalls | src/lib/logic/gatherDataPoints.ts:41-67 | the calls of the block loop from position `i`: per block, the pin, then its valuation calls, then the cancellation poll when a token is given; they stop where the walk stops |
| ScoreGatherer.GatherCalls | src/lib/logic/gatherDataPoints.ts:41-67 | the calls `gatherDataPoints` makes: those of the block loop over the visit order |
| ScoreGatherer.CallContext.SetTransactionCallBlockNumber | src/lib/logic/gatherDataPoints.ts:43 | the given block becomes the pinned block and the pin is logged |
| ScoreGatherer.CallContext.GetUserTVL | src/lib/logic/gatherDataPoints.ts:53 | the engine is asked under the block currently pinned, and the call is logged with that pin |
| ScoreGatherer.CallContext.LogCancelCheck | src/lib/logic/gatherDataPoints.ts:66-67 | the poll of the token after a block is logged, and the pin is unchanged |
| ScoreGatherer.ValueParticipants | src/lib/logic/gatherDataPoints.ts:45-59 | returns the block's scores built from the participants in list order, or the first rejection; makes one valuation call per account up to that rejection |
| ScoreGatherer.GatherDataPoints | src/lib/logic/gatherDataPoints.ts:28-83 | returns the result of the reference walk over the visit order and makes exactly its calls: pin, valuations, cancellation poll, block after block |
| GatherProperties.ValuationsOutcome | src/lib/logic/gatherDataPoints.ts:52-59 | a block's account loop succeeds exactly when every participant's valuation under the block's pin succeeds; its scores then hold one `{tvl}` entry per listed account with that valuation |
| GatherProperties.ValuationsStopAtFirstFailure | src/lib/logic/gatherDataPoints.ts:52-53 | the first rejected valuation is the loop's result, and no later account is valued |
| GatherProperties.ValuationCallsAll | src/lib/logic/gatherDataPoints.ts:52-53 | without a rejection, every listed account is valued once per listing, in list order, under the block's pin |
| GatherProperties.ValuationCallsUnderPin | src/lib/logic/gatherDataPoints.ts:43-53 | every call of a block's account loop is a valuation run with the pin set to that block |
| GatherProperties.EmptyBlockScores | src/lib/logic/gatherDataPoints.ts:45-50 | a block without participants yields `{data: {}}` and no valuation call |
| GatherProperties.RunCommitsPrefix | src/lib/logic/gatherDataPoints.ts:41-75 | from any point of the walk, the result holds a prefix of the visit order with its scores, and `lastBlock` is the prefix's last height |
| GatherProperties.RunErrorFree | src/lib/logic/gatherDataPoints.ts:41-82 | from any point of the walk, no error is returned exactly when every remaining block is committed and not cancelled |
| GatherProperties.EmptyInput | src/lib/logic/gatherDataPoints.ts:33-82 | no blocks to query: no error, empty history, `lastBlock` 0, no calls |
| GatherProperties.GatherCommitsVisitPrefix | src/lib/logic/gatherDataPoints.ts:40-76 | for every input, the committed heights are the first k of the visit order with their scores; `lastBlock` is the k-th (0 if k is 0); no error means k is all of them |
| GatherProperties.GatherCommittedEntries | src/lib/logic/gatherDataPoints.ts:61-63 | every committed entry is a queried block whose every participant was valued, stored as `{data: scores}` |
| GatherProperties.GatherEmptyBlock | src/lib/logic/gatherDataPoints.ts:48-63 | a committed block without participants holds `{data: {}}` |
| GatherProperties.GatherErrorFree | src/lib/logic/gatherDataPoints.ts:40-82 | `error` is absent exactly when every block's valuations succeed and the token never cancels |
| GatherProperties.GatherAllComplete | src/lib/logic/gatherDataPoints.ts:41-82 | on full success the history has exactly the queried heights, each with its scores, and `lastBlock` is the last height of the visit order |
| GatherProperties.GatherFailsAt | src/lib/logic/gatherDataPoints.ts:53-75 | a rejection in the k-th visited block returns its cause with exactly the first k blocks committed and `lastBlock` the one before it (or 0) |
| GatherProperties.GatherCancelledAfter | src/lib/logic/gatherDataPoints.ts:61-75 | a cancellation after the k-th visited block returns its cause with the first k + 1 blocks committed, so the cancelled block is kept, and `lastBlock` that block |
| GatherProperties.GatherCallsWellPinned | src/lib/logic/gatherDataPoints.ts:41-53 | every valuation the gatherer asks for runs under a pin, namely the one set most recently before it |
| GatherProperties.GatherCallsPins | src/lib/logic/gatherDataPoints.ts:41-43 | the pins set are a prefix of the visit order, in order, and all of it when nothing fails or cancels |
| GatherProperties.GatherDependsOnlyOnPinnedValuations | src/lib/logic/gatherDataPoints.ts:43-53 | two engines that agree on each block's participants under that block's pin give the same result and the same calls |
| GatherProperties.TwoBlocksOrder | src/lib/logic/gatherDataPoints.ts:35-37 | blocks 100 and 50 are visited as 100, then 50 |
| GatherProperties.TwoBlocksSucceed | src/lib/logic/gatherDataPoints.ts:35-82 | with both valuations accepted, both blocks are committed and `lastBlock` is 50, not the largest height |
| GatherProperties.TwoBlocksFirstVisitedFails | src/lib/logic/gatherDataPoints.ts:41-75 | a rejection at block 100, the first visited, returns that cause with an empty history and `lastBlock` 0 |

## Left out

- Logging (the `logger.warn` for a block without participants and the `logger.log` with `toFixed(2)`) is not modelled. It has no effect on the result. A valuation whose `tvl` has no `toFixed` is not modelled either; in the code that would throw and end the walk.
- `TotalValueLocked` and its floating-point contents: the valuation is an opaque type parameter `V`.
- `async`/`await`: each awaited valuation is a synchronous call, because nothing else runs between the steps of the walk in the model.
- `getUserTVL` and `GetUserTVLConfig` are a function parameter of the model. The engine sees only the account, the pinned block and the configuration. An engine whose answers vary between calls with the same inputs is not represented, for example through caching or network state. With a pure engine, an account listed twice in one block gets the same valuation both times.
- `ScoreGatherer.CallContext.SetTransactionCallBlockNumber` is an infallible assignment of the pinned block. A pin call that throws, which would end the walk with that error, is not modelled.
- The `cancellationtoken` library is not part of this model. Its `throwIfCancelled` becomes a function from the block just committed to an optional cause. Each block is polled at most once, so this loses no behaviour.
- Object keys that are not canonical decimal strings of a non-negative integer are not modelled, for example "007", "-1" or "abc". Neither are heights at or above 2^53, where `parseInt` and `String` stop being inverses.
- Account ids are assumed not to be `"__proto__"`. That is the one string a plain object does not store as an own key: `blockDataPoints["__proto__"] = ...` replaces the prototype. The model stores every account as an ordinary map key.
- `error: any`: a thrown value that is itself `undefined` would be indistinguishable from success in the code. The model always reports a cause as `Some`.
- The order in which `Object.keys` lists the keys is not modelled, because the sort result does not depend on it (`KeyOrder.SortedKeysUnique`).
