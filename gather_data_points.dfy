/** The history gatherer of src/lib/logic/gatherDataPoints.ts.

    For each queried block height, in the default-sort order of the heights,
    it pins the process-wide call context to that height, values every
    participant account of the block under that pin, commits the block's
    scores, and then polls the cancellation token. Any failure ends the walk
    and is returned together with everything committed so far. */
module ScoreGatherer {
  import opened Results
  import opened KeyOrder

  type Account = string

  /** The participants of one queried block (`BlocksOfInterest[h]`). */
  datatype BlockOfInterest = BlockOfInterest(accounts: seq<Account>)

  type BlocksOfInterest = map<Height, BlockOfInterest>

  /** `AccountScoreDataPoint`: what the engine returned for one account. */
  datatype AccountScoreDataPoint<V> = AccountScoreDataPoint(tvl: V)

  /** `ScoreDataPoint`: the scores of all participants of one block. */
  type ScoreDataPoint<V> = map<Account, AccountScoreDataPoint<V>>

  /** The value stored per block in a `ScoreDataHistory`: `{ data: ... }`. */
  datatype BlockScores<V> = BlockScores(data: ScoreDataPoint<V>)

  type ScoreDataHistory<V> = map<Height, BlockScores<V>>

  /** `ScoreDataHistoryResult`; `error == None` stands for `undefined`. */
  datatype ScoreDataHistoryResult<V, E> =
    ScoreDataHistoryResult(error: Option<E>, data: ScoreDataHistory<V>, lastBlock: Height)

  /** `getUserTVL(account, config)`, which resolves against the pinned block
      (`None` when nothing has been pinned); a `Failure` is a rejection. */
  type TvlEngine<V, E, -Cfg> = (Account, Option<Height>, Cfg) -> Result<V, E>

  /** `throwIfCancelled`, as polled right after block `h` was committed:
      `Some(cause)` is the exception it throws. */
  datatype CancellationToken<E> = CancellationToken(throwIfCancelled: Height -> Option<E>)

  /** The calls the gatherer makes to its collaborators, in order. */
  datatype Call =
    | Pinned(height: Height)
    | Valued(account: Account, pin: Option<Height>)
    | CancelChecked(height: Height)

  /** The height of the most recent pin in `t`. */
  function LastPin(t: seq<Call>): Option<Height>
    decreases |t|
  {
    if t == [] then None
    else if t[|t| - 1].Pinned? then Some(t[|t| - 1].height)
    else LastPin(t[..|t| - 1])
  }

  /** Every valuation in `t` ran while a block was pinned, namely the one
      pinned most recently before it. */
  ghost predicate WellPinned(t: seq<Call>) {
    forall i | 0 <= i < |t| && t[i].Valued? :: t[i].pin.Some? && LastPin(t[..i]) == t[i].pin
  }

  lemma AppendCall(t: seq<Call>, c: Call)
    requires WellPinned(t)
    requires c.Valued? ==> c.pin.Some? && c.pin == LastPin(t)
    ensures WellPinned(t + [c])
    ensures LastPin(t + [c]) == if c.Pinned? then Some(c.height) else LastPin(t)
  {
    var t' := t + [c];
    assert t'[..|t|] == t;
    forall i | 0 <= i < |t| ensures t'[..i] == t[..i] { }
  }

  /** The process-wide state behind `setTransactionCallBlockNumber`, with a
      log of the calls made against it. */
  class CallContext {
    var pinned: Option<Height>
    ghost var calls: seq<Call>

    ghost predicate Valid()
      reads this
    {
      pinned == LastPin(calls) && WellPinned(calls)
    }

    constructor ()
      ensures Valid() && pinned == None && calls == []
    {
      pinned := None;
      calls := [];
    }

    method SetTransactionCallBlockNumber(h: Height)
      requires Valid()
      modifies this
      ensures Valid()
      ensures pinned == Some(h) && calls == old(calls) + [Pinned(h)]
    {
      AppendCall(calls, Pinned(h));
      pinned := Some(h);
      calls := calls + [Pinned(h)];
    }

    /** `await getUserTVL(account, config)`: the engine sees the current pin. */
    method GetUserTVL<V, E, Cfg>(account: Account, config: Cfg, engine: TvlEngine<V, E, Cfg>)
      returns (r: Result<V, E>)
      requires Valid() && pinned.Some?
      modifies this`calls
      ensures Valid()
      ensures r == engine(account, pinned, config)
      ensures calls == old(calls) + [Valued(account, pinned)]
    {
      AppendCall(calls, Valued(account, pinned));
      calls := calls + [Valued(account, pinned)];
      r := engine(account, pinned, config);
    }

    /** Records that the cancellation token was polled after block `h`. */
    ghost method LogCancelCheck(h: Height)
      requires Valid()
      modifies this`calls
      ensures Valid()
      ensures calls == old(calls) + [CancelChecked(h)]
    {
      AppendCall(calls, CancelChecked(h));
      calls := calls + [CancelChecked(h)];
    }
  }

  // ---------------------------------------------------------------------
  // Reference definition of the walk
  // ---------------------------------------------------------------------

  /** The account loop of one block (lines 52-59): value `accounts` in order
      under the pin `h`, adding each result to `acc`; stop at the first
      rejection. */
  function Valuations<V, E, Cfg>(accounts: seq<Account>, h: Height, config: Cfg,
                                 engine: TvlEngine<V, E, Cfg>, acc: ScoreDataPoint<V>)
    : Result<ScoreDataPoint<V>, E>
    decreases |accounts|
  {
    if accounts == [] then Success(acc)
    else match engine(accounts[0], Some(h), config)
      case Failure(e) => Failure(e)
      case Success(v) =>
        Valuations(accounts[1..], h, config, engine, acc[accounts[0] := AccountScoreDataPoint(v)])
  }

  /** The scores of block `h`, or the first rejection met while computing them. */
  function BlockScoresAt<V, E, Cfg>(blocks: BlocksOfInterest, h: Height, config: Cfg,
                                    engine: TvlEngine<V, E, Cfg>): Result<ScoreDataPoint<V>, E>
    requires h in blocks
  {
    Valuations(blocks[h].accounts, h, config, engine, map[])
  }

  /** What the optional token says right after block `h` was committed. */
  function Cancellation<E>(token: Option<CancellationToken<E>>, h: Height): Option<E> {
    match token
    case None => None
    case Some(t) => t.throwIfCancelled(h)
  }

  /** The walk from position `i` of the visit order `q`, with `data` and
      `last` holding what has been committed before it. */
  function Run<V, E, Cfg>(blocks: BlocksOfInterest, q: seq<Height>, i: nat,
                          data: ScoreDataHistory<V>, last: Height, config: Cfg,
                          engine: TvlEngine<V, E, Cfg>, token: Option<CancellationToken<E>>)
    : ScoreDataHistoryResult<V, E>
    requires i <= |q|
    requires forall h | h in q :: h in blocks
    decreases |q| - i
  {
    if i == |q| then ScoreDataHistoryResult(None, data, last)
    else match BlockScoresAt(blocks, q[i], config, engine)
      case Failure(e) => ScoreDataHistoryResult(Some(e), data, last)
      case Success(scores) =>
        var data' := data[q[i] := BlockScores(scores)];
        match Cancellation(token, q[i])
        case Some(e) => ScoreDataHistoryResult(Some(e), data', q[i])
        case None => Run(blocks, q, i + 1, data', q[i], config, engine, token)
  }

  /** The result `gatherDataPoints(blocks, config, token)` returns. */
  function Gather<V, E, Cfg>(blocks: BlocksOfInterest, config: Cfg, engine: TvlEngine<V, E, Cfg>,
                             token: Option<CancellationToken<E>>): ScoreDataHistoryResult<V, E>
  {
    Run(blocks, QueryBlocks(blocks.Keys), 0, map[], 0, config, engine, token)
  }

  /** The valuation calls of one block: one per account, up to and including
      the first one rejected. */
  ghost function ValuationCalls<V, E, Cfg>(accounts: seq<Account>, h: Height, config: Cfg,
                                           engine: TvlEngine<V, E, Cfg>): seq<Call>
    decreases |accounts|
  {
    if accounts == [] then []
    else
      [Valued(accounts[0], Some(h))] +
      (if engine(accounts[0], Some(h), config).Failure? then []
       else ValuationCalls(accounts[1..], h, config, engine))
  }

  /** The calls the walk from position `i` makes. */
  ghost function RunCalls<V, E, Cfg>(blocks: BlocksOfInterest, q: seq<Height>, i: nat, config: Cfg,
                                     engine: TvlEngine<V, E, Cfg>, token: Option<CancellationToken<E>>)
    : seq<Call>
    requires i <= |q|
    requires forall h | h in q :: h in blocks
    decreases |q| - i
  {
    if i == |q| then []
    else
      var h := q[i];
      var begun := [Pinned(h)] + ValuationCalls(blocks[h].accounts, h, config, engine);
      if BlockScoresAt(blocks, h, config, engine).Failure? then begun
      else if token.None? then begun + RunCalls(blocks, q, i + 1, config, engine, token)
      else
        begun + [CancelChecked(h)] +
        (if Cancellation(token, h).Some? then [] else RunCalls(blocks, q, i + 1, config, engine, token))
  }

  /** The calls `gatherDataPoints(blocks, config, token)` makes. */
  ghost function GatherCalls<V, E, Cfg>(blocks: BlocksOfInterest, config: Cfg, engine: TvlEngine<V, E, Cfg>,
                                        token: Option<CancellationToken<E>>): seq<Call>
  {
    RunCalls(blocks, QueryBlocks(blocks.Keys), 0, config, engine, token)
  }

  /** One step of the walk when block `q[i]` has a rejected valuation. */
  lemma RunBlockFails<V, E, Cfg>(blocks: BlocksOfInterest, q: seq<Height>, i: nat,
                                 data: ScoreDataHistory<V>, last: Height, config: Cfg,
                                 engine: TvlEngine<V, E, Cfg>, token: Option<CancellationToken<E>>)
    requires i < |q|
    requires forall h | h in q :: h in blocks
    requires BlockScoresAt(blocks, q[i], config, engine).Failure?
    ensures Run(blocks, q, i, data, last, config, engine, token)
            == ScoreDataHistoryResult(Some(BlockScoresAt(blocks, q[i], config, engine).error), data, last)
    ensures RunCalls(blocks, q, i, config, engine, token)
            == [Pinned(q[i])] + ValuationCalls(blocks[q[i]].accounts, q[i], config, engine)
  {
  }

  /** One step of the walk when every valuation of block `q[i]` succeeds. */
  lemma RunBlockCommits<V, E, Cfg>(blocks: BlocksOfInterest, q: seq<Height>, i: nat,
                                   data: ScoreDataHistory<V>, last: Height, config: Cfg,
                                   engine: TvlEngine<V, E, Cfg>, token: Option<CancellationToken<E>>)
    requires i < |q|
    requires forall h | h in q :: h in blocks
    requires BlockScoresAt(blocks, q[i], config, engine).Success?
    ensures var data' := data[q[i] := BlockScores(BlockScoresAt(blocks, q[i], config, engine).value)];
            Run(blocks, q, i, data, last, config, engine, token)
            == if Cancellation(token, q[i]).Some?
               then ScoreDataHistoryResult(Some(Cancellation(token, q[i]).value), data', q[i])
               else Run(blocks, q, i + 1, data', q[i], config, engine, token)
    ensures var begun := [Pinned(q[i])] + ValuationCalls(blocks[q[i]].accounts, q[i], config, engine);
            RunCalls(blocks, q, i, config, engine, token)
            == if token.None? then begun + RunCalls(blocks, q, i + 1, config, engine, token)
               else if Cancellation(token, q[i]).Some? then begun + [CancelChecked(q[i])]
               else begun + [CancelChecked(q[i])] + RunCalls(blocks, q, i + 1, config, engine, token)
  {
  }

  lemma ConcatAssoc<T>(a: seq<T>, b: seq<T>, c: seq<T>)
    ensures a + (b + c) == (a + b) + c
  {
  }

  // ---------------------------------------------------------------------
  // The gatherer
  // ---------------------------------------------------------------------

  /** The account loop of lines 45-59 for the pinned block `blockNumber`:
      values the participants in list order and returns the block's scores,
      or the first rejection, at which it stops. */
  method ValueParticipants<V, E, Cfg>(ctx: CallContext, blockNumber: Height, blockParticipants: seq<Account>,
                                      cachedConfig: Cfg, getUserTVL: TvlEngine<V, E, Cfg>)
    returns (outcome: Result<ScoreDataPoint<V>, E>)
    requires ctx.Valid() && ctx.pinned == Some(blockNumber)
    modifies ctx`calls
    ensures ctx.Valid()
    ensures outcome == Valuations(blockParticipants, blockNumber, cachedConfig, getUserTVL, map[])
    ensures ctx.calls == old(ctx.calls) + ValuationCalls(blockParticipants, blockNumber, cachedConfig, getUserTVL)
  {
    var blockDataPoints: ScoreDataPoint<V> := map[];
    ghost var goal := Valuations(blockParticipants, blockNumber, cachedConfig, getUserTVL, map[]);
    ghost var allCalls := old(ctx.calls) + ValuationCalls(blockParticipants, blockNumber, cachedConfig, getUserTVL);
    for j := 0 to |blockParticipants|
      invariant ctx.Valid() && ctx.pinned == Some(blockNumber)
      invariant Valuations(blockParticipants[j..], blockNumber, cachedConfig, getUserTVL, blockDataPoints) == goal
      invariant ctx.calls + ValuationCalls(blockParticipants[j..], blockNumber, cachedConfig, getUserTVL) == allCalls
    {
      var account := blockParticipants[j];
      assert blockParticipants[j..][1..] == blockParticipants[j + 1..];
      ghost var callsBefore := ctx.calls;
      var userTVLAtBlock := ctx.GetUserTVL(account, cachedConfig, getUserTVL);
      if userTVLAtBlock.Failure? {
        return Failure(userTVLAtBlock.error);
      }
      blockDataPoints := blockDataPoints[account := AccountScoreDataPoint(userTVLAtBlock.value)];
      ConcatAssoc(callsBefore, [Valued(account, Some(blockNumber))],
                  ValuationCalls(blockParticipants[j + 1..], blockNumber, cachedConfig, getUserTVL));
    }
    assert blockParticipants[|blockParticipants|..] == [];
    return Success(blockDataPoints);
  }

  /** `gatherDataPoints`: returns the result of the reference walk and makes
      exactly its calls; every failure ends up in the returned value. */
  method GatherDataPoints<V, E, Cfg>(ctx: CallContext, blocksToQuery: BlocksOfInterest, cachedConfig: Cfg,
                                     getUserTVL: TvlEngine<V, E, Cfg>,
                                     earlyCancelToken: Option<CancellationToken<E>>)
    returns (result: ScoreDataHistoryResult<V, E>)
    requires ctx.Valid()
    modifies ctx
    ensures ctx.Valid()
    ensures result == Gather(blocksToQuery, cachedConfig, getUserTVL, earlyCancelToken)
    ensures ctx.calls == old(ctx.calls) + GatherCalls(blocksToQuery, cachedConfig, getUserTVL, earlyCancelToken)
  {
    var dataPoints: ScoreDataHistory<V> := map[];
    var queryBlocks := QueryBlocks(blocksToQuery.Keys);
    var lastBlock: Height := 0;
    ghost var goal := Gather(blocksToQuery, cachedConfig, getUserTVL, earlyCancelToken);
    ghost var allCalls := old(ctx.calls) + GatherCalls(blocksToQuery, cachedConfig, getUserTVL, earlyCancelToken);
    for i := 0 to |queryBlocks|
      invariant ctx.Valid()
      invariant Run(blocksToQuery, queryBlocks, i, dataPoints, lastBlock, cachedConfig, getUserTVL, earlyCancelToken) == goal
      invariant ctx.calls + RunCalls(blocksToQuery, queryBlocks, i, cachedConfig, getUserTVL, earlyCancelToken) == allCalls
    {
      var blockNumber := queryBlocks[i];
      ghost var callsBefore := ctx.calls;
      ghost var rest := RunCalls(blocksToQuery, queryBlocks, i + 1, cachedConfig, getUserTVL, earlyCancelToken);
      ctx.SetTransactionCallBlockNumber(blockNumber);

      var blockParticipants := blocksToQuery[blockNumber].accounts;
      var blockOutcome := ValueParticipants(ctx, blockNumber, blockParticipants, cachedConfig, getUserTVL);
      ghost var begun := [Pinned(blockNumber)] + ValuationCalls(blockParticipants, blockNumber, cachedConfig, getUserTVL);
      ConcatAssoc(callsBefore, [Pinned(blockNumber)], ValuationCalls(blockParticipants, blockNumber, cachedConfig, getUserTVL));
      if blockOutcome.Failure? {
        RunBlockFails(blocksToQuery, queryBlocks, i, dataPoints, lastBlock, cachedConfig, getUserTVL, earlyCancelToken);
        return ScoreDataHistoryResult(Some(blockOutcome.error), dataPoints, lastBlock);
      }

      RunBlockCommits(blocksToQuery, queryBlocks, i, dataPoints, lastBlock, cachedConfig, getUserTVL, earlyCancelToken);
      dataPoints := dataPoints[blockNumber := BlockScores(blockOutcome.value)];
      lastBlock := blockNumber;

      if earlyCancelToken.Some? {
        ctx.LogCancelCheck(blockNumber);
        ConcatAssoc(callsBefore, begun, [CancelChecked(blockNumber)]);
        var cancelled := earlyCancelToken.value.throwIfCancelled(blockNumber);
        if cancelled.Some? {
          return ScoreDataHistoryResult(Some(cancelled.value), dataPoints, lastBlock);
        }
        ConcatAssoc(callsBefore, begun + [CancelChecked(blockNumber)], rest);
      } else {
        ConcatAssoc(callsBefore, begun, rest);
      }
    }
    return ScoreDataHistoryResult(None, dataPoints, lastBlock);
  }
}
