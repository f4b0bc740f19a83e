/** What `gatherDataPoints` promises, proved about the reference walk that
    `ScoreGatherer.GatherDataPoints` is shown to follow. */
module GatherProperties {
  import opened Results
  import opened KeyOrder
  import opened ScoreGatherer

  // ---------------------------------------------------------------------
  // One block
  // ---------------------------------------------------------------------

  /** The account loop succeeds exactly when every participant's valuation
      under the block's pin succeeds; its scores then hold one entry per
      listed account, `{tvl: valuation}`, on top of what was accumulated. */
  lemma {:induction false} ValuationsOutcome<V, E, Cfg>(accounts: seq<Account>, h: Height, config: Cfg,
                                                        engine: TvlEngine<V, E, Cfg>, acc: ScoreDataPoint<V>)
    ensures var r := Valuations(accounts, h, config, engine, acc);
            && (r.Success? <==> forall a | a in accounts :: engine(a, Some(h), config).Success?)
            && (r.Success? ==>
                  && r.value.Keys == acc.Keys + (set a | a in accounts)
                  && (forall a | a in accounts :: r.value[a] == AccountScoreDataPoint(engine(a, Some(h), config).value))
                  && (forall a | a in acc && a !in accounts :: r.value[a] == acc[a]))
    decreases |accounts|
  {
    if accounts != [] {
      var a0 := accounts[0];
      assert accounts == [a0] + accounts[1..];
      match engine(a0, Some(h), config)
      case Failure(e) => {}
      case Success(v) => {
        ValuationsOutcome(accounts[1..], h, config, engine, acc[a0 := AccountScoreDataPoint(v)]);
      }
    }
  }

  /** A rejected valuation ends the block: the loop returns that rejection's
      cause unchanged, and no account after it is valued. */
  lemma {:induction false} ValuationsStopAtFirstFailure<V, E, Cfg>(accounts: seq<Account>, h: Height, config: Cfg,
                                                                   engine: TvlEngine<V, E, Cfg>, acc: ScoreDataPoint<V>,
                                                                   k: nat)
    requires k < |accounts|
    requires forall i | 0 <= i < k :: engine(accounts[i], Some(h), config).Success?
    requires engine(accounts[k], Some(h), config).Failure?
    ensures Valuations(accounts, h, config, engine, acc) == Failure(engine(accounts[k], Some(h), config).error)
    ensures var calls := ValuationCalls(accounts, h, config, engine);
            |calls| == k + 1 && forall i | 0 <= i <= k :: calls[i] == Valued(accounts[i], Some(h))
    decreases k
  {
    var a0 := accounts[0];
    if k > 0 {
      assert engine(accounts[0], Some(h), config).Success?;
      ValuationsStopAtFirstFailure(accounts[1..], h, config, engine,
                                   acc[a0 := AccountScoreDataPoint(engine(a0, Some(h), config).value)], k - 1);
    }
  }

  /** When no valuation is rejected, every participant is valued, once per
      listing and in list order, under the block's pin. */
  lemma {:induction false} ValuationCallsAll<V, E, Cfg>(accounts: seq<Account>, h: Height, config: Cfg,
                                                        engine: TvlEngine<V, E, Cfg>)
    requires forall a | a in accounts :: engine(a, Some(h), config).Success?
    ensures var calls := ValuationCalls(accounts, h, config, engine);
            |calls| == |accounts| && forall i | 0 <= i < |accounts| :: calls[i] == Valued(accounts[i], Some(h))
    decreases |accounts|
  {
    if accounts != [] {
      assert accounts[0] in accounts;
      forall a | a in accounts[1..] ensures engine(a, Some(h), config).Success? {
        assert a in accounts;
      }
      ValuationCallsAll(accounts[1..], h, config, engine);
    }
  }

  /** A block without participants yields empty scores `{data: {}}` and
      makes no valuation call. */
  lemma EmptyBlockScores<V, E, Cfg>(blocks: BlocksOfInterest, h: Height, config: Cfg, engine: TvlEngine<V, E, Cfg>)
    requires h in blocks && blocks[h].accounts == []
    ensures BlockScoresAt(blocks, h, config, engine) == Success(map[])
    ensures ValuationCalls(blocks[h].accounts, h, config, engine) == []
  {
  }

  // ---------------------------------------------------------------------
  // The walk over the blocks
  // ---------------------------------------------------------------------

  /** The history holding exactly the first `k` blocks of the visit order. */
  ghost function PrefixHistory<V, E, Cfg>(blocks: BlocksOfInterest, q: seq<Height>, k: nat, config: Cfg,
                                          engine: TvlEngine<V, E, Cfg>): ScoreDataHistory<V>
    requires k <= |q| && forall h | h in q :: h in blocks
    requires forall j | 0 <= j < k :: BlockScoresAt(blocks, q[j], config, engine).Success?
  {
    map h | h in q[..k] :: BlockScores(BlockScoresAt(blocks, h, config, engine).value)
  }

  /** `lastBlock` after the first `k` blocks are committed. */
  function LastCommitted(q: seq<Height>, k: nat): Height
    requires k <= |q|
  {
    if k == 0 then 0 else q[k - 1]
  }

  /** `r` holds the first `k` visited blocks, `lastBlock` is the `k`-th of
      them (or 0), and no error means every block was visited. */
  ghost predicate CommitsPrefix<V, E, Cfg>(r: ScoreDataHistoryResult<V, E>, blocks: BlocksOfInterest,
                                           q: seq<Height>, k: nat, config: Cfg, engine: TvlEngine<V, E, Cfg>)
    requires forall h | h in q :: h in blocks
  {
    && k <= |q|
    && (forall j | 0 <= j < k :: BlockScoresAt(blocks, q[j], config, engine).Success?)
    && r.data == PrefixHistory(blocks, q, k, config, engine)
    && r.lastBlock == LastCommitted(q, k)
    && (r.error.None? ==> k == |q|)
  }

  lemma PrefixHistoryStep<V, E, Cfg>(blocks: BlocksOfInterest, q: seq<Height>, i: nat, config: Cfg,
                                     engine: TvlEngine<V, E, Cfg>)
    requires i < |q| && forall h | h in q :: h in blocks
    requires forall j | 0 <= j <= i :: BlockScoresAt(blocks, q[j], config, engine).Success?
    ensures PrefixHistory(blocks, q, i, config, engine)[q[i] := BlockScores(BlockScoresAt(blocks, q[i], config, engine).value)]
            == PrefixHistory(blocks, q, i + 1, config, engine)
  {
    assert q[..i + 1] == q[..i] + [q[i]];
  }

  /** Blocks that complete are passed over one after another. */
  lemma {:induction false} RunSkips<V, E, Cfg>(blocks: BlocksOfInterest, q: seq<Height>, i: nat, k: nat,
                                               config: Cfg, engine: TvlEngine<V, E, Cfg>,
                                               token: Option<CancellationToken<E>>)
    requires i <= k <= |q| && forall h | h in q :: h in blocks
    requires forall j | 0 <= j < k :: BlockScoresAt(blocks, q[j], config, engine).Success? && Cancellation(token, q[j]).None?
    ensures Run(blocks, q, i, PrefixHistory(blocks, q, i, config, engine), LastCommitted(q, i), config, engine, token)
            == Run(blocks, q, k, PrefixHistory(blocks, q, k, config, engine), LastCommitted(q, k), config, engine, token)
    decreases k - i
  {
    if i < k {
      RunBlockCommits(blocks, q, i, PrefixHistory(blocks, q, i, config, engine), LastCommitted(q, i),
                      config, engine, token);
      PrefixHistoryStep(blocks, q, i, config, engine);
      RunSkips(blocks, q, i + 1, k, config, engine, token);
    }
  }

  /** How many blocks of `q`, from the `i`-th on, the walk commits before it stops. */
  function CommittedCount<V, E, Cfg>(blocks: BlocksOfInterest, q: seq<Height>, i: nat, config: Cfg,
                                     engine: TvlEngine<V, E, Cfg>, token: Option<CancellationToken<E>>): (k: nat)
    requires i <= |q| && forall h | h in q :: h in blocks
    ensures i <= k <= |q|
    decreases |q| - i
  {
    if i == |q| then |q|
    else if BlockScoresAt(blocks, q[i], config, engine).Failure? then i
    else if Cancellation(token, q[i]).Some? then i + 1
    else CommittedCount(blocks, q, i + 1, config, engine, token)
  }

  /** A rejection in block `i` leaves the first `i` blocks committed. */
  lemma RunFailsPrefix<V, E, Cfg>(blocks: BlocksOfInterest, q: seq<Height>, i: nat,
                                  config: Cfg, engine: TvlEngine<V, E, Cfg>, token: Option<CancellationToken<E>>)
    requires i < |q| && forall h | h in q :: h in blocks
    requires forall j | 0 <= j < i :: BlockScoresAt(blocks, q[j], config, engine).Success? && Cancellation(token, q[j]).None?
    requires BlockScoresAt(blocks, q[i], config, engine).Failure?
    ensures CommitsPrefix(Run(blocks, q, i, PrefixHistory(blocks, q, i, config, engine), LastCommitted(q, i),
                              config, engine, token), blocks, q, i, config, engine)
  {
    RunBlockFails(blocks, q, i, PrefixHistory(blocks, q, i, config, engine), LastCommitted(q, i),
                  config, engine, token);
  }

  /** A cancellation after block `i` leaves the first `i + 1` blocks committed. */
  lemma RunCancelledPrefix<V, E, Cfg>(blocks: BlocksOfInterest, q: seq<Height>, i: nat,
                                      config: Cfg, engine: TvlEngine<V, E, Cfg>, token: Option<CancellationToken<E>>)
    requires i < |q| && forall h | h in q :: h in blocks
    requires forall j | 0 <= j < i :: BlockScoresAt(blocks, q[j], config, engine).Success? && Cancellation(token, q[j]).None?
    requires BlockScoresAt(blocks, q[i], config, engine).Success? && Cancellation(token, q[i]).Some?
    ensures CommitsPrefix(Run(blocks, q, i, PrefixHistory(blocks, q, i, config, engine), LastCommitted(q, i),
                              config, engine, token), blocks, q, i + 1, config, engine)
  {
    RunBlockCommits(blocks, q, i, PrefixHistory(blocks, q, i, config, engine), LastCommitted(q, i),
                    config, engine, token);
    PrefixHistoryStep(blocks, q, i, config, engine);
  }

  lemma {:induction false} RunCommitsPrefix<V, E, Cfg>(blocks: BlocksOfInterest, q: seq<Height>, i: nat,
                                                       config: Cfg, engine: TvlEngine<V, E, Cfg>,
                                                       token: Option<CancellationToken<E>>)
    requires i <= |q| && forall h | h in q :: h in blocks
    requires forall j | 0 <= j < i :: BlockScoresAt(blocks, q[j], config, engine).Success? && Cancellation(token, q[j]).None?
    ensures CommitsPrefix(Run(blocks, q, i, PrefixHistory(blocks, q, i, config, engine), LastCommitted(q, i),
                              config, engine, token), blocks, q, CommittedCount(blocks, q, i, config, engine, token),
                          config, engine)
    decreases |q| - i
  {
    if i < |q| {
      if BlockScoresAt(blocks, q[i], config, engine).Failure? {
        RunFailsPrefix(blocks, q, i, config, engine, token);
      } else if Cancellation(token, q[i]).Some? {
        RunCancelledPrefix(blocks, q, i, config, engine, token);
      } else {
        RunSkips(blocks, q, i, i + 1, config, engine, token);
        RunCommitsPrefix(blocks, q, i + 1, config, engine, token);
      }
    }
  }

  lemma {:induction false} RunErrorFree<V, E, Cfg>(blocks: BlocksOfInterest, q: seq<Height>, i: nat,
                                                   data: ScoreDataHistory<V>, last: Height, config: Cfg,
                                                   engine: TvlEngine<V, E, Cfg>, token: Option<CancellationToken<E>>)
    requires i <= |q| && forall h | h in q :: h in blocks
    ensures Run(blocks, q, i, data, last, config, engine, token).error.None?
            <==> forall j | i <= j < |q| :: BlockScoresAt(blocks, q[j], config, engine).Success? && Cancellation(token, q[j]).None?
    decreases |q| - i
  {
    if i < |q| && (BlockScoresAt(blocks, q[i], config, engine).Success? && Cancellation(token, q[i]).None?) {
      var data' := data[q[i] := BlockScores(BlockScoresAt(blocks, q[i], config, engine).value)];
      RunErrorFree(blocks, q, i + 1, data', q[i], config, engine, token);
    }
  }

  lemma GatherStartsEmpty<V, E, Cfg>(blocks: BlocksOfInterest, config: Cfg, engine: TvlEngine<V, E, Cfg>)
    ensures PrefixHistory(blocks, QueryBlocks(blocks.Keys), 0, config, engine) == map[]
  {
    assert QueryBlocks(blocks.Keys)[..0] == [];
  }

  // ---------------------------------------------------------------------
  // What a caller of gatherDataPoints can rely on
  // ---------------------------------------------------------------------

  /** No blocks to query: empty history, `lastBlock` 0, no error, no calls. */
  lemma EmptyInput<V, E, Cfg>(config: Cfg, engine: TvlEngine<V, E, Cfg>, token: Option<CancellationToken<E>>)
    ensures Gather(map[], config, engine, token) == ScoreDataHistoryResult(None, map[], 0)
    ensures GatherCalls(map[], config, engine, token) == []
  {
    assert QueryBlocks({}) == [];
  }

  /** For every input, the committed heights are the first `k` heights of the
      visit order, each with the scores computed for it, and `lastBlock` is
      the last of them (0 when there is none). */
  lemma GatherCommitsVisitPrefix<V, E, Cfg>(blocks: BlocksOfInterest, config: Cfg, engine: TvlEngine<V, E, Cfg>,
                                            token: Option<CancellationToken<E>>)
    ensures exists k :: CommitsPrefix(Gather(blocks, config, engine, token), blocks, QueryBlocks(blocks.Keys),
                                      k, config, engine)
  {
    var q := QueryBlocks(blocks.Keys);
    GatherStartsEmpty(blocks, config, engine);
    RunCommitsPrefix(blocks, q, 0, config, engine, token);
    var k := CommittedCount(blocks, q, 0, config, engine, token);
    assert CommitsPrefix(Gather(blocks, config, engine, token), blocks, q, k, config, engine);
  }

  /** Every committed entry is a queried block, keyed by its height, whose
      every participant was valued: `{data: {account: {tvl}}}`. */
  lemma GatherCommittedEntries<V, E, Cfg>(blocks: BlocksOfInterest, config: Cfg, engine: TvlEngine<V, E, Cfg>,
                                          token: Option<CancellationToken<E>>)
    ensures var r := Gather(blocks, config, engine, token);
            forall h | h in r.data ::
              && h in blocks
              && BlockScoresAt(blocks, h, config, engine).Success?
              && r.data[h] == BlockScores(BlockScoresAt(blocks, h, config, engine).value)
  {
    GatherCommitsVisitPrefix(blocks, config, engine, token);
  }

  /** Every committed block with no participants holds `{data: {}}`. */
  lemma GatherEmptyBlock<V, E, Cfg>(blocks: BlocksOfInterest, h: Height, config: Cfg, engine: TvlEngine<V, E, Cfg>,
                                    token: Option<CancellationToken<E>>)
    requires h in blocks && blocks[h].accounts == []
    requires h in Gather(blocks, config, engine, token).data
    ensures Gather(blocks, config, engine, token).data[h] == BlockScores(map[])
  {
    GatherCommittedEntries(blocks, config, engine, token);
  }

  /** `error` is unset exactly when every block is committed and the token
      never reports cancellation. */
  lemma GatherErrorFree<V, E, Cfg>(blocks: BlocksOfInterest, config: Cfg, engine: TvlEngine<V, E, Cfg>,
                                   token: Option<CancellationToken<E>>)
    ensures Gather(blocks, config, engine, token).error.None?
            <==> forall h | h in blocks :: BlockScoresAt(blocks, h, config, engine).Success? && Cancellation(token, h).None?
  {
    var q := QueryBlocks(blocks.Keys);
    RunErrorFree(blocks, q, 0, map[], 0, config, engine, token);
    if forall j | 0 <= j < |q| :: (BlockScoresAt(blocks, q[j], config, engine).Success? && Cancellation(token, q[j]).None?) {
      forall h | h in blocks ensures (BlockScoresAt(blocks, h, config, engine).Success? && Cancellation(token, h).None?) {
        var j :| 0 <= j < |q| && q[j] == h;
      }
    }
  }

  /** Full success: no error, one entry per queried height, and `lastBlock`
      the last height of the visit order (not necessarily the largest). */
  lemma GatherAllComplete<V, E, Cfg>(blocks: BlocksOfInterest, config: Cfg, engine: TvlEngine<V, E, Cfg>,
                                     token: Option<CancellationToken<E>>)
    requires forall h | h in blocks :: BlockScoresAt(blocks, h, config, engine).Success? && Cancellation(token, h).None?
    ensures var r := Gather(blocks, config, engine, token);
            var q := QueryBlocks(blocks.Keys);
            && r.error == None
            && r.data.Keys == blocks.Keys
            && (forall h | h in blocks :: r.data[h] == BlockScores(BlockScoresAt(blocks, h, config, engine).value))
            && r.lastBlock == (if q == [] then 0 else q[|q| - 1])
  {
    var q := QueryBlocks(blocks.Keys);
    forall j | 0 <= j < |q| ensures BlockScoresAt(blocks, q[j], config, engine).Success? && Cancellation(token, q[j]).None? {
      assert q[j] in blocks;
    }
    GatherWalksAll(blocks, config, engine, token);
    assert q[..|q|] == q;
    var all := PrefixHistory(blocks, q, |q|, config, engine);
    forall h ensures h in all <==> h in blocks {
      assert h in q[..|q|] <==> h in q;
    }
    assert all.Keys == blocks.Keys;
  }

  lemma GatherWalksAll<V, E, Cfg>(blocks: BlocksOfInterest, config: Cfg, engine: TvlEngine<V, E, Cfg>,
                                  token: Option<CancellationToken<E>>)
    requires var q := QueryBlocks(blocks.Keys);
             forall j | 0 <= j < |q| :: BlockScoresAt(blocks, q[j], config, engine).Success? && Cancellation(token, q[j]).None?
    ensures var q := QueryBlocks(blocks.Keys);
            Gather(blocks, config, engine, token)
            == ScoreDataHistoryResult(None, PrefixHistory(blocks, q, |q|, config, engine), LastCommitted(q, |q|))
  {
    var q := QueryBlocks(blocks.Keys);
    GatherStartsEmpty(blocks, config, engine);
    RunSkips(blocks, q, 0, |q|, config, engine, token);
  }

  /** A rejected valuation in the `k`-th visited block (counting from 0):
      that block is not committed, the first `k` blocks are, `lastBlock` is
      the one before it (or 0), and `error` is the rejection's cause. */
  lemma GatherFailsAt<V, E, Cfg>(blocks: BlocksOfInterest, config: Cfg, engine: TvlEngine<V, E, Cfg>,
                                 token: Option<CancellationToken<E>>, k: nat)
    requires k < |QueryBlocks(blocks.Keys)|
    requires forall j | 0 <= j < k ::
               && BlockScoresAt(blocks, QueryBlocks(blocks.Keys)[j], config, engine).Success?
               && Cancellation(token, QueryBlocks(blocks.Keys)[j]).None?
    requires BlockScoresAt(blocks, QueryBlocks(blocks.Keys)[k], config, engine).Failure?
    ensures var r := Gather(blocks, config, engine, token);
            var q := QueryBlocks(blocks.Keys);
            && r.error == Some(BlockScoresAt(blocks, q[k], config, engine).error)
            && (forall h :: h in r.data <==> h in q[..k])
            && r.lastBlock == (if k == 0 then 0 else q[k - 1])
  {
    var q := QueryBlocks(blocks.Keys);
    GatherStartsEmpty(blocks, config, engine);
    RunSkips(blocks, q, 0, k, config, engine, token);
    RunBlockFails(blocks, q, k, PrefixHistory(blocks, q, k, config, engine), LastCommitted(q, k),
                  config, engine, token);
  }

  /** Cancellation reported after the `k`-th visited block (counting from 0):
      that block is already committed, so the first `k + 1` blocks are,
      `lastBlock` is that block, and `error` is the cancellation's cause. */
  lemma GatherCancelledAfter<V, E, Cfg>(blocks: BlocksOfInterest, config: Cfg, engine: TvlEngine<V, E, Cfg>,
                                        token: Option<CancellationToken<E>>, k: nat)
    requires k < |QueryBlocks(blocks.Keys)|
    requires forall j | 0 <= j < k ::
               && BlockScoresAt(blocks, QueryBlocks(blocks.Keys)[j], config, engine).Success?
               && Cancellation(token, QueryBlocks(blocks.Keys)[j]).None?
    requires BlockScoresAt(blocks, QueryBlocks(blocks.Keys)[k], config, engine).Success?
    requires Cancellation(token, QueryBlocks(blocks.Keys)[k]).Some?
    ensures var r := Gather(blocks, config, engine, token);
            var q := QueryBlocks(blocks.Keys);
            && r.error == Cancellation(token, q[k])
            && (forall h :: h in r.data <==> h in q[..k + 1])
            && r.lastBlock == q[k]
  {
    var q := QueryBlocks(blocks.Keys);
    GatherStartsEmpty(blocks, config, engine);
    RunSkips(blocks, q, 0, k, config, engine, token);
    RunBlockCommits(blocks, q, k, PrefixHistory(blocks, q, k, config, engine), LastCommitted(q, k),
                    config, engine, token);
    PrefixHistoryStep(blocks, q, k, config, engine);
  }

  // ---------------------------------------------------------------------
  // The calls made: the pin is in effect during every valuation
  // ---------------------------------------------------------------------

  /** The heights pinned in `t`, in order. */
  function Pins(t: seq<Call>): seq<Height>
    decreases |t|
  {
    if t == [] then [] else (if t[0].Pinned? then [t[0].height] else []) + Pins(t[1..])
  }

  lemma {:induction false} PinsConcat(a: seq<Call>, b: seq<Call>)
    ensures Pins(a + b) == Pins(a) + Pins(b)
    decreases |a|
  {
    if a == [] {
      assert a + b == b;
    } else {
      assert (a + b)[0] == a[0] && (a + b)[1..] == a[1..] + b;
      PinsConcat(a[1..], b);
      ConcatAssoc(if a[0].Pinned? then [a[0].height] else [], Pins(a[1..]), Pins(b));
    }
  }

  /** Every call of a block's account loop is a valuation under that block's pin. */
  lemma {:induction false} ValuationCallsUnderPin<V, E, Cfg>(accounts: seq<Account>, h: Height, config: Cfg,
                                                             engine: TvlEngine<V, E, Cfg>)
    ensures forall c | c in ValuationCalls(accounts, h, config, engine) :: c.Valued? && c.pin == Some(h)
    decreases |accounts|
  {
    if accounts != [] {
      ValuationCallsUnderPin(accounts[1..], h, config, engine);
    }
  }

  lemma {:induction false} NoPins(t: seq<Call>)
    requires forall c | c in t :: !c.Pinned?
    ensures Pins(t) == []
    decreases |t|
  {
    if t != [] {
      assert t[0] in t;
      forall c | c in t[1..] ensures !c.Pinned? {
        assert c in t;
      }
      NoPins(t[1..]);
    }
  }

  lemma {:induction false} LastPinAfterPin(h: Height, s: seq<Call>)
    requires forall c | c in s :: !c.Pinned?
    ensures LastPin([Pinned(h)] + s) == Some(h)
    decreases |s|
  {
    if s != [] {
      var t := [Pinned(h)] + s;
      assert s[|s| - 1] in s;
      assert t[..|t| - 1] == [Pinned(h)] + s[..|s| - 1];
      forall c | c in s[..|s| - 1] ensures !c.Pinned? {
        assert c in s;
      }
      LastPinAfterPin(h, s[..|s| - 1]);
    }
  }

  lemma {:induction false} LastPinConcat(a: seq<Call>, b: seq<Call>)
    requires LastPin(b).Some?
    ensures LastPin(a + b) == LastPin(b)
    decreases |b|
  {
    assert b != [];
    var t := a + b;
    assert t[|t| - 1] == b[|b| - 1];
    if !b[|b| - 1].Pinned? {
      assert t[..|t| - 1] == a + b[..|b| - 1];
      LastPinConcat(a, b[..|b| - 1]);
    }
  }

  lemma WellPinnedConcat(a: seq<Call>, b: seq<Call>)
    requires WellPinned(a) && WellPinned(b)
    ensures WellPinned(a + b)
  {
    var t := a + b;
    forall i | 0 <= i < |t| && t[i].Valued? ensures t[i].pin.Some? && LastPin(t[..i]) == t[i].pin {
      if i < |a| {
        assert t[..i] == a[..i];
      } else {
        var k := i - |a|;
        assert t[i] == b[k];
        assert t[..i] == a + b[..k];
        LastPinConcat(a, b[..k]);
      }
    }
  }

  lemma BlockCallsWellPinned(h: Height, s: seq<Call>)
    requires forall c | c in s :: c.Valued? && c.pin == Some(h)
    ensures WellPinned([Pinned(h)] + s)
  {
    var t := [Pinned(h)] + s;
    forall i | 0 <= i < |t| && t[i].Valued? ensures t[i].pin.Some? && LastPin(t[..i]) == t[i].pin {
      assert i >= 1 && t[i] == s[i - 1] && s[i - 1] in s;
      assert t[..i] == [Pinned(h)] + s[..i - 1];
      forall c | c in s[..i - 1] ensures !c.Pinned? {
        assert c in s;
      }
      LastPinAfterPin(h, s[..i - 1]);
    }
  }

  lemma {:induction false} RunCallsWellPinned<V, E, Cfg>(blocks: BlocksOfInterest, q: seq<Height>, i: nat, config: Cfg,
                                                         engine: TvlEngine<V, E, Cfg>,
                                                         token: Option<CancellationToken<E>>)
    requires i <= |q| && forall h | h in q :: h in blocks
    ensures WellPinned(RunCalls(blocks, q, i, config, engine, token))
    decreases |q| - i
  {
    if i < |q| {
      var h := q[i];
      var vc := ValuationCalls(blocks[h].accounts, h, config, engine);
      ValuationCallsUnderPin(blocks[h].accounts, h, config, engine);
      BlockCallsWellPinned(h, vc);
      var begun := [Pinned(h)] + vc;
      if BlockScoresAt(blocks, h, config, engine).Failure? {
        RunBlockFails(blocks, q, i, map[], 0, config, engine, token);
      } else {
        RunBlockCommits(blocks, q, i, map[], 0, config, engine, token);
        RunCallsWellPinned(blocks, q, i + 1, config, engine, token);
        var rest := RunCalls(blocks, q, i + 1, config, engine, token);
        if token.None? {
          WellPinnedConcat(begun, rest);
        } else {
          WellPinnedConcat(begun, [CancelChecked(h)]);
          if Cancellation(token, h).None? {
            WellPinnedConcat(begun + [CancelChecked(h)], rest);
          }
        }
      }
    }
  }

  /** Every valuation `gatherDataPoints` asks for runs under a pin, namely
      the one set most recently before it. */
  lemma GatherCallsWellPinned<V, E, Cfg>(blocks: BlocksOfInterest, config: Cfg, engine: TvlEngine<V, E, Cfg>,
                                         token: Option<CancellationToken<E>>)
    ensures WellPinned(GatherCalls(blocks, config, engine, token))
  {
    RunCallsWellPinned(blocks, QueryBlocks(blocks.Keys), 0, config, engine, token);
  }

  /** The pins of one block's calls: its own height, then those of the blocks after it. */
  lemma RunCallsPinsStep<V, E, Cfg>(blocks: BlocksOfInterest, q: seq<Height>, i: nat, config: Cfg,
                                    engine: TvlEngine<V, E, Cfg>, token: Option<CancellationToken<E>>)
    requires i < |q| && forall h | h in q :: h in blocks
    ensures Pins(RunCalls(blocks, q, i, config, engine, token))
            == if BlockScoresAt(blocks, q[i], config, engine).Failure? || Cancellation(token, q[i]).Some? then [q[i]]
               else [q[i]] + Pins(RunCalls(blocks, q, i + 1, config, engine, token))
  {
    var h := q[i];
    var vc := ValuationCalls(blocks[h].accounts, h, config, engine);
    ValuationCallsUnderPin(blocks[h].accounts, h, config, engine);
    NoPins(vc);
    var begun := [Pinned(h)] + vc;
    PinsConcat([Pinned(h)], vc);
    assert Pins([Pinned(h)]) == [h];
    if BlockScoresAt(blocks, h, config, engine).Failure? {
      RunBlockFails(blocks, q, i, map[], 0, config, engine, token);
    } else {
      RunBlockCommits(blocks, q, i, map[], 0, config, engine, token);
      var rest := RunCalls(blocks, q, i + 1, config, engine, token);
      if token.None? {
        PinsConcat(begun, rest);
      } else {
        PinsConcat(begun, [CancelChecked(h)]);
        assert Pins([CancelChecked(h)]) == [];
        if Cancellation(token, h).None? {
          PinsConcat(begun + [CancelChecked(h)], rest);
        }
      }
    }
  }

  lemma {:induction false} RunCallsPins<V, E, Cfg>(blocks: BlocksOfInterest, q: seq<Height>, i: nat, config: Cfg,
                                                   engine: TvlEngine<V, E, Cfg>, token: Option<CancellationToken<E>>)
    requires i <= |q| && forall h | h in q :: h in blocks
    ensures Pins(RunCalls(blocks, q, i, config, engine, token)) <= q[i..]
    ensures (forall j | i <= j < |q| :: BlockScoresAt(blocks, q[j], config, engine).Success? && Cancellation(token, q[j]).None?)
            ==> Pins(RunCalls(blocks, q, i, config, engine, token)) == q[i..]
    decreases |q| - i
  {
    if i < |q| {
      assert q[i..] == [q[i]] + q[i + 1..];
      RunCallsPinsStep(blocks, q, i, config, engine, token);
      RunCallsPins(blocks, q, i + 1, config, engine, token);
    }
  }

  /** The pins `gatherDataPoints` sets are the heights of the visit order, in
      that order, up to the block where it stopped; all of them when it
      does not stop early. The visit order has no repeats, so no block is
      pinned twice. */
  lemma GatherCallsPins<V, E, Cfg>(blocks: BlocksOfInterest, config: Cfg, engine: TvlEngine<V, E, Cfg>,
                                   token: Option<CancellationToken<E>>)
    ensures Pins(GatherCalls(blocks, config, engine, token)) <= QueryBlocks(blocks.Keys)
    ensures (forall h | h in blocks :: BlockScoresAt(blocks, h, config, engine).Success? && Cancellation(token, h).None?)
            ==> Pins(GatherCalls(blocks, config, engine, token)) == QueryBlocks(blocks.Keys)
  {
    var q := QueryBlocks(blocks.Keys);
    RunCallsPins(blocks, q, 0, config, engine, token);
    assert q[0..] == q;
    if forall h | h in blocks :: BlockScoresAt(blocks, h, config, engine).Success? && Cancellation(token, h).None? {
      forall j | 0 <= j < |q| ensures BlockScoresAt(blocks, q[j], config, engine).Success? && Cancellation(token, q[j]).None? {
        assert q[j] in blocks;
      }
    }
  }

  // ---------------------------------------------------------------------
  // The result depends only on valuations under the blocks' own pins
  // ---------------------------------------------------------------------

  lemma {:induction false} ValuationsAgree<V, E, Cfg>(accounts: seq<Account>, h: Height, config: Cfg,
                                                      e1: TvlEngine<V, E, Cfg>, e2: TvlEngine<V, E, Cfg>,
                                                      acc: ScoreDataPoint<V>)
    requires forall a | a in accounts :: e1(a, Some(h), config) == e2(a, Some(h), config)
    ensures Valuations(accounts, h, config, e1, acc) == Valuations(accounts, h, config, e2, acc)
    ensures ValuationCalls(accounts, h, config, e1) == ValuationCalls(accounts, h, config, e2)
    decreases |accounts|
  {
    if accounts != [] {
      assert accounts[0] in accounts;
      forall a | a in accounts[1..] ensures e1(a, Some(h), config) == e2(a, Some(h), config) {
        assert a in accounts;
      }
      var r := e1(accounts[0], Some(h), config);
      if r.Success? {
        ValuationsAgree(accounts[1..], h, config, e1, e2, acc[accounts[0] := AccountScoreDataPoint(r.value)]);
      }
    }
  }

  lemma {:induction false} RunAgree<V, E, Cfg>(blocks: BlocksOfInterest, q: seq<Height>, i: nat,
                                               data: ScoreDataHistory<V>, last: Height, config: Cfg,
                                               e1: TvlEngine<V, E, Cfg>, e2: TvlEngine<V, E, Cfg>,
                                               token: Option<CancellationToken<E>>)
    requires i <= |q| && forall h | h in q :: h in blocks
    requires forall h, a | h in blocks && a in blocks[h].accounts :: e1(a, Some(h), config) == e2(a, Some(h), config)
    ensures Run(blocks, q, i, data, last, config, e1, token) == Run(blocks, q, i, data, last, config, e2, token)
    ensures RunCalls(blocks, q, i, config, e1, token) == RunCalls(blocks, q, i, config, e2, token)
    decreases |q| - i
  {
    if i < |q| {
      var h := q[i];
      ValuationsAgree(blocks[h].accounts, h, config, e1, e2, map[]);
      var b := BlockScoresAt(blocks, h, config, e1);
      if b.Success? {
        RunAgree(blocks, q, i + 1, data[h := BlockScores(b.value)], h, config, e1, e2, token);
      }
    }
  }

  /** Two engines that give the same answers for each block's participants
      under that block's pin yield the same result and the same calls: the
      gatherer never consults the engine under any other pin. In particular,
      repeated calls with the same inputs and an engine that depends only on
      account, pinned block and configuration give identical results. */
  lemma GatherDependsOnlyOnPinnedValuations<V, E, Cfg>(blocks: BlocksOfInterest, config: Cfg,
                                                       e1: TvlEngine<V, E, Cfg>, e2: TvlEngine<V, E, Cfg>,
                                                       token: Option<CancellationToken<E>>)
    requires forall h, a | h in blocks && a in blocks[h].accounts :: e1(a, Some(h), config) == e2(a, Some(h), config)
    ensures Gather(blocks, config, e1, token) == Gather(blocks, config, e2, token)
    ensures GatherCalls(blocks, config, e1, token) == GatherCalls(blocks, config, e2, token)
  {
    RunAgree(blocks, QueryBlocks(blocks.Keys), 0, map[], 0, config, e1, e2, token);
  }

  // ---------------------------------------------------------------------
  // Two concrete runs
  // ---------------------------------------------------------------------

  /** Block 100 lists account "a", block 50 lists account "b". */
  function TwoBlocks(): BlocksOfInterest {
    map[100 := BlockOfInterest(["a"]), 50 := BlockOfInterest(["b"])]
  }

  /** An engine that values "a" at 10 and "b" at 5 when pinned to their
      blocks, rejects "a" when `failA` is set, and rejects any other call. */
  function ScenarioEngine(failA: bool): TvlEngine<int, string, ()> {
    (a: Account, pin: Option<Height>, c: ()) =>
      if a == "a" && pin == Some(100) && !failA then Success(10)
      else if a == "b" && pin == Some(50) then Success(5)
      else Failure("rejected")
  }

  lemma TwoBlocksOrder()
    ensures QueryBlocks(TwoBlocks().Keys) == [100, 50]
  {
    assert TwoBlocks().Keys == {50, 100};
    DefaultSortExample();
  }

  lemma TwoBlocksScores()
    ensures BlockScoresAt(TwoBlocks(), 100, (), ScenarioEngine(false)) == Success(map["a" := AccountScoreDataPoint(10)])
    ensures BlockScoresAt(TwoBlocks(), 50, (), ScenarioEngine(false)) == Success(map["b" := AccountScoreDataPoint(5)])
  {
    assert Valuations(["a"], 100, (), ScenarioEngine(false), map[]) == Success(map["a" := AccountScoreDataPoint(10)]);
    assert Valuations(["b"], 50, (), ScenarioEngine(false), map[]) == Success(map["b" := AccountScoreDataPoint(5)]);
  }

  /** Both valuations succeed: block 100 is visited first, so both blocks are
      committed but `lastBlock` is 50, not the largest height 100. */
  lemma TwoBlocksSucceed()
    ensures var r := Gather(TwoBlocks(), (), ScenarioEngine(false), None);
            && r.error == None
            && r.data == map[50 := BlockScores(map["b" := AccountScoreDataPoint(5)]),
                             100 := BlockScores(map["a" := AccountScoreDataPoint(10)])]
            && r.lastBlock == 50
  {
    var blocks := TwoBlocks();
    var engine := ScenarioEngine(false);
    TwoBlocksOrder();
    TwoBlocksScores();
    var q := [100, 50];
    var d1 := map[100 := BlockScores(map["a" := AccountScoreDataPoint(10)])];
    var d2 := d1[50 := BlockScores(map["b" := AccountScoreDataPoint(5)])];
    assert Run(blocks, q, 1, d1, 100, (), engine, None) == ScoreDataHistoryResult(None, d2, 50);
  }

  /** The valuation of "a" at block 100 is rejected: as block 100 is visited
      first, nothing is committed and `lastBlock` stays 0. */
  lemma TwoBlocksFirstVisitedFails()
    ensures Gather(TwoBlocks(), (), ScenarioEngine(true), None)
            == ScoreDataHistoryResult(Some("rejected"), map[], 0)
  {
    TwoBlocksOrder();
    assert Valuations(["a"], 100, (), ScenarioEngine(true), map[]) == Failure("rejected");
  }
}
