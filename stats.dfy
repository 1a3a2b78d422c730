/** The read-only block-interval statistics of src/api/stats.rs: the last
    inter-block interval, and the total of the last `DIFF_ADJUST_WINDOW`
    intervals each clamped to at least one second (the source divides that
    total by the window size in floating point). */
module StatsApi {
  import opened Common
  import opened BlockPow
  import opened Chain
  import opened Ledger

  datatype Stats = Stats(
    height: nat,
    difficulty: U32,
    lastInterval: Option<int>,
    windowTotal: Option<int>,
    mempoolSize: nat,
    utxoSize: nat)

  /** The timestamp difference between block `i` and its predecessor. */
  function Gap(chain: seq<Block>, i: nat): int
    requires 1 <= i < |chain|
  {
    chain[i].timestamp - chain[i - 1].timestamp
  }

  /** The last interval: absent below two blocks, otherwise the last gap
      clamped below at 0. */
  function LastInterval(chain: seq<Block>): (r: Option<int>)
    ensures r.None? <==> |chain| < 2
    ensures r.Some? ==> r.value >= 0 && r.value >= Gap(chain, |chain| - 1)
    ensures r.Some? ==> r.value == 0 || r.value == Gap(chain, |chain| - 1)
  {
    if |chain| >= 2 then Some(Max(Gap(chain, |chain| - 1), 0)) else None
  }

  /** The gaps at indices `lo .. hi-1`, each clamped below at 1. */
  function ClampedGaps(chain: seq<Block>, lo: nat, hi: nat): int
    requires 1 <= lo <= hi <= |chain|
    decreases hi - lo
  {
    if lo == hi then 0 else ClampedGaps(chain, lo, hi - 1) + Max(Gap(chain, hi - 1), 1)
  }

  /** The clamped total is at least one per gap, and at least the timestamp
      span it covers. */
  lemma {:induction false} ClampedGapsBounds(chain: seq<Block>, lo: nat, hi: nat)
    requires 1 <= lo <= hi <= |chain|
    ensures ClampedGaps(chain, lo, hi) >= hi - lo
    ensures ClampedGaps(chain, lo, hi) >= chain[hi - 1].timestamp - chain[lo - 1].timestamp
    decreases hi - lo
  {
    if lo < hi {
      ClampedGapsBounds(chain, lo, hi - 1);
    }
  }

  /** The window loop: `None` below `window + 1` blocks, otherwise the sum
      over the last `window` gaps, clamped. */
  method WindowTotal(chain: seq<Block>, window: nat) returns (total: Option<int>)
    ensures total.None? <==> |chain| < window + 1
    ensures total.Some? ==> total.value == ClampedGaps(chain, |chain| - window, |chain|)
    ensures total.Some? ==> total.value >= window
    ensures total.Some? ==> total.value >= chain[|chain| - 1].timestamp - chain[|chain| - 1 - window].timestamp
  {
    var height := |chain|;
    if height < window + 1 {
      return None;
    }
    var start := height - (window + 1);
    var sum := 0;
    var i := start + 1;
    while i < start + 1 + window
      invariant start + 1 <= i <= start + 1 + window
      invariant sum == ClampedGaps(chain, start + 1, i)
    {
      sum := sum + Max(chain[i].timestamp - chain[i - 1].timestamp, 1);
      i := i + 1;
    }
    ClampedGapsBounds(chain, start + 1, height);
    return Some(sum);
  }

  /** `get_stats`: chain height and difficulty, the two interval figures,
      and the mempool and UTXO sizes. Nothing is modified. */
  method GetStats(state: AppState, env: Env) returns (stats: Stats)
    ensures stats.height == |state.blockchain.chain| && stats.difficulty == state.blockchain.difficulty
    ensures stats.lastInterval == LastInterval(state.blockchain.chain)
    ensures stats.windowTotal.None? <==> |state.blockchain.chain| < env.adjustWindow + 1
    ensures stats.windowTotal.Some? ==>
              stats.windowTotal.value == ClampedGaps(state.blockchain.chain, |state.blockchain.chain| - env.adjustWindow, |state.blockchain.chain|)
    ensures stats.mempoolSize == |state.mempool| && stats.utxoSize == |state.utxoSet.entries|
  {
    var chain := state.blockchain.chain;
    var windowTotal := WindowTotal(chain, env.adjustWindow);
    stats := Stats(|chain|, state.blockchain.Difficulty(), LastInterval(chain), windowTotal,
                   |state.mempool|, state.utxoSet.Len());
  }
}
