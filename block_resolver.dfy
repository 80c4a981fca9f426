/** Choosing the first block of the KPI window: either the block at or before a
    cutoff time, found by a backward doubling probe followed by a binary search
    over block numbers, or a fixed count of blocks behind the latest one. The
    node's `eth_getBlockByNumber` lookup is the timestamp function `ts`. */
module BlockResolver {

  /** First backward step of the doubling probe, in blocks. */
  const INITIAL_STEP: nat := 500
  /** Length of the fixed lookback used by the script in place of the search. */
  const LOOKBACK_BLOCKS: nat := 200

  /** Block timestamps never decrease with the block number. */
  ghost predicate NonDecreasing(ts: nat -> int) {
    forall i: nat, j: nat :: i <= j ==> ts(i) <= ts(j)
  }

  /** Reference answer by linear scan downward from `latest`: the largest block
      `b <= latest` with `ts(b) <= cutoff`, or 0 when there is none. */
  function LastAtOrBefore(ts: nat -> int, latest: nat, cutoff: int): (b: nat)
    ensures b <= latest
    ensures ts(b) <= cutoff || b == 0
    ensures forall k: nat :: b < k <= latest ==> ts(k) > cutoff
  {
    if latest == 0 || ts(latest) <= cutoff then latest
    else LastAtOrBefore(ts, latest - 1, cutoff)
  }

  /** `findFromBlockByTime`: when the latest block is already old enough it is
      the answer; otherwise step back 500, 1000, 2000, ... blocks until a block
      at or before the cutoff (or block 0) is reached, then binary-search the
      last bracket. For non-decreasing timestamps the result is the linear-scan
      answer. */
  method FindFromBlockByTime(ts: nat -> int, latest: nat, cutoff: int) returns (b: nat)
    requires NonDecreasing(ts)
    ensures b == LastAtOrBefore(ts, latest, cutoff)
    ensures ts(latest) <= cutoff ==> b == latest
  {
    var hi: nat := latest;
    if ts(hi) <= cutoff {
      return hi;
    }

    var step: nat := INITIAL_STEP;
    var lo: nat := if hi > step then hi - step else 0;

    while true
      invariant lo <= hi <= latest
      invariant ts(hi) > cutoff
      invariant step >= INITIAL_STEP
      decreases lo
    {
      if ts(lo) <= cutoff || lo == 0 {
        break;
      }
      hi := lo;
      step := step * 2;
      lo := if hi > step then hi - step else 0;
    }

    var left: nat, right: nat := lo, hi;
    while left + 1 < right
      invariant left <= right <= latest
      invariant ts(left) <= cutoff || left == 0
      invariant ts(right) > cutoff
    {
      var mid := (left + right) / 2;
      if ts(mid) <= cutoff {
        left := mid;
      } else {
        right := mid;
      }
    }

    b := left;
    SameAsLinearScan(ts, latest, cutoff, b, right);
  }

  /** The exit state of the binary search pins down the linear-scan answer. */
  lemma SameAsLinearScan(ts: nat -> int, latest: nat, cutoff: int, left: nat, right: nat)
    requires NonDecreasing(ts)
    requires left <= right <= latest && left + 1 >= right
    requires ts(left) <= cutoff || left == 0
    requires ts(right) > cutoff
    ensures left == LastAtOrBefore(ts, latest, cutoff)
  {
  }

  /** The script's active choice (`latestBlock > 200n ? latestBlock - 200n : 0n`):
      200 blocks back, clamped at the genesis block. */
  function FixedLookbackFromBlock(latest: nat): (b: nat)
    ensures b <= latest
    ensures latest - b <= LOOKBACK_BLOCKS
    ensures b > 0 ==> latest - b == LOOKBACK_BLOCKS
  {
    if latest > LOOKBACK_BLOCKS then latest - LOOKBACK_BLOCKS else 0
  }

  /** The two ways of choosing the window's first block. */
  datatype FromBlockMode = ByTimestamp | FixedLookback

  /** Chooses the window's first block by the configured mode; neither mode
      goes past the latest block. */
  method ResolveFromBlock(mode: FromBlockMode, ts: nat -> int, latest: nat, cutoff: int)
    returns (fromBlock: nat)
    requires mode.ByTimestamp? ==> NonDecreasing(ts)
    ensures fromBlock <= latest
    ensures mode.ByTimestamp? ==> fromBlock == LastAtOrBefore(ts, latest, cutoff)
    ensures mode.FixedLookback? ==> fromBlock == FixedLookbackFromBlock(latest)
  {
    match mode
    case ByTimestamp =>
      fromBlock := FindFromBlockByTime(ts, latest, cutoff);
    case FixedLookback =>
      fromBlock := FixedLookbackFromBlock(latest);
  }
}
