/**
 * The SNR grids of the earlier scripts: np.array(range(start, stop, 2)),
 * the integers start, start + 2, ... below stop, held as reals. Every script
 * steps its grid by 2 dB.
 */
module Grids {

  /** The number of values of range(start, stop, 2). */
  function RangeLength(start: int, stop: int): (n: nat)
    ensures stop <= start ==> n == 0
    ensures start < stop ==> start + 2 * (n - 1) < stop <= start + 2 * n
  {
    if stop <= start then 0 else (stop - start + 1) / 2
  }

  /** Python's range(start, stop, 2). */
  function Range(start: int, stop: int): (r: seq<real>)
    ensures |r| == RangeLength(start, stop)
    ensures forall i :: 0 <= i < |r| ==> r[i] == (start + 2 * i) as real
    ensures forall i :: 0 <= i < |r| ==> start as real <= r[i] < stop as real
  {
    seq(RangeLength(start, stop), i requires 0 <= i < RangeLength(start, stop) => (start + 2 * i) as real)
  }
}
