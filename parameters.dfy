/** Deployment ranges of the simulation area (parameters.py).
    A `Range` is the half-open interval [start, stop). */
module Parameters {

  datatype Range = Range(start: int, stop: int)

  /** `Range.width`: the source asserts `start <= stop` before subtracting. */
  function Width(r: Range): (w: nat)
    requires r.start <= r.stop
    ensures r.start + w == r.stop
  {
    r.stop - r.start
  }

  /** `Range.__add__`: shifts both endpoints by `k`. */
  function Shift(r: Range, k: int): (s: Range)
    ensures s.start - r.start == k && s.stop - r.stop == k
  {
    Range(r.start + k, r.stop + k)
  }

  /** Shifting keeps the width and keeps the interval well formed. */
  lemma ShiftPreservesWidth(r: Range, k: int)
    requires r.start <= r.stop
    ensures Shift(r, k).start <= Shift(r, k).stop
    ensures Width(Shift(r, k)) == Width(r)
  {
  }

  /** A point lies in a shifted range exactly when the point shifted back lies in the original. */
  lemma ShiftMembership(r: Range, k: int, x: int)
    ensures (Shift(r, k).start <= x < Shift(r, k).stop) <==> (r.start <= x - k < r.stop)
  {
  }

  const DroneXRange: Range := Range(0, 100)
  const EdgeServerXRange: Range := Shift(DroneXRange, 40)
  const CloudServerXRange: Range := Shift(EdgeServerXRange, 60)
  const AreaXRange: Range := Range(DroneXRange.start, CloudServerXRange.stop)
  const AreaYRange: Range := Range(0, 100)

  /** The derived ranges are [40, 140) and [100, 200), not the [100, 140) and
      [140, 200) that the comments next to them describe, so edge servers overlap
      the drone area and cloud servers overlap the edge-server area. */
  lemma DerivedRanges()
    ensures EdgeServerXRange == Range(40, 140)
    ensures CloudServerXRange == Range(100, 200)
    ensures AreaXRange == Range(0, 200) && Width(AreaXRange) == 200
    ensures EdgeServerXRange.start < DroneXRange.stop
    ensures CloudServerXRange.start < EdgeServerXRange.stop
  {
  }

  /** Number of workflows generated; `calc_prob` in the legacy Markov step divides by it. */
  const NumOfWorkflows: nat := 20
}
