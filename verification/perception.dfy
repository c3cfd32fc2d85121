/**
  The decision `find_image` takes once the template matcher has run.

  Screen capture, image loading and the correlation routine itself are not
  modelled: their output (the best correlation value, where it was reached and
  the template's size) is an input, and the correlation is an opaque real.
 */
module Perception {
  import opened Wrappers

  /** A pixel position on the captured screen. */
  datatype Point = Point(x: int, y: int)

  /** What the matcher reports for one capture: the maximum normalised
      correlation, the top-left corner where it was reached, and the template's
      width and height. */
  datatype MatchOutput = MatchOutput(maxVal: real, maxLoc: Point, width: nat, height: nat)

  /** The threshold used by every call that does not pass one. */
  const DefaultThreshold: real := 0.8

  /** `p` lies in the half-open rectangle of the given size whose top-left corner is `corner`. */
  predicate InRect(p: Point, corner: Point, width: nat, height: nat) {
    corner.x <= p.x < corner.x + width && corner.y <= p.y < corner.y + height
  }

  /** `c` is `lo` plus half of `size`, rounded down. */
  predicate IsMidpoint(c: int, lo: int, size: nat) {
    2 * (c - lo) <= size < 2 * (c - lo) + 2
  }

  /** The coordinate `find_image` reports: `None` when the template file is
      missing (whatever the screen shows), otherwise the centre of the best
      match exactly when its correlation reaches the threshold. */
  function FindImage(fileExists: bool, m: MatchOutput, threshold: real): (r: Option<Point>)
    ensures !fileExists ==> r == None
    ensures r.Some? <==> fileExists && m.maxVal >= threshold
    ensures r.Some? ==> IsMidpoint(r.value.x, m.maxLoc.x, m.width) && IsMidpoint(r.value.y, m.maxLoc.y, m.height)
    ensures r.Some? && m.width > 0 && m.height > 0 ==> InRect(r.value, m.maxLoc, m.width, m.height)
  {
    if !fileExists then None
    else if m.maxVal >= threshold then Some(Point(m.maxLoc.x + m.width / 2, m.maxLoc.y + m.height / 2))
    else None
  }

  /** Raising the threshold can only turn a hit into a miss, never move it. */
  lemma StricterThresholdFindsLess(fileExists: bool, m: MatchOutput, lower: real, higher: real)
    requires lower <= higher
    ensures FindImage(fileExists, m, higher).Some? ==> FindImage(fileExists, m, lower) == FindImage(fileExists, m, higher)
    ensures FindImage(fileExists, m, lower).None? ==> FindImage(fileExists, m, higher).None?
  {
  }
}
