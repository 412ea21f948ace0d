/**
  Per-output weight tables: the factory defaults and the knob-driven weight
  edit (a dead zone, two snap positions, clamping to [0, 100]).
*/
module Weights {
  import opened Intervals

  /** Six outputs, cv1 .. cv6. */
  const ChannelCount: nat := 6

  const MaxWeight: int := 100

  /**
    Factory tables in output order, each in interval table order: cv1 and cv2
    all root, cv3 and cv5 all third, cv4 and cv6 all fifth.
  */
  const DEFAULT_CV_WEIGHTS: seq<seq<int>> := [
    [100, 0, 0, 0, 0, 0, 0, 0],
    [100, 0, 0, 0, 0, 0, 0, 0],
    [0, 0, 100, 0, 0, 0, 0, 0],
    [0, 0, 0, 0, 100, 0, 0, 0],
    [0, 0, 100, 0, 0, 0, 0, 0],
    [0, 0, 0, 0, 100, 0, 0, 0]
  ]

  /** A complete table: one weight per interval, each within [0, 100]. */
  predicate ValidTable(t: seq<int>)
  {
    |t| == TableSize && forall i :: 0 <= i < |t| ==> 0 <= t[i] <= MaxWeight
  }

  /** The interval each factory table puts its whole weight on. */
  function DefaultFocus(channel: nat): (focus: Interval)
    requires channel < ChannelCount
  {
    if channel <= 1 then Root else if channel % 2 == 0 then Third else Fifth
  }

  /** Every factory table is complete and valid, and weights exactly one interval, with 100. */
  lemma DefaultTablesValid()
    ensures |DEFAULT_CV_WEIGHTS| == ChannelCount
    ensures forall c :: 0 <= c < ChannelCount ==> ValidTable(DEFAULT_CV_WEIGHTS[c])
    ensures forall c, i :: 0 <= c < ChannelCount && 0 <= i < TableSize ==>
              DEFAULT_CV_WEIGHTS[c][i] == if i == Position(DefaultFocus(c)) then MaxWeight else 0
  {
  }

  /** |x|. */
  function Abs(x: int): (a: nat)
    ensures a == x || a == -x
  {
    if x < 0 then -x else x
  }

  /** A knob move of at most one step is ignored, to absorb jitter. */
  predicate InDeadZone(lastPosition: int, position: int): (ignored: bool)
    ensures ignored <==> Abs(position - lastPosition) <= 1
    ensures ignored <==> position in {lastPosition - 1, lastPosition, lastPosition + 1}
  {
    -1 <= position - lastPosition <= 1
  }

  /** max(0, min(100, x)): the point of [0, 100] nearest to x. */
  function Clamp(x: int): (c: int)
    ensures 0 <= c <= MaxWeight
    ensures 0 <= x <= MaxWeight ==> c == x
    ensures x < 0 ==> c == 0
    ensures x > MaxWeight ==> c == MaxWeight
  {
    if x < 0 then 0 else if x > MaxWeight then MaxWeight else x
  }

  /**
    The weight after a knob move outside the dead zone: position 99 snaps to
    100, position 0 snaps to 0, anything else moves the weight by the knob's
    delta and clamps it.
  */
  function TurnedWeight(weight: int, lastPosition: int, position: int): (w: int)
    ensures 0 <= w <= MaxWeight
  {
    if position == 99 then MaxWeight
    else if position == 0 then 0
    else Clamp(weight + (position - lastPosition))
  }

  /** The weight moves in the direction the knob moved, whichever rule applies. */
  lemma TurnFollowsKnob(weight: int, lastPosition: int, position: int)
    requires 0 <= weight <= MaxWeight
    requires 0 <= lastPosition <= 100 && 0 <= position <= 100
    requires !InDeadZone(lastPosition, position)
    ensures position > lastPosition ==> weight <= TurnedWeight(weight, lastPosition, position)
    ensures position < lastPosition ==> TurnedWeight(weight, lastPosition, position) <= weight
  {
  }

  /** Away from the rails and without clamping, the knob is a relative control: the weight changes by exactly the delta. */
  lemma TurnIsRelative(weight: int, lastPosition: int, position: int)
    requires position != 0 && position != 99
    requires 0 <= weight + (position - lastPosition) <= MaxWeight
    ensures TurnedWeight(weight, lastPosition, position) - weight == position - lastPosition
  {
  }

  /**
    The snaps at positions 99 and 0 need a move of at least two steps: from a
    knob snapshot of 98 or 100 to 99, or of 1 to 0, nothing changes.
  */
  lemma SnapNeedsTwoSteps(lastPosition: int)
    requires 0 <= lastPosition <= 100
    ensures !InDeadZone(lastPosition, 99) <==> lastPosition <= 97
    ensures !InDeadZone(lastPosition, 0) <==> lastPosition >= 2
  {
  }

  /**
    Weight 50 at knob 50: turning to 52 gives 52; then 51 lies in the dead zone.
    Once a move clears the dead zone, position 99 gives 100 and 0 gives 0.
  */
  lemma KnobTurnExamples(weight: int, lastPosition: int)
    ensures TurnedWeight(50, 50, 52) == 52 && InDeadZone(52, 51)
    ensures TurnedWeight(weight, lastPosition, 99) == MaxWeight
    ensures TurnedWeight(weight, lastPosition, 0) == 0
  {
  }
}
