/**
  Interval names and the scale-degree step each one stands for. The order of
  IntervalOrder is the insertion order of every weight table, so the
  position of an interval in it is also its index in a table.
*/
module Intervals {

  datatype Interval = Root | Second | Third | Fourth | Fifth | Sixth | Seventh | Ninth

  /** The number of scale steps above the root; a ninth is a second one octave up. */
  function Step(i: Interval): (s: nat)
    ensures s <= 8 && s != 7
    ensures s == 8 <==> i == Ninth
  {
    match i
    case Root => 0
    case Second => 1
    case Third => 2
    case Fourth => 3
    case Fifth => 4
    case Sixth => 5
    case Seventh => 6
    case Ninth => 8
  }

  /** Table order: root, 2nd, 3rd, 4th, 5th, 6th, 7th, 9th. */
  const IntervalOrder: seq<Interval> :=
    [Root, Second, Third, Fourth, Fifth, Sixth, Seventh, Ninth]

  /** The number of entries in a weight table. */
  const TableSize: nat := 8

  /** Position of an interval in table order: the name-to-index accessor of a weight table. */
  function Position(i: Interval): (k: nat)
    ensures k < TableSize == |IntervalOrder|
    ensures IntervalOrder[k] == i
  {
    match i
    case Root => 0
    case Second => 1
    case Third => 2
    case Fourth => 3
    case Fifth => 4
    case Sixth => 5
    case Seventh => 6
    case Ninth => 7
  }

  /** Every table index names a different interval, and Position inverts indexing. */
  lemma PositionInvertsOrder(k: nat)
    requires k < |IntervalOrder|
    ensures Position(IntervalOrder[k]) == k
    ensures forall j :: 0 <= j < |IntervalOrder| && j != k ==> IntervalOrder[j] != IntervalOrder[k]
  {
  }

  /** Steps grow strictly along table order, from 0 (root) to 8 (ninth), skipping 7. */
  lemma StepsIncreaseInTableOrder()
    ensures forall j, k :: 0 <= j < k < |IntervalOrder| ==> Step(IntervalOrder[j]) < Step(IntervalOrder[k])
    ensures Step(IntervalOrder[0]) == 0 && Step(IntervalOrder[7]) == 8
    ensures forall k :: 0 <= k < |IntervalOrder| ==> Step(IntervalOrder[k]) != 7
  {
  }
}
