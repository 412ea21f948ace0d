/**
  The chord engine: scale-degree arithmetic, the weighted choice of an
  interval for one output, and the conversion of a note to a 1 V/octave
  control voltage. Randomness enters as arguments: the chosen root and the
  uniform draw of each output.
*/
module ChordEngine {
  import opened Scales
  import opened Intervals

  // ---------------------------------------------------------------------
  // Scale-degree arithmetic
  // ---------------------------------------------------------------------

  /** The first position at which x occurs in the scale (Python's list.index). */
  function IndexOf(scale: seq<int>, x: int): (k: nat)
    requires x in scale
    ensures k < |scale| && scale[k] == x
    ensures forall j :: 0 <= j < k ==> scale[j] != x
  {
    if scale[0] == x then 0 else 1 + IndexOf(scale[1..], x)
  }

  /** In a scale without repeated offsets, IndexOf recovers the position of every member. */
  lemma IndexOfMember(scale: seq<int>, k: nat)
    requires Distinct(scale)
    requires k < |scale|
    ensures IndexOf(scale, scale[k]) == k
  {
  }

  /** A scale position taken modulo the scale length (`% len(scale)`). */
  function Wrap(k: nat, n: nat): (i: nat)
    requires n > 0
    ensures i < n
    ensures k < n ==> i == k
  {
    k % n
  }

  /**
    The note `interval` above `rootNote`, counted in scale steps and wrapping
    around the scale. This is the value `get_note_from_interval`
    returns: the octave adjustment it computes beforehand (OctaveAdjustedNote) is discarded.
  */
  function NoteFromInterval(scale: seq<int>, rootNote: int, interval: Interval): (note: int)
    requires rootNote in scale
    ensures note in scale
    ensures interval == Root ==> note == rootNote
  {
    var noteIndex := Wrap(IndexOf(scale, rootNote) + Step(interval), |scale|);
    scale[noteIndex]
  }

  /**
    The octave-adjusted note `get_note_from_interval` computes and then drops: twelve
    semitones are added for a ninth, or when the degree wrapped below the root.
  */
  function OctaveAdjustedNote(scale: seq<int>, rootNote: int, interval: Interval): (note: int)
    requires rootNote in scale
    ensures note == NoteFromInterval(scale, rootNote, interval)
         || note == NoteFromInterval(scale, rootNote, interval) + 12
    ensures interval == Ninth ==> note == NoteFromInterval(scale, rootNote, interval) + 12
  {
    var degree := scale[Wrap(IndexOf(scale, rootNote) + Step(interval), |scale|)];
    if interval == Ninth || degree < rootNote then degree + 12 else degree
  }

  /** The selected note lands on the scale degree `Step(interval)` places above the root's degree. */
  lemma NoteFromIntervalDegree(scale: seq<int>, rootNote: int, interval: Interval)
    requires Distinct(scale)
    requires rootNote in scale
    ensures IndexOf(scale, NoteFromInterval(scale, rootNote, interval))
         == (IndexOf(scale, rootNote) + Step(interval)) % |scale|
  {
  }

  /** In a seven-note scale a ninth returns the same note as a second. */
  lemma NinthIsSecond(scale: seq<int>, rootNote: int)
    requires |scale| == 7
    requires rootNote in scale
    ensures NoteFromInterval(scale, rootNote, Ninth) == NoteFromInterval(scale, rootNote, Second)
  {
  }

  /**
    In a well-formed mode the octave-adjusted note never lies below the root
    (the evident purpose of the adjustment), while the returned note can.
  */
  lemma OctaveAdjustedNotBelowRoot(scale: seq<int>, rootNote: int, interval: Interval)
    requires WellFormedScale(scale)
    requires rootNote in scale
    ensures rootNote <= OctaveAdjustedNote(scale, rootNote, interval) < rootNote + 24
  {
  }

  /** Dropping the octave adjustment has no audible effect: both notes give the same voltage. */
  lemma OctaveAdjustmentInaudible(scale: seq<int>, rootNote: int, interval: Interval)
    requires rootNote in scale
    ensures NoteToVoltage(OctaveAdjustedNote(scale, rootNote, interval))
         == NoteToVoltage(NoteFromInterval(scale, rootNote, interval))
  {
    var n := NoteFromInterval(scale, rootNote, interval);
    if OctaveAdjustedNote(scale, rootNote, interval) != n {
      VoltageIgnoresOctave(n, 1);
    }
  }

  // ---------------------------------------------------------------------
  // Voltage conversion
  // ---------------------------------------------------------------------

  /** 1 V/octave: the pitch class of the note, in twelfths of a volt. */
  function NoteToVoltage(note: int): (v: real)
    ensures 0.0 <= v <= 11.0 / 12.0
  {
    (note % 12) as real / 12.0
  }

  /** Octave displacement is lost: shifting a note by whole octaves leaves its voltage unchanged. */
  lemma VoltageIgnoresOctave(note: int, octaves: int)
    ensures NoteToVoltage(note + 12 * octaves) == NoteToVoltage(note)
  {
  }

  /** Two notes give the same voltage exactly when they have the same pitch class. */
  lemma VoltageIdentifiesPitchClass(a: int, b: int)
    ensures NoteToVoltage(a) == NoteToVoltage(b) <==> a % 12 == b % 12
  {
  }

  /** Reference points: C is 0 V, the C an octave up is 0 V again, G is 7/12 V. */
  lemma VoltageReferencePoints()
    ensures NoteToVoltage(0) == 0.0
    ensures NoteToVoltage(12) == 0.0
    ensures NoteToVoltage(7) == 7.0 / 12.0
  {
  }

  // ---------------------------------------------------------------------
  // Weighted interval selection
  // ---------------------------------------------------------------------

  /** Sum of a sequence of weights, accumulated from the front. */
  function Sum(s: seq<int>): (total: int)
    ensures (forall i :: 0 <= i < |s| ==> 0 <= s[i]) ==> 0 <= total
  {
    if |s| == 0 then 0 else Sum(s[..|s| - 1]) + s[|s| - 1]
  }

  /** With non-negative weights no single weight exceeds the total. */
  lemma {:induction false} EntryAtMostSum(s: seq<int>, m: nat)
    requires forall i :: 0 <= i < |s| ==> 0 <= s[i]
    requires m < |s|
    ensures s[m] <= Sum(s)
  {
    var front := s[..|s| - 1];
    if m < |s| - 1 {
      EntryAtMostSum(front, m);
    }
  }

  /** The running total after the first n weights of a table. */
  function RunningTotal(w: seq<int>, n: nat): (total: int)
    requires n <= |w|
  {
    Sum(w[..n])
  }

  /** Adding the weight at position k extends the running total by exactly that weight. */
  lemma {:induction false} RunningTotalStep(w: seq<int>, k: nat)
    requires k < |w|
    ensures RunningTotal(w, k + 1) == RunningTotal(w, k) + w[k]
  {
    assert w[..k + 1][..k] == w[..k];
  }

  /** A table of zeros sums to zero. */
  lemma {:induction false} SumOfZeros(s: seq<int>)
    requires forall i :: 0 <= i < |s| ==> s[i] == 0
    ensures Sum(s) == 0
  {
    if |s| > 0 {
      SumOfZeros(s[..|s| - 1]);
    }
  }

  /** A table with a single possibly-nonzero entry sums to that entry. */
  lemma {:induction false} SumOfSingleEntry(s: seq<int>, m: nat)
    requires m < |s|
    requires forall i :: 0 <= i < |s| && i != m ==> s[i] == 0
    ensures Sum(s) == s[m]
  {
    var front := s[..|s| - 1];
    if m == |s| - 1 {
      SumOfZeros(front);
    } else {
      SumOfSingleEntry(front, m);
    }
  }

  /** With non-negative weights the running total never decreases. */
  lemma {:induction false} RunningTotalMonotone(w: seq<int>, j: nat, k: nat)
    requires forall i :: 0 <= i < |w| ==> w[i] >= 0
    requires j <= k <= |w|
    ensures RunningTotal(w, j) <= RunningTotal(w, k)
    decreases k - j
  {
    if j < k {
      RunningTotalMonotone(w, j, k - 1);
      RunningTotalStep(w, k - 1);
    }
  }

  /** Dropping the last weight keeps every earlier running total; the full running total is the sum. */
  lemma FrontRunningTotals(w: seq<int>)
    requires |w| > 0
    ensures forall n :: 0 <= n < |w| ==> RunningTotal(w[..|w| - 1], n) == RunningTotal(w, n)
    ensures RunningTotal(w, |w|) == Sum(w)
  {
    forall n | 0 <= n < |w| ensures RunningTotal(w[..|w| - 1], n) == RunningTotal(w, n) {
      assert w[..|w| - 1][..n] == w[..n];
    }
    assert w[..|w|] == w;
  }

  /**
    The first position whose running total reaches the draw r, or |w| when
    none does. This is the reference definition of the cumulative walk.
  */
  function FirstReached(w: seq<int>, r: real): (k: nat)
    ensures k <= |w|
    ensures k < |w| ==> r <= RunningTotal(w, k + 1) as real
    ensures forall n :: 1 <= n <= k ==> RunningTotal(w, n) as real < r
  {
    if |w| == 0 then 0
    else
      var front := w[..|w| - 1];
      var k := FirstReached(front, r);
      FrontRunningTotals(w);
      if k < |front| then k
      else if r <= Sum(w) as real then |front|
      else |w|
  }

  /**
    The note one output plays: the root when the table sums to zero, otherwise
    the note of the first interval whose running total reaches r, and the root
    again if none does.
  */
  function SelectedNote(scale: seq<int>, weights: seq<int>, rootNote: int, r: real): (note: int)
    requires rootNote in scale
    requires |weights| == |IntervalOrder|
    ensures note in scale
  {
    if Sum(weights) == 0 then rootNote
    else
      var k := FirstReached(weights, r);
      if k < |weights| then NoteFromInterval(scale, rootNote, IntervalOrder[k]) else rootNote
  }

  /**
    The cumulative-weight walk over one output's table. `randomValue` is the
    draw `select_note_from_weights` takes uniformly from [0, total].
  */
  method SelectNoteFromWeights(scale: seq<int>, weights: seq<int>, rootNote: int, randomValue: real)
    returns (note: int)
    requires rootNote in scale
    requires |weights| == |IntervalOrder|
    ensures note == SelectedNote(scale, weights, rootNote, randomValue)
  {
    var totalWeight := Sum(weights);
    if totalWeight == 0 {
      return rootNote;
    }
    var cumulativeWeight := 0;
    var i := 0;
    while i < |weights|
      invariant 0 <= i <= |weights|
      invariant cumulativeWeight == RunningTotal(weights, i)
      invariant forall n :: 1 <= n <= i ==> RunningTotal(weights, n) as real < randomValue
    {
      RunningTotalStep(weights, i);
      cumulativeWeight := cumulativeWeight + weights[i];
      if randomValue <= cumulativeWeight as real {
        return NoteFromInterval(scale, rootNote, IntervalOrder[i]);
      }
      i := i + 1;
    }
    return rootNote;
  }

  /** An all-zero table always plays the root. */
  lemma ZeroWeightsSelectRoot(scale: seq<int>, weights: seq<int>, rootNote: int, r: real)
    requires rootNote in scale
    requires |weights| == |IntervalOrder|
    requires forall i :: 0 <= i < |weights| ==> weights[i] == 0
    ensures SelectedNote(scale, weights, rootNote, r) == rootNote
  {
    SumOfZeros(weights);
  }

  /**
    With non-negative weights, a draw in (0, total] selects the position k
    exactly when r lies in the window (running total before k, running total
    through k]: the walk is standard weighted sampling, ties going to the
    earlier interval.
  */
  lemma SelectionWindow(w: seq<int>, r: real, k: nat)
    requires forall i :: 0 <= i < |w| ==> w[i] >= 0
    requires 0.0 < r
    requires k < |w|
    ensures FirstReached(w, r) == k <==> RunningTotal(w, k) as real < r <= RunningTotal(w, k + 1) as real
  {
    var f := FirstReached(w, r);
    if RunningTotal(w, k) as real < r <= RunningTotal(w, k + 1) as real {
      if f < k {
        RunningTotalMonotone(w, f + 1, k);
      }
    }
  }

  /** For a draw in (0, total] the walk always stops on an interval with positive weight. */
  lemma SelectedIntervalHasWeight(w: seq<int>, r: real)
    requires forall i :: 0 <= i < |w| ==> w[i] >= 0
    requires 0.0 < r <= Sum(w) as real
    ensures FirstReached(w, r) < |w|
    ensures w[FirstReached(w, r)] > 0
  {
    var k := FirstReached(w, r);
    assert w[..|w|] == w;
    SelectionWindow(w, r, k);
    RunningTotalStep(w, k);
  }

  /** The final `return root_note` of the walk is unreachable for draws in (0, total]. */
  lemma FallbackUnreachable(scale: seq<int>, weights: seq<int>, rootNote: int, r: real)
    requires rootNote in scale
    requires |weights| == |IntervalOrder|
    requires forall i :: 0 <= i < |weights| ==> weights[i] >= 0
    requires 0.0 < r <= Sum(weights) as real
    ensures FirstReached(weights, r) < |weights|
    ensures exists k ::
              0 <= k < |weights| && weights[k] > 0
              && SelectedNote(scale, weights, rootNote, r) == NoteFromInterval(scale, rootNote, IntervalOrder[k])
  {
    SelectedIntervalHasWeight(weights, r);
    var k := FirstReached(weights, r);
    assert weights[k] > 0;
  }

  /** A table whose only positive weight is at position m selects that interval for every draw in (0, total]. */
  lemma SingleWeightIsDeterministic(scale: seq<int>, weights: seq<int>, rootNote: int, r: real, m: nat)
    requires rootNote in scale
    requires |weights| == |IntervalOrder|
    requires m < |weights| && weights[m] > 0
    requires forall i :: 0 <= i < |weights| && i != m ==> weights[i] == 0
    requires 0.0 < r <= weights[m] as real
    ensures SelectedNote(scale, weights, rootNote, r) == NoteFromInterval(scale, rootNote, IntervalOrder[m])
  {
    SumOfSingleEntry(weights, m);
    SelectedIntervalHasWeight(weights, r);
  }

  /** A draw of exactly 0 stops at the first interval (the root) whatever its weight. */
  lemma ZeroDrawSelectsRoot(scale: seq<int>, weights: seq<int>, rootNote: int)
    requires rootNote in scale
    requires |weights| == |IntervalOrder|
    requires weights[0] >= 0
    ensures SelectedNote(scale, weights, rootNote, 0.0) == rootNote
  {
    RunningTotalStep(weights, 0);
  }
}
