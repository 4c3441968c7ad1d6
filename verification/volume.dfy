/** Training volume: weight × reps × sets for one exercise, and the running
    total built up set by set while the athlete enters each set's reps.
    Weights are real numbers; the source's floating-point rounding is not
    modelled. */
module Volume {
  import Prescription

  /** Volume of `sets` sets of `reps` reps at `weight`. */
  function CalculateVolume(weight: real, reps: int, sets: int): (v: real)
    ensures weight >= 0.0 && reps >= 0 && sets >= 0 ==> v >= 0.0
    ensures reps == 0 || sets == 0 ==> v == 0.0
    ensures reps == 1 && sets == 1 ==> v == weight
  {
    weight * reps as real * sets as real
  }

  /** Total reps over a session's sets. */
  function TotalReps(reps: seq<int>): int {
    if |reps| == 0 then 0 else TotalReps(reps[..|reps| - 1]) + reps[|reps| - 1]
  }

  /** Volume is additive in reps: two rep counts at the same weight and sets
      give the volume of their sum. */
  lemma VolumeAdditiveInReps(weight: real, r1: int, r2: int, sets: int)
    ensures CalculateVolume(weight, r1 + r2, sets)
         == CalculateVolume(weight, r1, sets) + CalculateVolume(weight, r2, sets)
  {
  }

  /** Volume is additive in sets as well. */
  lemma VolumeAdditiveInSets(weight: real, reps: int, s1: int, s2: int)
    ensures CalculateVolume(weight, reps, s1 + s2)
         == CalculateVolume(weight, reps, s1) + CalculateVolume(weight, reps, s2)
  {
  }

  /** Reps and sets play the same role: r sets of s reps is the volume of
      s sets of r reps. */
  lemma VolumeSymmetricInRepsAndSets(weight: real, reps: int, sets: int)
    ensures CalculateVolume(weight, reps, sets) == CalculateVolume(weight, sets, reps)
  {
  }

  /** n sets of r reps each total n × r reps. */
  lemma {:induction false} TotalRepsOfEqualSets(n: nat, r: int)
    ensures TotalReps(seq(n, _ => r)) == n * r
  {
    if n > 0 {
      assert seq(n, _ => r)[..n - 1] == seq(n - 1, _ => r);
      TotalRepsOfEqualSets(n - 1, r);
    }
  }

  /** Adding one set at a time (each a one-set volume) over n sets of r reps
      gives the three-argument volume of r reps × n sets at the same weight. */
  lemma {:induction false} PerSetVolumeMatchesSetCount(weight: real, r: int, n: nat)
    ensures CalculateVolume(weight, TotalReps(seq(n, _ => r)), 1) == CalculateVolume(weight, r, n)
  {
    TotalRepsOfEqualSets(n, r);
    assert (n * r) as real == n as real * r as real;
  }

  /** The per-set loop: for each set, adds the volume of that set (its reps
      done once) to the running total, which starts at zero. The result is the
      volume of one set of all the session's reps at the chosen weight. */
  method SessionVolume(weight: real, reps: seq<int>) returns (total: real)
    ensures total == CalculateVolume(weight, TotalReps(reps), 1)
    ensures total == weight * TotalReps(reps) as real
  {
    total := 0.0;
    var s := 0;
    while s < |reps|
      invariant 0 <= s <= |reps|
      invariant total == CalculateVolume(weight, TotalReps(reps[..s]), 1)
    {
      assert reps[..s + 1][..s] == reps[..s];
      VolumeAdditiveInReps(weight, TotalReps(reps[..s]), reps[s], 1);
      total := total + CalculateVolume(weight, reps[s], 1);
      s := s + 1;
    }
    assert reps[..s] == reps;
  }

  /** Totals over consecutive groups of sets add up. */
  lemma {:induction false} TotalRepsConcat(a: seq<int>, b: seq<int>)
    ensures TotalReps(a + b) == TotalReps(a) + TotalReps(b)
    decreases |b|
  {
    if |b| == 0 {
      assert a + b == a;
    } else {
      assert (a + b)[..|a + b| - 1] == a + b[..|b| - 1];
      TotalRepsConcat(a, b[..|b| - 1]);
    }
  }

  /** Entered reps within the input's range keep the total between zero and
      sets × twice the target. */
  lemma {:induction false} TotalRepsBounds(p: Prescription.Plan, reps: seq<int>)
    requires forall i :: 0 <= i < |reps| ==> 0 <= reps[i] <= Prescription.MaxRepsPerSet(p)
    ensures 0 <= TotalReps(reps) <= |reps| * Prescription.MaxRepsPerSet(p)
  {
    if |reps| > 0 {
      var front := reps[..|reps| - 1];
      assert forall i :: 0 <= i < |front| ==> front[i] == reps[i];
      TotalRepsBounds(p, front);
    }
  }

  /** With a non-negative weight and every set's reps in the input's range,
      the session volume lies between zero and weight × sets × 2 × target. */
  lemma SessionVolumeBounds(weight: real, p: Prescription.Plan, reps: seq<int>)
    requires weight >= 0.0
    requires Prescription.ValidSetReps(p, reps)
    ensures 0.0 <= CalculateVolume(weight, TotalReps(reps), 1)
    ensures CalculateVolume(weight, TotalReps(reps), 1)
         <= weight * (p.sets * 2 * p.repsTarget) as real
  {
    TotalRepsBounds(p, reps);
    PlanRepCeiling(p);
    VolumeMonotoneInReps(weight, TotalReps(reps), p.sets * 2 * p.repsTarget);
  }

  /** A plan's rep ceiling: sets times the per-set maximum is sets × 2 × target. */
  lemma PlanRepCeiling(p: Prescription.Plan)
    ensures p.sets * Prescription.MaxRepsPerSet(p) == p.sets * 2 * p.repsTarget
  {
    assert Prescription.MaxRepsPerSet(p) == 2 * p.repsTarget;
  }

  /** At a non-negative weight, one set of more reps has at least as much
      volume. */
  lemma VolumeMonotoneInReps(weight: real, t: int, m: int)
    requires weight >= 0.0 && t <= m
    ensures CalculateVolume(weight, t, 1) <= weight * m as real
  {
    calc {
      CalculateVolume(weight, t, 1);
    ==
      weight * t as real;
    <= { ScaleMonotone(weight, t as real, m as real); }
      weight * m as real;
    }
  }

  /** Scaling by a non-negative weight preserves order. */
  lemma ScaleMonotone(w: real, a: real, b: real)
    requires 0.0 <= w && a <= b
    ensures w * a <= w * b
  {
    assert w * b - w * a == w * (b - a);
  }
}
