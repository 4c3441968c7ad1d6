/** The daily readiness check: four 1–10 self-ratings are classified into an
    intensity adjustment for today's session. */
module Readiness {

  /** The three labels the classifier can produce. */
  datatype AdjustLevel = Reduce | Boost | NoChange

  /** The conditions under which the athlete is told to scale down:
      a hard last session, high stress or marked soreness. */
  predicate NeedsReduce(stress: int, soreness: int, rpe: int) {
    rpe > 8 || stress > 7 || soreness > 6
  }

  /** The conditions under which the athlete may push harder:
      good sleep and low stress. */
  predicate AllowsBoost(sleep: int, stress: int) {
    sleep >= 8 && stress <= 4
  }

  /** The classifier. The reduce rule is tried first, so it wins over the boost
      rule whenever both would fire; the result is one of the three labels for
      every input, including values outside the sliders' 1–10 range. */
  function AutoAdjustLevel(sleep: int, stress: int, soreness: int, rpe: int): (r: AdjustLevel)
    ensures r == Reduce <==> NeedsReduce(stress, soreness, rpe)
    ensures r == Boost <==> !NeedsReduce(stress, soreness, rpe) && AllowsBoost(sleep, stress)
    ensures r == NoChange <==> !NeedsReduce(stress, soreness, rpe) && !AllowsBoost(sleep, stress)
  {
    if rpe > 8 || stress > 7 || soreness > 6 then Reduce
    else if sleep >= 8 && stress <= 4 then Boost
    else NoChange
  }

  /** Intensity rank of a label: Reduce < NoChange < Boost. */
  function Rank(l: AdjustLevel): (n: nat)
    ensures n <= 2
  {
    match l
    case Reduce => 0
    case NoChange => 1
    case Boost => 2
  }

  /** Once a reduce condition holds, sleep quality cannot change the verdict. */
  lemma ReduceIgnoresSleep(sleep1: int, sleep2: int, stress: int, soreness: int, rpe: int)
    requires NeedsReduce(stress, soreness, rpe)
    ensures AutoAdjustLevel(sleep1, stress, soreness, rpe) == Reduce
    ensures AutoAdjustLevel(sleep1, stress, soreness, rpe) == AutoAdjustLevel(sleep2, stress, soreness, rpe)
  {
  }

  /** Better recovery never lowers the recommendation: the label is monotone in
      sleep and antitone in stress, soreness and RPE. */
  lemma AdjustMonotone(sleep1: int, stress1: int, soreness1: int, rpe1: int,
                        sleep2: int, stress2: int, soreness2: int, rpe2: int)
    requires sleep1 <= sleep2 && stress2 <= stress1 && soreness2 <= soreness1 && rpe2 <= rpe1
    ensures Rank(AutoAdjustLevel(sleep1, stress1, soreness1, rpe1))
         <= Rank(AutoAdjustLevel(sleep2, stress2, soreness2, rpe2))
  {
  }

  /** The slider defaults (sleep 7, stress 4, soreness 3, RPE 6) classify as no change. */
  lemma DefaultsAreNoChange()
    ensures AutoAdjustLevel(7, 4, 3, 6) == NoChange
  {
  }
}
