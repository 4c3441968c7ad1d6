/** The plan shown for each of today's exercises: a number of sets and a rep
    target per set, decided by the warm-up setting and the training goal. */
module Prescription {
  import opened Wrappers
  import Profiles
  import Height

  /** `sets` × `repsTarget`. */
  datatype Plan = Plan(sets: nat, repsTarget: nat)

  /** Five sets when the warm-up setting is on, four when it is off or absent. */
  function PlannedSets(warmup: Option<bool>): (n: nat)
    ensures n == 5 <==> warmup == Some(true)
    ensures n == 4 <==> warmup != Some(true)
  {
    if warmup == Some(true) then 5 else 4
  }

  /** Reps per set for each goal. The targets are pairwise distinct, so the
      target alone tells the goal apart, and heavier goals get fewer reps:
      Strength 5 < Recomposition 8 < Hypertrophy 10 < Endurance 15. */
  function RepTarget(goal: Profiles.Goal): (n: nat)
    ensures 5 <= n <= 15
    ensures n == 5 <==> goal == Profiles.Strength
    ensures n == 8 <==> goal == Profiles.Recomposition
    ensures n == 10 <==> goal == Profiles.Hypertrophy
    ensures n == 15 <==> goal == Profiles.Endurance
  {
    match goal
    case Strength => 5
    case Hypertrophy => 10
    case Endurance => 15
    case Recomposition => 8
  }

  /** The plan for a profile. */
  function PlanFor(prof: Profiles.Profile): (p: Plan)
    ensures p.sets == PlannedSets(prof.settings.warmup)
    ensures p.repsTarget == RepTarget(prof.goal)
  {
    Plan(PlannedSets(prof.settings.warmup), RepTarget(prof.goal))
  }

  /** The largest rep count the per-set input accepts: twice the target. */
  function MaxRepsPerSet(p: Plan): nat {
    2 * p.repsTarget
  }

  /** The reps entered for a session: one entry per planned set, each within
      the input's range 0 .. MaxRepsPerSet. */
  predicate ValidSetReps(p: Plan, reps: seq<int>) {
    |reps| == p.sets && forall i :: 0 <= i < |reps| ==> 0 <= reps[i] <= MaxRepsPerSet(p)
  }

  /** A freshly created profile has warm-up on, so the set and rep rules
      compute five sets of its goal's target for it. */
  lemma NewProfilePlan(st: Profiles.AppState, form: Profiles.ProfileForm, hash: string -> string)
    requires Height.ParseHeight(form.height).Some?
    ensures var prof := Profiles.CreateProfile(st, form, hash).0.profiles[form.name];
            PlanFor(prof) == Plan(5, RepTarget(form.goal))
  {
  }

  /** Two profiles get the same rep target exactly when they have the same
      goal, and the same set count exactly when they agree on warm-up: the
      plan reveals both settings and depends on nothing else. */
  lemma PlanDeterminedBySettings(a: Profiles.Profile, b: Profiles.Profile)
    ensures PlanFor(a).repsTarget == PlanFor(b).repsTarget <==> a.goal == b.goal
    ensures PlanFor(a).sets == PlanFor(b).sets
        <==> (a.settings.warmup == Some(true)) == (b.settings.warmup == Some(true))
  {
  }
}
