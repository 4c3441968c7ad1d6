# Workout Optimizer: verified model of its decision rules

Workout-Program.py is a Streamlit app for tracking workouts. Around its
widgets and JSON files sit a few small, pure rules. This project models those
rules in Dafny and proves properties about them:

- **Readiness check** (`Readiness`). Four 1–10 self-ratings (sleep, stress,
  soreness, RPE) are classified as *reduce*, *boost* or *no change*. The reduce
  rule takes precedence.
- **Height field** (`Height`). The new-profile form's height text must be
  `<digits>` followed by `'` or `’` and then `<digits>`. It is read as
  feet × 12 + inches.
- **Profile creation and login** (`Profiles`). A profile is built and stored
  only when its height parses. Login succeeds exactly when the digest of the
  typed password matches the stored one.
- **Exercise pool** (`Exercises`). The built-in and custom exercises are
  filtered to those that share an equipment item with the profile. Then
  min(6, pool size) of them are drawn.
- **Prescription** (`Prescription`). Each exercise gets 5 sets with warm-up
  on and 4 without. The rep target depends on the goal: 5/10/15/8 for
  Strength/Hypertrophy/Endurance/Recomposition.
- **Volume** (`Volume`). Volume is weight × reps × sets. The per-set loop
  builds a running total, which equals weight × total reps.

The model uses immutable datatypes and pure functions. The one loop in the
source that matters, the per-set volume total, is a method with a loop
invariant. `wrappers.dfy` defines the `Option`/`Result` types that stand in
for the source's `None` results and exceptions.

Workout-Program.py points at two more components that it never implements.
Its comment at lines 194-195 names a plan that rotates through muscle groups
by least-worked submuscle, but line 197 replaces it, for brevity, with a
random draw. Line 69 defines the path of a muscle-statistics file, but
nothing reads or writes it. This model follows the code, so neither
component is modelled.

## Model

| member | source | states |
|---|---|---|
| Readiness.AutoAdjustLevel | Workout-Program.py:45-50 | The label is reduce exactly when rpe > 8, stress > 7 or soreness > 6. It is boost exactly when no reduce condition holds and sleep >= 8 and stress <= 4. Otherwise it is no change. It is total over all integers. |
| Readiness.ReduceIgnoresSleep | Workout-Program.py:46-47 | When a reduce condition holds, the result is reduce for every sleep value. Reduce beats boost. |
| Readiness.AdjustMonotone | Workout-Program.py:45-50 | Better recovery never lowers the label (reduce < no change < boost). The label is monotone in sleep and antitone in stress, soreness and RPE. |
| Readiness.DefaultsAreNoChange | Workout-Program.py:180-184 | The sliders' default ratings (7, 4, 3, 6) classify as no change. |
| Height.NumberValueOfDigits | Workout-Program.py:112-112 | Reading the decimal spelling of n back as an integer gives n. |
| Height.SplitIsUnique | Workout-Program.py:112-112 | A string of the height shape has exactly one split point, at the end of its leading digit run. |
| Height.ParseHeight | Workout-Program.py:112-113 | The parse succeeds exactly when the string is a non-empty digit run, one `'` or `’`, and a non-empty digit run to the end. On success the result is feet × 12 + inches for that split, with inches not bounded. |
| Height.ParseFormatRoundTrip | Workout-Program.py:112-113 | Parsing feet and inches written out with an apostrophe gives back feet × 12 + inches. |
| Height.AcceptsStraightApostrophe | Workout-Program.py:103-113 | The form's own example `5'10` parses to 70 inches. |
| Height.AcceptsUnboundedInches | Workout-Program.py:112-113 | `5'15` parses to 75. Inches above 11 are neither refused nor normalised. |
| Height.AcceptsTypographicApostrophe | Workout-Program.py:112-113 | `5’10`, with U+2019, parses to 70. |
| Height.RejectedExamples | Workout-Program.py:112-127 | Inputs are rejected when they are empty, lack a part, lack the separator or double it, or carry a trailing `"` or a space. |
| Profiles.BuildProfile | Workout-Program.py:111-122 | Building the record fails, with the invalid-height notice, exactly when the height does not parse. On success the record has the parsed inches, the digest of the password and the form's other fields. Its day cycle and custom exercises are empty, and its settings are light theme, coaching on and warm-up on. |
| Profiles.CreateProfile | Workout-Program.py:109-127 | If the height does not parse, the state is returned unchanged with the error notice, so no profile is saved. Otherwise the store gains, or replaces, exactly one entry under the form's name, and nothing else in it changes. That entry is the record that Profiles.BuildProfile builds: the digest, the form's fields, the parsed height and the default settings. The form's name is assigned as the current profile, and the loaded session settings are untouched. |
| Profiles.Login | Workout-Program.py:129-138 | Login succeeds exactly when the chosen profile exists and the digest of the typed password equals the stored one. On success it sets the current profile and the session settings. On failure the state is unchanged and the invalid-password notice is shown. |
| Profiles.CreateThenLogin | Workout-Program.py:97-136 | Right after a profile is created under a name the login prompt can reach, logging into it with the same password succeeds. It signs the user in and loads the default settings. The name must be neither the selector's placeholder nor empty. |
| Profiles.EmptyNameStaysSignedOut | Workout-Program.py:123-125 | A profile with an empty name is saved and assigned as current, but the app stays signed out, because line 294 treats an empty name as no profile. |
| Profiles.RejectedHeightStoresNothing | Workout-Program.py:111-127 | After a rejected height, the stored profiles are exactly those from before. |
| Profiles.CreatedHeight | Workout-Program.py:112-124 | A form whose height is written out as feet and inches creates a profile with feet × 12 + inches. |
| Exercises.FilterByEquipment | Workout-Program.py:193-193 | The output is an order-preserving subsequence of the input. Each kept exercise shares an equipment item with the profile. Each input exercise that shares one is kept. |
| Exercises.FilterKeepsEveryCopy | Workout-Program.py:193-193 | A usable exercise appears in the output as many times as in the input. An unusable one does not appear at all. |
| Exercises.FilterDistributesOverMerge | Workout-Program.py:191-193 | Filtering the merged built-in and custom lists equals merging the separately filtered lists. |
| Exercises.FilterIdempotent | Workout-Program.py:193-193 | Filtering twice is the same as filtering once. |
| Exercises.SampleSize | Workout-Program.py:197-197 | The draw count is at most 6 and at most the pool size, and it equals one of them. |
| Exercises.DrawAlwaysPossible | Workout-Program.py:197-197 | A draw of that size from the pool always exists, so the sampling request is never larger than the pool, even when the pool is empty. |
| Exercises.DrawnExercisesAreUsable | Workout-Program.py:193-197 | Every exercise drawn from the filtered pool is usable with the profile's equipment. |
| Prescription.PlannedSets | Workout-Program.py:208-208 | 5 sets exactly when the warm-up setting is true. 4 when it is false or absent. |
| Prescription.RepTarget | Workout-Program.py:209-209 | The rep target is 5, 8, 10 or 15, and each value belongs to exactly one goal: Strength, Recomposition, Hypertrophy, Endurance. |
| Prescription.PlanFor | Workout-Program.py:208-209 | The plan's set count is PlannedSets of the warm-up setting, and its rep target is RepTarget of the goal. |
| Prescription.PlanDeterminedBySettings | Workout-Program.py:208-209 | Two profiles get the same rep target exactly when they have the same goal. They get the same set count exactly when they agree on whether warm-up is on. |
| Prescription.NewProfilePlan | Workout-Program.py:208-209 | For a newly created profile, which has warm-up on (line 120), lines 208-209 compute 5 sets of the goal's target. |
| Volume.CalculateVolume | Workout-Program.py:42-43 | One rep in one set has the weight itself as its volume. Volume is zero when reps or sets are zero, and non-negative for non-negative inputs. |
| Volume.VolumeAdditiveInReps | Workout-Program.py:42-43 | Volume is additive in reps. Together with the unit case, this fixes it as weight × reps for one set. |
| Volume.VolumeAdditiveInSets | Workout-Program.py:42-43 | Volume is additive in sets. |
| Volume.VolumeSymmetricInRepsAndSets | Workout-Program.py:42-43 | Reps and sets are interchangeable in the volume. |
| Volume.TotalRepsOfEqualSets | Workout-Program.py:213-217 | n sets of r reps each total n × r reps. |
| Volume.PerSetVolumeMatchesSetCount | Workout-Program.py:213-218 | Adding one-set volumes over n sets of r reps gives the three-argument volume of r reps × n sets. |
| Volume.SessionVolume | Workout-Program.py:213-218 | The running total over the sets equals weight × total reps, which is the volume of one set of all the reps at that weight. |
| Volume.TotalRepsConcat | Workout-Program.py:213-218 | The rep total over two consecutive groups of sets is the sum of the group totals. |
| Volume.TotalRepsBounds | Workout-Program.py:216-217 | If each set's reps are within the input's range 0 to 2 × target, the total lies between 0 and sets × 2 × target. |
| Volume.SessionVolumeBounds | Workout-Program.py:216-218 | With weight >= 0 and valid per-set reps, the session volume lies between 0 and weight × sets × 2 × target. |

## Left out

- Streamlit widgets, page setup, session-state initialisation, tabs, headers and messages: these are presentation. Only the notices that the profile actions choose are modelled.
- Reading and writing JSON files, listing profiles and appending to the exercise log: these are file I/O. The profile store is a map from name to profile, and a missing or unreadable file is an absent key.
- The password hash (SHA-256 from a library) is an opaque function parameter `hash`. No property of the digest is assumed.
- The random draw of today's exercises is library randomness. Only its size and its possible outcomes are modelled (`IsDrawFrom`).
- The rest timer is a blocking, clock-driven UI loop.
- The weight-progression update after saving a log (line 231) uses floating-point multipliers. It also reads `exercise_weights`, which newly created profiles lack (lines 114-122 vs 210).
- The suggested-weight lookup `prof["exercise_weights"]` (line 210) is not modelled. No profile built at lines 114-122 has that key, so for such a profile line 210 raises KeyError as soon as one exercise is drawn. The plan text (line 211), the per-set loop (lines 213-218) and the log save (lines 223-233) then never run for it. The models of lines 208-209 and 213-218 describe what those lines compute for a profile that does carry the key. The weight used is an input of `SessionVolume`.
- Progress charts (lines 238-267) are pandas/matplotlib presentation. The cycle-planner tab is a placeholder.
- The exercise record keeps only its name and equipment. Muscle group, type, level, description and media links are display-only (line 201).
- Adding and deleting custom exercises, and the settings tab, are form plumbing. Their records appear only as the `customExercises` and `settings` fields.
- Volume.CalculateVolume: weights are exact reals, so floating-point rounding in the running total is not modelled.
- Height.ParseHeight: only ASCII digits count as digits, and the string must end right after the inches. Python's regex also accepts other Unicode decimal digits and a single trailing newline. Its `int()` also refuses digit runs longer than the interpreter's limit (4300 digits by default), which the model accepts.
- Profiles.CreateThenLogin: holds only for names other than `<New Profile>` and the empty name. A profile named `<New Profile>` is saved (line 123), but choosing that name in the selector opens the creation form (lines 97-98), so it can never be logged into. A profile with an empty name is saved and made current (line 125), but line 294 treats the empty name as no profile, so the app stays signed out (see Profiles.EmptyNameStaysSignedOut).
- Profiles.CreateProfile: any failure inside the guarded block also yields the invalid-height notice, but only the height parse is modelled. Failures in hashing or saving are I/O.
- The goal is a datatype of the four options the goal selector offers. A stored goal outside these would make the rep-table lookup at line 209 raise, and that case is not modelled.
- The warm-up setting is `Option<bool>`. Only booleans are ever stored there, and Python truthiness of other JSON values is not modelled.
- The least-worked-submuscle rotation (comment at lines 194-195) and the muscle-statistics file (line 69) are not implemented in Workout-Program.py (see above).
