/** The exercise pool for today's workout: the built-in database merged with
    the profile's custom exercises, narrowed to what the athlete's equipment
    allows, from which the day's exercises are drawn. */
module Exercises {

  /** An exercise record: its name and the equipment it needs. Muscle group,
      type, level, description and media links are display-only and not kept. */
  datatype Exercise = Exercise(name: string, equipment: seq<string>)

  /** The exercise can be done with the given equipment: its equipment list
      and the profile's share at least one item. */
  predicate Usable(e: Exercise, equipment: seq<string>) {
    exists item :: item in e.equipment && item in equipment
  }

  /** a can be obtained from b by deleting elements, keeping the rest in order. */
  predicate IsSubsequence<T(==)>(a: seq<T>, b: seq<T>) {
    if |a| == 0 then true
    else if |b| == 0 then false
    else (a[0] == b[0] && IsSubsequence(a[1..], b[1..])) || IsSubsequence(a, b[1..])
  }

  /** The equipment filter: keeps, in order, exactly the exercises usable with
      the profile's equipment. */
  function FilterByEquipment(exs: seq<Exercise>, equipment: seq<string>): (r: seq<Exercise>)
    ensures IsSubsequence(r, exs)
    ensures forall i :: 0 <= i < |r| ==> Usable(r[i], equipment)
    ensures forall i :: 0 <= i < |exs| && Usable(exs[i], equipment) ==> exs[i] in r
  {
    if |exs| == 0 then []
    else
      var rest := FilterByEquipment(exs[1..], equipment);
      if Usable(exs[0], equipment) then
        assert forall i :: 1 <= i < |exs| ==> exs[i] == exs[1..][i - 1];
        [exs[0]] + rest
      else
        assert forall i :: 1 <= i < |exs| ==> exs[i] == exs[1..][i - 1];
        assert |rest| > 0 ==> rest[0] != exs[0];
        rest
  }

  /** Every copy of a usable exercise is kept and no copy of any other is. */
  lemma {:induction false} FilterKeepsEveryCopy(exs: seq<Exercise>, equipment: seq<string>, e: Exercise)
    ensures multiset(FilterByEquipment(exs, equipment))[e]
         == if Usable(e, equipment) then multiset(exs)[e] else 0
  {
    if |exs| > 0 {
      FilterKeepsEveryCopy(exs[1..], equipment, e);
      assert exs == [exs[0]] + exs[1..];
    }
  }

  /** Filtering the merged list equals merging the filtered lists: built-in and
      custom exercises are treated alike. */
  lemma {:induction false} FilterDistributesOverMerge(a: seq<Exercise>, b: seq<Exercise>, equipment: seq<string>)
    ensures FilterByEquipment(a + b, equipment) == FilterByEquipment(a, equipment) + FilterByEquipment(b, equipment)
  {
    if |a| > 0 {
      assert (a + b)[1..] == a[1..] + b;
      FilterDistributesOverMerge(a[1..], b, equipment);
    } else {
      assert a + b == b;
    }
  }

  /** Filtering an already filtered list changes nothing. */
  lemma {:induction false} FilterIdempotent(exs: seq<Exercise>, equipment: seq<string>)
    ensures FilterByEquipment(FilterByEquipment(exs, equipment), equipment) == FilterByEquipment(exs, equipment)
  {
    if |exs| > 0 {
      FilterIdempotent(exs[1..], equipment);
      var rest := FilterByEquipment(exs[1..], equipment);
      if Usable(exs[0], equipment) {
        assert ([exs[0]] + rest)[1..] == rest;
      }
    }
  }

  /** How many exercises are drawn for today: six, or all of them when fewer
      remain after filtering. */
  function SampleSize(poolSize: nat): (k: nat)
    ensures k <= poolSize && k <= 6
    ensures k == poolSize || k == 6
  {
    if poolSize < 6 then poolSize else 6
  }

  /** today is a possible outcome of drawing SampleSize(|pool|) exercises from
      pool without replacement (the random draw itself is not modelled). */
  ghost predicate IsDrawFrom(today: seq<Exercise>, pool: seq<Exercise>) {
    |today| == SampleSize(|pool|) && multiset(today) <= multiset(pool)
  }

  /** The draw is always possible: the requested count never exceeds the pool,
      so the sampling call cannot fail, even on an empty pool. */
  lemma DrawAlwaysPossible(pool: seq<Exercise>)
    ensures IsDrawFrom(pool[..SampleSize(|pool|)], pool)
  {
    var k := SampleSize(|pool|);
    assert pool == pool[..k] + pool[k..];
    assert multiset(pool) == multiset(pool[..k]) + multiset(pool[k..]);
  }

  /** Every exercise drawn from the filtered pool is usable with the
      profile's equipment. */
  lemma DrawnExercisesAreUsable(today: seq<Exercise>, all: seq<Exercise>, equipment: seq<string>)
    requires IsDrawFrom(today, FilterByEquipment(all, equipment))
    ensures forall i :: 0 <= i < |today| ==> Usable(today[i], equipment)
  {
    var pool := FilterByEquipment(all, equipment);
    forall i | 0 <= i < |today| ensures Usable(today[i], equipment) {
      assert today[i] in multiset(today);
      assert today[i] in multiset(pool);
      var j :| 0 <= j < |pool| && pool[j] == today[i];
    }
  }
}
