/**
 * The profile hook: one profile record that each operation replaces with an
 * updated copy. The list-valued fields behave as ordered sets: adding only
 * appends an absent value, removing drops every occurrence.
 */
module UserProfile {
  import opened Wrappers
  import opened Menu

  const InitialProfile: Profile := Profile(
    ["Balanced diet"],
    ["Weight maintenance", "Energy optimization"],
    "Moderate",
    [],
    [])

  predicate NoDuplicates(xs: seq<string>) {
    forall i, j :: 0 <= i < j < |xs| ==> xs[i] != xs[j]
  }

  /** `[...xs, x]` when `x` is not yet in `xs`; `xs` itself otherwise. */
  function AddIfAbsent(xs: seq<string>, x: string): (r: seq<string>)
    ensures x in r
    ensures forall y :: y in r <==> y in xs || y == x
    ensures |xs| <= |r| <= |xs| + 1 && r[..|xs|] == xs
  {
    if x in xs then xs else xs + [x]
  }

  /** `xs.filter(y => y !== x)`. */
  function RemoveAll(xs: seq<string>, x: string): (r: seq<string>)
    ensures x !in r
    ensures forall y :: y in r <==> y in xs && y != x
    ensures |r| <= |xs|
    decreases |xs|
  {
    if xs == [] then []
    else (if xs[0] == x then [] else [xs[0]]) + RemoveAll(xs[1..], x)
  }

  // ---------------------------------------------------------------- add

  /** Adding keeps the list free of duplicates, and the value is then present. */
  lemma AddIfAbsentKeepsNoDuplicates(xs: seq<string>, x: string)
    requires NoDuplicates(xs)
    ensures NoDuplicates(AddIfAbsent(xs, x))
    ensures x in AddIfAbsent(xs, x)
  {
  }

  /** Adding an absent value appends it at the end; adding a present one changes nothing. */
  lemma AddIfAbsentShape(xs: seq<string>, x: string)
    ensures x !in xs ==> AddIfAbsent(xs, x) == xs + [x]
    ensures x in xs ==> AddIfAbsent(xs, x) == xs
    ensures AddIfAbsent(AddIfAbsent(xs, x), x) == AddIfAbsent(xs, x)
  {
  }

  // ---------------------------------------------------------------- remove

  /** Removal keeps every other value with its multiplicity and drops all of `x`. */
  lemma {:induction false} RemoveAllContents(xs: seq<string>, x: string)
    ensures multiset(RemoveAll(xs, x)) == multiset(xs)[x := 0]
    decreases |xs|
  {
    if xs != [] {
      RemoveAllContents(xs[1..], x);
      assert xs == [xs[0]] + xs[1..];
      assert multiset(xs) == multiset{xs[0]} + multiset(xs[1..]);
    }
  }

  /** Removal distributes over concatenation, so the relative order of the rest is kept. */
  lemma {:induction false} RemoveAllAppend(a: seq<string>, b: seq<string>, x: string)
    ensures RemoveAll(a + b, x) == RemoveAll(a, x) + RemoveAll(b, x)
    decreases |a|
  {
    if a != [] {
      assert (a + b)[0] == a[0];
      assert (a + b)[1..] == a[1..] + b;
      RemoveAllAppend(a[1..], b, x);
    } else {
      assert a + b == b;
    }
  }

  /** Removing an absent value is a no-op. */
  lemma {:induction false} RemoveAllAbsent(xs: seq<string>, x: string)
    requires x !in xs
    ensures RemoveAll(xs, x) == xs
    decreases |xs|
  {
    if xs != [] {
      assert xs == [xs[0]] + xs[1..];
      RemoveAllAbsent(xs[1..], x);
    }
  }

  /** After a removal the value is gone, and removing it again changes nothing. */
  lemma RemoveAllIdempotent(xs: seq<string>, x: string)
    ensures x !in RemoveAll(xs, x)
    ensures RemoveAll(RemoveAll(xs, x), x) == RemoveAll(xs, x)
  {
    RemoveAllContents(xs, x);
    assert x !in multiset(RemoveAll(xs, x));
    RemoveAllAbsent(RemoveAll(xs, x), x);
  }

  /** Removal never introduces a duplicate. */
  lemma RemoveAllKeepsNoDuplicates(xs: seq<string>, x: string)
    requires NoDuplicates(xs)
    ensures NoDuplicates(RemoveAll(xs, x))
  {
    RemoveAllContents(xs, x);
    var r := RemoveAll(xs, x);
    forall i, j | 0 <= i < j < |r| ensures r[i] != r[j] {
      if r[i] == r[j] {
        DuplicateCount(r, i, j);
        NoDuplicatesCount(xs, r[i]);
        assert false;
      }
    }
  }

  lemma DuplicateCount(xs: seq<string>, i: nat, j: nat)
    requires i < j < |xs| && xs[i] == xs[j]
    ensures multiset(xs)[xs[i]] >= 2
  {
    assert xs == xs[..i] + [xs[i]] + xs[i + 1..j] + [xs[j]] + xs[j + 1..];
  }

  lemma {:induction false} NoDuplicatesCount(xs: seq<string>, y: string)
    requires NoDuplicates(xs)
    ensures multiset(xs)[y] <= 1
    decreases |xs|
  {
    if xs != [] {
      assert xs == [xs[0]] + xs[1..];
      NoDuplicatesCount(xs[1..], y);
      if xs[0] == y {
        assert y !in xs[1..];
      }
    }
  }

  /** Adding an absent value and then removing it restores the list. */
  lemma AddThenRemove(xs: seq<string>, x: string)
    requires x !in xs
    ensures RemoveAll(AddIfAbsent(xs, x), x) == xs
  {
    RemoveAllAppend(xs, [x], x);
    RemoveAllAbsent(xs, x);
    assert RemoveAll([x], x) == [] + RemoveAll([x][1..], x);
  }

  // ---------------------------------------------------------------- merge

  /** The keys present in a `newProfile` argument, each with its value. */
  datatype ProfilePatch = ProfilePatch(
    dietaryPreferences: Option<seq<string>>,
    healthGoals: Option<seq<string>>,
    activityLevel: Option<string>,
    allergies: Option<seq<string>>,
    medicalConditions: Option<seq<string>>)

  const EmptyPatch: ProfilePatch := ProfilePatch(None, None, None, None, None)

  /** `{...p, ...patch}`: a key present in the patch wins, every other key is kept. */
  function Merge(p: Profile, patch: ProfilePatch): (r: Profile)
    ensures patch == EmptyPatch ==> r == p
    ensures r.dietaryPreferences == p.dietaryPreferences || Some(r.dietaryPreferences) == patch.dietaryPreferences
    ensures r.healthGoals == p.healthGoals || Some(r.healthGoals) == patch.healthGoals
    ensures r.activityLevel == p.activityLevel || Some(r.activityLevel) == patch.activityLevel
    ensures r.allergies == p.allergies || Some(r.allergies) == patch.allergies
    ensures r.medicalConditions == p.medicalConditions || Some(r.medicalConditions) == patch.medicalConditions
  {
    Profile(
      patch.dietaryPreferences.GetOr(p.dietaryPreferences),
      patch.healthGoals.GetOr(p.healthGoals),
      patch.activityLevel.GetOr(p.activityLevel),
      patch.allergies.GetOr(p.allergies),
      patch.medicalConditions.GetOr(p.medicalConditions))
  }

  /** Applying `first` and then `second` as one patch: keys of `second` win. */
  function Then(first: ProfilePatch, second: ProfilePatch): ProfilePatch {
    ProfilePatch(
      if second.dietaryPreferences.Some? then second.dietaryPreferences else first.dietaryPreferences,
      if second.healthGoals.Some? then second.healthGoals else first.healthGoals,
      if second.activityLevel.Some? then second.activityLevel else first.activityLevel,
      if second.allergies.Some? then second.allergies else first.allergies,
      if second.medicalConditions.Some? then second.medicalConditions else first.medicalConditions)
  }

  /**
   * A merge changes exactly the keys present in the patch: the empty patch is
   * the identity, merging twice equals merging once, and two merges in a row
   * are one merge of the combined patch.
   */
  lemma MergeLaws(p: Profile, q: ProfilePatch, r: ProfilePatch)
    ensures Merge(p, EmptyPatch) == p
    ensures Merge(Merge(p, q), q) == Merge(p, q)
    ensures Merge(Merge(p, q), r) == Merge(p, Then(q, r))
    ensures q.dietaryPreferences.Some? ==> Merge(p, q).dietaryPreferences == q.dietaryPreferences.value
    ensures q.dietaryPreferences.None? ==> Merge(p, q).dietaryPreferences == p.dietaryPreferences
    ensures q.healthGoals.Some? ==> Merge(p, q).healthGoals == q.healthGoals.value
    ensures q.healthGoals.None? ==> Merge(p, q).healthGoals == p.healthGoals
    ensures q.activityLevel.Some? ==> Merge(p, q).activityLevel == q.activityLevel.value
    ensures q.activityLevel.None? ==> Merge(p, q).activityLevel == p.activityLevel
    ensures q.allergies.Some? ==> Merge(p, q).allergies == q.allergies.value
    ensures q.allergies.None? ==> Merge(p, q).allergies == p.allergies
    ensures q.medicalConditions.Some? ==> Merge(p, q).medicalConditions == q.medicalConditions.value
    ensures q.medicalConditions.None? ==> Merge(p, q).medicalConditions == p.medicalConditions
  {
  }

  // ---------------------------------------------------------------- the hook

  /** The hook's single `profile` state, replaced by every operation. */
  class ProfileStore {
    var profile: Profile

    constructor ()
      ensures profile == InitialProfile
    {
      profile := InitialProfile;
    }

    method UpdateProfile(patch: ProfilePatch)
      modifies this
      ensures profile == Merge(old(profile), patch)
    {
      profile := Merge(profile, patch);
    }

    method AddDietaryPreference(preference: string)
      modifies this
      ensures profile == old(profile).(dietaryPreferences := AddIfAbsent(old(profile).dietaryPreferences, preference))
    {
      if preference !in profile.dietaryPreferences {
        profile := profile.(dietaryPreferences := profile.dietaryPreferences + [preference]);
      }
    }

    method RemoveDietaryPreference(preference: string)
      modifies this
      ensures profile == old(profile).(dietaryPreferences := RemoveAll(old(profile).dietaryPreferences, preference))
    {
      profile := profile.(dietaryPreferences := RemoveAll(profile.dietaryPreferences, preference));
    }

    method AddHealthGoal(goal: string)
      modifies this
      ensures profile == old(profile).(healthGoals := AddIfAbsent(old(profile).healthGoals, goal))
    {
      if goal !in profile.healthGoals {
        profile := profile.(healthGoals := profile.healthGoals + [goal]);
      }
    }

    method RemoveHealthGoal(goal: string)
      modifies this
      ensures profile == old(profile).(healthGoals := RemoveAll(old(profile).healthGoals, goal))
    {
      profile := profile.(healthGoals := RemoveAll(profile.healthGoals, goal));
    }

    method AddAllergy(allergy: string)
      modifies this
      ensures profile == old(profile).(allergies := AddIfAbsent(old(profile).allergies, allergy))
    {
      if allergy !in profile.allergies {
        profile := profile.(allergies := profile.allergies + [allergy]);
      }
    }

    method RemoveAllergy(allergy: string)
      modifies this
      ensures profile == old(profile).(allergies := RemoveAll(old(profile).allergies, allergy))
    {
      profile := profile.(allergies := RemoveAll(profile.allergies, allergy));
    }

    method SetActivityLevel(level: string)
      modifies this
      ensures profile == old(profile).(activityLevel := level)
    {
      profile := profile.(activityLevel := level);
    }
  }
}
