/** Feature masks chosen fold by fold from the selection evidence known so far. */
module FeatureMasks {
  import opened Wrappers
  import opened Sequences

  /** One permutation result of one feature in one fold; `low` is the lower end of its interval. */
  datatype Evidence = Evidence(feature: string, fold: int, low: real)

  function Needed(fold: nat): nat {
    if fold + 1 < 2 then fold + 1 else 2
  }

  /** The slice s[:n]. */
  function Head<T>(s: seq<T>, n: nat): seq<T> {
    if n < |s| then s[..n] else s
  }

  function Positive(): real -> bool {
    (x: real) => x > 0.0
  }

  /** Positive often enough, and on average; the mean of nothing is not positive. */
  predicate StableGroup(deltas: seq<real>, fold: nat) {
    var known := Head(deltas, fold + 1);
    |Filter(known, Positive())| >= Needed(fold) && known != [] && Sum(known) / |known| as real > 0.0
  }

  function Supports(name: string, fold: nat): Evidence -> bool {
    (e: Evidence) => e.feature == name && e.fold <= fold && e.low > 0.0
  }

  predicate StableFeature(individual: seq<Evidence>, name: string, fold: nat) {
    |Filter(individual, Supports(name, fold))| >= Needed(fold)
  }

  predicate StartsWith(name: string, prefix: string) {
    prefix <= name
  }

  predicate AlwaysKept(name: string) {
    StartsWith(name, "lambda_") || StartsWith(name, "league_")
  }

  /** Indices of the basic group and of every stable group. */
  function GroupMask(groups: map<string, seq<nat>>, utility: map<string, seq<real>>, fold: nat): set<nat>
    requires "basic" in groups
  {
    (set i | i in groups["basic"])
    + set g, i | g in utility && g in groups && StableGroup(utility[g], fold) && i in groups[g] :: i
  }

  function FeatureMask(names: seq<string>, individual: seq<Evidence>, fold: nat): set<nat> {
    set i: nat | i < |names| && (AlwaysKept(names[i]) || StableFeature(individual, names[i], fold))
  }

  /** Every group that a fold selects is declared; Python raises a KeyError otherwise. */
  predicate Declared(groups: map<string, seq<nat>>, utility: map<string, seq<real>>, fold: nat) {
    "basic" in groups && forall g :: g in utility && StableGroup(utility[g], fold) ==> g in groups
  }

  /** The sorted list of a set of indices. */
  ghost predicate Lists(mask: seq<nat>, indices: set<nat>) {
    && (forall i, j :: 0 <= i < j < |mask| ==> mask[i] < mask[j])
    && forall x :: x in mask <==> x in indices
  }

  // ---------- The loops ----------

  method CheckGroup(deltas: seq<real>, fold: nat) returns (stable: bool)
    ensures stable <==> StableGroup(deltas, fold)
  {
    var known := Head(deltas, fold + 1);
    var count, sum := 0, 0.0;
    for i := 0 to |known|
      invariant count == |Filter(known[..i], Positive())| && sum == Sum(known[..i])
    {
      assert known[..i + 1][..i] == known[..i];
      if known[i] > 0.0 {
        count := count + 1;
      }
      sum := sum + known[i];
    }
    assert known[..|known|] == known;
    stable := count >= Needed(fold) && known != [] && sum / |known| as real > 0.0;
  }

  method CheckFeature(individual: seq<Evidence>, name: string, fold: nat) returns (stable: bool)
    ensures stable <==> StableFeature(individual, name, fold)
  {
    var count := 0;
    for i := 0 to |individual|
      invariant count == |Filter(individual[..i], Supports(name, fold))|
    {
      var item := individual[i];
      assert individual[..i + 1][..i] == individual[..i];
      if item.feature == name && item.fold <= fold && item.low > 0.0 {
        count := count + 1;
      }
    }
    assert individual[..|individual|] == individual;
    stable := count >= Needed(fold);
  }

  method SortedSet(indices: seq<nat>) returns (mask: seq<nat>)
    ensures Lists(mask, set i | i in indices)
  {
    var all: seq<int> := indices;
    var sorted := SortBy(IntLe, Distinct(all));
    SortedDistinct(IntLe, all);
    hide SortBy;
    hide Distinct;
    forall i, j | 0 <= i < j < |sorted| ensures sorted[i] < sorted[j] {
      assert IntLe(sorted[i], sorted[j]);
    }
    assert forall i :: 0 <= i < |sorted| ==> sorted[i] in sorted && sorted[i] in indices;
    mask := sorted;
  }

  /** The group mask of one fold; None is the KeyError. */
  method MaskOfGroups(groups: map<string, seq<nat>>, utility: map<string, seq<real>>, fold: nat)
    returns (mask: Option<seq<nat>>)
    ensures mask.Some? <==> Declared(groups, utility, fold)
    ensures mask.Some? ==> Lists(mask.value, GroupMask(groups, utility, fold))
  {
    hide StableGroup;
    if "basic" !in groups {
      return None;
    }
    var indices := groups["basic"];
    var seen: set<string>, todo := {}, utility.Keys;
    while todo != {}
      invariant seen + todo == utility.Keys && seen !! todo
      invariant forall g :: g in seen && StableGroup(utility[g], fold) ==> g in groups
      invariant forall i :: i in indices <==>
                  i in groups["basic"]
                  || exists g :: g in seen && g in groups && StableGroup(utility[g], fold) && i in groups[g]
      decreases todo
    {
      var group :| group in todo;
      var stable := CheckGroup(utility[group], fold);
      if stable {
        if group !in groups {
          return None;
        }
        indices := indices + groups[group];
      }
      todo, seen := todo - {group}, seen + {group};
    }
    assert seen == utility.Keys;
    var sorted := SortedSet(indices);
    assert (set i | i in indices) == GroupMask(groups, utility, fold);
    mask := Some(sorted);
  }

  method MaskOfFeatures(names: seq<string>, individual: seq<Evidence>, fold: nat) returns (mask: seq<nat>)
    ensures Lists(mask, FeatureMask(names, individual, fold))
  {
    hide StableFeature;
    var stable: seq<string> := [];
    for k := 0 to |names|
      invariant forall name :: name in stable <==> name in names[..k] && StableFeature(individual, name, fold)
    {
      var keeps := CheckFeature(individual, names[k], fold);
      assert names[..k + 1] == names[..k] + [names[k]];
      if keeps {
        stable := stable + [names[k]];
      }
    }
    assert names[..|names|] == names;
    var indices: seq<nat> := [];
    for i := 0 to |names|
      invariant forall x: nat :: x in indices <==>
                  x < i && (AlwaysKept(names[x]) || StableFeature(individual, names[x], fold))
    {
      if AlwaysKept(names[i]) || names[i] in stable {
        indices := indices + [i];
      }
    }
    mask := SortedSet(indices);
    assert (set i | i in indices) == FeatureMask(names, individual, fold);
  }

  /** For each fold the sorted indices of both masks; None when a fold selects an undeclared group. */
  method ChronologicalReducedMasks(names: seq<string>, groups: map<string, seq<nat>>, utility: map<string, seq<real>>,
                                   individual: seq<Evidence>, folds: seq<nat>)
    returns (masks: Option<(map<nat, seq<nat>>, map<nat, seq<nat>>)>)
    ensures masks.Some? <==> forall f :: f in folds ==> Declared(groups, utility, f)
    ensures masks.Some? ==>
              && masks.value.0.Keys == masks.value.1.Keys == (set f | f in folds)
              && forall f :: f in folds ==>
                   && Lists(masks.value.0[f], GroupMask(groups, utility, f))
                   && Lists(masks.value.1[f], FeatureMask(names, individual, f))
  {
    hide GroupMask;
    hide FeatureMask;
    hide StableGroup;
    hide Lists;
    var groupMasks: map<nat, seq<nat>>, featureMasks: map<nat, seq<nat>> := map[], map[];
    for k := 0 to |folds|
      invariant groupMasks.Keys == featureMasks.Keys == (set f | f in folds[..k])
      invariant forall f :: f in folds[..k] ==>
                  Declared(groups, utility, f) && Lists(groupMasks[f], GroupMask(groups, utility, f))
      invariant forall f :: f in folds[..k] ==> Lists(featureMasks[f], FeatureMask(names, individual, f))
    {
      var fold := folds[k];
      assert folds[..k + 1] == folds[..k] + [fold];
      var groupMask := MaskOfGroups(groups, utility, fold);
      if groupMask == None {
        return None;
      }
      var featureMask := MaskOfFeatures(names, individual, fold);
      groupMasks := groupMasks[fold := groupMask.value];
      featureMasks := featureMasks[fold := featureMask];
    }
    assert folds[..|folds|] == folds;
    masks := Some((groupMasks, featureMasks));
  }

  function UpTo(fold: nat): Evidence -> bool {
    (e: Evidence) => e.fold <= fold
  }

  lemma SupportKnown(a: seq<Evidence>, b: seq<Evidence>, name: string, fold: nat)
    requires Filter(a, UpTo(fold)) == Filter(b, UpTo(fold))
    ensures StableFeature(a, name, fold) <==> StableFeature(b, name, fold)
  {
    FilterTwice(a, UpTo(fold), Supports(name, fold), Supports(name, fold));
    FilterTwice(b, UpTo(fold), Supports(name, fold), Supports(name, fold));
  }

  /** Evidence of later folds cannot change the masks of a fold. */
  lemma MasksCausal(names: seq<string>, groups: map<string, seq<nat>>, utility: map<string, seq<real>>,
                    utility': map<string, seq<real>>, individual: seq<Evidence>, individual': seq<Evidence>, fold: nat)
    requires "basic" in groups && utility'.Keys == utility.Keys
    requires forall g :: g in utility ==> Head(utility[g], fold + 1) == Head(utility'[g], fold + 1)
    requires Filter(individual, UpTo(fold)) == Filter(individual', UpTo(fold))
    ensures Declared(groups, utility, fold) <==> Declared(groups, utility', fold)
    ensures GroupMask(groups, utility, fold) == GroupMask(groups, utility', fold)
    ensures FeatureMask(names, individual, fold) == FeatureMask(names, individual', fold)
  {
    forall g | g in utility ensures StableGroup(utility[g], fold) <==> StableGroup(utility'[g], fold) {
    }
    forall i: nat | i < |names|
      ensures StableFeature(individual, names[i], fold) <==> StableFeature(individual', names[i], fold)
    {
      SupportKnown(individual, individual', names[i], fold);
    }
    hide StableGroup;
    hide StableFeature;
    hide Head;
    hide Filter;
  }

  /** Appending results of later folds, as the next folds do, keeps the masks of every earlier fold. */
  lemma LaterFoldsKeepMasks(names: seq<string>, groups: map<string, seq<nat>>, utility: map<string, seq<real>>,
                            more: map<string, seq<real>>, individual: seq<Evidence>, later: seq<Evidence>, fold: nat)
    requires "basic" in groups && more.Keys == utility.Keys
    requires forall g :: g in utility ==> |utility[g]| > fold
    requires forall e :: e in later ==> e.fold > fold
    ensures var extended := map g | g in utility :: utility[g] + more[g];
            && (Declared(groups, extended, fold) <==> Declared(groups, utility, fold))
            && GroupMask(groups, extended, fold) == GroupMask(groups, utility, fold)
    ensures FeatureMask(names, individual + later, fold) == FeatureMask(names, individual, fold)
  {
    var extended := map g | g in utility :: utility[g] + more[g];
    forall g | g in utility ensures Head(utility[g], fold + 1) == Head(extended[g], fold + 1) {
      var s := utility[g] + more[g];
      assert s[..fold + 1] == utility[g][..fold + 1];
    }
    FilterAppend(individual, later, UpTo(fold));
    FilterNone(later, UpTo(fold));
    MasksCausal(names, groups, utility, extended, individual, individual + later, fold);
  }

  /** The base context is in every mask. */
  lemma BaseKept(names: seq<string>, groups: map<string, seq<nat>>, utility: map<string, seq<real>>,
                 individual: seq<Evidence>, fold: nat)
    requires "basic" in groups
    ensures forall i :: i in groups["basic"] ==> i in GroupMask(groups, utility, fold)
    ensures forall i: nat :: i < |names| && AlwaysKept(names[i]) ==> i in FeatureMask(names, individual, fold)
  {
    hide StableGroup;
    hide StableFeature;
  }

  // ---------- What a selection asks for ----------

  lemma {:induction false} OneFiltered<T(!new)>(s: seq<T>, p: T -> bool)
    ensures |Filter(s, p)| >= 1 <==> exists i :: 0 <= i < |s| && p(s[i])
  {
    if s != [] {
      OneFiltered(s[..|s| - 1], p);
      if i :| 0 <= i < |s| - 1 && p(s[i]) {
        assert s[..|s| - 1][i] == s[i];
      }
    }
  }

  lemma {:induction false} TwoFiltered<T(!new)>(s: seq<T>, p: T -> bool)
    ensures |Filter(s, p)| >= 2 <==> exists i, j :: 0 <= i < j < |s| && p(s[i]) && p(s[j])
  {
    if s != [] {
      var t := s[..|s| - 1];
      TwoFiltered(t, p);
      OneFiltered(t, p);
      if i, j :| 0 <= i < j < |s| && p(s[i]) && p(s[j]) {
        assert t[i] == s[i] && (j < |t| ==> t[j] == s[j]);
      }
      if i, j :| 0 <= i < j < |t| && p(t[i]) && p(t[j]) {
        assert s[i] == t[i] && s[j] == t[j];
      }
      if i :| 0 <= i < |t| && p(t[i]) {
        assert s[i] == t[i];
      }
    }
  }

  /** The first fold asks for one positive gain, its own; a later one for two among its own and the earlier ones,
      whose sum is positive as well. */
  lemma GroupStableIff(deltas: seq<real>, fold: nat)
    ensures fold == 0 ==> (StableGroup(deltas, fold) <==> deltas != [] && deltas[0] > 0.0)
    ensures fold > 0 ==>
              (StableGroup(deltas, fold) <==>
               && (exists i, j :: 0 <= i < j < |deltas| && j <= fold && deltas[i] > 0.0 && deltas[j] > 0.0)
               && Sum(if fold < |deltas| then deltas[..fold + 1] else deltas) > 0.0)
  {
    var known := Head(deltas, fold + 1);
    OneFiltered(known, Positive());
    TwoFiltered(known, Positive());
    assert known == if fold < |deltas| then deltas[..fold + 1] else deltas;
    assert forall i :: 0 <= i < |known| ==> known[i] == deltas[i];
    if known != [] {
      MeanPositive(Sum(known), |known|);
    }
    if fold == 0 && deltas != [] {
      assert known == [deltas[0]] && [deltas[0]][..0] == [];
    }
    hide Filter;
    hide Head;
  }

  lemma MeanPositive(sum: real, n: nat)
    requires n > 0
    ensures sum / n as real > 0.0 <==> sum > 0.0
  {
  }

  /** A result of this feature, known in this fold, with its interval above zero. */
  predicate Helps(e: Evidence, name: string, fold: nat) {
    e.feature == name && fold >= e.fold && 0.0 < e.low
  }

  /** A feature is asked for as many results with an interval above zero, in its own fold or earlier ones. */
  lemma FeatureStableIff(individual: seq<Evidence>, name: string, fold: nat)
    ensures fold == 0 ==>
              (StableFeature(individual, name, fold) <==>
               exists i :: 0 <= i < |individual| && Helps(individual[i], name, fold))
    ensures fold > 0 ==>
              (StableFeature(individual, name, fold) <==>
               exists i, j :: 0 <= i < j < |individual| && Helps(individual[i], name, fold)
                 && Helps(individual[j], name, fold))
  {
    var p := Supports(name, fold);
    OneFiltered(individual, p);
    TwoFiltered(individual, p);
    assert forall i :: 0 <= i < |individual| ==> (p(individual[i]) <==> Helps(individual[i], name, fold));
    hide Filter;
    hide Supports;
    hide Helps;
  }

  /** Features whose name begins with lambda_ or league_ are kept in any fold. */
  lemma AlwaysKeptIff(name: string)
    ensures AlwaysKept(name) <==> |name| >= 7 && (name[..7] == "lambda_" || name[..7] == "league_")
  {
  }

  /** A set of indices has one sorted list. */
  lemma {:induction false} ListedOnce(a: seq<nat>, b: seq<nat>, indices: set<nat>)
    requires Lists(a, indices) && Lists(b, indices)
    ensures a == b
    decreases |a|
  {
    assert a != [] ==> a[0] in b;
    assert b != [] ==> b[0] in a;
    if a != [] {
      var m, n := |a| - 1, |b| - 1;
      assert a[m] in b && b[n] in a;
      WithoutLast(a, indices);
      WithoutLast(b, indices);
      ListedOnce(a[..m], b[..n], indices - {a[m]});
    }
  }

  lemma WithoutLast(a: seq<nat>, indices: set<nat>)
    requires a != [] && Lists(a, indices)
    ensures var m := |a| - 1; a == a[..m] + [a[m]] && Lists(a[..m], indices - {a[m]})
    ensures forall x :: x in indices ==> x <= a[|a| - 1]
  {
    var m := |a| - 1;
    assert a == a[..m] + [a[m]];
    forall x ensures x in a[..m] <==> x in indices - {a[m]} {
      if x in a[..m] {
        var i :| 0 <= i < m && a[..m][i] == x;
        assert a[i] < a[m];
      }
    }
  }
}
