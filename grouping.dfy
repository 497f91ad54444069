/**
 * Grouping a population by the value of one sensitive feature, as a
 * dictionary that is filled household by household: a group is created the
 * first time its key is seen and every household is appended to its group.
 */
module Grouping {
  import opened Households

  /**
   * A dictionary from sensitive value to the households carrying it.
   * `keys` lists the dictionary's keys in insertion order, which is the order
   * in which the dictionary is iterated.
   */
  datatype Groups = Groups(keys: seq<real>, members: map<real, seq<Household>>)

  /** `groups.setdefault(key, []).append(h)`. */
  function AddMember(groups: Groups, key: real, h: Household): Groups
  {
    if key in groups.members then Groups(groups.keys, groups.members[key := groups.members[key] + [h]])
    else Groups(groups.keys + [key], groups.members[key := [h]])
  }

  /** The dictionary obtained after processing every household, in order. */
  function Grouped(households: seq<Household>, index: nat): Groups
    requires AllHaveIndex(households, index)
    decreases |households|
  {
    if |households| == 0 then Groups([], map[])
    else
      var n := |households| - 1;
      AddMember(Grouped(households[..n], index), households[n].features[index], households[n])
  }

  /** The households whose sensitive value is `key`, in input order. */
  function Select(households: seq<Household>, index: nat, key: real): (s: seq<Household>)
    requires AllHaveIndex(households, index)
    ensures forall h :: h in s ==> h in households && index < |h.features| && h.features[index] == key
    ensures forall j :: 0 <= j < |households| && households[j].features[index] == key ==> households[j] in s
    decreases |households|
  {
    if |households| == 0 then []
    else
      var n := |households| - 1;
      Select(households[..n], index, key) + (if households[n].features[index] == key then [households[n]] else [])
  }

  /** The position of the first household whose sensitive value is `key`, or |households| if there is none. */
  function FirstIndex(households: seq<Household>, index: nat, key: real): (p: nat)
    requires AllHaveIndex(households, index)
    ensures p <= |households|
    ensures p < |households| ==> households[p].features[index] == key
    ensures forall j :: 0 <= j < p ==> households[j].features[index] != key
    decreases |households|
  {
    if |households| == 0 then 0
    else
      var n := |households| - 1;
      var p := FirstIndex(households[..n], index, key);
      if p < n then p else if households[n].features[index] == key then n else n + 1
  }

  /** A key has no members exactly when no household carries it. */
  lemma SelectEmpty(households: seq<Household>, index: nat, key: real)
    requires AllHaveIndex(households, index)
    ensures Select(households, index, key) == [] <==> FirstIndex(households, index, key) == |households|
  {
    var s := Select(households, index, key);
    var p := FirstIndex(households, index, key);
    if s != [] {
      assert s[0] in s;
      var j :| 0 <= j < |households| && households[j] == s[0];
    }
    if p < |households| {
      assert households[p] in s;
    }
  }

  /** Keys listed in `keys` are pairwise distinct. */
  predicate Distinct(keys: seq<real>)
  {
    forall i, j :: 0 <= i < j < |keys| ==> keys[i] != keys[j]
  }

  /** The dictionary's key list and its key set agree. */
  ghost predicate KeysListed(groups: Groups)
  {
    forall key :: key in groups.members <==> key in groups.keys
  }

  /** The dictionary has a key exactly for each sensitive value present in the population. */
  ghost predicate KeysPresent(households: seq<Household>, index: nat, groups: Groups)
    requires AllHaveIndex(households, index)
  {
    forall key :: key in groups.members <==> FirstIndex(households, index, key) < |households|
  }

  /** Each group lists exactly the households carrying its key, in input order. */
  ghost predicate GroupsSelected(households: seq<Household>, index: nat, groups: Groups)
    requires AllHaveIndex(households, index)
  {
    forall key :: key in groups.members ==> groups.members[key] == Select(households, index, key)
  }

  /** Keys are listed in the order in which their value first occurs in the population. */
  ghost predicate KeysFirstSeen(households: seq<Household>, index: nat, groups: Groups)
    requires AllHaveIndex(households, index)
  {
    forall i, j :: 0 <= i < j < |groups.keys| ==>
      FirstIndex(households, index, groups.keys[i]) < FirstIndex(households, index, groups.keys[j])
  }

  /** The invariant of the grouping dictionary. */
  ghost predicate Shaped(households: seq<Household>, index: nat, groups: Groups)
    requires AllHaveIndex(households, index)
  {
    && KeysListed(groups)
    && KeysPresent(households, index, groups)
    && GroupsSelected(households, index, groups)
    && KeysFirstSeen(households, index, groups)
  }

  lemma KeysPresentSnoc(households: seq<Household>, index: nat, g0: Groups)
    requires AllHaveIndex(households, index) && |households| > 0
    requires KeysPresent(households[..|households| - 1], index, g0)
    ensures var h := households[|households| - 1];
            KeysPresent(households, index, AddMember(g0, h.features[index], h))
  {
  }

  lemma GroupsSelectedSnoc(households: seq<Household>, index: nat, g0: Groups)
    requires AllHaveIndex(households, index) && |households| > 0
    requires KeysPresent(households[..|households| - 1], index, g0)
    requires GroupsSelected(households[..|households| - 1], index, g0)
    ensures var h := households[|households| - 1];
            GroupsSelected(households, index, AddMember(g0, h.features[index], h))
  {
    var n := |households| - 1;
    var h := households[n];
    var key := h.features[index];
    var g := AddMember(g0, key, h);
    forall k | k in g.members
      ensures g.members[k] == Select(households, index, k)
    {
      if k == key && key !in g0.members {
        SelectEmpty(households[..n], index, key);
      }
    }
  }

  lemma KeysFirstSeenSnoc(households: seq<Household>, index: nat, g0: Groups)
    requires AllHaveIndex(households, index) && |households| > 0
    requires KeysListed(g0)
    requires KeysPresent(households[..|households| - 1], index, g0)
    requires KeysFirstSeen(households[..|households| - 1], index, g0)
    ensures var h := households[|households| - 1];
            KeysFirstSeen(households, index, AddMember(g0, h.features[index], h))
  {
    var n := |households| - 1;
    var init := households[..n];
    var h := households[n];
    var key := h.features[index];
    var g := AddMember(g0, key, h);
    forall i | 0 <= i < |g0.keys|
      ensures FirstIndex(households, index, g0.keys[i]) == FirstIndex(init, index, g0.keys[i]) < n
    {
      assert g0.keys[i] in g0.keys;
    }
    if key !in g0.members {
      assert FirstIndex(households, index, key) == n;
    }
    forall i, j | 0 <= i < j < |g.keys|
      ensures FirstIndex(households, index, g.keys[i]) < FirstIndex(households, index, g.keys[j])
    {
      assert g.keys[i] == g0.keys[i];
      if j < |g0.keys| {
        assert g.keys[j] == g0.keys[j];
      }
    }
  }

  /** Appending one household to the input keeps the grouping invariant. */
  lemma ShapedSnoc(households: seq<Household>, index: nat, g0: Groups)
    requires AllHaveIndex(households, index) && |households| > 0
    requires Shaped(households[..|households| - 1], index, g0)
    ensures var h := households[|households| - 1];
            Shaped(households, index, AddMember(g0, h.features[index], h))
  {
    KeysPresentSnoc(households, index, g0);
    GroupsSelectedSnoc(households, index, g0);
    KeysFirstSeenSnoc(households, index, g0);
  }

  /** The dictionary built from the whole population satisfies the grouping invariant. */
  lemma {:induction false} GroupedShape(households: seq<Household>, index: nat)
    requires AllHaveIndex(households, index)
    ensures Shaped(households, index, Grouped(households, index))
    decreases |households|
  {
    if |households| > 0 {
      var n := |households| - 1;
      GroupedShape(households[..n], index);
      ShapedSnoc(households, index, Grouped(households[..n], index));
    }
  }

  /** Every household sits in the group keyed by its own sensitive value. */
  lemma HouseholdInItsGroup(households: seq<Household>, index: nat, j: nat)
    requires AllHaveIndex(households, index) && j < |households|
    ensures var g := Grouped(households, index);
            var key := households[j].features[index];
            key in g.members && households[j] in g.members[key]
  {
    GroupedShape(households, index);
  }

  /**
   * A group holds only households of the population that carry its key, so
   * no household is in two groups.
   */
  lemma GroupsDisjoint(households: seq<Household>, index: nat)
    requires AllHaveIndex(households, index)
    ensures var g := Grouped(households, index);
            forall key, h :: key in g.members && h in g.members[key] ==>
              h in households && index < |h.features| && h.features[index] == key
    ensures var g := Grouped(households, index);
            forall k1, k2, h :: k1 in g.members && k2 in g.members && h in g.members[k1] && h in g.members[k2] ==>
              k1 == k2
  {
    GroupedShape(households, index);
  }

  /** No group is empty. */
  lemma GroupsNonEmpty(households: seq<Household>, index: nat)
    requires AllHaveIndex(households, index)
    ensures var g := Grouped(households, index);
            forall key :: key in g.members ==> |g.members[key]| > 0
  {
    GroupedShape(households, index);
    var g := Grouped(households, index);
    forall key | key in g.members
      ensures |g.members[key]| > 0
    {
      var p := FirstIndex(households, index, key);
      assert households[p] in g.members[key];
    }
  }

  /** The key list of the grouping has no duplicates. */
  lemma GroupedDistinct(households: seq<Household>, index: nat)
    requires AllHaveIndex(households, index)
    ensures Distinct(Grouped(households, index).keys)
  {
    GroupedShape(households, index);
  }

  /**
   * The key list holds each sensitive value of the population exactly once,
   * and nothing else.
   */
  lemma KeysAreDistinctValues(households: seq<Household>, index: nat)
    requires AllHaveIndex(households, index)
    ensures var g := Grouped(households, index);
            Distinct(g.keys)
    ensures var g := Grouped(households, index);
            forall key :: key in g.keys <==> exists j :: 0 <= j < |households| && households[j].features[index] == key
  {
    GroupedShape(households, index);
    var g := Grouped(households, index);
    forall key | key in g.keys
      ensures exists j :: 0 <= j < |households| && households[j].features[index] == key
    {
      var p := FirstIndex(households, index, key);
      assert households[p].features[index] == key;
    }
  }

  /** The groups' members, group after group in key order. */
  function Concat(keys: seq<real>, members: map<real, seq<Household>>): seq<Household>
    requires forall i :: 0 <= i < |keys| ==> keys[i] in members
  {
    if |keys| == 0 then [] else Concat(keys[..|keys| - 1], members) + members[keys[|keys| - 1]]
  }

  lemma {:induction false} ConcatUnaffected(keys: seq<real>, members: map<real, seq<Household>>, key: real, v: seq<Household>)
    requires forall i :: 0 <= i < |keys| ==> keys[i] in members
    requires key !in keys
    ensures Concat(keys, members[key := v]) == Concat(keys, members)
  {
    if |keys| > 0 {
      ConcatUnaffected(keys[..|keys| - 1], members, key, v);
    }
  }

  lemma {:induction false} ConcatExtend(keys: seq<real>, members: map<real, seq<Household>>, key: real, h: Household)
    requires forall i :: 0 <= i < |keys| ==> keys[i] in members
    requires Distinct(keys) && key in keys
    ensures multiset(Concat(keys, members[key := members[key] + [h]])) == multiset(Concat(keys, members)) + multiset{h}
  {
    var n := |keys| - 1;
    if keys[n] == key {
      ConcatUnaffected(keys[..n], members, key, members[key] + [h]);
    } else {
      assert key in keys[..n];
      ConcatExtend(keys[..n], members, key, h);
    }
  }

  /** Adding a member to a dictionary adds exactly that household to the concatenated groups. */
  lemma AddMemberConcat(g0: Groups, key: real, h: Household)
    requires KeysListed(g0) && Distinct(g0.keys)
    ensures forall i :: 0 <= i < |g0.keys| ==> g0.keys[i] in g0.members
    ensures var g := AddMember(g0, key, h);
            && (forall i :: 0 <= i < |g.keys| ==> g.keys[i] in g.members)
            && multiset(Concat(g.keys, g.members)) == multiset(Concat(g0.keys, g0.members)) + multiset{h}
  {
    assert forall i :: 0 <= i < |g0.keys| ==> g0.keys[i] in g0.keys;
    if key in g0.members {
      ConcatExtend(g0.keys, g0.members, key, h);
    } else {
      ConcatUnaffected(g0.keys, g0.members, key, [h]);
      assert (g0.keys + [key])[..|g0.keys|] == g0.keys;
    }
  }

  /** Concatenated in key order, the groups hold exactly the households of `households`, counted with multiplicity. */
  ghost predicate Covers(households: seq<Household>, groups: Groups)
  {
    && (forall i :: 0 <= i < |groups.keys| ==> groups.keys[i] in groups.members)
    && multiset(Concat(groups.keys, groups.members)) == multiset(households)
  }

  /** Adding one household to a covering dictionary covers the extended population. */
  lemma CoversSnoc(init: seq<Household>, g0: Groups, key: real, h: Household)
    requires KeysListed(g0) && Distinct(g0.keys) && Covers(init, g0)
    ensures Covers(init + [h], AddMember(g0, key, h))
  {
    AddMemberConcat(g0, key, h);
    assert multiset(init + [h]) == multiset(init) + multiset{h};
  }

  /** Taken together, the groups hold every household exactly as often as the population does. */
  lemma {:induction false} GroupsCoverPopulation(households: seq<Household>, index: nat)
    requires AllHaveIndex(households, index)
    ensures Covers(households, Grouped(households, index))
    decreases |households|
  {
    if |households| > 0 {
      var n := |households| - 1;
      var init := households[..n];
      var h := households[n];
      GroupsCoverPopulation(init, index);
      GroupedDistinct(init, index);
      GroupedKeysListed(init, index);
      CoversSnoc(init, Grouped(init, index), h.features[index], h);
      assert households == init + [h];
    }
  }

  /** The key list of the grouping lists exactly the dictionary's keys. */
  lemma GroupedKeysListed(households: seq<Household>, index: nat)
    requires AllHaveIndex(households, index)
    ensures KeysListed(Grouped(households, index))
  {
    GroupedShape(households, index);
  }

  /** Each group of the grouping is the selection of its key. */
  lemma GroupedSelected(households: seq<Household>, index: nat)
    requires AllHaveIndex(households, index)
    ensures GroupsSelected(households, index, Grouped(households, index))
  {
    GroupedShape(households, index);
  }

  /** The group of a present key is that key's non-empty selection. */
  lemma GroupOfKey(households: seq<Household>, index: nat, key: real)
    requires AllHaveIndex(households, index)
    requires key in Grouped(households, index).members
    ensures Grouped(households, index).members[key] == Select(households, index, key)
    ensures |Select(households, index, key)| > 0
  {
    GroupedSelected(households, index);
    GroupsNonEmpty(households, index);
  }
}
