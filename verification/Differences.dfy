/** The difference loops, and the two notions of sameness they are used with. */
module Differences {
  import opened Base
  import opened Cloud

  predicate Found<T(==)>(x: T, other: seq<T>, same: (T, T) -> bool) {
    exists y :: y in other && same(x, y)
  }

  /** The elements of `target` that have no equal in `other`, in the order of `target`. */
  function Missing<T(==)>(target: seq<T>, other: seq<T>, same: (T, T) -> bool): seq<T> {
    if target == [] then []
    else
      var rest := Missing(target[..|target| - 1], other, same);
      if Found(target[|target| - 1], other, same) then rest else rest + [target[|target| - 1]]
  }

  method Difference<T(==)>(target: seq<T>, other: seq<T>, same: (T, T) -> bool) returns (diff: seq<T>)
    ensures diff == Missing(target, other, same)
  {
    diff := [];
    for i := 0 to |target|
      invariant diff == Missing(target[..i], other, same)
    {
      var x := target[i];
      var found := false;
      for j := 0 to |other|
        invariant !found
        invariant forall y :: y in other[..j] ==> !same(x, y)
      {
        if same(x, other[j]) {
          found := true;
          break;
        }
      }
      if !found {
        diff := diff + [x];
      }
      assert target[..i + 1][..i] == target[..i];
    }
    assert target[..|target|] == target;
  }

  lemma {:induction false} MissingMembers<T>(target: seq<T>, other: seq<T>, same: (T, T) -> bool, x: T)
    ensures x in Missing(target, other, same) <==> x in target && !Found(x, other, same)
  {
    if target != [] {
      MissingMembers(target[..|target| - 1], other, same, x);
      assert target == target[..|target| - 1] + [target[|target| - 1]];
    }
  }

  /** The difference keeps the order of its first argument: it distributes over concatenation. */
  lemma {:induction false} MissingAppend<T>(s: seq<T>, t: seq<T>, other: seq<T>, same: (T, T) -> bool)
    ensures Missing(s + t, other, same) == Missing(s, other, same) + Missing(t, other, same)
  {
    if t == [] {
      assert s + t == s;
    } else {
      assert (s + t)[..|s + t| - 1] == s + t[..|t| - 1];
      MissingAppend(s, t[..|t| - 1], other, same);
    }
  }

  ghost predicate Equivalence<T(!new)>(same: (T, T) -> bool, among: set<T>) {
    && (forall x :: x in among ==> same(x, x))
    && (forall x, y :: x in among && y in among && same(x, y) ==> same(y, x))
    && (forall x, y, z :: x in among && y in among && z in among && same(x, y) && same(y, z) ==> same(x, z))
  }

  /** `other` after what `target` lacks was added and what only `other` has was taken away. */
  function Patched<T(==)>(target: seq<T>, other: seq<T>, same: (T, T) -> bool): seq<T> {
    Missing(other + Missing(target, other, same), Missing(other, target, same), same)
  }

  /** Diffing and patching gives back `target`, up to sameness, for every equivalence. */
  lemma PatchGivesTarget<T(!new)>(target: seq<T>, other: seq<T>, same: (T, T) -> bool, x: T)
    requires Equivalence(same, Elems(target) + Elems(other) + {x})
    ensures Found(x, Patched(target, other, same), same) <==> Found(x, target, same)
  {
    var add, drop := Missing(target, other, same), Missing(other, target, same);
    if Found(x, target, same) {
      var y :| y in target && same(x, y);
      MissingMembers(target, other, same, y);
      assert same(y, y);
      var z :| z in other + add && same(y, z);
      MissingMembers(target, other, same, z);
      assert z in Elems(target) + Elems(other);
      assert same(z, y) && same(x, z);
      MissingMembers(other + add, drop, same, z);
      forall d | d in drop ensures !same(z, d) {
        MissingMembers(other, target, same, d);
        assert d in Elems(other) && !same(d, y);
        assert same(z, d) ==> same(d, z);
        assert same(d, z) ==> same(d, y);
      }
      assert z in Patched(target, other, same);
    }
    if Found(x, Patched(target, other, same), same) {
      var z :| z in Patched(target, other, same) && same(x, z);
      MissingMembers(other + add, drop, same, z);
      MissingMembers(target, other, same, z);
      if z in other {
        MissingMembers(other, target, same, z);
        assert same(z, z);
      }
    }
  }

  // ---------------------------------------------------------------- differences by key

  function Mapped<T, K>(s: seq<T>, key: T -> K): (r: seq<K>)
    ensures |r| == |s|
  {
    seq(|s|, i requires 0 <= i < |s| => key(s[i]))
  }

  /** Where sameness is sameness of a key, the difference is the difference of the keys. */
  lemma {:induction false} MissingByKey<T, K>(target: seq<T>, other: seq<T>, same: (T, T) -> bool, key: T -> K)
    requires forall x, y :: x in target && y in other ==> (same(x, y) <==> key(x) == key(y))
    ensures var diff := Missing(target, other, same);
            && Elems(Mapped(diff, key)) == Elems(Mapped(target, key)) - Elems(Mapped(other, key))
            && (Distinct(Mapped(target, key)) ==> Distinct(Mapped(diff, key)))
            && forall x :: x in diff ==> x in target && key(x) !in Mapped(other, key)
  {
    if target != [] {
      var init, last := target[..|target| - 1], target[|target| - 1];
      var rest := Missing(init, other, same);
      MissingByKey(init, other, same, key);
      assert Mapped(target, key) == Mapped(init, key) + [key(last)];
      assert Mapped(init, key) == Mapped(target, key)[..|init|];
      assert Mapped(rest + [last], key) == Mapped(rest, key) + [key(last)];
      FoundByKey(last, other, same, key);
      ElemsAppend(Mapped(init, key), [key(last)]);
      ElemsAppend(Mapped(rest, key), [key(last)]);
      assert key(last) in Mapped(other, key) <==> key(last) in Elems(Mapped(other, key));
      if Distinct(Mapped(target, key)) {
        assert key(last) !in Mapped(init, key) by {
          forall i | 0 <= i < |init| ensures Mapped(init, key)[i] != key(last) {
            assert Mapped(target, key)[i] != Mapped(target, key)[|init|];
          }
        }
        assert key(last) !in Elems(Mapped(rest, key));
        DistinctAppend(Mapped(rest, key), key(last));
      }
    }
  }

  lemma FoundByKey<T, K>(x: T, other: seq<T>, same: (T, T) -> bool, key: T -> K)
    requires forall y :: y in other ==> (same(x, y) <==> key(x) == key(y))
    ensures Found(x, other, same) <==> key(x) in Mapped(other, key)
  {
    if Found(x, other, same) {
      var y :| y in other && same(x, y);
      var i :| 0 <= i < |other| && other[i] == y;
      assert Mapped(other, key)[i] == key(x);
    }
    if key(x) in Mapped(other, key) {
      var i :| 0 <= i < |other| && Mapped(other, key)[i] == key(x);
      assert other[i] in other && same(x, other[i]);
    }
  }

  /** The first element of `from` that `target` equals. */
  function Find<T>(from: seq<T>, target: T, same: (T, T) -> bool): Option<T> {
    if from == [] then None
    else
      match Find(from[..|from| - 1], target, same)
      case Some(x) => Some(x)
      case None => if same(target, from[|from| - 1]) then Some(from[|from| - 1]) else None
  }

  method FindEqual<T>(from: seq<T>, target: T, same: (T, T) -> bool) returns (r: Option<T>)
    ensures r == Find(from, target, same)
  {
    for i := 0 to |from|
      invariant Find(from[..i], target, same) == None
    {
      assert from[..i + 1][..i] == from[..i];
      if same(target, from[i]) {
        FindFirst(from, target, same, i + 1);
        return Some(from[i]);
      }
    }
    assert from[..|from|] == from;
    return None;
  }

  lemma {:induction false} FindFirst<T>(from: seq<T>, target: T, same: (T, T) -> bool, n: nat)
    requires n <= |from| && Find(from[..n], target, same).Some?
    ensures Find(from, target, same) == Find(from[..n], target, same)
  {
    if n == |from| {
      assert from[..n] == from;
    } else {
      assert from[..|from| - 1][..n] == from[..n];
      FindFirst(from[..|from| - 1], target, same, n);
    }
  }

  /** Something equal is found exactly when there is something equal to find. */
  lemma {:induction false} FindMatch<T>(from: seq<T>, target: T, same: (T, T) -> bool)
    ensures Found(target, from, same) <==> Find(from, target, same).Some?
    ensures Found(target, from, same) ==>
              Find(from, target, same).value in from && same(target, Find(from, target, same).value)
  {
    if from != [] {
      FindMatch(from[..|from| - 1], target, same);
      assert from == from[..|from| - 1] + [from[|from| - 1]];
    }
  }

  // ---------------------------------------------------------------- instances

  predicate InstanceEquals(i: Instance, other: Instance) {
    if i.uniqueID != "" && other.uniqueID != "" then i.uniqueID == other.uniqueID
    else i.instanceID == other.instanceID
  }

  /** An instance value that agrees with the inventory. */
  predicate Known(env: Env, i: Instance) {
    i.instanceID in env.inventory && env.inventory[i.instanceID].uniqueID == i.uniqueID
  }

  /** Within a consistent inventory sameness is sameness of the instance ID. */
  lemma EqualsIsSameID(env: Env, x: Instance, y: Instance)
    requires ConsistentInventory(env) && Known(env, x) && Known(env, y)
    ensures InstanceEquals(x, y) <==> x.instanceID == y.instanceID
  {
  }

  /**
   * The instances with a unique ID that share an instance ID with one that has none are just
   * those that share the unique ID of one of them.
   */
  ghost predicate BridgesAgree(among: set<Instance>) {
    forall b, y, z :: b in among && y in among && z in among
                      && b.uniqueID == "" && y.uniqueID != "" && z.uniqueID != "" && y.instanceID == b.instanceID ==>
      (z.uniqueID == y.uniqueID <==> z.instanceID == b.instanceID)
  }

  /** Sameness of instances is an equivalence exactly where no instance without a unique ID bridges two others. */
  lemma WhenEqualsIsEquivalence(among: set<Instance>)
    ensures Equivalence(InstanceEquals, among) <==> BridgesAgree(among)
  {
    if Equivalence(InstanceEquals, among) {
      forall b, y, z | b in among && y in among && z in among
                       && b.uniqueID == "" && y.uniqueID != "" && z.uniqueID != "" && y.instanceID == b.instanceID
        ensures z.uniqueID == y.uniqueID <==> z.instanceID == b.instanceID
      {
        assert InstanceEquals(b, y) && InstanceEquals(y, b);
        assert InstanceEquals(y, z) <==> z.uniqueID == y.uniqueID;
        assert InstanceEquals(b, z) <==> z.instanceID == b.instanceID;
      }
    }
  }

  lemma EqualsIsEquivalence(env: Env, among: set<Instance>)
    requires ConsistentInventory(env) && forall x :: x in among ==> Known(env, x)
    ensures Equivalence(InstanceEquals, among)
  {
    assert BridgesAgree(among);
    WhenEqualsIsEquivalence(among);
  }

  /**
   * Without a consistent inventory sameness is not transitive, and patching goes wrong: the
   * element without a unique ID equals both others, so the wanted one is never added.
   */
  lemma InconsistentInventoryBreaksPatch()
    ensures exists a, b, c :: InstanceEquals(a, b) && InstanceEquals(b, c) && !InstanceEquals(a, c)
    ensures exists target, other, x ::
              Found(x, target, InstanceEquals) && !Found(x, Patched(target, other, InstanceEquals), InstanceEquals)
  {
    var a := Instance("n1", "i-1", "");
    var b := Instance("n1", "", "");
    var c := Instance("n1", "i-2", "");
    assert InstanceEquals(a, b) && InstanceEquals(b, c) && !InstanceEquals(a, c);
    var target, other := [a], [b, c];
    assert Found(a, target, InstanceEquals) by { assert a in target && InstanceEquals(a, a); }
    assert Found(a, other, InstanceEquals) by { assert b in other && InstanceEquals(a, b); }
    assert Missing(target, other, InstanceEquals) == [] by {
      assert target[..0] == [] && target[0] == a;
    }
    assert other + [] == other;
    assert c in Missing(other, target, InstanceEquals) by {
      MissingMembers(other, target, InstanceEquals, c);
    }
    var drop := Missing(other, target, InstanceEquals);
    assert InstanceEquals(b, c) && Found(b, drop, InstanceEquals);
    forall z | z in Patched(target, other, InstanceEquals) ensures z == c {
      MissingMembers(other, drop, InstanceEquals, z);
    }
    assert !Found(a, Patched(target, other, InstanceEquals), InstanceEquals);
  }

  /** What the cloud answers when asked for instances: those asked for, or all of them if none is named. */
  function Answered(env: Env, ids: seq<string>): seq<string> {
    env.list(if ids == [] then env.inventory.Keys else Elems(ids) * env.inventory.Keys)
  }

  function Described(env: Env, ids: seq<string>): seq<Instance> {
    seq(|Answered(env, ids)|, i requires 0 <= i < |Answered(env, ids)| =>
      var id := Answered(env, ids)[i];
      if id in env.inventory then env.inventory[id] else Instance(id, "", ""))
  }

  function ViewInstance(env: Env, id: string): Instance {
    Instance(id, if id in env.inventory then env.inventory[id].uniqueID else "", "")
  }

  function ViewInstances(env: Env, ids: seq<string>): (r: seq<Instance>)
    ensures |r| == |ids|
  {
    seq(|ids|, i requires 0 <= i < |ids| => ViewInstance(env, ids[i]))
  }

  function Ids(instances: seq<Instance>): (r: seq<string>)
    ensures |r| == |instances|
  {
    seq(|instances|, i requires 0 <= i < |instances| => instances[i].instanceID)
  }

  lemma IdsMembers(instances: seq<Instance>, id: string)
    ensures id in Ids(instances) <==> exists x :: x in instances && x.instanceID == id
  {
    if id in Ids(instances) {
      var i :| 0 <= i < |instances| && Ids(instances)[i] == id;
      assert instances[i] in instances;
    }
    if x :| x in instances && x.instanceID == id {
      var i :| 0 <= i < |instances| && instances[i] == x;
      assert Ids(instances)[i] == id;
    }
  }

  lemma {:induction false} MissingDistinctIds(target: seq<Instance>, other: seq<Instance>)
    requires Distinct(Ids(target))
    ensures Distinct(Ids(Missing(target, other, InstanceEquals)))
  {
    if target != [] {
      var init, last := target[..|target| - 1], target[|target| - 1];
      assert Ids(init) == Ids(target)[..|target| - 1];
      MissingDistinctIds(init, other);
      var rest := Missing(init, other, InstanceEquals);
      IdsMembers(rest, last.instanceID);
      IdsMembers(init, last.instanceID);
      forall i | 0 <= i < |init| ensures Ids(init)[i] != last.instanceID {
        assert Ids(target)[i] != Ids(target)[|target| - 1];
      }
      forall y | y in rest ensures y.instanceID != last.instanceID {
        MissingMembers(init, other, InstanceEquals, y);
      }
      assert Ids(rest + [last]) == Ids(rest) + [last.instanceID];
      DistinctAppend(Ids(rest), last.instanceID);
    }
  }

  /** What the diff of two target lists asks for, as a set of instance IDs. */
  lemma MissingIds(env: Env, target: seq<Instance>, other: seq<Instance>)
    requires ConsistentInventory(env)
    requires forall x :: x in target || x in other ==> Known(env, x)
    ensures Elems(Ids(Missing(target, other, InstanceEquals))) == Elems(Ids(target)) - Elems(Ids(other))
  {
    var diff := Missing(target, other, InstanceEquals);
    forall id ensures id in Ids(diff) <==> id in Ids(target) && id !in Ids(other) {
      IdsMembers(diff, id);
      IdsMembers(target, id);
      IdsMembers(other, id);
      if x :| x in target && x.instanceID == id {
        MissingMembers(target, other, InstanceEquals, x);
        forall y | y in other ensures InstanceEquals(x, y) <==> y.instanceID == id {
          EqualsIsSameID(env, x, y);
        }
      }
      forall x | x in diff ensures x in target && !Found(x, other, InstanceEquals) {
        MissingMembers(target, other, InstanceEquals, x);
      }
      forall x, y | x in diff && y in other ensures x.instanceID != y.instanceID {
        EqualsIsSameID(env, x, y);
      }
    }
  }

  // ---------------------------------------------------------------- filters

  predicate SameString(x: string, y: string) {
    x == y
  }

  lemma MissingStrings(target: seq<string>, other: seq<string>)
    ensures Elems(Missing(target, other, SameString)) == Elems(target) - Elems(other)
  {
    forall x ensures x in Missing(target, other, SameString) <==> x in target && x !in other {
      MissingMembers(target, other, SameString, x);
    }
  }

  lemma {:induction false} MissingDistinct<T>(target: seq<T>, other: seq<T>, same: (T, T) -> bool)
    requires Distinct(target)
    ensures Distinct(Missing(target, other, same))
  {
    if target != [] {
      var init, last := target[..|target| - 1], target[|target| - 1];
      MissingDistinct(init, other, same);
      MissingMembers(init, other, same, last);
      DistinctAppend(Missing(init, other, same), last);
    }
  }
}
