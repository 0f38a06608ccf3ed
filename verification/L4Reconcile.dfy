/** The later phases of an L4 run: deleting what nobody wants, and reconciling what stays. */
module L4Reconcile {
  import opened Base
  import opened Cloud
  import opened Runs
  import opened Differences
  import opened L4Plan
  import opened L4Steps
  import opened L4Phases

  // ---------------------------------------------------------------- creating a balancer

  lemma CreateRequest(g: Goal, env: Env, w: World, k: Key)
    requires GoalOK(g) && k in g.want && g.name !in w.l4 && g.start == None
    ensures var v := L4Balancer(env.vipOf(g.name), [k], map[k := L4Listener({}, {})], map[]);
            && Steady(env, w, On(g.name, L4Create(k)), Good(g))
            && Ideal(env, w, On(g.name, L4Create(k))) == Ok(With(w, g.name, Some(v)))
            && Fresh(g, v, k)
  {
    OneRequest(g, env, w, L4Create(k));
  }

  /** A new balancer with one desired listener, complete. */
  function First(env: Env, name: string, lb: LoadBalancer): L4Balancer {
    L4Balancer(env.vipOf(name), [KeyOf(lb)], map[KeyOf(lb) := WantOf(lb)], map[KeyOf(lb) := CheckOf(lb)])
  }

  lemma CreateSteady(g: Goal, env: Env, w: World, lb: LoadBalancer)
    requires GoalOK(g) && Describes(g, env, lb) && g.name !in w.l4 && g.start == None
    ensures Steady(env, w, CreateSteps(lb), Good(g))
    ensures Ideal(env, w, CreateSteps(lb)) == Ok(With(w, g.name, Some(First(env, g.name, lb))))
  {
    var k := KeyOf(lb);
    var v := L4Balancer(env.vipOf(g.name), [k], map[k := L4Listener({}, {})], map[]);
    CreateRequest(g, env, w, k);
    OnlyListener(v, lb);
    RequestThenFill(g, env, w, L4Create(k), lb, v);
  }

  lemma OnlyListener(v: L4Balancer, lb: LoadBalancer)
    requires v.at == map[KeyOf(lb) := L4Listener({}, {})] && v.checks == map[]
    ensures Filled(v, lb).at == map[KeyOf(lb) := WantOf(lb)]
    ensures Filled(v, lb).checks == map[KeyOf(lb) := CheckOf(lb)]
  {
  }

  // ---------------------------------------------------------------- deleting ports

  function Minus(v: L4Balancer, k: Key): L4Balancer {
    v.(order := Without(v.order, k), at := v.at - {k}, checks := v.checks - {k})
  }

  function MinusAll(v: L4Balancer, lbs: seq<LoadBalancer>): L4Balancer {
    if lbs == [] then v else Minus(MinusAll(v, lbs[..|lbs| - 1]), KeyOf(lbs[|lbs| - 1]))
  }

  /** While ports are deleted every desired listener is there, and the old ones that remain are untouched. */
  ghost predicate Trimming(g: Goal, v: L4Balancer) {
    && g.want != map[] && g.want.Keys <= v.at.Keys && Elems(v.order) == v.at.Keys && AllWatched(g, v)
    && (g.start.Some? ==>
          && v.vip == g.start.value.vip
          && v.at.Keys <= g.start.value.at.Keys + g.want.Keys
          && (forall k :: k in v.at && k in g.start.value.at ==> v.at[k] == g.start.value.at[k])
          && forall k :: k in v.at && k in g.start.value.at ==> SameCheck(k, g.start.value.checks, v.checks))
  }

  lemma TrimmingIsFine(g: Goal, v: L4Balancer)
    requires Trimming(g, v)
    ensures Fine(g, v)
  {
  }

  lemma MinusTrimming(g: Goal, env: Env, v: L4Balancer, k: Key)
    requires Trimming(g, v) && k in v.at && k !in g.want
    ensures ApplyL4(env, g.name, Some(v), L4RemovePort(k)) == Ok(Some(Minus(v, k)))
    ensures Trimming(g, Minus(v, k))
  {
  }

  lemma MinusIsAStep(g: Goal, v: L4Balancer, k: Key)
    requires Fine(g, v) && Fine(g, Minus(v, k)) && k in v.at && k !in g.want
    ensures BalancerStep(g, Some(v), Some(Minus(v, k)))
  {
  }

  lemma RemoveSteady(g: Goal, env: Env, w: World, v: L4Balancer, k: Key)
    requires Lookup(w.l4, g.name) == Some(v) && Trimming(g, v) && k in v.at && k !in g.want
    ensures Steady(env, w, On(g.name, L4RemovePort(k)), Good(g))
    ensures Ideal(env, w, On(g.name, L4RemovePort(k))) == Ok(With(w, g.name, Some(Minus(v, k))))
    ensures Trimming(g, Minus(v, k))
  {
    MinusTrimming(g, env, v, k);
    TrimmingIsFine(g, v);
    TrimmingIsFine(g, Minus(v, k));
    MinusIsAStep(g, v, k);
    OneRequest(g, env, w, L4RemovePort(k));
  }

  /** What can be deleted: listeners of `v`, each once, that nobody wants. */
  ghost predicate Deletable(g: Goal, v: L4Balancer, lbs: seq<LoadBalancer>) {
    && Distinct(KeySeq(lbs))
    && forall lb :: lb in lbs ==> lb.name == g.name && KeyOf(lb) in v.at && KeyOf(lb) !in g.want
  }

  lemma {:induction false} MinusAllKeys(v: L4Balancer, lbs: seq<LoadBalancer>)
    ensures MinusAll(v, lbs).at == v.at - Elems(KeySeq(lbs))
    ensures MinusAll(v, lbs).checks == v.checks - Elems(KeySeq(lbs))
    ensures MinusAll(v, lbs).vip == v.vip
  {
    if lbs != [] {
      var init, lb := lbs[..|lbs| - 1], lbs[|lbs| - 1];
      MinusAllKeys(v, init);
      assert KeySeq(lbs) == KeySeq(init) + [KeyOf(lb)];
    } else {
      assert v.at - Elems(KeySeq(lbs)) == v.at && v.checks - Elems(KeySeq(lbs)) == v.checks;
    }
  }

  lemma {:induction false} DeleteAllSteady(g: Goal, env: Env, w: World, lbs: seq<LoadBalancer>, v: L4Balancer)
    requires Lookup(w.l4, g.name) == Some(v) && Trimming(g, v) && Deletable(g, v, lbs)
    ensures Steady(env, w, DeleteAll(lbs), Good(g))
    ensures Ideal(env, w, DeleteAll(lbs)) == Ok(With(w, g.name, Some(MinusAll(v, lbs))))
    ensures Trimming(g, MinusAll(v, lbs))
  {
    WithWith(w, g.name, Some(v), Some(v));
    if lbs != [] {
      var init, lb := lbs[..|lbs| - 1], lbs[|lbs| - 1];
      var v1 := MinusAll(v, init);
      assert KeySeq(lbs) == KeySeq(init) + [KeyOf(lb)];
      assert KeySeq(init) == KeySeq(lbs)[..|init|];
      DeleteAllSteady(g, env, w, init, v);
      MinusAllKeys(v, init);
      assert KeyOf(lb) !in KeySeq(init) by {
        forall i | 0 <= i < |init| ensures KeySeq(init)[i] != KeyOf(lb) {
          assert KeySeq(lbs)[i] != KeySeq(lbs)[|init|];
        }
      }
      RemoveSteady(g, env, With(w, g.name, Some(v1)), v1, KeyOf(lb));
      WithWith(w, g.name, Some(v1), Some(Minus(v1, KeyOf(lb))));
    }
  }

  // ---------------------------------------------------------------- what the cloud shows of a listener

  lemma ViewIds(env: Env, targets: set<string>)
    requires EnvOK(env) && targets <= env.inventory.Keys
    ensures Ids(ViewInstances(env, env.list(targets))) == env.list(targets)
    ensures Elems(Ids(ViewInstances(env, env.list(targets)))) == targets
    ensures Distinct(Ids(ViewInstances(env, env.list(targets))))
    ensures forall x :: x in ViewInstances(env, env.list(targets)) ==> Known(env, x)
  {
  }

  lemma ViewFilters(env: Env, filters: set<string>)
    requires EnvOK(env) && ANY_IP_ADDRESSES !in filters
    ensures Elems(WithoutAny(ListedFilters(env, filters))) == filters
    ensures Distinct(WithoutAny(ListedFilters(env, filters)))
  {
    WithoutDistinct(ListedFilters(env, filters), ANY_IP_ADDRESSES);
    assert Elems(env.list(filters)) == filters;
  }

  // ---------------------------------------------------------------- reconciling one listener

  /** `cur` is what the cloud shows of listener `k` of `v`, and `d` is what is desired of it. */
  ghost predicate Matched(g: Goal, env: Env, v: L4Balancer, d: LoadBalancer, cur: LoadBalancer, l: L4Listener) {
    && EnvOK(env) && Describes(g, env, d) && KeyOf(cur) == KeyOf(d)
    && l.targets <= env.inventory.Keys && ANY_IP_ADDRESSES !in l.filters
    && cur == ViewListener(env, g.name, cur.vip, KeyOf(d), l)
    && KeyOf(d) in v.at && Fine(g, v) && AllWatched(g, v)
    && (g.start.Some? && KeyOf(d) in g.start.value.at ==> l == g.start.value.at[KeyOf(d)])
  }

  lemma SetIsFine(g: Goal, v: L4Balancer, k: Key, l: L4Listener)
    requires Fine(g, v) && AllWatched(g, v) && k in v.at && k in g.want
    requires g.start.Some? && k in g.start.value.at ==> KeptListener(g, k, g.start.value.at[k], l)
    ensures Fine(g, SetAt(v, k, l))
  {
  }

  lemma SetTwice(v: L4Balancer, k: Key, l: L4Listener, l': L4Listener)
    requires k in v.at
    ensures SetAt(SetAt(v, k, l), k, l') == SetAt(v, k, l')
    ensures SetAt(v, k, v.at[k]) == v
  {
  }

  lemma AttachRequest(env: Env, name: string, v: L4Balancer, d: LoadBalancer, cur: LoadBalancer, l: L4Listener)
    requires EnvOK(env) && ListenerOK(env, name, d) && KeyOf(d) in v.at && l.targets <= env.inventory.Keys
    requires cur.balancingTargets == ViewInstances(env, env.list(l.targets)) && v.at[KeyOf(d)] == l
    ensures var l1 := L4Listener(l.targets + WantOf(d).targets, l.filters);
            var toRegister := Missing(d.balancingTargets, cur.balancingTargets, InstanceEquals);
            && (toRegister == [] ==> l1 == l)
            && ApplyL4(env, name, Some(v), L4Attach(KeyOf(d), Ids(toRegister))) == Ok(Some(SetAt(v, KeyOf(d), l1)))
  {
    var toRegister := Missing(d.balancingTargets, cur.balancingTargets, InstanceEquals);
    ViewIds(env, l.targets);
    MissingIds(env, d.balancingTargets, cur.balancingTargets);
    MissingDistinctIds(d.balancingTargets, cur.balancingTargets);
    forall id | id in Ids(d.balancingTargets) ensures id in env.inventory {
      IdsMembers(d.balancingTargets, id);
    }
    assert l.targets + Elems(Ids(toRegister)) == l.targets + WantOf(d).targets;
  }

  lemma DetachRequest(env: Env, name: string, v: L4Balancer, d: LoadBalancer, cur: LoadBalancer, l: L4Listener)
    requires EnvOK(env) && ListenerOK(env, name, d) && KeyOf(d) in v.at && l.targets <= env.inventory.Keys
    requires cur.balancingTargets == ViewInstances(env, env.list(l.targets))
    requires v.at[KeyOf(d)] == L4Listener(l.targets + WantOf(d).targets, l.filters)
    ensures var l2 := L4Listener(WantOf(d).targets, l.filters);
            var toDeregister := Missing(cur.balancingTargets, d.balancingTargets, InstanceEquals);
            && (toDeregister == [] ==> l2 == v.at[KeyOf(d)])
            && ApplyL4(env, name, Some(v), L4Detach(KeyOf(d), Ids(toDeregister))) == Ok(Some(SetAt(v, KeyOf(d), l2)))
  {
    var toDeregister := Missing(cur.balancingTargets, d.balancingTargets, InstanceEquals);
    ViewIds(env, l.targets);
    MissingIds(env, cur.balancingTargets, d.balancingTargets);
    assert v.at[KeyOf(d)].targets - Elems(Ids(toDeregister)) == WantOf(d).targets;
  }

  lemma AttachSteady(g: Goal, env: Env, w: World, v: L4Balancer, d: LoadBalancer, cur: LoadBalancer, l: L4Listener)
    requires Matched(g, env, v, d, cur, l) && Lookup(w.l4, g.name) == Some(v) && v.at[KeyOf(d)] == l
    ensures var l1 := L4Listener(l.targets + WantOf(d).targets, l.filters);
            && Steady(env, w, AttachPlan(d, cur), Good(g))
            && Ideal(env, w, AttachPlan(d, cur)) == Ok(With(w, g.name, Some(SetAt(v, KeyOf(d), l1))))
            && Fine(g, SetAt(v, KeyOf(d), l1))
  {
    var k, l1 := KeyOf(d), L4Listener(l.targets + WantOf(d).targets, l.filters);
    var toRegister := Missing(d.balancingTargets, cur.balancingTargets, InstanceEquals);
    AttachRequest(env, g.name, v, d, cur, l);
    SetIsFine(g, v, k, l1);
    if toRegister == [] {
      SetTwice(v, k, l, l);
      WithWith(w, g.name, Some(v), Some(v));
    } else {
      RequestSet(g, env, w, L4Attach(k, Ids(toRegister)), v, k, l1);
    }
  }

  lemma DetachSteady(g: Goal, env: Env, w: World, v: L4Balancer, d: LoadBalancer, cur: LoadBalancer, l: L4Listener)
    requires Matched(g, env, v, d, cur, l) && Lookup(w.l4, g.name) == Some(v)
    requires v.at[KeyOf(d)] == L4Listener(l.targets + WantOf(d).targets, l.filters)
    ensures var l2 := L4Listener(WantOf(d).targets, l.filters);
            && Steady(env, w, DetachPlan(d, cur), Good(g))
            && Ideal(env, w, DetachPlan(d, cur)) == Ok(With(w, g.name, Some(SetAt(v, KeyOf(d), l2))))
            && Fine(g, SetAt(v, KeyOf(d), l2))
  {
    var k, l2 := KeyOf(d), L4Listener(WantOf(d).targets, l.filters);
    var toDeregister := Missing(cur.balancingTargets, d.balancingTargets, InstanceEquals);
    DetachRequest(env, g.name, v, d, cur, l);
    SetIsFine(g, v, k, l2);
    if toDeregister == [] {
      SetTwice(v, k, l2, l2);
      WithWith(w, g.name, Some(v), Some(v));
    } else {
      RequestSet(g, env, w, L4Detach(k, Ids(toDeregister)), v, k, l2);
    }
  }

  /** What the filter request asks for, and that the cloud accepts it. */
  lemma FilterChangeSets(d: LoadBalancer, cur: LoadBalancer, filters: set<string>)
    requires Distinct(d.filters) && Distinct(cur.filters)
    requires Elems(cur.filters) == filters && ANY_IP_ADDRESSES !in filters
    ensures var s := Sent(FilterChanges(d, cur));
            && s == FilterChanges(d, cur)
            && Added(s) == WantOf(d).filters - filters && Removed(s) == filters - WantOf(d).filters
            && FilterOK(filters, s)
            && filters + Added(s) - Removed(s) == WantOf(d).filters
  {
    var add, remove := Missing(d.filters, cur.filters, SameString), Missing(cur.filters, d.filters, SameString);
    ChangesOneWay(d.filters, cur.filters, true);
    ChangesOneWay(cur.filters, d.filters, false);
    var p, q := Sent(Changes(add, true)), Sent(Changes(remove, false));
    SentClean(p + q);
    ChangesAppend(p, q);
    UniqueAppend(p, q);
  }

  /** The additions or the removals alone. */
  lemma ChangesOneWay(target: seq<string>, other: seq<string>, add: bool)
    requires Distinct(target)
    ensures var s := Sent(Changes(Missing(target, other, SameString), add));
            var ips := Elems(target) - Elems(other) - {ANY_IP_ADDRESSES};
            && UniqueAddresses(s) && (forall f :: f in s ==> f.addOnFilter == add && f.ipAddress != ANY_IP_ADDRESSES)
            && Added(s) == (if add then ips else {}) && Removed(s) == (if add then {} else ips)
  {
    var missing := Missing(target, other, SameString);
    MissingStrings(target, other);
    MissingDistinct(target, other, SameString);
    SentSets(missing, add);
    SentUnique(Changes(missing, add));
    SentMembers(Changes(missing, add));
  }

  lemma UniqueAppend(p: seq<Filter>, q: seq<Filter>)
    requires UniqueAddresses(p) && UniqueAddresses(q)
    requires (forall f :: f in p ==> f.addOnFilter) && (forall f :: f in q ==> !f.addOnFilter)
    requires Added(p) !! Removed(q)
    ensures UniqueAddresses(p + q)
  {
    forall i, j | 0 <= i < |p| && 0 <= j < |q| ensures p[i].ipAddress != q[j].ipAddress {
      assert p[i].ipAddress in Added(p) && q[j].ipAddress in Removed(q);
    }
  }

  lemma FilterRequest(env: Env, name: string, v: L4Balancer, d: LoadBalancer, cur: LoadBalancer, l: L4Listener)
    requires EnvOK(env) && ListenerOK(env, name, d) && KeyOf(d) in v.at && ANY_IP_ADDRESSES !in l.filters
    requires cur.filters == WithoutAny(ListedFilters(env, l.filters))
    requires v.at[KeyOf(d)] == L4Listener(WantOf(d).targets, l.filters)
    ensures FilterChanges(d, cur) == [] ==> v.at[KeyOf(d)] == WantOf(d)
    ensures ApplyL4(env, name, Some(v), L4SetFilter(KeyOf(d), Sent(FilterChanges(d, cur)))) ==
            Ok(Some(SetAt(v, KeyOf(d), WantOf(d))))
  {
    var s := FilterChanges(d, cur);
    ViewFilters(env, l.filters);
    FilterChangeSets(d, cur, l.filters);
    FilterAnswer(env, name, v, KeyOf(d), WantOf(d), l.filters, s);
  }

  /** The cloud's answer to filter changes that lead from `filters` to those of `want`. */
  lemma FilterAnswer(env: Env, name: string, v: L4Balancer, k: Key, want: L4Listener, filters: set<string>,
                     s: seq<Filter>)
    requires k in v.at && v.at[k] == L4Listener(want.targets, filters)
    requires FilterOK(filters, s) && filters + Added(s) - Removed(s) == want.filters
    ensures s == [] ==> v.at[k] == want
    ensures ApplyL4(env, name, Some(v), L4SetFilter(k, s)) == Ok(Some(SetAt(v, k, want)))
  {
    if s == [] {
      assert Added(s) == {} && Removed(s) == {};
    }
  }

  lemma FilterSteady(g: Goal, env: Env, w: World, v: L4Balancer, d: LoadBalancer, cur: LoadBalancer, l: L4Listener)
    requires Matched(g, env, v, d, cur, l) && Lookup(w.l4, g.name) == Some(v)
    requires v.at[KeyOf(d)] == L4Listener(WantOf(d).targets, l.filters)
    ensures && Steady(env, w, FilterPlan(d, cur), Good(g))
            && Ideal(env, w, FilterPlan(d, cur)) == Ok(With(w, g.name, Some(SetAt(v, KeyOf(d), WantOf(d)))))
            && Fine(g, SetAt(v, KeyOf(d), WantOf(d)))
  {
    var k := KeyOf(d);
    FilterRequest(env, g.name, v, d, cur, l);
    SetIsFine(g, v, k, WantOf(d));
    if FilterChanges(d, cur) == [] {
      SetTwice(v, k, WantOf(d), WantOf(d));
      WithWith(w, g.name, Some(v), Some(v));
    } else {
      RequestSet(g, env, w, L4SetFilter(k, Sent(FilterChanges(d, cur))), v, k, WantOf(d));
    }
  }

  /** Reconciling one listener is accepted, ends in the desired listener, and every step is progress. */
  /** The last two of its requests, when all its instances are registered. */
  lemma TrimmedSteady(g: Goal, env: Env, w: World, v: L4Balancer, d: LoadBalancer, cur: LoadBalancer, l: L4Listener)
    requires Matched(g, env, v, d, cur, l) && Lookup(w.l4, g.name) == Some(v)
    requires v.at[KeyOf(d)] == L4Listener(l.targets + WantOf(d).targets, l.filters)
    ensures Steady(env, w, Then(DetachPlan(d, cur), FilterPlan(d, cur)), Good(g))
    ensures Ideal(env, w, Then(DetachPlan(d, cur), FilterPlan(d, cur))) ==
            Ok(With(w, g.name, Some(SetAt(v, KeyOf(d), WantOf(d)))))
    ensures Fine(g, SetAt(v, KeyOf(d), WantOf(d)))
  {
    var k, l2 := KeyOf(d), L4Listener(WantOf(d).targets, l.filters);
    var v2 := SetAt(v, k, l2);
    DetachSteady(g, env, w, v, d, cur, l);
    FilterSteady(g, env, With(w, g.name, Some(v2)), v2, d, cur, l);
    SetTwice(v, k, l2, WantOf(d));
    WithWith(w, g.name, Some(v2), Some(SetAt(v, k, WantOf(d))));
  }

  lemma ListenerSteady(g: Goal, env: Env, w: World, v: L4Balancer, d: LoadBalancer, cur: LoadBalancer)
    requires KeyOf(d) in v.at && Matched(g, env, v, d, cur, v.at[KeyOf(d)]) && Lookup(w.l4, g.name) == Some(v)
    ensures Steady(env, w, ListenerPlan(d, cur), Good(g))
    ensures Ideal(env, w, ListenerPlan(d, cur)) == Ok(With(w, g.name, Some(SetAt(v, KeyOf(d), WantOf(d)))))
    ensures Fine(g, SetAt(v, KeyOf(d), WantOf(d)))
  {
    var k, l := KeyOf(d), v.at[KeyOf(d)];
    var l1 := L4Listener(l.targets + WantOf(d).targets, l.filters);
    var v1 := SetAt(v, k, l1);
    AttachSteady(g, env, w, v, d, cur, l);
    TrimmedSteady(g, env, With(w, g.name, Some(v1)), v1, d, cur, l);
    SetTwice(v, k, l1, WantOf(d));
    WithWith(w, g.name, Some(v1), Some(SetAt(v, k, WantOf(d))));
  }
}
