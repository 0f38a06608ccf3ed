/** The plan for an elastic balancer that exists: deleting ports and reconciling targets, fault free. */
module ElbUpdate {
  import opened Base
  import opened Cloud
  import opened Runs
  import opened Differences
  import opened HealthTarget
  import opened Rules
  import opened ElbPlan
  import opened ElbIdeal

  // ---------------------------------------------------------------- removing from a listing

  /** `s` without the elements of `out`, in order. */
  function Excluding(s: seq<Key>, out: set<Key>): seq<Key> {
    if s == [] then []
    else
      var rest := Excluding(s[..|s| - 1], out);
      if s[|s| - 1] in out then rest else rest + [s[|s| - 1]]
  }

  lemma {:induction false} ExcludingMembers(s: seq<Key>, out: set<Key>)
    ensures Elems(Excluding(s, out)) == Elems(s) - out
    ensures s != [] && s[|s| - 1] !in out ==> Excluding(s, out) != []
  {
    if s != [] {
      var init, last := s[..|s| - 1], s[|s| - 1];
      ExcludingMembers(init, out);
      assert s == init + [last];
      ElemsAppend(init, [last]);
      ElemsAppend(Excluding(init, out), [last]);
    }
  }

  lemma {:induction false} ExcludingOne(s: seq<Key>, out: set<Key>, k: Key)
    ensures Without(Excluding(s, out), k) == Excluding(s, out + {k})
  {
    if s != [] {
      var rest, last := Excluding(s[..|s| - 1], out), s[|s| - 1];
      ExcludingOne(s[..|s| - 1], out, k);
      if last !in out {
        assert (rest + [last])[..|rest|] == rest;
      }
    }
  }

  lemma {:induction false} ExcludingAppend(s: seq<Key>, t: seq<Key>, out: set<Key>)
    requires forall k :: k in t ==> k !in out
    ensures Excluding(s + t, out) == Excluding(s, out) + t
  {
    if t == [] {
      assert s + t == s;
    } else {
      var init := t[..|t| - 1];
      assert (s + t)[..|s + t| - 1] == s + init;
      ExcludingAppend(s, init, out);
      assert t == init + [t[|t| - 1]];
    }
  }

  // ---------------------------------------------------------------- deleting ports, with their rules

  /** `v` without the listeners of `lbs`; the balancer goes with its last listener. */
  function Remaining(v: ElbBalancer, lbs: seq<ElasticLoadBalancer>): Option<ElbBalancer> {
    var out := Elems(KeySeq(lbs));
    if Excluding(v.order, out) == [] then None
    else Some(v.(order := Excluding(v.order, out), at := v.at - out))
  }

  lemma RemainingHas(v: ElbBalancer, init: seq<ElasticLoadBalancer>, k: Key)
    requires Listed(v.order, v.at) && k in v.at && k !in KeySeq(init)
    ensures Remaining(v, init).Some? && k in Remaining(v, init).value.at
  {
    var out := Elems(KeySeq(init));
    ExcludingMembers(v.order, out);
    assert k in Elems(v.order) - out;
    assert k in Elems(Excluding(v.order, out));
  }

  lemma RemainingNext(env: Env, name: string, v: ElbBalancer, init: seq<ElasticLoadBalancer>, lb: ElasticLoadBalancer)
    requires Listed(v.order, v.at) && KeyOf(lb) in v.at && KeyOf(lb) !in KeySeq(init)
    ensures ApplyElb(env, name, Remaining(v, init), ElbRemovePort(KeyOf(lb))) == Ok(Remaining(v, init + [lb]))
  {
    var out, k := Elems(KeySeq(init)), KeyOf(lb);
    RemainingHas(v, init, k);
    assert Elems(KeySeq(init + [lb])) == out + {k} by {
      assert KeySeq(init + [lb]) == KeySeq(init) + [k];
      ElemsAppend(KeySeq(init), [k]);
    }
    ExcludingOne(v.order, out, k);
    assert v.at - (out + {k}) == v.at - out - {k};
  }

  lemma RemoveIdeal(env: Env, w: World, name: string, v: ElbBalancer,
                    init: seq<ElasticLoadBalancer>, lb: ElasticLoadBalancer)
    requires Listed(v.order, v.at) && KeyOf(lb) in v.at && KeyOf(lb) !in KeySeq(init)
    requires Lookup(w.elb, name) == Remaining(v, init)
    ensures Ideal(env, w, On(name, ElbRemovePort(KeyOf(lb)))) == Ok(Set(w, name, Remaining(v, init + [lb]), w.rules))
  {
    RemainingNext(env, name, v, init, lb);
    RequestIdeal(env, w, name, ElbRemovePort(KeyOf(lb)));
  }

  /** Listeners as the cloud shows them, all with the targets `ids`, each once. */
  ghost predicate Removable(env: Env, name: string, ids: set<string>, v: ElbBalancer, lbs: seq<ElasticLoadBalancer>) {
    && Distinct(KeySeq(lbs))
    && forall lb :: lb in lbs ==> lb.name == name && KeyOf(lb) in v.at && RulesOf(lb).Ok? && IdSet(lb) == ids
  }

  lemma {:induction false} DeleteAllIdeal(env: Env, w: World, name: string, ids: set<string>,
                                          lbs: seq<ElasticLoadBalancer>, v: ElbBalancer)
    requires EnvOK(env) && w.rules.Keys == env.members.Keys && Lookup(w.elb, name) == Some(v)
    requires Listed(v.order, v.at) && Removable(env, name, ids, v, lbs)
    ensures Ideal(env, w, DeleteAll(env, lbs)) ==
            Ok(Set(w, name, Remaining(v, lbs), Adjust(env, w.rules, false, ids, AllPermissions(lbs))))
  {
    if lbs == [] {
      NothingRemoved(v);
      AdjustTwice(env, w.rules, false, ids, {}, {});
      assert AllPermissions(lbs) == {};
      SetSet(w, name, None, w.rules, None, w.rules);
    } else {
      var init, lb := lbs[..|lbs| - 1], lbs[|lbs| - 1];
      assert lbs == init + [lb];
      LastIsNew(init, lb);
      DeleteAllIdeal(env, w, name, ids, init, v);
      var rules1 := Adjust(env, w.rules, false, ids, AllPermissions(init));
      DeleteNext(env, Set(w, name, Remaining(v, init), rules1), name, ids, init, lb, v);
      AllPermissionsAppend(init, lb);
      AdjustTwice(env, w.rules, false, ids, AllPermissions(init), Permissions(lb));
      SetSet(w, name, Remaining(v, init), rules1, Remaining(v, lbs),
             Adjust(env, w.rules, false, ids, AllPermissions(lbs)));
    }
  }

  lemma LastIsNew(init: seq<ElasticLoadBalancer>, lb: ElasticLoadBalancer)
    requires Distinct(KeySeq(init + [lb]))
    ensures Distinct(KeySeq(init)) && KeyOf(lb) !in KeySeq(init)
  {
    var ks := KeySeq(init + [lb]);
    forall i | 0 <= i < |init| ensures ks[i] == KeySeq(init)[i] && ks[i] != ks[|init|] {
    }
  }

  lemma NothingRemoved(v: ElbBalancer)
    requires Listed(v.order, v.at)
    ensures Remaining(v, []) == Some(v)
  {
    ExcludingAppend([], v.order, {});
    assert [] + v.order == v.order;
    assert Elems(KeySeq([])) == {};
    assert v.at - {} == v.at;
  }

  lemma DeleteNext(env: Env, w: World, name: string, ids: set<string>,
                   init: seq<ElasticLoadBalancer>, lb: ElasticLoadBalancer, v: ElbBalancer)
    requires EnvOK(env) && w.rules.Keys == env.members.Keys && Lookup(w.elb, name) == Remaining(v, init)
    requires Listed(v.order, v.at) && KeyOf(lb) in v.at && KeyOf(lb) !in KeySeq(init)
    requires lb.name == name && RulesOf(lb).Ok? && IdSet(lb) == ids
    ensures Ideal(env, w, Then(On(lb.name, ElbRemovePort(KeyOf(lb))), RulePlan(env, false, lb, lb.balancingTargets))) ==
            Ok(Set(w, name, Remaining(v, init + [lb]), Adjust(env, w.rules, false, ids, Permissions(lb))))
  {
    RemoveIdeal(env, w, name, v, init, lb);
    RulePlanIdeal(env, Set(w, name, Remaining(v, init + [lb]), w.rules), false, lb, lb.balancingTargets);
  }

  // ---------------------------------------------------------------- what the cloud shows

  ghost predicate Uniform(b: ElbBalancer, ids: set<string>) {
    forall k :: k in b.at ==> b.at[k].targets == ids
  }

  /** A balancer whose listeners have rules: one or two interfaces and health checks that parse. */
  ghost predicate Usable(b: ElbBalancer) {
    && (|b.nics| == 1 || |b.nics| == 2)
    && forall k :: k in b.at ==> Separate(b.at[k].health).Some?
  }

  lemma ViewedIds(env: Env, targets: set<string>)
    requires EnvOK(env) && targets <= env.inventory.Keys
    ensures Elems(Ids(ViewInstances(env, env.list(targets)))) == targets
    ensures Distinct(Ids(ViewInstances(env, env.list(targets))))
    ensures forall x :: x in ViewInstances(env, env.list(targets)) ==> Known(env, x)
  {
    var ids := env.list(targets);
    assert Elems(ids) == targets;
    assert Ids(ViewInstances(env, ids)) == ids;
    forall x | x in ViewInstances(env, ids) ensures Known(env, x) {
      var i :| 0 <= i < |ids| && ViewInstances(env, ids)[i] == x;
      assert ids[i] in Elems(ids);
    }
  }

  lemma ViewIs(env: Env, name: string, b: ElbBalancer)
    requires EnvOK(env) && ElbOK(env, b)
    ensures KeySeq(View(env, name, b)) == b.order
    ensures b.order[0] in b.at && FirstTargets(b) == b.at[b.order[0]].targets
    ensures forall lb :: lb in View(env, name, b) ==>
              && KeyOf(lb) in b.at && lb == ViewListener(env, name, b, KeyOf(lb), FirstTargets(b))
              && IdSet(lb) == FirstTargets(b)
  {
    assert KeySeq(View(env, name, b)) == b.order;
    assert b.order[0] in Elems(b.order);
    ViewedIds(env, FirstTargets(b));
    forall lb | lb in View(env, name, b)
      ensures KeyOf(lb) in b.at && lb == ViewListener(env, name, b, KeyOf(lb), FirstTargets(b))
    {
      var i :| 0 <= i < |b.order| && View(env, name, b)[i] == lb;
      assert b.order[i] in Elems(b.order);
    }
  }

  lemma ViewHasRules(env: Env, name: string, b: ElbBalancer, k: Key, targets: set<string>)
    requires Usable(b) && k in b.at
    ensures RulesOf(ViewListener(env, name, b, k, targets)).Ok?
  {
  }

  /** The client's view agrees with every listener exactly when all listeners have the same targets. */
  lemma FlattenedViewIsRight(env: Env, name: string, b: ElbBalancer)
    requires EnvOK(env) && ElbOK(env, b)
    ensures (forall lb :: lb in View(env, name, b) ==> IdSet(lb) == b.at[KeyOf(lb)].targets) <==>
            Uniform(b, FirstTargets(b))
  {
    var view := View(env, name, b);
    ViewIs(env, name, b);
    if forall lb :: lb in view ==> IdSet(lb) == b.at[KeyOf(lb)].targets {
      forall k | k in b.at ensures b.at[k].targets == FirstTargets(b) {
        assert k in Elems(b.order);
        var i :| 0 <= i < |b.order| && b.order[i] == k;
        assert view[i] in view && KeyOf(view[i]) == k;
      }
    }
  }

  // ---------------------------------------------------------------- reconciling one listener

  /** Rules after a listener lost the targets `del` and gained `add`: whoever held a lost one loses all. */
  function NodeRules(env: Env, rules: RuleMap, add: set<string>, del: set<string>, ps: set<Permission>): RuleMap {
    map g | g in rules ::
      Renewed(Touched(env, g, add), Touched(env, g, del), rules[g], ps)
  }

  function Renewed(gained: bool, lost: bool, rules: set<Permission>, ps: set<Permission>): set<Permission> {
    if lost then rules - ps else if gained then rules + ps else rules
  }

  lemma RenewedTwice(gained: bool, lost: bool, rules: set<Permission>, p: set<Permission>, q: set<Permission>)
    ensures Renewed(gained, lost, Renewed(gained, lost, rules, p), q) == Renewed(gained, lost, rules, p + q)
    ensures Renewed(gained, lost, rules, {}) == rules
  {
  }

  lemma NodeRulesStep(env: Env, rules: RuleMap, add: set<string>, del: set<string>, ps: set<Permission>)
    ensures Adjust(env, Adjust(env, rules, true, add, ps), false, del, ps) == NodeRules(env, rules, add, del, ps)
  {
    forall g | g in rules ensures (rules[g] + ps) - ps == rules[g] - ps {
    }
  }

  lemma NodeRulesTwice(env: Env, rules: RuleMap, add: set<string>, del: set<string>,
                       p: set<Permission>, q: set<Permission>)
    ensures NodeRules(env, NodeRules(env, rules, add, del, p), add, del, q) == NodeRules(env, rules, add, del, p + q)
    ensures NodeRules(env, rules, add, del, {}) == rules
    ensures NodeRules(env, rules, {}, {}, p) == rules
  {
    forall g | g in rules
      ensures var a, d := Touched(env, g, add), Touched(env, g, del);
              Renewed(a, d, Renewed(a, d, rules[g], p), q) == Renewed(a, d, rules[g], p + q) &&
              Renewed(a, d, rules[g], {}) == rules[g]
    {
      RenewedTwice(Touched(env, g, add), Touched(env, g, del), rules[g], p, q);
    }
  }

  /** `cur` is what the client reads of listener `KeyOf(d)`: the targets `view`; `v` is the balancer now. */
  ghost predicate Reads(env: Env, name: string, v: ElbBalancer, d: ElasticLoadBalancer, cur: ElasticLoadBalancer,
                        view: set<string>) {
    && EnvOK(env) && view <= env.inventory.Keys
    && (forall x :: x in d.balancingTargets ==> Known(env, x)) && Distinct(Ids(d.balancingTargets))
    && cur.name == name && KeyOf(cur) == KeyOf(d) && KeyOf(d) in v.at && RulesOf(cur).Ok?
    && cur.balancingTargets == ViewInstances(env, env.list(view))
  }

  function Retarget(v: ElbBalancer, k: Key, targets: set<string>): ElbBalancer
    requires k in v.at
  {
    v.(at := v.at[k := v.at[k].(targets := targets)])
  }

  lemma RetargetTwice(v: ElbBalancer, k: Key, s: set<string>, t: set<string>)
    requires k in v.at
    ensures Retarget(Retarget(v, k, s), k, t) == Retarget(v, k, t)
    ensures Retarget(v, k, v.at[k].targets) == v
  {
  }

  lemma AttachIds(env: Env, name: string, v: ElbBalancer, d: ElasticLoadBalancer, cur: ElasticLoadBalancer,
                  view: set<string>)
    requires Reads(env, name, v, d, cur, view)
    ensures var add := Missing(d.balancingTargets, cur.balancingTargets, InstanceEquals);
            && Elems(Ids(add)) == IdSet(d) - view && Distinct(Ids(add)) && Elems(Ids(add)) <= env.inventory.Keys
            && (add == [] <==> IdSet(d) - view == {})
    ensures var del := Missing(cur.balancingTargets, d.balancingTargets, InstanceEquals);
            && Elems(Ids(del)) == view - IdSet(d)
            && (del == [] <==> view - IdSet(d) == {})
  {
    var add := Missing(d.balancingTargets, cur.balancingTargets, InstanceEquals);
    var del := Missing(cur.balancingTargets, d.balancingTargets, InstanceEquals);
    ViewedIds(env, view);
    MissingIds(env, d.balancingTargets, cur.balancingTargets);
    MissingIds(env, cur.balancingTargets, d.balancingTargets);
    MissingDistinctIds(d.balancingTargets, cur.balancingTargets);
    forall id | id in Ids(d.balancingTargets) ensures id in env.inventory {
      IdsMembers(d.balancingTargets, id);
    }
    EmptyIds(add);
    EmptyIds(del);
  }

  lemma EmptyIds(instances: seq<Instance>)
    ensures instances == [] <==> Elems(Ids(instances)) == {}
  {
    if instances != [] {
      assert Ids(instances)[0] in Elems(Ids(instances));
    } else {
      assert Ids(instances) == [];
    }
  }

  // ---------------------------------------------------------------- what the client asks of a listener it misreads

  /**
   * Whether a listener with the targets `t` takes the requests meant for one with the targets
   * `read`: none of the instances to register is there, and all those to deregister are.
   */
  predicate Fits(t: set<string>, read: set<string>, ids: set<string>) {
    (ids - read) !! t && read - ids <= t
  }

  /** Its targets afterwards. */
  function Shifted(t: set<string>, read: set<string>, ids: set<string>): set<string> {
    t + (ids - read) - (read - ids)
  }

  /** The targets of a listener that does not take them all: the registration may have been accepted. */
  function HalfShifted(t: set<string>, read: set<string>, ids: set<string>): set<string> {
    if (ids - read) !! t then t + (ids - read) else t
  }

  /** What fits ends with the desired targets exactly if it was read rightly. */
  lemma ShiftedIsDesired(t: set<string>, read: set<string>, ids: set<string>)
    ensures Fits(read, read, ids) && Shifted(read, read, ids) == ids
    ensures Fits(t, read, ids) && Shifted(t, read, ids) == ids ==> t == read
    ensures read == ids ==> Fits(t, read, ids) && Shifted(t, read, ids) == t
    ensures Fits(ids, read, ids) ==> read == ids
  {
    if Fits(t, read, ids) && Shifted(t, read, ids) == ids {
      forall x ensures x in t <==> x in read {
        assert x in Shifted(t, read, ids) <==> x in ids;
        assert x in ids - read ==> x !in t;
        assert x in read - ids ==> x in t;
      }
    }
    if Fits(ids, read, ids) {
      forall x ensures x in ids <==> x in read {
        assert x in ids - read ==> x !in ids;
        assert x in read - ids ==> x in ids;
      }
    }
  }

  /** Setting the targets a listener has, and changing rules for no instance, changes nothing. */
  lemma NothingToDo(env: Env, w: World, name: string, v: ElbBalancer, k: Key, add: bool,
                    targets: set<string>, ids: set<string>, ps: set<Permission>)
    requires Lookup(w.elb, name) == Some(v) && k in v.at && v.at[k].targets == targets && ids == {}
    ensures Set(w, name, Some(Retarget(v, k, targets)), Adjust(env, w.rules, add, ids, ps)) == w
  {
    RetargetTwice(v, k, targets, targets);
    AdjustTwice(env, w.rules, add, {}, ps, {});
    SetSet(w, name, None, w.rules, None, w.rules);
  }

  /** A request that changes the balancer, followed by a change of rules. */
  lemma WithRules(env: Env, w: World, name: string, v: ElbBalancer, request: Plan,
                  add: bool, lb: ElasticLoadBalancer, instances: seq<Instance>)
    requires EnvOK(env) && w.rules.Keys == env.members.Keys && RulesOf(lb).Ok?
    requires Ideal(env, w, request) == Ok(WithB(w, name, v))
    ensures Ideal(env, w, Then(request, RulePlan(env, add, lb, instances))) ==
            Ok(Set(w, name, Some(v), Adjust(env, w.rules, add, Elems(Ids(instances)), Permissions(lb))))
  {
    RulePlanIdeal(env, WithB(w, name, v), add, lb, instances);
  }

  lemma Refused(env: Env, w: World, request: Plan, p: Plan)
    requires request.Act? && Ideal(env, w, request).Err?
    ensures Ideal(env, w, Then(request, p)) == Ideal(env, w, request) && Reach(env, w, Then(request, p)) == w
  {
  }

  /** The attach request: refused if an instance is registered already. */
  lemma AttachRequest(env: Env, w: World, name: string, v: ElbBalancer, d: ElasticLoadBalancer,
                      cur: ElasticLoadBalancer, view: set<string>)
    requires Reads(env, name, v, d, cur, view) && Lookup(w.elb, name) == Some(v)
    ensures var add := Missing(d.balancingTargets, cur.balancingTargets, InstanceEquals);
            var t := v.at[KeyOf(d)].targets;
            Ideal(env, w, On(name, ElbAttach(KeyOf(d), Ids(add)))) ==
            if (IdSet(d) - view) !! t then Ok(WithB(w, name, Retarget(v, KeyOf(d), t + (IdSet(d) - view))))
            else Err(InstanceRegistered)
  {
    AttachIds(env, name, v, d, cur, view);
    var add := Missing(d.balancingTargets, cur.balancingTargets, InstanceEquals);
    RequestIdeal(env, w, name, ElbAttach(KeyOf(d), Ids(add)));
  }

  /** The detach request: refused if an instance is not registered. */
  lemma DetachRequest(env: Env, w: World, name: string, v: ElbBalancer, d: ElasticLoadBalancer,
                      cur: ElasticLoadBalancer, view: set<string>)
    requires Reads(env, name, v, d, cur, view) && Lookup(w.elb, name) == Some(v)
    ensures var del := Missing(cur.balancingTargets, d.balancingTargets, InstanceEquals);
            var t := v.at[KeyOf(d)].targets;
            Ideal(env, w, On(name, ElbDetach(KeyOf(d), Ids(del)))) ==
            if view - IdSet(d) <= t then Ok(WithB(w, name, Retarget(v, KeyOf(d), t - (view - IdSet(d)))))
            else Err(InstanceNotRegistered)
  {
    AttachIds(env, name, v, d, cur, view);
    var del := Missing(cur.balancingTargets, d.balancingTargets, InstanceEquals);
    RequestIdeal(env, w, name, ElbDetach(KeyOf(d), Ids(del)));
  }

  lemma AttachIdeal(env: Env, w: World, name: string, v: ElbBalancer, d: ElasticLoadBalancer,
                    cur: ElasticLoadBalancer, view: set<string>)
    requires Reads(env, name, v, d, cur, view) && Lookup(w.elb, name) == Some(v) && w.rules.Keys == env.members.Keys
    ensures var t := v.at[KeyOf(d)].targets;
            Ideal(env, w, AttachPlan(env, d, cur)) ==
            if (IdSet(d) - view) !! t then
              Ok(Set(w, name, Some(Retarget(v, KeyOf(d), t + (IdSet(d) - view))),
                     Adjust(env, w.rules, true, IdSet(d) - view, Permissions(cur))))
            else Err(InstanceRegistered)
    ensures Ideal(env, w, AttachPlan(env, d, cur)).Err? ==> Reach(env, w, AttachPlan(env, d, cur)) == w
  {
    var k, t := KeyOf(d), v.at[KeyOf(d)].targets;
    var add := Missing(d.balancingTargets, cur.balancingTargets, InstanceEquals);
    AttachIds(env, name, v, d, cur, view);
    if add == [] {
      NothingToDo(env, w, name, v, k, true, t + (IdSet(d) - view), IdSet(d) - view, Permissions(cur));
    } else {
      AttachRequest(env, w, name, v, d, cur, view);
      if (IdSet(d) - view) !! t {
        WithRules(env, w, name, Retarget(v, k, t + (IdSet(d) - view)), On(name, ElbAttach(k, Ids(add))),
                  true, cur, add);
      } else {
        Refused(env, w, On(name, ElbAttach(k, Ids(add))), RulePlan(env, true, cur, add));
      }
    }
  }

  lemma DetachIdeal(env: Env, w: World, name: string, v: ElbBalancer, d: ElasticLoadBalancer,
                    cur: ElasticLoadBalancer, view: set<string>)
    requires Reads(env, name, v, d, cur, view) && Lookup(w.elb, name) == Some(v) && w.rules.Keys == env.members.Keys
    ensures var t := v.at[KeyOf(d)].targets;
            Ideal(env, w, DetachPlan(env, d, cur)) ==
            if view - IdSet(d) <= t then
              Ok(Set(w, name, Some(Retarget(v, KeyOf(d), t - (view - IdSet(d)))),
                     Adjust(env, w.rules, false, view - IdSet(d), Permissions(cur))))
            else Err(InstanceNotRegistered)
    ensures Ideal(env, w, DetachPlan(env, d, cur)).Err? ==> Reach(env, w, DetachPlan(env, d, cur)) == w
  {
    var k, t := KeyOf(d), v.at[KeyOf(d)].targets;
    var del := Missing(cur.balancingTargets, d.balancingTargets, InstanceEquals);
    AttachIds(env, name, v, d, cur, view);
    if del == [] {
      NothingToDo(env, w, name, v, k, false, t - (view - IdSet(d)), view - IdSet(d), Permissions(cur));
    } else {
      DetachRequest(env, w, name, v, d, cur, view);
      if view - IdSet(d) <= t {
        WithRules(env, w, name, Retarget(v, k, t - (view - IdSet(d))), On(name, ElbDetach(k, Ids(del))),
                  false, cur, del);
      } else {
        Refused(env, w, On(name, ElbDetach(k, Ids(del))), RulePlan(env, false, cur, del));
      }
    }
  }

  /** The state when a listener took its registration only, with the rules for it. */
  function HalfTurned(env: Env, w: World, name: string, v: ElbBalancer, k: Key, lb: ElasticLoadBalancer,
                      read: set<string>, ids: set<string>): World
    requires k in v.at
  {
    if (ids - read) !! v.at[k].targets then
      Set(w, name, Some(Retarget(v, k, HalfShifted(v.at[k].targets, read, ids))),
          Adjust(env, w.rules, true, ids - read, Permissions(lb)))
    else w
  }

  lemma StopsAt(env: Env, w: World, p: Plan, q: Plan, w1: World)
    requires if Ideal(env, w, p).Err? then w1 == Reach(env, w, p)
             else Ideal(env, Ideal(env, w, p).value, q).Err? && w1 == Reach(env, Ideal(env, w, p).value, q)
    ensures Ideal(env, w, Then(p, q)).Err? && Reach(env, w, Then(p, q)) == w1
  {
  }

  /** One listener: the requests are all accepted exactly if its targets fit what the client reads. */
  lemma ListenerIdeal(env: Env, w: World, name: string, v: ElbBalancer, d: ElasticLoadBalancer,
                      cur: ElasticLoadBalancer, view: set<string>)
    requires Reads(env, name, v, d, cur, view) && Lookup(w.elb, name) == Some(v) && w.rules.Keys == env.members.Keys
    requires Fits(v.at[KeyOf(d)].targets, view, IdSet(d))
    ensures Ideal(env, w, Then(AttachPlan(env, d, cur), DetachPlan(env, d, cur))) ==
            Ok(Set(w, name, Some(Retarget(v, KeyOf(d), Shifted(v.at[KeyOf(d)].targets, view, IdSet(d)))),
                   NodeRules(env, w.rules, IdSet(d) - view, view - IdSet(d), Permissions(cur))))
  {
    var k, t := KeyOf(d), v.at[KeyOf(d)].targets;
    var v1 := Retarget(v, k, t + (IdSet(d) - view));
    var rules1 := Adjust(env, w.rules, true, IdSet(d) - view, Permissions(cur));
    AttachIdeal(env, w, name, v, d, cur, view);
    DetachIdeal(env, Set(w, name, Some(v1), rules1), name, v1, d, cur, view);
    RetargetTwice(v, k, t + (IdSet(d) - view), Shifted(t, view, IdSet(d)));
    NodeRulesStep(env, w.rules, IdSet(d) - view, view - IdSet(d), Permissions(cur));
    SetSet(w, name, Some(v1), rules1, Some(Retarget(v, k, Shifted(t, view, IdSet(d)))),
           NodeRules(env, w.rules, IdSet(d) - view, view - IdSet(d), Permissions(cur)));
  }

  lemma ListenerRefused(env: Env, w: World, name: string, v: ElbBalancer, d: ElasticLoadBalancer,
                        cur: ElasticLoadBalancer, view: set<string>)
    requires Reads(env, name, v, d, cur, view) && Lookup(w.elb, name) == Some(v) && w.rules.Keys == env.members.Keys
    requires !Fits(v.at[KeyOf(d)].targets, view, IdSet(d))
    ensures var plan := Then(AttachPlan(env, d, cur), DetachPlan(env, d, cur));
            Ideal(env, w, plan).Err? && Reach(env, w, plan) ==
              HalfTurned(env, w, name, v, KeyOf(d), cur, view, IdSet(d))
  {
    var k, t := KeyOf(d), v.at[KeyOf(d)].targets;
    AttachIdeal(env, w, name, v, d, cur, view);
    if (IdSet(d) - view) !! t {
      var v1 := Retarget(v, k, t + (IdSet(d) - view));
      var w1 := Set(w, name, Some(v1), Adjust(env, w.rules, true, IdSet(d) - view, Permissions(cur)));
      NotMadeUp(t, view, IdSet(d));
      DetachIdeal(env, w1, name, v1, d, cur, view);
      StopsAt(env, w, AttachPlan(env, d, cur), DetachPlan(env, d, cur), w1);
    } else {
      StopsAt(env, w, AttachPlan(env, d, cur), DetachPlan(env, d, cur), w);
    }
  }

  /** Registering desired instances supplies none of those that are to go. */
  lemma NotMadeUp(t: set<string>, read: set<string>, ids: set<string>)
    ensures read - ids <= t + (ids - read) <==> read - ids <= t
  {
    forall x | x in read - ids ensures x in t + (ids - read) <==> x in t {
    }
  }
}
