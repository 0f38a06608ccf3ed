/** What the plans for elastic load balancers do to the cloud when nothing interferes. */
module ElbIdeal {
  import opened Base
  import opened Cloud
  import opened Runs
  import opened Differences
  import opened HealthTarget
  import opened Rules
  import opened ElbPlan

  type RuleMap = map<string, set<Permission>>

  /** A state that differs from `w` in one elastic balancer and in the rules. */
  function Set(w: World, name: string, b: Option<ElbBalancer>, rules: RuleMap): World {
    w.(elb := Put(w.elb, name, b), rules := rules)
  }

  lemma SetSet(w: World, name: string, b: Option<ElbBalancer>, rules: RuleMap, b': Option<ElbBalancer>, rules': RuleMap)
    ensures Set(Set(w, name, b, rules), name, b', rules') == Set(w, name, b', rules')
    ensures Set(w, name, Lookup(w.elb, name), w.rules) == w
  {
  }

  // ---------------------------------------------------------------- rules

  predicate Touched(env: Env, group: string, ids: set<string>) {
    group in env.members && env.members[group] * ids != {}
  }

  function Changed(add: bool, rules: set<Permission>, ps: set<Permission>): set<Permission> {
    if add then rules + ps else rules - ps
  }

  lemma ChangedTwice(add: bool, rules: set<Permission>, p: set<Permission>, q: set<Permission>)
    ensures Changed(add, Changed(add, rules, p), q) == Changed(add, rules, p + q)
    ensures Changed(add, rules, {}) == rules
  {
  }

  /** `rules` with `ps` added to or removed from every group that holds one of `ids`. */
  function Adjust(env: Env, rules: RuleMap, add: bool, ids: set<string>, ps: set<Permission>): RuleMap {
    map g | g in rules ::
      if Touched(env, g, ids) then Changed(add, rules[g], ps) else rules[g]
  }

  function Encoded(rules: seq<SecurityGroupRule>): set<Permission> {
    set r | r in rules :: Encode(r)
  }

  /** The permissions of one listener. */
  function Permissions(lb: ElasticLoadBalancer): set<Permission> {
    match RulesOf(lb) { case Ok(rules) => Encoded(rules) case Err(_) => {} }
  }

  /** The permissions of a list of listeners. */
  function AllPermissions(lbs: seq<ElasticLoadBalancer>): set<Permission> {
    set lb, p | lb in lbs && p in Permissions(lb) :: p
  }

  lemma AllPermissionsAppend(p: seq<ElasticLoadBalancer>, lb: ElasticLoadBalancer)
    ensures AllPermissions(p + [lb]) == AllPermissions(p) + Permissions(lb)
  {
  }

  lemma AdjustTwice(env: Env, rules: RuleMap, add: bool, ids: set<string>, p: set<Permission>, q: set<Permission>)
    ensures Adjust(env, Adjust(env, rules, add, ids, p), add, ids, q) == Adjust(env, rules, add, ids, p + q)
    ensures Adjust(env, rules, add, ids, {}) == rules
    ensures Adjust(env, rules, add, {}, p) == rules
  {
    forall g | g in rules
      ensures Changed(add, Changed(add, rules[g], p), q) == Changed(add, rules[g], p + q)
      ensures Changed(add, rules[g], {}) == rules[g]
    {
      ChangedTwice(add, rules[g], p, q);
    }
  }

  /** Changing one group of a rule map. */
  function InGroup(rules: RuleMap, group: string, add: bool, ps: set<Permission>): RuleMap
    requires group in rules
  {
    rules[group := Changed(add, rules[group], ps)]
  }

  lemma {:induction false} ChangeInGroupIdeal(env: Env, w: World, add: bool, group: string,
                                              rules: seq<SecurityGroupRule>)
    requires group in w.rules
    ensures Ideal(env, w, ChangeInGroup(add, group, rules)) ==
            Ok(w.(rules := InGroup(w.rules, group, add, Encoded(rules))))
  {
    if rules == [] {
      assert Encoded(rules) == {};
      ChangedTwice(add, w.rules[group], {}, {});
      assert InGroup(w.rules, group, add, {}) == w.rules;
    } else {
      var init, p := rules[..|rules| - 1], Encode(rules[|rules| - 1]);
      ChangeInGroupIdeal(env, w, add, group, init);
      var w1 := w.(rules := InGroup(w.rules, group, add, Encoded(init)));
      assert rules == init + [rules[|rules| - 1]];
      assert Encoded(rules) == Encoded(init) + {p};
      ChangeRuleIdeal(env, w1, add, group, p);
      ChangedTwice(add, w.rules[group], Encoded(init), {p});
      assert InGroup(w1.rules, group, add, {p}) == InGroup(w.rules, group, add, Encoded(rules));
    }
  }

  lemma ChangeRuleIdeal(env: Env, w: World, add: bool, group: string, p: Permission)
    requires group in w.rules
    ensures Ideal(env, w, ChangeRule(add, group, p)) == Ok(w.(rules := InGroup(w.rules, group, add, {p})))
    ensures Ideal(env, w, Then(ChangeRule(add, group, p), Act(Ask(WaitGroup(group), None)))) ==
            Ok(w.(rules := InGroup(w.rules, group, add, {p})))
  {
    if add && p in w.rules[group] {
      assert w.rules[group] + {p} == w.rules[group];
      assert InGroup(w.rules, group, add, {p}) == w.rules;
    } else if !add && p !in w.rules[group] {
      assert w.rules[group] - {p} == w.rules[group];
      assert InGroup(w.rules, group, add, {p}) == w.rules;
    }
  }

  /** The groups of a list changed, the others not. */
  function InGroups(rules: RuleMap, groups: seq<string>, add: bool, ps: set<Permission>): RuleMap {
    map g | g in rules :: if g in groups then Changed(add, rules[g], ps) else rules[g]
  }

  lemma {:induction false} ChangeInGroupsIdeal(env: Env, w: World, add: bool, groups: seq<string>,
                                               rules: seq<SecurityGroupRule>)
    requires forall g :: g in groups ==> g in w.rules
    ensures Ideal(env, w, ChangeInGroups(add, groups, rules)) ==
            Ok(w.(rules := InGroups(w.rules, groups, add, Encoded(rules))))
  {
    if groups == [] {
      assert InGroups(w.rules, groups, add, Encoded(rules)) == w.rules;
    } else {
      var init, g := groups[..|groups| - 1], groups[|groups| - 1];
      assert groups == init + [g];
      ChangeInGroupsIdeal(env, w, add, init, rules);
      var w1 := w.(rules := InGroups(w.rules, init, add, Encoded(rules)));
      ChangeInGroupIdeal(env, w1, add, g, rules);
      ChangedTwice(add, w.rules[g], Encoded(rules), Encoded(rules));
      assert Encoded(rules) + Encoded(rules) == Encoded(rules);
      assert InGroup(w1.rules, g, add, Encoded(rules)) == InGroups(w.rules, groups, add, Encoded(rules));
    }
  }

  lemma {:induction false} TouchingMembers(groups: seq<string>, members: map<string, set<string>>, ids: seq<string>,
                                           g: string)
    ensures g in Touching(groups, members, ids) <==> g in groups && g in members && members[g] * Elems(ids) != {}
  {
    if groups != [] {
      TouchingMembers(groups[..|groups| - 1], members, ids, g);
      var last := groups[|groups| - 1];
      assert groups == groups[..|groups| - 1] + [last];
      if last in members {
        if id :| id in ids && id in members[last] {
          assert id in members[last] * Elems(ids);
        }
        if members[last] * Elems(ids) != {} {
          var id :| id in members[last] * Elems(ids);
          assert id in ids && id in members[last];
        }
      }
    }
  }

  /**
   * Allow and deny are exact: rules are added to or removed from precisely the groups that hold
   * a listed instance, whichever of them were there before.
   */
  lemma RulePlanIdeal(env: Env, w: World, add: bool, lb: ElasticLoadBalancer, instances: seq<Instance>)
    requires EnvOK(env) && w.rules.Keys == env.members.Keys && RulesOf(lb).Ok?
    ensures Ideal(env, w, RulePlan(env, add, lb, instances)) ==
            Ok(w.(rules := Adjust(env, w.rules, add, Elems(Ids(instances)), Permissions(lb))))
  {
    var groups := GroupsOf(env, Ids(instances));
    assert Elems(env.list(env.members.Keys)) == env.members.Keys;
    forall g ensures g in groups <==> Touched(env, g, Elems(Ids(instances))) {
      TouchingMembers(env.list(env.members.Keys), env.members, Ids(instances), g);
      assert g in env.list(env.members.Keys) <==> g in Elems(env.list(env.members.Keys));
    }
    ChangeInGroupsIdeal(env, w, add, groups, RulesOf(lb).value);
    assert InGroups(w.rules, groups, add, Permissions(lb)) ==
           Adjust(env, w.rules, add, Elems(Ids(instances)), Permissions(lb));
  }

  // ---------------------------------------------------------------- desired listeners

  function WantOf(d: ElasticLoadBalancer): ElbListener {
    ElbListener(IdSet(d), d.healthCheckTarget)
  }

  /** One listener as the builder makes it, placed or not. */
  ghost predicate ListenerOK(env: Env, name: string, d: ElasticLoadBalancer) {
    && d.name == name
    && (forall x :: x in d.balancingTargets ==> Known(env, x))
    && Distinct(Ids(d.balancingTargets))
    && Separate(d.healthCheckTarget).Some?
  }

  lemma AttachNewOK(env: Env, name: string, d: ElasticLoadBalancer)
    requires ListenerOK(env, name, d)
    ensures AttachOK(env, {}, Ids(d.balancingTargets)) && IdSet(d) <= env.inventory.Keys
  {
    forall id | id in Ids(d.balancingTargets) ensures id in env.inventory {
      IdsMembers(d.balancingTargets, id);
    }
  }

  function SetAt(v: ElbBalancer, k: Key, l: ElbListener): ElbBalancer {
    v.(at := v.at[k := l])
  }

  function Plus(env: Env, v: ElbBalancer, k: Key, l: ElbListener): ElbBalancer {
    v.(order := Arranged(env, v.order, k), at := v.at[k := l])
  }

  /** The state with `b` in place of the balancer `name`. */
  function WithB(w: World, name: string, b: ElbBalancer): World {
    Set(w, name, Some(b), w.rules)
  }

  lemma RequestIdeal(env: Env, w: World, name: string, op: ElbOp)
    ensures var r := ApplyElb(env, name, Lookup(w.elb, name), op);
            Ideal(env, w, On(name, op)) == if r.Err? then Err(r.error) else Ok(Set(w, name, r.value, w.rules))
  {
  }

  lemma WaitIdeal(env: Env, w: World, name: string, p: Plan, w': World)
    requires Ideal(env, w, p) == Ok(w') && name in w'.elb
    ensures Ideal(env, w, Then(p, WaitApplied(name))) == Ok(w')
  {
    RequestIdeal(env, w', name, ElbWait);
    SetSet(w', name, None, w'.rules, None, w'.rules);
  }

  /** Filling an empty listener ends in the desired one. */
  lemma FillIdeal(env: Env, w: World, name: string, d: ElasticLoadBalancer, v: ElbBalancer, l: ElbListener)
    requires ListenerOK(env, name, d) && Lookup(w.elb, name) == Some(v)
    requires KeyOf(d) in v.at && v.at[KeyOf(d)] == l && l.targets == {}
    ensures Ideal(env, w, FillSteps(d)) == Ok(WithB(w, name, SetAt(v, KeyOf(d), WantOf(d))))
  {
    var k, l1 := KeyOf(d), ElbListener({}, d.healthCheckTarget);
    var v1, v2 := SetAt(v, k, l1), SetAt(v, k, WantOf(d));
    var w1, w2 := WithB(w, name, v1), WithB(w, name, v2);
    AttachNewOK(env, name, d);
    RequestIdeal(env, w, name, ElbWait);
    SetSet(w, name, None, w.rules, None, w.rules);
    RequestIdeal(env, w, name, ElbHealth(k, d.healthCheckTarget));
    WaitIdeal(env, w, name, On(name, ElbHealth(k, d.healthCheckTarget)), w1);
    assert SetAt(v1, k, WantOf(d)) == v2;
    assert {} + Elems(Ids(d.balancingTargets)) == IdSet(d);
    RequestIdeal(env, w1, name, ElbAttach(k, Ids(d.balancingTargets)));
    SetSet(w, name, Some(v1), w.rules, Some(v2), w.rules);
    WaitIdeal(env, w1, name, On(name, ElbAttach(k, Ids(d.balancingTargets))), w2);
  }

  lemma RegisterIdeal(env: Env, w: World, name: string, d: ElasticLoadBalancer, v: ElbBalancer)
    requires ListenerOK(env, name, d) && Lookup(w.elb, name) == Some(v) && KeyOf(d) !in v.at
    ensures Ideal(env, w, RegisterSteps(d)) ==
            if PortTaken(v.at, d.loadBalancerPort) then Err(PortExists)
            else Ok(WithB(w, name, Plus(env, v, KeyOf(d), WantOf(d))))
  {
    var k, l := KeyOf(d), ElbListener({}, env.defaultHealth);
    var v1 := Plus(env, v, k, l);
    RequestIdeal(env, w, name, ElbAddPort(k));
    if !PortTaken(v.at, k.port) {
      FillIdeal(env, WithB(w, name, v1), name, d, v1, l);
      assert SetAt(v1, k, WantOf(d)) == Plus(env, v, k, WantOf(d));
      SetSet(w, name, Some(v1), w.rules, Some(Plus(env, v, k, WantOf(d))), w.rules);
    }
  }

  lemma CreateIdeal(env: Env, w: World, name: string, d: ElasticLoadBalancer)
    requires ListenerOK(env, name, d) && name !in w.elb
    ensures Ideal(env, w, CreateSteps(d)) ==
            Ok(WithB(w, name, ElbBalancer(env.vipOf(name), Assigned(env, d.networkInterfaces), [KeyOf(d)],
                                          map[KeyOf(d) := WantOf(d)])))
  {
    var k, l := KeyOf(d), ElbListener({}, env.defaultHealth);
    var v := ElbBalancer(env.vipOf(name), Assigned(env, d.networkInterfaces), [k], map[k := l]);
    RequestIdeal(env, w, name, ElbCreate(k, d.networkInterfaces));
    FillIdeal(env, WithB(w, name, v), name, d, v, l);
    assert SetAt(v, k, WantOf(d)).at == map[k := WantOf(d)];
    SetSet(w, name, Some(v), w.rules, Some(SetAt(v, k, WantOf(d))), w.rules);
  }

  // ---------------------------------------------------------------- lists of ports, with their rules

  function PlusAll(env: Env, v: ElbBalancer, lbs: seq<ElasticLoadBalancer>): ElbBalancer {
    if lbs == [] then v
    else
      var lb := lbs[|lbs| - 1];
      Plus(env, PlusAll(env, v, lbs[..|lbs| - 1]), KeyOf(lb), WantOf(lb))
  }

  ghost predicate DistinctPorts(lbs: seq<ElasticLoadBalancer>) {
    forall i, j :: 0 <= i < j < |lbs| ==> lbs[i].loadBalancerPort != lbs[j].loadBalancerPort
  }

  predicate AnyPortTaken(at: map<Key, ElbListener>, lbs: seq<ElasticLoadBalancer>) {
    exists lb :: lb in lbs && PortTaken(at, lb.loadBalancerPort)
  }

  lemma {:induction false} PlusAllIs(env: Env, v: ElbBalancer, lbs: seq<ElasticLoadBalancer>)
    requires forall lb :: lb in lbs ==> KeyOf(lb) !in v.at
    ensures var v' := PlusAll(env, v, lbs);
            && v'.vip == v.vip && v'.nics == v.nics && Elems(v'.order) == Elems(v.order) + Elems(KeySeq(lbs))
            && v'.at.Keys == v.at.Keys + Elems(KeySeq(lbs))
            && (forall k :: k in v.at ==> v'.at[k] == v.at[k])
  {
    if lbs == [] {
      assert Elems(KeySeq(lbs)) == {};
    } else {
      var init, lb := lbs[..|lbs| - 1], lbs[|lbs| - 1];
      PlusAllIs(env, v, init);
      assert KeySeq(lbs) == KeySeq(init) + [KeyOf(lb)];
      ElemsAppend(KeySeq(init), [KeyOf(lb)]);
    }
  }

  lemma {:induction false} PlusAllValue(env: Env, v: ElbBalancer, lbs: seq<ElasticLoadBalancer>, i: nat)
    requires DistinctPorts(lbs) && i < |lbs|
    ensures KeyOf(lbs[i]) in PlusAll(env, v, lbs).at && PlusAll(env, v, lbs).at[KeyOf(lbs[i])] == WantOf(lbs[i])
  {
    var init := lbs[..|lbs| - 1];
    if i < |init| {
      PlusAllValue(env, v, init, i);
      assert lbs[i].loadBalancerPort != lbs[|init|].loadBalancerPort;
    }
  }

  lemma PortTakenLater(env: Env, v: ElbBalancer, init: seq<ElasticLoadBalancer>, lb: ElasticLoadBalancer)
    requires DistinctPorts(init + [lb]) && forall x :: x in init + [lb] ==> KeyOf(x) !in v.at
    ensures KeyOf(lb) !in PlusAll(env, v, init).at
    ensures PortTaken(PlusAll(env, v, init).at, lb.loadBalancerPort) <==> PortTaken(v.at, lb.loadBalancerPort)
    ensures AnyPortTaken(v.at, init + [lb]) <==> AnyPortTaken(v.at, init) || PortTaken(v.at, lb.loadBalancerPort)
  {
    var all := init + [lb];
    assert lb in all;
    PlusAllIs(env, v, init);
    forall k | k in KeySeq(init) ensures k.port != lb.loadBalancerPort {
      var i :| 0 <= i < |init| && KeySeq(init)[i] == k;
      assert all[i].loadBalancerPort != all[|init|].loadBalancerPort;
    }
    assert forall k :: k in PlusAll(env, v, init).at ==> k in v.at || k in KeySeq(init);
    if PortTaken(v.at, lb.loadBalancerPort) {
      var k :| k in v.at && k.port == lb.loadBalancerPort;
      assert k in PlusAll(env, v, init).at;
    }
  }

  /** Listeners that can be registered: well formed, with rules, and all with the targets `ids`. */
  ghost predicate Registrable(env: Env, name: string, ids: set<string>, lbs: seq<ElasticLoadBalancer>) {
    forall lb :: lb in lbs ==> ListenerOK(env, name, lb) && RulesOf(lb).Ok? && IdSet(lb) == ids
  }

  lemma {:induction false} RegisterAllIdeal(env: Env, w: World, name: string, ids: set<string>,
                                            lbs: seq<ElasticLoadBalancer>, v: ElbBalancer)
    requires EnvOK(env) && w.rules.Keys == env.members.Keys && Lookup(w.elb, name) == Some(v)
    requires Registrable(env, name, ids, lbs) && DistinctPorts(lbs) && forall lb :: lb in lbs ==> KeyOf(lb) !in v.at
    ensures Ideal(env, w, RegisterAll(env, lbs)) ==
            if AnyPortTaken(v.at, lbs) then Err(PortExists)
            else Ok(Set(w, name, Some(PlusAll(env, v, lbs)), Adjust(env, w.rules, true, ids, AllPermissions(lbs))))
  {
    if lbs == [] {
      AdjustTwice(env, w.rules, true, ids, {}, {});
      assert AllPermissions(lbs) == {} && PlusAll(env, v, lbs) == v;
      SetSet(w, name, None, w.rules, None, w.rules);
    } else {
      var init, lb := lbs[..|lbs| - 1], lbs[|lbs| - 1];
      assert lbs == init + [lb];
      RegisterAllIdeal(env, w, name, ids, init, v);
      PortTakenLater(env, v, init, lb);
      if !AnyPortTaken(v.at, init) {
        var rules1 := Adjust(env, w.rules, true, ids, AllPermissions(init));
        RegisterNext(env, Set(w, name, Some(PlusAll(env, v, init)), rules1), name, ids, lb, PlusAll(env, v, init));
        AllPermissionsAppend(init, lb);
        AdjustTwice(env, w.rules, true, ids, AllPermissions(init), Permissions(lb));
        SetSet(w, name, Some(PlusAll(env, v, init)), rules1, Some(PlusAll(env, v, lbs)),
               Adjust(env, w.rules, true, ids, AllPermissions(lbs)));
      }
    }
  }

  lemma RegisterNext(env: Env, w: World, name: string, ids: set<string>, lb: ElasticLoadBalancer, v: ElbBalancer)
    requires EnvOK(env) && w.rules.Keys == env.members.Keys && Lookup(w.elb, name) == Some(v)
    requires Registrable(env, name, ids, [lb]) && KeyOf(lb) !in v.at
    ensures Ideal(env, w, Then(RegisterSteps(lb), RulePlan(env, true, lb, lb.balancingTargets))) ==
            if PortTaken(v.at, lb.loadBalancerPort) then Err(PortExists)
            else Ok(Set(w, name, Some(Plus(env, v, KeyOf(lb), WantOf(lb))),
                        Adjust(env, w.rules, true, ids, Permissions(lb))))
  {
    assert lb in [lb];
    RegisterIdeal(env, w, name, lb, v);
    RulePlanIdeal(env, WithB(w, name, Plus(env, v, KeyOf(lb), WantOf(lb))), true, lb, lb.balancingTargets);
  }
}
