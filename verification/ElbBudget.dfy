/** How many requests can change the cloud, however often an elastic operation is repeated and whatever fails. */
module ElbBudget {
  import opened Base
  import opened Cloud
  import opened Runs
  import opened Spending
  import opened Differences
  import opened Rules
  import opened ElbPlan
  import opened ElbIdeal
  import opened ElbUpdate
  import opened ElbEnsure
  import opened ElbSafety

  // ---------------------------------------------------------------- how many rules one change of rules may send

  ghost predicate NarrowNics(nics: seq<NetworkInterface>, width: nat) {
    forall nic :: nic in nics ==> |nic.systemIpAddresses| <= width
  }

  /** The most changes of rules that one request about a listener can entail: so many rules in every group. */
  function MostRules(env: Env, width: nat): nat {
    |env.list(env.members.Keys)| * (width + 2)
  }

  lemma FewRules(lb: ElasticLoadBalancer, width: nat)
    requires NarrowNics(lb.networkInterfaces, width)
    ensures RulesOf(lb).Ok? ==> |RulesOf(lb).value| <= width + 2
  {
    if |lb.networkInterfaces| == 1 {
      assert lb.networkInterfaces[0] in lb.networkInterfaces;
    } else if |lb.networkInterfaces| == 2 {
      assert HealthArm(lb.networkInterfaces) in lb.networkInterfaces;
    }
  }

  lemma {:induction false} TouchingShort(groups: seq<string>, members: map<string, set<string>>, ids: seq<string>)
    ensures |Touching(groups, members, ids)| <= |groups|
  {
    if groups != [] {
      TouchingShort(groups[..|groups| - 1], members, ids);
    }
  }

  lemma {:induction false} GroupWeight(add: bool, g: string, rules: seq<SecurityGroupRule>)
    ensures Weight(ChangeInGroup(add, g, rules)) == |rules|
  {
    if rules != [] {
      GroupWeight(add, g, rules[..|rules| - 1]);
      assert Weight(ChangeRule(add, g, Encode(rules[|rules| - 1]))) == 1;
      assert Weight(Act(Ask(WaitGroup(g), None))) == 0;
    }
  }

  lemma {:induction false} GroupsWeight(add: bool, groups: seq<string>, rules: seq<SecurityGroupRule>)
    ensures Weight(ChangeInGroups(add, groups, rules)) == |groups| * |rules|
  {
    if groups != [] {
      GroupsWeight(add, groups[..|groups| - 1], rules);
      GroupWeight(add, groups[|groups| - 1], rules);
      OneMoreTimes(|groups| - 1, |rules|);
    }
  }

  lemma OneMoreTimes(n: nat, m: nat)
    ensures (n + 1) * m == n * m + m
  {
  }

  lemma TimesMore(a: nat, b: nat, c: nat, d: nat)
    requires a <= c && b <= d
    ensures a * b <= c * d
  {
    assert a * b <= c * b;
    assert c * b <= c * d;
  }

  lemma RulePlanWeight(env: Env, add: bool, lb: ElasticLoadBalancer, instances: seq<Instance>, width: nat)
    requires NarrowNics(lb.networkInterfaces, width)
    ensures Weight(RulePlan(env, add, lb, instances)) <= MostRules(env, width)
  {
    var groups := GroupsOf(env, Ids(instances));
    FewRules(lb, width);
    if RulesOf(lb).Ok? {
      GroupsWeight(add, groups, RulesOf(lb).value);
      TouchingShort(env.list(env.members.Keys), env.members, Ids(instances));
      TimesMore(|groups|, |RulesOf(lb).value|, |env.list(env.members.Keys)|, width + 2);
    }
  }

  // ---------------------------------------------------------------- what ports cost

  function KeysAt(w: World, name: string): set<Key> {
    if name in w.elb then w.elb[name].at.Keys else {}
  }

  /** What is desired of one balancer: ports, nodes and interfaces; and how much a change of rules may cost. */
  datatype Aim = Aim(name: string, want: set<Key>, ids: set<string>, nics: seq<NetworkInterface>, rules: nat)

  /** A missing port costs its three requests and its rules; a superfluous one its request and its rules. */
  function PortPrice(a: Aim, keys: set<Key>): nat {
    |a.want - keys| * (3 + a.rules) + |keys - a.want| * (1 + a.rules)
  }

  ghost function PriceOfPorts(a: Aim): World -> int {
    (w: World) => PortPrice(a, KeysAt(w, a.name))
  }

  lemma PortGained(a: Aim, keys: set<Key>, k: Key)
    requires k in a.want && k !in keys
    ensures PortPrice(a, keys + {k}) + 3 + a.rules == PortPrice(a, keys)
  {
    assert a.want - keys == (a.want - (keys + {k})) + {k};
    assert (keys + {k}) - a.want == keys - a.want;
    OneMoreTimes(|a.want - (keys + {k})|, 3 + a.rules);
  }

  lemma PortLost(a: Aim, keys: set<Key>, k: Key)
    requires k !in a.want && k in keys
    ensures PortPrice(a, keys - {k}) + 1 + a.rules == PortPrice(a, keys)
  {
    assert keys - a.want == ((keys - {k}) - a.want) + {k};
    assert a.want - (keys - {k}) == a.want - keys;
    OneMoreTimes(|(keys - {k}) - a.want|, 1 + a.rules);
  }

  lemma AddPortPays(env: Env, w: World, a: Aim, k: Key, cost: nat)
    requires k in a.want && cost <= 2 + a.rules
    ensures PaysFor(env, w, Elb(a.name, ElbAddPort(k)), PriceOfPorts(a), cost)
  {
    var r := Apply(env, w, Elb(a.name, ElbAddPort(k)));
    if r.Ok? {
      assert k !in KeysAt(w, a.name) && KeysAt(r.value, a.name) == KeysAt(w, a.name) + {k};
      PortGained(a, KeysAt(w, a.name), k);
    }
  }

  lemma CreatePays(env: Env, w: World, a: Aim, k: Key, nics: seq<NetworkInterface>, cost: nat)
    requires k in a.want && cost <= 2 + a.rules
    ensures PaysFor(env, w, Elb(a.name, ElbCreate(k, nics)), PriceOfPorts(a), cost)
  {
    var r := Apply(env, w, Elb(a.name, ElbCreate(k, nics)));
    if r.Ok? {
      assert KeysAt(w, a.name) == {} && KeysAt(r.value, a.name) == {} + {k};
      PortGained(a, {}, k);
    }
  }

  lemma RemovedKey(env: Env, w: World, name: string, k: Key)
    requires WorldOK(env, w)
    ensures var r := Apply(env, w, Elb(name, ElbRemovePort(k)));
            r.Ok? ==> KeysAt(r.value, name) == KeysAt(w, name) - {k}
  {
    if k in KeysAt(w, name) && Without(w.elb[name].order, k) == [] {
      forall k' | k' in w.elb[name].at ensures k' == k {
        assert k' in Elems(w.elb[name].order);
      }
    }
  }

  lemma RemovePortPays(env: Env, w: World, a: Aim, k: Key, cost: nat)
    requires WorldOK(env, w) && k !in a.want && cost <= a.rules
    ensures PaysFor(env, w, Elb(a.name, ElbRemovePort(k)), PriceOfPorts(a), cost)
  {
    var r := Apply(env, w, Elb(a.name, ElbRemovePort(k)));
    if r.Ok? {
      RemovedKey(env, w, a.name, k);
      PortLost(a, KeysAt(w, a.name), k);
    }
  }

  /** Requests that leave the ports of every balancer as they are. */
  ghost function PortsStay(): Call -> bool {
    (call: Call) =>
      match call
      case Elb(_, op) => !op.ElbCreate? && !op.ElbAddPort? && !op.ElbRemovePort?
      case _ => true
  }

  lemma PortStays(env: Env, w: World, call: Call, name: string)
    requires PortsStay()(call) && Apply(env, w, call).Ok?
    ensures KeysAt(Apply(env, w, call).value, name) == KeysAt(w, name)
  {
    if call.Elb? {
      OpStays(env, w, call.name, call.elbop, name);
    }
  }

  lemma OpStays(env: Env, w: World, n: string, op: ElbOp, name: string)
    requires !op.ElbCreate? && !op.ElbAddPort? && !op.ElbRemovePort?
    requires Apply(env, w, Elb(n, op)).Ok?
    ensures KeysAt(Apply(env, w, Elb(n, op)).value, name) == KeysAt(w, name)
  {
  }

  lemma PortsStaySamePrice(env: Env, a: Aim)
    ensures SamePrice(env, PortsStay(), PriceOfPorts(a))
  {
    forall w, call | PortsStay()(call) && Apply(env, w, call).Ok?
      ensures KeysAt(Apply(env, w, call).value, a.name) == KeysAt(w, a.name)
    {
      PortStays(env, w, call, a.name);
    }
  }

  lemma RulesStay(env: Env, add: bool, lb: ElasticLoadBalancer, instances: seq<Instance>)
    ensures AllCalls(RulePlan(env, add, lb, instances), PortsStay())
  {
    var ok := RuleCalls(env, add, Elems(Ids(instances)), Permissions(lb));
    RulePlanCalls(env, add, lb, instances);
    AllCallsWeaken(RulePlan(env, add, lb, instances), ok, PortsStay());
  }

  lemma OnStays(name: string, op: ElbOp)
    requires !op.ElbCreate? && !op.ElbAddPort? && !op.ElbRemovePort?
    ensures AllCalls(On(name, op), PortsStay()) && Weight(On(name, op)) == if op.ElbLook? || op.ElbWait? then 0 else 1
  {
  }

  lemma ThenStays(p: Plan, q: Plan)
    requires AllCalls(p, PortsStay()) && AllCalls(q, PortsStay())
    ensures AllCalls(Then(p, q), PortsStay()) && Weight(Then(p, q)) == Weight(p) + Weight(q)
  {
  }

  /** How sequences are nested does not matter to runs. */
  lemma ThenRight(c: Ctx, r: Run, p: Plan, q: Plan, s: Plan)
    ensures Exec(c, r, Then(Then(p, q), s)) == Exec(c, r, Then(p, Then(q, s)))
  {
    var r1 := Exec(c, r, p);
    assert Exec(c, r, Then(p, q)) == Exec(c, r1, q);
    assert Exec(c, r1, Then(q, s)) == Exec(c, Exec(c, r1, q), s);
  }

  lemma FillStays(lb: ElasticLoadBalancer)
    ensures AllCalls(FillSteps(lb), PortsStay()) && Weight(FillSteps(lb)) == 2
    ensures AllCalls(On(lb.name, ElbLook), PortsStay()) && Weight(On(lb.name, ElbLook)) == 0
  {
    var wait, plan := WaitApplied(lb.name), FillSteps(lb);
    OnStays(lb.name, ElbWait);
    OnStays(lb.name, ElbLook);
    OnStays(lb.name, ElbHealth(KeyOf(lb), lb.healthCheckTarget));
    OnStays(lb.name, ElbAttach(KeyOf(lb), Ids(lb.balancingTargets)));
    ThenStays(plan.next.first.first, wait);
    ThenStays(plan.next.next.first, wait);
    ThenStays(plan.next.first, plan.next.next);
    ThenStays(wait, plan.next);
  }

  /** A listener of this balancer whose rules are paid for. */
  ghost predicate Priced(env: Env, a: Aim, width: nat, lb: ElasticLoadBalancer) {
    lb.name == a.name && NarrowNics(lb.networkInterfaces, width) && a.rules == MostRules(env, width)
  }

  lemma PricedRules(env: Env, a: Aim, width: nat, lb: ElasticLoadBalancer, add: bool, instances: seq<Instance>)
    requires Priced(env, a, width, lb)
    ensures Weight(RulePlan(env, add, lb, instances)) <= a.rules
            && AllCalls(RulePlan(env, add, lb, instances), PortsStay())
  {
    RulePlanWeight(env, add, lb, instances, width);
    RulesStay(env, add, lb, instances);
  }

  lemma RegisterPaid(c: Ctx, r: Run, a: Aim, width: nat, lb: ElasticLoadBalancer)
    requires Priced(c.env, a, width, lb) && KeyOf(lb) in a.want
    ensures Paid(r, Exec(c, r, Then(RegisterSteps(lb), RulePlan(c.env, true, lb, lb.balancingTargets))),
                 PriceOfPorts(a))
  {
    var rules := RulePlan(c.env, true, lb, lb.balancingTargets);
    var rest := Then(FillSteps(lb), rules);
    FillStays(lb);
    PricedRules(c.env, a, width, lb, true, lb.balancingTargets);
    ThenStays(FillSteps(lb), rules);
    ThenRight(c, r, On(lb.name, ElbAddPort(KeyOf(lb))), FillSteps(lb), rules);
    AddPortPays(c.env, r.world, a, KeyOf(lb), Weight(rest));
    PortsStaySamePrice(c.env, a);
    PaidBlock(c, r, Elb(a.name, ElbAddPort(KeyOf(lb))), rest, PortsStay(), PriceOfPorts(a));
  }

  lemma CreatePaid(c: Ctx, r: Run, a: Aim, width: nat, lb: ElasticLoadBalancer, placed: ElasticLoadBalancer)
    requires lb.name == a.name && Priced(c.env, a, width, placed) && KeyOf(lb) in a.want
    ensures var plan1 := Then(CreateSteps(lb), On(lb.name, ElbLook));
            var plan2 := RulePlan(c.env, true, placed, placed.balancingTargets);
            Paid(r, Exec(c, r, Then(plan1, plan2)), PriceOfPorts(a))
  {
    var plan2 := RulePlan(c.env, true, placed, placed.balancingTargets);
    var create, look := On(lb.name, ElbCreate(KeyOf(lb), lb.networkInterfaces)), On(lb.name, ElbLook);
    var rest := Then(FillSteps(lb), Then(look, plan2));
    FillStays(lb);
    PricedRules(c.env, a, width, placed, true, placed.balancingTargets);
    ThenStays(look, plan2);
    ThenStays(FillSteps(lb), Then(look, plan2));
    ThenRight(c, r, CreateSteps(lb), look, plan2);
    ThenRight(c, r, create, FillSteps(lb), Then(look, plan2));
    CreatePays(c.env, r.world, a, KeyOf(lb), lb.networkInterfaces, Weight(rest));
    PortsStaySamePrice(c.env, a);
    PaidBlock(c, r, Elb(a.name, ElbCreate(KeyOf(lb), lb.networkInterfaces)), rest, PortsStay(), PriceOfPorts(a));
  }

  lemma DeletePaid(c: Ctx, r: Run, a: Aim, width: nat, lb: ElasticLoadBalancer)
    requires Priced(c.env, a, width, lb) && KeyOf(lb) !in a.want && WorldOK(c.env, r.world)
    ensures Paid(r, Exec(c, r, Then(On(lb.name, ElbRemovePort(KeyOf(lb))),
                                    RulePlan(c.env, false, lb, lb.balancingTargets))),
                 PriceOfPorts(a))
  {
    var rest := RulePlan(c.env, false, lb, lb.balancingTargets);
    PricedRules(c.env, a, width, lb, false, lb.balancingTargets);
    RemovePortPays(c.env, r.world, a, KeyOf(lb), Weight(rest));
    PortsStaySamePrice(c.env, a);
    PaidBlock(c, r, Elb(a.name, ElbRemovePort(KeyOf(lb))), rest, PortsStay(), PriceOfPorts(a));
  }

  lemma {:induction false} RegisterAllPaid(c: Ctx, r: Run, a: Aim, width: nat, lbs: seq<ElasticLoadBalancer>)
    requires forall lb :: lb in lbs ==> Priced(c.env, a, width, lb) && KeyOf(lb) in a.want
    ensures Paid(r, Exec(c, r, RegisterAll(c.env, lbs)), PriceOfPorts(a))
  {
    if lbs == [] {
      PaidNothing(r, PriceOfPorts(a));
    } else {
      var init, lb := lbs[..|lbs| - 1], lbs[|lbs| - 1];
      var r1 := Exec(c, r, RegisterAll(c.env, init));
      RegisterAllPaid(c, r, a, width, init);
      RegisterPaid(c, r1, a, width, lb);
      PaidTwice(r, r1, Exec(c, r, RegisterAll(c.env, lbs)), PriceOfPorts(a));
    }
  }

  lemma {:induction false} DeleteAllPaid(c: Ctx, r: Run, a: Aim, width: nat, lbs: seq<ElasticLoadBalancer>)
    requires WorldOK(c.env, r.world)
    requires forall lb :: lb in lbs ==> Priced(c.env, a, width, lb) && KeyOf(lb) !in a.want
    ensures Paid(r, Exec(c, r, DeleteAll(c.env, lbs)), PriceOfPorts(a))
  {
    if lbs == [] {
      PaidNothing(r, PriceOfPorts(a));
    } else {
      var init, lb := lbs[..|lbs| - 1], lbs[|lbs| - 1];
      var r1 := Exec(c, r, DeleteAll(c.env, init));
      DeleteAllPaid(c, r, a, width, init);
      ExecKeepsWorldOK(c, r, DeleteAll(c.env, init));
      DeletePaid(c, r1, a, width, lb);
      PaidTwice(r, r1, Exec(c, r, DeleteAll(c.env, lbs)), PriceOfPorts(a));
    }
  }

  // ---------------------------------------------------------------- both port phases

  lemma PlacedPriced(env: Env, a: Aim, width: nat, desire: seq<ElasticLoadBalancer>, vip: string,
                     nics: seq<NetworkInterface>)
    requires a.want == Keys(desire) && (forall d :: d in desire ==> d.name == a.name)
    requires NarrowNics(nics, width) && a.rules == MostRules(env, width)
    ensures Keys(PlacedAll(desire, vip, nics)) == Keys(desire)
    ensures forall lb :: lb in PlacedAll(desire, vip, nics) ==> Priced(env, a, width, lb) && KeyOf(lb) in a.want
  {
    var placed := PlacedAll(desire, vip, nics);
    assert KeySeq(placed) == KeySeq(desire);
    forall lb | lb in placed ensures Priced(env, a, width, lb) && KeyOf(lb) in a.want {
      var i :| 0 <= i < |placed| && placed[i] == lb;
      assert desire[i] in desire && KeySeq(desire)[i] == KeyOf(lb);
    }
  }

  lemma DeletedPriced(env: Env, a: Aim, width: nat, placed: seq<ElasticLoadBalancer>, b: ElbBalancer)
    requires EnvOK(env) && ElbOK(env, b) && NarrowNics(b.nics, width) && a.rules == MostRules(env, width)
    requires a.want == Keys(placed) && forall d :: d in placed ==> d.name == a.name
    ensures forall lb :: lb in ToDelete(placed, View(env, a.name, b)) ==>
              Priced(env, a, width, lb) && KeyOf(lb) !in a.want
  {
    var view := View(env, a.name, b);
    ViewIs(env, a.name, b);
    MissingByKey(view, placed, ElbEquals, KeyOf);
    assert Mapped(placed, KeyOf) == KeySeq(placed);
  }

  lemma LookPaid(c: Ctx, r: Run, a: Aim)
    ensures Paid(r, Exec(c, r, On(a.name, ElbLook)), PriceOfPorts(a))
  {
    OnStays(a.name, ElbLook);
    PortsStaySamePrice(c.env, a);
    ExecSpends(c, r, On(a.name, ElbLook));
    ExecSamePrice(c, r, On(a.name, ElbLook), PortsStay(), PriceOfPorts(a));
  }

  lemma ThenPaid(c: Ctx, r: Run, p: Plan, q: Plan, price: World -> int)
    requires Paid(r, Exec(c, r, p), price) && Paid(Exec(c, r, p), Exec(c, Exec(c, r, p), q), price)
    ensures Paid(r, Exec(c, r, Then(p, q)), price)
  {
    PaidTwice(r, Exec(c, r, p), Exec(c, Exec(c, r, p), q), price);
  }

  lemma BothPaid(c: Ctx, r: Run, a: Aim, width: nat, created: seq<ElasticLoadBalancer>,
                 deleted: seq<ElasticLoadBalancer>)
    requires WorldOK(c.env, r.world)
    requires forall lb :: lb in created ==> Priced(c.env, a, width, lb) && KeyOf(lb) in a.want
    requires forall lb :: lb in deleted ==> Priced(c.env, a, width, lb) && KeyOf(lb) !in a.want
    ensures Paid(r, Exec(c, r, Then(RegisterAll(c.env, created), DeleteAll(c.env, deleted))), PriceOfPorts(a))
  {
    RegisterAllPaid(c, r, a, width, created);
    ExecKeepsWorldOK(c, r, RegisterAll(c.env, created));
    DeleteAllPaid(c, Exec(c, r, RegisterAll(c.env, created)), a, width, deleted);
    ThenPaid(c, r, RegisterAll(c.env, created), DeleteAll(c.env, deleted), PriceOfPorts(a));
  }

  lemma PortPlanPaid(c: Ctx, r: Run, a: Aim, width: nat, placed: seq<ElasticLoadBalancer>, b: ElbBalancer)
    requires WorldOK(c.env, r.world) && EnvOK(c.env) && Lookup(r.world.elb, a.name) == Some(b)
    requires NarrowNics(b.nics, width) && a.rules == MostRules(c.env, width) && a.want == Keys(placed)
    requires forall d :: d in placed ==> Priced(c.env, a, width, d) && KeyOf(d) in a.want
    ensures Paid(r, Exec(c, r, PortPlan(c.env, a.name, placed, View(c.env, a.name, b))), PriceOfPorts(a))
  {
    var view := View(c.env, a.name, b);
    var plan := PortPlan(c.env, a.name, placed, view);
    forall lb | lb in ToCreate(placed, view) ensures lb in placed {
      MissingMembers(placed, view, ElbEquals, lb);
    }
    DeletedPriced(c.env, a, width, placed, b);
    BothPaid(c, r, a, width, ToCreate(placed, view), ToDelete(placed, view));
    if plan.next == Skip {
      PaidNothing(Exec(c, r, plan.first), PriceOfPorts(a));
    } else {
      LookPaid(c, Exec(c, r, plan.first), a);
    }
    ThenPaid(c, r, plan.first, plan.next, PriceOfPorts(a));
  }

  // ---------------------------------------------------------------- the ports after a successful port phase

  ghost function HasKeys(name: string, keys: set<Key>): World -> bool {
    (w: World) => KeysAt(w, name) == keys
  }

  lemma KeysStay(c: Ctx, r: Run, plan: Plan, name: string)
    requires AllCalls(plan, PortsStay())
    ensures KeysAt(Exec(c, r, plan).world, name) == KeysAt(r.world, name)
  {
    var keys := KeysAt(r.world, name);
    PortsStayKeys(c.env, name, keys);
    ExecInvariant(c, r, plan, PortsStay(), HasKeys(name, keys));
  }

  lemma PortsStayKeys(env: Env, name: string, keys: set<Key>)
    ensures Preserved(env, PortsStay(), HasKeys(name, keys))
  {
    forall w, call | PortsStay()(call) && HasKeys(name, keys)(w) && Apply(env, w, call).Ok?
      ensures HasKeys(name, keys)(Apply(env, w, call).value)
    {
      PortStays(env, w, call, name);
    }
  }

  lemma RegisteredKeys(c: Ctx, r: Run, lb: ElasticLoadBalancer)
    requires Exec(c, r, Then(RegisterSteps(lb), RulePlan(c.env, true, lb, lb.balancingTargets))).out.Done?
    ensures var r' := Exec(c, r, Then(RegisterSteps(lb), RulePlan(c.env, true, lb, lb.balancingTargets)));
            KeysAt(r'.world, lb.name) == KeysAt(r.world, lb.name) + {KeyOf(lb)}
  {
    var add, rules := On(lb.name, ElbAddPort(KeyOf(lb))), RulePlan(c.env, true, lb, lb.balancingTargets);
    var rest := Then(FillSteps(lb), rules);
    FillStays(lb);
    RulesStay(c.env, true, lb, lb.balancingTargets);
    ThenStays(FillSteps(lb), rules);
    ThenRight(c, r, add, FillSteps(lb), rules);
    ExecDone(c, Exec(c, r, add), rest);
    KeysStay(c, Exec(c, r, add), rest, lb.name);
  }

  lemma DeletedKey(c: Ctx, r: Run, lb: ElasticLoadBalancer)
    requires WorldOK(c.env, r.world)
    requires Exec(c, r, Then(On(lb.name, ElbRemovePort(KeyOf(lb))),
                             RulePlan(c.env, false, lb, lb.balancingTargets))).out.Done?
    ensures var rules := RulePlan(c.env, false, lb, lb.balancingTargets);
            var r' := Exec(c, r, Then(On(lb.name, ElbRemovePort(KeyOf(lb))), rules));
            KeysAt(r'.world, lb.name) == KeysAt(r.world, lb.name) - {KeyOf(lb)}
  {
    var remove, rules := On(lb.name, ElbRemovePort(KeyOf(lb))), RulePlan(c.env, false, lb, lb.balancingTargets);
    RulesStay(c.env, false, lb, lb.balancingTargets);
    ExecDone(c, Exec(c, r, remove), rules);
    KeysStay(c, Exec(c, r, remove), rules, lb.name);
    RemovedKey(c.env, r.world, lb.name, KeyOf(lb));
  }

  lemma {:induction false} RegisteredAll(c: Ctx, r: Run, name: string, lbs: seq<ElasticLoadBalancer>)
    requires (forall lb :: lb in lbs ==> lb.name == name) && Exec(c, r, RegisterAll(c.env, lbs)).out.Done?
    ensures KeysAt(Exec(c, r, RegisterAll(c.env, lbs)).world, name) == KeysAt(r.world, name) + Keys(lbs)
  {
    if lbs == [] {
      assert Keys(lbs) == {};
    } else {
      var init, lb := lbs[..|lbs| - 1], lbs[|lbs| - 1];
      var r1 := Exec(c, r, RegisterAll(c.env, init));
      ExecDone(c, r1, Then(RegisterSteps(lb), RulePlan(c.env, true, lb, lb.balancingTargets)));
      RegisteredAll(c, r, name, init);
      RegisteredKeys(c, r1, lb);
      LastKey(lbs);
    }
  }

  lemma LastKey(lbs: seq<ElasticLoadBalancer>)
    requires lbs != []
    ensures Keys(lbs) == Keys(lbs[..|lbs| - 1]) + {KeyOf(lbs[|lbs| - 1])}
  {
    assert KeySeq(lbs) == KeySeq(lbs[..|lbs| - 1]) + [KeyOf(lbs[|lbs| - 1])];
    ElemsAppend(KeySeq(lbs[..|lbs| - 1]), [KeyOf(lbs[|lbs| - 1])]);
  }

  lemma {:induction false} DeletedAll(c: Ctx, r: Run, name: string, lbs: seq<ElasticLoadBalancer>)
    requires WorldOK(c.env, r.world)
    requires (forall lb :: lb in lbs ==> lb.name == name) && Exec(c, r, DeleteAll(c.env, lbs)).out.Done?
    ensures KeysAt(Exec(c, r, DeleteAll(c.env, lbs)).world, name) == KeysAt(r.world, name) - Keys(lbs)
  {
    if lbs == [] {
      assert Keys(lbs) == {};
    } else {
      var init, lb := lbs[..|lbs| - 1], lbs[|lbs| - 1];
      var r1 := Exec(c, r, DeleteAll(c.env, init));
      ExecDone(c, r1, Then(On(lb.name, ElbRemovePort(KeyOf(lb))), RulePlan(c.env, false, lb, lb.balancingTargets)));
      DeletedAll(c, r, name, init);
      ExecKeepsWorldOK(c, r, DeleteAll(c.env, init));
      DeletedKey(c, r1, lb);
      LastKey(lbs);
    }
  }
}
