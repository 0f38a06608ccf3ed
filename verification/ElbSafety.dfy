/** What no elastic run can do, whatever fails: touch another balancer, or a rule that is not its own. */
module ElbSafety {
  import opened Base
  import opened Cloud
  import opened Runs
  import opened Differences
  import opened Rules
  import opened ElbPlan
  import opened ElbIdeal

  lemma {:induction false} AllCallsWeaken(plan: Plan, ok: Call -> bool, ok': Call -> bool)
    requires AllCalls(plan, ok) && forall call :: ok(call) ==> ok'(call)
    ensures AllCalls(plan, ok')
    decreases plan
  {
    match plan
    case Skip =>
    case Act(_) =>
    case Then(p, q) =>
      AllCallsWeaken(p, ok, ok');
      AllCallsWeaken(q, ok, ok');
  }

  // ---------------------------------------------------------------- allow and deny

  /** The requests of one allow (`add`) or deny. */
  function RuleCalls(env: Env, add: bool, ids: set<string>, ps: set<Permission>): Call -> bool {
    (call: Call) =>
      match call
      case ListGroups => true
      case WaitGroup(_) => true
      case Authorize(g, p) => add && Touched(env, g, ids) && p in ps
      case Revoke(g, p) => !add && Touched(env, g, ids) && p in ps
      case _ => false
  }

  lemma {:induction false} ChangeInGroupCalls(env: Env, add: bool, g: string, rules: seq<SecurityGroupRule>,
                                              ids: set<string>, ps: set<Permission>)
    requires Touched(env, g, ids) && Encoded(rules) <= ps
    ensures AllCalls(ChangeInGroup(add, g, rules), RuleCalls(env, add, ids, ps))
  {
    if rules != [] {
      var init, rule := rules[..|rules| - 1], rules[|rules| - 1];
      assert rules == init + [rule];
      assert rule in rules && Encode(rule) in Encoded(rules) && Encoded(init) <= Encoded(rules);
      ChangeInGroupCalls(env, add, g, init, ids, ps);
      assert AllCalls(ChangeRule(add, g, Encode(rule)), RuleCalls(env, add, ids, ps));
    }
  }

  lemma {:induction false} ChangeInGroupsCalls(env: Env, add: bool, groups: seq<string>, rules: seq<SecurityGroupRule>,
                                               ids: set<string>, ps: set<Permission>)
    requires (forall g :: g in groups ==> Touched(env, g, ids)) && Encoded(rules) <= ps
    ensures AllCalls(ChangeInGroups(add, groups, rules), RuleCalls(env, add, ids, ps))
  {
    if groups != [] {
      ChangeInGroupsCalls(env, add, groups[..|groups| - 1], rules, ids, ps);
      ChangeInGroupCalls(env, add, groups[|groups| - 1], rules, ids, ps);
    }
  }

  lemma RulePlanCalls(env: Env, add: bool, lb: ElasticLoadBalancer, instances: seq<Instance>)
    ensures AllCalls(RulePlan(env, add, lb, instances), RuleCalls(env, add, Elems(Ids(instances)), Permissions(lb)))
  {
    if RulesOf(lb).Ok? {
      var groups := GroupsOf(env, Ids(instances));
      forall g | g in groups ensures Touched(env, g, Elems(Ids(instances))) {
        TouchingMembers(env.list(env.members.Keys), env.members, Ids(instances), g);
      }
      ChangeInGroupsCalls(env, add, groups, RulesOf(lb).value, Elems(Ids(instances)), Permissions(lb));
    }
  }

  /** Only rules changed since `from`, and of each group only towards `goal`. */
  ghost predicate Between(w: World, from: World, goal: RuleMap) {
    && w == from.(rules := w.rules)
    && w.rules.Keys == from.rules.Keys == goal.Keys
    && forall g :: g in w.rules ==>
         && from.rules[g] * goal[g] <= w.rules[g] <= from.rules[g] + goal[g]
  }

  ghost function TowardsRules(from: World, goal: RuleMap): World -> bool {
    (w: World) => Between(w, from, goal)
  }

  lemma RuleCallStaysBetween(env: Env, add: bool, ids: set<string>, ps: set<Permission>, from: World, w: World,
                             call: Call)
    requires var goal := Adjust(env, from.rules, add, ids, ps); Between(w, from, goal)
    requires RuleCalls(env, add, ids, ps)(call) && (call.Authorize? || call.Revoke?) && Apply(env, w, call).Ok?
    ensures Between(Apply(env, w, call).value, from, Adjust(env, from.rules, add, ids, ps))
  {
    var goal := Adjust(env, from.rules, add, ids, ps);
    assert call.group in w.rules && call.group in goal;
  }

  lemma RuleCallsStayBetween(env: Env, add: bool, ids: set<string>, ps: set<Permission>, from: World)
    ensures Preserved(env, RuleCalls(env, add, ids, ps), TowardsRules(from, Adjust(env, from.rules, add, ids, ps)))
  {
    var goal := Adjust(env, from.rules, add, ids, ps);
    forall w, call | RuleCalls(env, add, ids, ps)(call) && Between(w, from, goal) && Apply(env, w, call).Ok?
      ensures Between(Apply(env, w, call).value, from, goal)
    {
      if call.Authorize? || call.Revoke? {
        RuleCallStaysBetween(env, add, ids, ps, from, w, call);
      }
    }
  }

  /**
   * Allowing or denying the rules of a listener is exact: if it reports success, the rules are
   * added to or removed from precisely the groups that hold a listed instance, whichever were
   * there before; without faults it succeeds; and in every state of a run, even one that stops
   * half way, each group lies between where it began and where it should end.
   */
  lemma AllowAndDenyAreExact(c: Ctx, r: Run, add: bool, lb: ElasticLoadBalancer, instances: seq<Instance>)
    requires WorldOK(c.env, r.world) && EnvOK(c.env) && r.out.Done? && RulesOf(lb).Ok?
    ensures var r1 := Exec(c, r, RulePlan(c.env, add, lb, instances));
            var goal := Adjust(c.env, r.world.rules, add, Elems(Ids(instances)), Permissions(lb));
            && (r1.out.Done? ==> r1.world == r.world.(rules := goal))
            && (FaultFree(c, r.clock, r1.clock) ==> r1.out.Done?)
            && AllStates(NewEvents(r, r1), TowardsRules(r.world, goal))
            && Between(r1.world, r.world, goal)
  {
    var plan, ids := RulePlan(c.env, add, lb, instances), Elems(Ids(instances));
    var goal := Adjust(c.env, r.world.rules, add, ids, Permissions(lb));
    RulePlanIdeal(c.env, r.world, add, lb, instances);
    RulePlanCalls(c.env, add, lb, instances);
    RuleCallsStayBetween(c.env, add, ids, Permissions(lb), r.world);
    ExecInvariant(c, r, plan, RuleCalls(c.env, add, ids, Permissions(lb)), TowardsRules(r.world, goal));
    if Exec(c, r, plan).out.Done? {
      ExecDone(c, r, plan);
    }
    if FaultFree(c, r.clock, Exec(c, r, plan).clock) {
      ExecFaultFree(c, r, plan);
    }
  }

  /** Doing it twice is doing it once. */
  lemma AllowAndDenyAreIdempotent(c: Ctx, r: Run, add: bool, lb: ElasticLoadBalancer, instances: seq<Instance>)
    requires WorldOK(c.env, r.world) && EnvOK(c.env) && r.out.Done? && RulesOf(lb).Ok?
    ensures var plan := RulePlan(c.env, add, lb, instances);
            var r1 := Exec(c, r, plan);
            r1.out.Done? ==> Exec(c, r1, plan).world == r1.world
  {
    var plan, ids := RulePlan(c.env, add, lb, instances), Elems(Ids(instances));
    var r1 := Exec(c, r, plan);
    if r1.out.Done? {
      var goal := Adjust(c.env, r.world.rules, add, ids, Permissions(lb));
      AllowAndDenyAreExact(c, r, add, lb, instances);
      ExecKeepsWorldOK(c, r, plan);
      AllowAndDenyAreExact(c, r1, add, lb, instances);
      AdjustTwice(c.env, r.world.rules, add, ids, Permissions(lb), Permissions(lb));
      assert Permissions(lb) + Permissions(lb) == Permissions(lb);
      BetweenSame(Exec(c, r1, plan).world, r1.world, goal);
    }
  }

  lemma BetweenSame(w: World, from: World, goal: RuleMap)
    requires Between(w, from, goal) && goal == from.rules
    ensures w == from
  {
    forall g | g in w.rules ensures w.rules[g] == from.rules[g] {
    }
    assert w.rules == from.rules;
  }
}
