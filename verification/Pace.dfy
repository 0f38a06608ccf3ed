/** The order of requests: what a run asks for after it made a listener or changed a rule. */
module Pace {
  import opened Base
  import opened Cloud
  import opened Runs
  import opened Rules
  import Differences
  import L4Plan
  import ElbPlan

  // ---------------------------------------------------------------- a run makes the requests of its plan

  /** The requests of a plan that runs to its end. */
  function Calls(plan: Plan): seq<Call> {
    match plan
    case Skip => []
    case Act(a) => if a.Ask? then [a.call] else []
    case Then(p, q) => Calls(p) + Calls(q)
  }

  function CallsMade(log: seq<Event>): (r: seq<Call>)
    ensures |r| == |log|
  {
    seq(|log|, i requires 0 <= i < |log| => log[i].call)
  }

  lemma CallsMadeAppend(r0: Run, r1: Run, r2: Run)
    requires Continues(r0, r1) && Continues(r1, r2)
    ensures CallsMade(NewEvents(r0, r2)) == CallsMade(NewEvents(r0, r1)) + CallsMade(NewEvents(r1, r2))
  {
    ContinuesTransitive(r0, r1, r2);
  }

  /** Whatever fails, a run makes the requests of its plan in order, up to where it stops. */
  lemma {:induction false} ExecCalls(c: Ctx, r: Run, plan: Plan)
    ensures CallsMade(NewEvents(r, Exec(c, r, plan))) <= Calls(plan)
    ensures Exec(c, r, plan).out.Done? ==> CallsMade(NewEvents(r, Exec(c, r, plan))) == Calls(plan)
    decreases plan
  {
    match plan
    case Skip =>
    case Act(a) =>
      assert r.out.Done? && a.Ask? ==> NewEvents(r, Exec(c, r, plan))[0].call == a.call;
    case Then(p, q) =>
      var r1 := Exec(c, r, p);
      ExecCalls(c, r, p);
      ExecContinues(c, r, p);
      ExecContinues(c, r1, q);
      CallsMadeAppend(r, r1, Exec(c, r1, q));
      if r1.out.Done? {
        ExecCalls(c, r1, q);
      } else {
        ExecAfterFailure(c, r1, q);
      }
  }

  // ---------------------------------------------------------------- what follows what

  predicate Makes(op: ElbOp) {
    op.ElbCreate? || op.ElbAddPort?
  }

  predicate MakesL4(op: L4Op) {
    op.L4Create? || op.L4AddPort?
  }

  /** How many of the requests after this one belong to it. */
  function Sequel(call: Call): nat {
    match call
    case Elb(_, op) => if Makes(op) then 5 else if op.ElbAttach? || op.ElbDetach? || op.ElbRemovePort? then 1 else 0
    case L4(_, op) => if MakesL4(op) then 3 else 0
    case Authorize(_, _) => 1
    case Revoke(_, _) => 1
    case _ => 0
  }

  /**
   * Whether `next` may stand `n` requests behind `call`. A new elastic listener is awaited, gets
   * its health check, is awaited, gets its instances and is awaited; where instances come or go, or
   * a listener goes, the rules are next; a new L4 listener gets its health check, its instances and
   * its filter; a changed security group is awaited.
   */
  predicate MayFollow(call: Call, n: nat, next: Call) {
    match call
    case Elb(name, op) =>
      if Makes(op) then
        && (n in {1, 3, 5} ==> next == Elb(name, ElbWait))
        && (n == 2 ==> next.Elb? && next.name == name && next.elbop.ElbHealth? && next.elbop.key == op.key)
        && (n == 4 ==> next.Elb? && next.name == name && next.elbop.ElbAttach? && next.elbop.key == op.key)
      else if op.ElbAttach? then n == 1 ==> next == ListGroups || next == Elb(name, ElbWait)
      else if op.ElbDetach? || op.ElbRemovePort? then n == 1 ==> next == ListGroups
      else true
    case L4(name, op) =>
      MakesL4(op) ==>
        && (n == 1 ==> next.L4? && next.name == name && next.l4op.L4Health? && next.l4op.key == op.key)
        && (n == 2 ==> next.L4? && next.name == name && next.l4op.L4Attach? && next.l4op.key == op.key)
        && (n == 3 ==> next.L4? && next.name == name && next.l4op.L4SetFilter? && next.l4op.key == op.key)
    case Authorize(group, _) => n == 1 ==> next == WaitGroup(group)
    case Revoke(group, _) => n == 1 ==> next == WaitGroup(group)
    case _ => true
  }

  /** What has to follow a request does follow it, as far as the requests go. */
  predicate Paced(calls: seq<Call>) {
    forall i, j :: 0 <= i < j < |calls| ==> MayFollow(calls[i], j - i, calls[j])
  }

  /** The same, and nothing that has to follow is missing. */
  predicate Whole(calls: seq<Call>) {
    Paced(calls) && forall i :: 0 <= i < |calls| ==> i + Sequel(calls[i]) < |calls|
  }

  lemma FarApart(call: Call, n: nat, next: Call)
    requires n > Sequel(call)
    ensures MayFollow(call, n, next)
  {
  }

  lemma WholeAppend(a: seq<Call>, b: seq<Call>)
    requires Whole(a) && Paced(b)
    ensures Paced(a + b) && (Whole(b) ==> Whole(a + b))
  {
    forall i, j | 0 <= i < j < |a + b| ensures MayFollow((a + b)[i], j - i, (a + b)[j]) {
      if i < |a| <= j {
        FarApart(a[i], j - i, b[j - |a|]);
      }
    }
  }

  lemma WholeThen(p: Plan, q: Plan)
    requires Whole(Calls(p)) && Whole(Calls(q))
    ensures Whole(Calls(Then(p, q)))
  {
    WholeAppend(Calls(p), Calls(q));
  }

  lemma PacedPrefix(a: seq<Call>, whole: seq<Call>)
    requires a <= whole && Paced(whole)
    ensures Paced(a)
  {
    forall i, j | 0 <= i < j < |a| ensures MayFollow(a[i], j - i, a[j]) {
      assert a[i] == whole[i] && a[j] == whole[j];
    }
  }

  lemma OneCall(call: Call)
    requires Sequel(call) == 0
    ensures Whole([call])
  {
  }

  /** A run of a whole plan is paced wherever it stops, and whole if it does not. */
  lemma RunIsPaced(c: Ctx, r: Run, plan: Plan)
    requires Whole(Calls(plan))
    ensures Paced(CallsMade(NewEvents(r, Exec(c, r, plan))))
    ensures Continues(r, Exec(c, r, plan))
  {
    ExecCalls(c, r, plan);
    ExecContinues(c, r, plan);
    PacedPrefix(CallsMade(NewEvents(r, Exec(c, r, plan))), Calls(plan));
  }

  /** A look that found nothing, and a run that goes on from there. */
  lemma PacedAfter(r: Run, r1: Run, r2: Run)
    requires Continues(r, r1) && Continues(r1, r2)
    requires Whole(CallsMade(NewEvents(r, r1))) && Paced(CallsMade(NewEvents(r1, r2)))
    ensures Paced(CallsMade(NewEvents(r, r2)))
  {
    CallsMadeAppend(r, r1, r2);
    WholeAppend(CallsMade(NewEvents(r, r1)), CallsMade(NewEvents(r1, r2)));
  }

  // ---------------------------------------------------------------- L4 plans

  lemma FourCalls(call: Call, second: Call, third: Call, fourth: Call)
    requires call.L4? && Sequel(second) == Sequel(third) == Sequel(fourth) == 0
    requires MayFollow(call, 1, second) && MayFollow(call, 2, third) && MayFollow(call, 3, fourth)
    ensures Whole([call, second, third, fourth])
  {
    var calls := [call, second, third, fourth];
    forall i, j | 0 <= i < j < |calls| ensures MayFollow(calls[i], j - i, calls[j]) {
      if i > 0 {
        FarApart(calls[i], j - i, calls[j]);
      }
    }
  }

  lemma FilledL4(call: Call, lb: L4Plan.LoadBalancer)
    requires call.L4? && call.name == lb.name && MakesL4(call.l4op) && call.l4op.key == L4Plan.KeyOf(lb)
    ensures Whole([call] + Calls(L4Plan.FillSteps(lb)))
  {
    var k, steps := L4Plan.KeyOf(lb), L4Plan.FillSteps(lb);
    assert Calls(steps.first) == [L4(lb.name, L4Health(k, L4Plan.CheckOf(lb)))];
    assert Calls(steps.next.first) == [L4(lb.name, L4Attach(k, Differences.Ids(lb.balancingTargets)))];
    assert Calls(steps.next.next) == [L4(lb.name, L4SetFilter(k, L4Plan.Sent(L4Plan.Changes(lb.filters, true))))];
    assert Calls(steps) == Calls(steps.first) + (Calls(steps.next.first) + Calls(steps.next.next));
    FourCalls(call, Calls(steps.first)[0], Calls(steps.next.first)[0], Calls(steps.next.next)[0]);
    assert [call] + Calls(steps) ==
           [call, Calls(steps.first)[0], Calls(steps.next.first)[0], Calls(steps.next.next)[0]];
  }

  lemma {:induction false} RegisterAllL4(lbs: seq<L4Plan.LoadBalancer>)
    ensures Whole(Calls(L4Plan.RegisterAll(lbs)))
  {
    if lbs != [] {
      var lb := lbs[|lbs| - 1];
      RegisterAllL4(lbs[..|lbs| - 1]);
      FilledL4(L4(lb.name, L4AddPort(L4Plan.KeyOf(lb))), lb);
      WholeThen(L4Plan.RegisterAll(lbs[..|lbs| - 1]), L4Plan.RegisterSteps(lb));
    }
  }

  lemma {:induction false} DeleteAllL4(lbs: seq<L4Plan.LoadBalancer>)
    ensures Whole(Calls(L4Plan.DeleteAll(lbs)))
  {
    if lbs != [] {
      var lb := lbs[|lbs| - 1];
      DeleteAllL4(lbs[..|lbs| - 1]);
      OneCall(L4(lb.name, L4RemovePort(L4Plan.KeyOf(lb))));
      WholeThen(L4Plan.DeleteAll(lbs[..|lbs| - 1]), L4Plan.On(lb.name, L4RemovePort(L4Plan.KeyOf(lb))));
    }
  }

  lemma ListenerL4(d: L4Plan.LoadBalancer, cur: L4Plan.LoadBalancer)
    ensures Whole(Calls(L4Plan.ListenerPlan(d, cur)))
  {
    WholeThen(L4Plan.DetachPlan(d, cur), L4Plan.FilterPlan(d, cur));
    WholeThen(L4Plan.AttachPlan(d, cur), Then(L4Plan.DetachPlan(d, cur), L4Plan.FilterPlan(d, cur)));
  }

  lemma {:induction false} ReconcileAllL4(desire: seq<L4Plan.LoadBalancer>, current: seq<L4Plan.LoadBalancer>)
    ensures Whole(Calls(L4Plan.ReconcileAll(desire, current)))
  {
    if current != [] {
      var lb := current[|current| - 1];
      ReconcileAllL4(desire, current[..|current| - 1]);
      var d := Differences.Find(desire, lb, L4Plan.LoadBalancerEquals);
      if d.Some? {
        ListenerL4(d.value, lb);
      }
      WholeThen(L4Plan.ReconcileAll(desire, current[..|current| - 1]), L4Plan.PlanFor(desire, lb));
    }
  }

  lemma PortsL4(name: string, desire: seq<L4Plan.LoadBalancer>, current: seq<L4Plan.LoadBalancer>)
    ensures Whole(Calls(L4Plan.PortPlan(name, desire, current)))
  {
    var add, drop := L4Plan.ToCreate(desire, current), L4Plan.ToDelete(desire, current);
    RegisterAllL4(add);
    DeleteAllL4(drop);
    WholeThen(L4Plan.RegisterAll(add), L4Plan.DeleteAll(drop));
    OneCall(L4(name, L4Look));
    WholeThen(Then(L4Plan.RegisterAll(add), L4Plan.DeleteAll(drop)),
              if add == [] && drop == [] then Skip else L4Plan.On(name, L4Look));
  }

  lemma CreatedIsPacedL4(c: Ctx, r: Run, name: string, desire: seq<L4Plan.LoadBalancer>)
    requires desire != []
    ensures var r' := L4Plan.EnsureCreated(c, r, name, desire).run;
            Continues(r, r') && Paced(CallsMade(NewEvents(r, r')))
  {
    var lb := desire[0];
    var plan := Then(L4Plan.CreateSteps(lb), L4Plan.RegisterAll(desire[1..]));
    FilledL4(L4(lb.name, L4Create(L4Plan.KeyOf(lb))), lb);
    RegisterAllL4(desire[1..]);
    WholeThen(L4Plan.CreateSteps(lb), L4Plan.RegisterAll(desire[1..]));
    RunIsPaced(c, r, plan);
  }

  lemma UpdatedIsPacedL4(c: Ctx, r: Run, name: string, desire: seq<L4Plan.LoadBalancer>)
    ensures var r' := L4Plan.EnsureUpdated(c, r, name, desire).run;
            Continues(r, r') && Paced(CallsMade(NewEvents(r, r')))
  {
    var plan := L4Plan.PortPlan(name, desire, L4Plan.ViewOf(c.env, r.world, name));
    var plan2 := L4Plan.ReconcileAll(desire, L4Plan.ViewOf(c.env, Exec(c, r, plan).world, name));
    PortsL4(name, desire, L4Plan.ViewOf(c.env, r.world, name));
    ReconcileAllL4(desire, L4Plan.ViewOf(c.env, Exec(c, r, plan).world, name));
    WholeThen(plan, plan2);
    RunIsPaced(c, r, Then(plan, plan2));
  }

  /**
   * In every run on an L4 balancer, failing runs included, the requests that follow the making of
   * a listener are its health check, its instances and its filter, in this order and with nothing
   * between them.
   */
  lemma L4RunsArePaced(c: Ctx, r: Run, name: string, desire: seq<L4Plan.LoadBalancer>)
    requires r.out.Done?
    ensures Paced(CallsMade(NewEvents(r, L4Plan.EnsureL4(c, r, name, desire).run)))
  {
    var r1 := Exec(c, r, L4Plan.On(name, L4Look));
    OneCall(L4(name, L4Look));
    ExecContinues(c, r, L4Plan.On(name, L4Look));
    assert CallsMade(NewEvents(r, r1)) == [L4(name, L4Look)];
    if desire == [] {
      assert NewEvents(r, r) == [];
    } else if r1.out == Failed(BalancerNotFound) {
      CreatedIsPacedL4(c, r1.(out := Done), name, desire);
      PacedAfter(r, r1.(out := Done), L4Plan.EnsureL4(c, r, name, desire).run);
    } else if r1.out.Done? {
      UpdatedIsPacedL4(c, r1, name, desire);
      PacedAfter(r, r1, L4Plan.EnsureL4(c, r, name, desire).run);
    }
  }

  // ---------------------------------------------------------------- elastic plans

  lemma SixCalls(call: Call, wait: Call, check: Call, attach: Call)
    requires call.Elb? && Makes(call.elbop) && Sequel(wait) == Sequel(check) == 0
    requires attach.Elb? && attach.elbop.ElbAttach? && MayFollow(attach, 1, wait)
    requires MayFollow(call, 1, wait) && MayFollow(call, 2, check) && MayFollow(call, 3, wait)
    requires MayFollow(call, 4, attach) && MayFollow(call, 5, wait)
    ensures Whole([call, wait, check, wait, attach, wait])
  {
    var calls := [call, wait, check, wait, attach, wait];
    forall i, j | 0 <= i < j < |calls| ensures MayFollow(calls[i], j - i, calls[j]) {
      if i > 0 && i != 4 {
        FarApart(calls[i], j - i, calls[j]);
      }
    }
  }

  lemma Filled(call: Call, lb: ElasticLoadBalancer)
    requires call.Elb? && call.name == lb.name && Makes(call.elbop) && call.elbop.key == ElbPlan.KeyOf(lb)
    ensures Whole([call] + Calls(ElbPlan.FillSteps(lb)))
  {
    var k, wait, steps := ElbPlan.KeyOf(lb), Elb(lb.name, ElbWait), ElbPlan.FillSteps(lb);
    var check, attach := Elb(lb.name, ElbHealth(k, lb.healthCheckTarget)),
                         Elb(lb.name, ElbAttach(k, Differences.Ids(lb.balancingTargets)));
    assert Calls(steps.first) == Calls(steps.next.first.next) == Calls(steps.next.next.next) == [wait];
    assert Calls(steps.next.first.first) == [check] && Calls(steps.next.next.first) == [attach];
    assert Calls(steps.next.first) == [check] + [wait] && Calls(steps.next.next) == [attach] + [wait];
    assert Calls(steps.next) == ([check] + [wait]) + ([attach] + [wait]);
    assert Calls(steps) == [wait] + (([check] + [wait]) + ([attach] + [wait]));
    SixCalls(call, wait, check, attach);
    assert [call] + Calls(steps) == [call, wait, check, wait, attach, wait];
  }

  lemma FirstOf(call: Call, calls: seq<Call>)
    requires Whole(calls) && Sequel(call) <= 1 && calls != [] && MayFollow(call, 1, calls[0])
    ensures Whole([call] + calls)
  {
    var all := [call] + calls;
    forall i, j | 0 <= i < j < |all| ensures MayFollow(all[i], j - i, all[j]) {
      if i == 0 && j > 1 {
        FarApart(call, j, all[j]);
      } else if i > 0 {
        assert all[i] == calls[i - 1] && all[j] == calls[j - 1];
      }
    }
  }

  lemma RuleAndWait(add: bool, group: string, p: Permission)
    ensures Whole(Calls(Then(ElbPlan.ChangeRule(add, group, p), Act(Ask(WaitGroup(group), None)))))
  {
    var call := if add then Authorize(group, p) else Revoke(group, p);
    OneCall(WaitGroup(group));
    FirstOf(call, [WaitGroup(group)]);
    assert Calls(ElbPlan.ChangeRule(add, group, p)) == [call];
  }

  lemma {:induction false} RulesInGroup(add: bool, group: string, rules: seq<SecurityGroupRule>)
    ensures Whole(Calls(ElbPlan.ChangeInGroup(add, group, rules)))
  {
    if rules != [] {
      var init, p := rules[..|rules| - 1], Encode(rules[|rules| - 1]);
      RulesInGroup(add, group, init);
      RuleAndWait(add, group, p);
      WholeThen(ElbPlan.ChangeInGroup(add, group, init),
                Then(ElbPlan.ChangeRule(add, group, p), Act(Ask(WaitGroup(group), None))));
    }
  }

  lemma {:induction false} RulesInGroups(add: bool, groups: seq<string>, rules: seq<SecurityGroupRule>)
    ensures Whole(Calls(ElbPlan.ChangeInGroups(add, groups, rules)))
  {
    if groups != [] {
      RulesInGroups(add, groups[..|groups| - 1], rules);
      RulesInGroup(add, groups[|groups| - 1], rules);
      WholeThen(ElbPlan.ChangeInGroups(add, groups[..|groups| - 1], rules),
                ElbPlan.ChangeInGroup(add, groups[|groups| - 1], rules));
    }
  }

  lemma RulesOfListener(env: Env, add: bool, lb: ElasticLoadBalancer, instances: seq<Instance>)
    ensures Whole(Calls(ElbPlan.RulePlan(env, add, lb, instances)))
  {
    var ids := Differences.Ids(instances);
    OneCall(ListGroups);
    match RulesOf(lb) {
      case Err(e) => WholeThen(Act(Ask(ListGroups, None)), Act(Stop(e)));
      case Ok(rules) =>
        RulesInGroups(add, ElbPlan.GroupsOf(env, ids), rules);
        WholeThen(Act(Ask(ListGroups, None)), ElbPlan.ChangeInGroups(add, ElbPlan.GroupsOf(env, ids), rules));
    }
  }

  /** What makes rules necessary or not, with the rules behind it. */
  lemma RulesFollow(env: Env, name: string, op: ElbOp, add: bool, lb: ElasticLoadBalancer, instances: seq<Instance>)
    requires op.ElbAttach? || op.ElbDetach? || op.ElbRemovePort?
    ensures Whole(Calls(Then(ElbPlan.On(name, op), ElbPlan.RulePlan(env, add, lb, instances))))
  {
    var rules := Calls(ElbPlan.RulePlan(env, add, lb, instances));
    RulesOfListener(env, add, lb, instances);
    assert rules[0] == ListGroups;
    assert Calls(Then(ElbPlan.On(name, op), ElbPlan.RulePlan(env, add, lb, instances))) == [Elb(name, op)] + rules;
    FirstOf(Elb(name, op), rules);
  }

  lemma {:induction false} RegisterAll(env: Env, lbs: seq<ElasticLoadBalancer>)
    ensures Whole(Calls(ElbPlan.RegisterAll(env, lbs)))
  {
    if lbs != [] {
      var lb := lbs[|lbs| - 1];
      RegisterAll(env, lbs[..|lbs| - 1]);
      Filled(Elb(lb.name, ElbAddPort(ElbPlan.KeyOf(lb))), lb);
      RulesOfListener(env, true, lb, lb.balancingTargets);
      WholeThen(ElbPlan.RegisterSteps(lb), ElbPlan.RulePlan(env, true, lb, lb.balancingTargets));
      WholeThen(ElbPlan.RegisterAll(env, lbs[..|lbs| - 1]),
                Then(ElbPlan.RegisterSteps(lb), ElbPlan.RulePlan(env, true, lb, lb.balancingTargets)));
    }
  }

  lemma {:induction false} DeleteAll(env: Env, lbs: seq<ElasticLoadBalancer>)
    ensures Whole(Calls(ElbPlan.DeleteAll(env, lbs)))
  {
    if lbs != [] {
      var lb := lbs[|lbs| - 1];
      var remove := ElbPlan.On(lb.name, ElbRemovePort(ElbPlan.KeyOf(lb)));
      DeleteAll(env, lbs[..|lbs| - 1]);
      RulesFollow(env, lb.name, ElbRemovePort(ElbPlan.KeyOf(lb)), false, lb, lb.balancingTargets);
      WholeThen(ElbPlan.DeleteAll(env, lbs[..|lbs| - 1]),
                Then(remove, ElbPlan.RulePlan(env, false, lb, lb.balancingTargets)));
    }
  }

  lemma TargetsOfListener(env: Env, d: ElasticLoadBalancer, cur: ElasticLoadBalancer)
    ensures Whole(Calls(ElbPlan.AttachPlan(env, d, cur))) && Whole(Calls(ElbPlan.DetachPlan(env, d, cur)))
  {
    var add := Differences.Missing(d.balancingTargets, cur.balancingTargets, Differences.InstanceEquals);
    var drop := Differences.Missing(cur.balancingTargets, d.balancingTargets, Differences.InstanceEquals);
    var k := ElbPlan.KeyOf(cur);
    RulesFollow(env, cur.name, ElbAttach(k, Differences.Ids(add)), true, cur, add);
    RulesFollow(env, cur.name, ElbDetach(k, Differences.Ids(drop)), false, cur, drop);
  }

  lemma {:induction false} ReconcileAll(env: Env, desire: seq<ElasticLoadBalancer>, current: seq<ElasticLoadBalancer>)
    ensures Whole(Calls(ElbPlan.ReconcileAll(env, desire, current)))
  {
    if current != [] {
      var lb := current[|current| - 1];
      ReconcileAll(env, desire, current[..|current| - 1]);
      var d := Differences.Find(desire, lb, ElbPlan.ElbEquals);
      if d.Some? {
        TargetsOfListener(env, d.value, lb);
        WholeThen(ElbPlan.AttachPlan(env, d.value, lb), ElbPlan.DetachPlan(env, d.value, lb));
      }
      WholeThen(ElbPlan.ReconcileAll(env, desire, current[..|current| - 1]), ElbPlan.PlanFor(env, desire, lb));
    }
  }

  lemma Ports(env: Env, name: string, desire: seq<ElasticLoadBalancer>, current: seq<ElasticLoadBalancer>)
    ensures Whole(Calls(ElbPlan.PortPlan(env, name, desire, current)))
  {
    var add, drop := ElbPlan.ToCreate(desire, current), ElbPlan.ToDelete(desire, current);
    RegisterAll(env, add);
    DeleteAll(env, drop);
    WholeThen(ElbPlan.RegisterAll(env, add), ElbPlan.DeleteAll(env, drop));
    OneCall(Elb(name, ElbLook));
    WholeThen(Then(ElbPlan.RegisterAll(env, add), ElbPlan.DeleteAll(env, drop)),
              if add == [] && drop == [] then Skip else ElbPlan.On(name, ElbLook));
  }

  lemma CreatedIsPaced(c: Ctx, r: Run, name: string, desire: seq<ElasticLoadBalancer>)
    requires desire != []
    ensures var r' := ElbPlan.EnsureCreated(c, r, name, desire).run;
            Continues(r, r') && Paced(CallsMade(NewEvents(r, r')))
  {
    var lb := desire[0];
    var plan1 := Then(ElbPlan.CreateSteps(lb), ElbPlan.On(name, ElbLook));
    var view := ElbPlan.ViewOf(c.env, Exec(c, r, plan1).world, name);
    var placed := ElbPlan.PlacedAll(desire, ElbPlan.FirstVip(view), ElbPlan.FirstNics(view));
    var rules := ElbPlan.RulePlan(c.env, true, placed[0], placed[0].balancingTargets);
    Filled(Elb(lb.name, ElbCreate(ElbPlan.KeyOf(lb), lb.networkInterfaces)), lb);
    OneCall(Elb(name, ElbLook));
    WholeThen(ElbPlan.CreateSteps(lb), ElbPlan.On(name, ElbLook));
    RulesOfListener(c.env, true, placed[0], placed[0].balancingTargets);
    RegisterAll(c.env, placed[1..]);
    WholeThen(rules, ElbPlan.RegisterAll(c.env, placed[1..]));
    WholeThen(plan1, Then(rules, ElbPlan.RegisterAll(c.env, placed[1..])));
    assert Exec(c, Exec(c, r, plan1), Then(rules, ElbPlan.RegisterAll(c.env, placed[1..]))) ==
           Exec(c, Exec(c, Exec(c, r, plan1), rules), ElbPlan.RegisterAll(c.env, placed[1..]));
    RunIsPaced(c, r, Then(plan1, Then(rules, ElbPlan.RegisterAll(c.env, placed[1..]))));
  }

  lemma UpdatedIsPaced(c: Ctx, r: Run, name: string, desire: seq<ElasticLoadBalancer>)
    ensures var r' := ElbPlan.EnsureUpdated(c, r, name, desire).run;
            Continues(r, r') && Paced(CallsMade(NewEvents(r, r')))
  {
    var view := ElbPlan.ViewOf(c.env, r.world, name);
    var placed := ElbPlan.PlacedAll(desire, ElbPlan.FirstVip(view), ElbPlan.FirstNics(view));
    var plan := ElbPlan.PortPlan(c.env, name, placed, view);
    var current := ElbPlan.ViewOf(c.env, Exec(c, r, plan).world, name);
    Ports(c.env, name, placed, view);
    ReconcileAll(c.env, placed, current);
    WholeThen(plan, ElbPlan.ReconcileAll(c.env, placed, current));
    RunIsPaced(c, r, Then(plan, ElbPlan.ReconcileAll(c.env, placed, current)));
  }

  /**
   * In every run on an elastic balancer, failing runs included, a listener that was made is
   * awaited, gets its health check, is awaited, gets its instances and is awaited before anything
   * else is asked for, and each change of a rule is followed by a wait for its group.
   */
  lemma ElasticRunsArePaced(c: Ctx, r: Run, name: string, desire: seq<ElasticLoadBalancer>)
    requires r.out.Done?
    ensures Paced(CallsMade(NewEvents(r, ElbPlan.EnsureElb(c, r, name, desire).run)))
  {
    var r1 := Exec(c, r, ElbPlan.On(name, ElbLook));
    OneCall(Elb(name, ElbLook));
    ExecContinues(c, r, ElbPlan.On(name, ElbLook));
    assert CallsMade(NewEvents(r, r1)) == [Elb(name, ElbLook)];
    if desire == [] {
      assert NewEvents(r, r) == [];
    } else if r1.out == Failed(BalancerNotFound) {
      CreatedIsPaced(c, r1.(out := Done), name, desire);
      PacedAfter(r, r1.(out := Done), ElbPlan.EnsureElb(c, r, name, desire).run);
    } else if r1.out.Done? {
      UpdatedIsPaced(c, r1, name, desire);
      PacedAfter(r, r1, ElbPlan.EnsureElb(c, r, name, desire).run);
    }
  }

  /** The same for deletions. */
  lemma ElasticDeletionsArePaced(c: Ctx, r: Run, name: string)
    requires r.out.Done?
    ensures Paced(CallsMade(NewEvents(r, ElbPlan.DeleteElb(c, r, name).run)))
  {
    var look := ElbPlan.On(name, ElbLook);
    var r1 := Exec(c, r, look);
    OneCall(Elb(name, ElbLook));
    DeleteAll(c.env, ElbPlan.ViewOf(c.env, r1.world, name));
    WholeThen(look, ElbPlan.DeleteAll(c.env, ElbPlan.ViewOf(c.env, r1.world, name)));
    RunIsPaced(c, r, Then(look, ElbPlan.DeleteAll(c.env, ElbPlan.ViewOf(c.env, r1.world, name))));
    assert CallsMade(NewEvents(r, r1)) == [Elb(name, ElbLook)];
  }
}
