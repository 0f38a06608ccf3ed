/** What the controller asks of the cloud to bring an elastic load balancer to its desired form. */
module ElbPlan {
  import opened Base
  import opened Cloud
  import opened Runs
  import opened Differences
  import opened Rules

  predicate ElbEquals(lb: ElasticLoadBalancer, other: ElasticLoadBalancer) {
    && lb.name == other.name
    && lb.loadBalancerPort == other.loadBalancerPort
    && lb.instancePort == other.instancePort
  }

  function KeyOf(lb: ElasticLoadBalancer): Key {
    Key(lb.loadBalancerPort, lb.instancePort)
  }

  function KeySeq(lbs: seq<ElasticLoadBalancer>): (r: seq<Key>)
    ensures |r| == |lbs|
  {
    seq(|lbs|, i requires 0 <= i < |lbs| => KeyOf(lbs[i]))
  }

  function IdSet(lb: ElasticLoadBalancer): set<string> {
    Elems(Ids(lb.balancingTargets))
  }

  // ---------------------------------------------------------------- what the cloud shows

  function ViewListener(env: Env, name: string, b: ElbBalancer, k: Key, targets: set<string>): ElasticLoadBalancer {
    ElasticLoadBalancer("", name, b.vip, "", "TCP", 0, 0, ViewInstances(env, env.list(targets)),
                        k.port, k.instancePort, if k in b.at then b.at[k].health else "", 0, 0, b.nics)
  }

  /** The instances the client reads for every listener: those of the first one. */
  function FirstTargets(b: ElbBalancer): set<string> {
    if b.order != [] && b.order[0] in b.at then b.at[b.order[0]].targets else {}
  }

  /** The flattened view: one entry a listener, all with the instances of the first. */
  function View(env: Env, name: string, b: ElbBalancer): (r: seq<ElasticLoadBalancer>)
    ensures |r| == |b.order|
  {
    seq(|b.order|, i requires 0 <= i < |b.order| => ViewListener(env, name, b, b.order[i], FirstTargets(b)))
  }

  function ViewOf(env: Env, w: World, name: string): seq<ElasticLoadBalancer> {
    if name in w.elb then View(env, name, w.elb[name]) else []
  }

  // ---------------------------------------------------------------- plans for listeners

  function On(name: string, op: ElbOp): Plan {
    Act(Ask(Elb(name, op), None))
  }

  function WaitApplied(name: string): Plan {
    On(name, ElbWait)
  }

  function FillSteps(lb: ElasticLoadBalancer): Plan {
    Then(WaitApplied(lb.name),
         Then(Then(On(lb.name, ElbHealth(KeyOf(lb), lb.healthCheckTarget)), WaitApplied(lb.name)),
              Then(On(lb.name, ElbAttach(KeyOf(lb), Ids(lb.balancingTargets))), WaitApplied(lb.name))))
  }

  function CreateSteps(lb: ElasticLoadBalancer): Plan {
    Then(On(lb.name, ElbCreate(KeyOf(lb), lb.networkInterfaces)), FillSteps(lb))
  }

  function RegisterSteps(lb: ElasticLoadBalancer): Plan {
    Then(On(lb.name, ElbAddPort(KeyOf(lb))), FillSteps(lb))
  }

  // ---------------------------------------------------------------- plans for security group rules

  /** The groups, in listing order, that hold one of the instances. */
  function Touching(groups: seq<string>, members: map<string, set<string>>, ids: seq<string>): seq<string> {
    if groups == [] then []
    else
      var rest := Touching(groups[..|groups| - 1], members, ids);
      var g := groups[|groups| - 1];
      if g in members && (exists id :: id in ids && id in members[g]) then rest + [g] else rest
  }

  function GroupsOf(env: Env, ids: seq<string>): seq<string> {
    Touching(env.list(env.members.Keys), env.members, ids)
  }

  /** Adding a rule that is there, or removing one that is not, is no failure. */
  function ChangeRule(add: bool, group: string, p: Permission): Plan {
    Act(if add then Ask(Authorize(group, p), Some(RuleDuplicate)) else Ask(Revoke(group, p), Some(RuleNotFound)))
  }

  function ChangeInGroup(add: bool, group: string, rules: seq<SecurityGroupRule>): Plan {
    if rules == [] then Skip
    else Then(ChangeInGroup(add, group, rules[..|rules| - 1]),
              Then(ChangeRule(add, group, Encode(rules[|rules| - 1])), Act(Ask(WaitGroup(group), None))))
  }

  function ChangeInGroups(add: bool, groups: seq<string>, rules: seq<SecurityGroupRule>): Plan {
    if groups == [] then Skip
    else Then(ChangeInGroups(add, groups[..|groups| - 1], rules),
              ChangeInGroup(add, groups[|groups| - 1], rules))
  }

  /** Allows (`add`) or denies the rules of a listener in every group that holds one of the instances. */
  function RulePlan(env: Env, add: bool, lb: ElasticLoadBalancer, instances: seq<Instance>): Plan {
    Then(Act(Ask(ListGroups, None)),
         match RulesOf(lb)
         case Err(e) => Act(Stop(e))
         case Ok(rules) => ChangeInGroups(add, GroupsOf(env, Ids(instances)), rules))
  }

  // ---------------------------------------------------------------- plans for a balancer

  /** A desired listener with the address and the interfaces the cloud gave its balancer. */
  function Placed(lb: ElasticLoadBalancer, vip: string, nics: seq<NetworkInterface>): ElasticLoadBalancer {
    lb.(vip := vip, networkInterfaces := nics)
  }

  function PlacedAll(lbs: seq<ElasticLoadBalancer>, vip: string, nics: seq<NetworkInterface>)
    : (r: seq<ElasticLoadBalancer>)
    ensures |r| == |lbs|
  {
    seq(|lbs|, i requires 0 <= i < |lbs| => Placed(lbs[i], vip, nics))
  }

  function RegisterAll(env: Env, lbs: seq<ElasticLoadBalancer>): Plan {
    if lbs == [] then Skip
    else
      var lb := lbs[|lbs| - 1];
      Then(RegisterAll(env, lbs[..|lbs| - 1]), Then(RegisterSteps(lb), RulePlan(env, true, lb, lb.balancingTargets)))
  }

  function DeleteAll(env: Env, lbs: seq<ElasticLoadBalancer>): Plan {
    if lbs == [] then Skip
    else
      var lb := lbs[|lbs| - 1];
      Then(DeleteAll(env, lbs[..|lbs| - 1]),
           Then(On(lb.name, ElbRemovePort(KeyOf(lb))), RulePlan(env, false, lb, lb.balancingTargets)))
  }

  function ToCreate(desire: seq<ElasticLoadBalancer>, current: seq<ElasticLoadBalancer>): seq<ElasticLoadBalancer> {
    Missing(desire, current, ElbEquals)
  }

  function ToDelete(desire: seq<ElasticLoadBalancer>, current: seq<ElasticLoadBalancer>): seq<ElasticLoadBalancer> {
    Missing(current, desire, ElbEquals)
  }

  function PortPlan(env: Env, name: string, desire: seq<ElasticLoadBalancer>, current: seq<ElasticLoadBalancer>): Plan {
    Then(Then(RegisterAll(env, ToCreate(desire, current)), DeleteAll(env, ToDelete(desire, current))),
         if ToCreate(desire, current) == [] && ToDelete(desire, current) == [] then Skip
         else On(name, ElbLook))
  }

  function AttachPlan(env: Env, desired: ElasticLoadBalancer, current: ElasticLoadBalancer): Plan {
    var toRegister := Missing(desired.balancingTargets, current.balancingTargets, InstanceEquals);
    if toRegister == [] then Skip
    else Then(On(current.name, ElbAttach(KeyOf(current), Ids(toRegister))), RulePlan(env, true, current, toRegister))
  }

  function DetachPlan(env: Env, desired: ElasticLoadBalancer, current: ElasticLoadBalancer): Plan {
    var toDeregister := Missing(current.balancingTargets, desired.balancingTargets, InstanceEquals);
    if toDeregister == [] then Skip
    else Then(On(current.name, ElbDetach(KeyOf(current), Ids(toDeregister))),
              RulePlan(env, false, current, toDeregister))
  }

  function PlanFor(env: Env, desire: seq<ElasticLoadBalancer>, lb: ElasticLoadBalancer): Plan {
    match Find(desire, lb, ElbEquals)
    case Some(d) => Then(AttachPlan(env, d, lb), DetachPlan(env, d, lb))
    case None => Act(Stop(TargetNotFound))
  }

  function ReconcileAll(env: Env, desire: seq<ElasticLoadBalancer>, current: seq<ElasticLoadBalancer>): Plan {
    if current == [] then Skip
    else Then(ReconcileAll(env, desire, current[..|current| - 1]), PlanFor(env, desire, current[|current| - 1]))
  }

  // ---------------------------------------------------------------- whole operations

  function FirstVip(view: seq<ElasticLoadBalancer>): string {
    if view == [] then "" else view[0].vip
  }

  function FirstNics(view: seq<ElasticLoadBalancer>): seq<NetworkInterface> {
    if view == [] then [] else view[0].networkInterfaces
  }

  /** Creates the first listener, looks up the address and interfaces, and adds the others. */
  function EnsureCreated(c: Ctx, r: Run, name: string, desire: seq<ElasticLoadBalancer>): Finished<string>
    requires desire != []
  {
    var r1 := Exec(c, r, Then(CreateSteps(desire[0]), On(name, ElbLook)));
    var view := ViewOf(c.env, r1.world, name);
    var placed := PlacedAll(desire, FirstVip(view), FirstNics(view));
    var r2 := Exec(c, r1, RulePlan(c.env, true, placed[0], placed[0].balancingTargets));
    Finish(Exec(c, r2, RegisterAll(c.env, placed[1..])), FirstVip(view))
  }

  /** Brings the balancer the client sees as `view` to the placed listeners. */
  function UpdateFrom(c: Ctx, r: Run, name: string, placed: seq<ElasticLoadBalancer>, view: seq<ElasticLoadBalancer>)
    : Finished<string>
  {
    var r1 := Exec(c, r, PortPlan(c.env, name, placed, view));
    var current := ViewOf(c.env, r1.world, name);
    Finish(Exec(c, r1, ReconcileAll(c.env, placed, current)), FirstVip(current))
  }

  function EnsureUpdated(c: Ctx, r: Run, name: string, desire: seq<ElasticLoadBalancer>): Finished<string> {
    var view := ViewOf(c.env, r.world, name);
    UpdateFrom(c, r, name, PlacedAll(desire, FirstVip(view), FirstNics(view)), view)
  }

  function EnsureElb(c: Ctx, r: Run, name: string, desire: seq<ElasticLoadBalancer>): Finished<string> {
    if desire == [] then Finished(r, Err(NothingDesired))
    else
      var r1 := Exec(c, r, On(name, ElbLook));
      if r1.out == Failed(BalancerNotFound) then EnsureCreated(c, r1.(out := Done), name, desire)
      else if r1.out.Failed? then Finish(r1, "")
      else EnsureUpdated(c, r1, name, desire)
  }

  function DeleteElb(c: Ctx, r: Run, name: string): Finished<()> {
    var r1 := Exec(c, r, On(name, ElbLook));
    if r1.out == Failed(BalancerNotFound) then Finished(r1.(out := Done), Ok(()))
    else Finish(Exec(c, r1, DeleteAll(c.env, ViewOf(c.env, r1.world, name))), ())
  }
}
