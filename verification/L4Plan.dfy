/** What the controller asks of the cloud to bring an L4 load balancer to its desired form. */
module L4Plan {
  import opened Base
  import opened Cloud
  import opened Runs
  import opened Differences

  /** One listener of an L4 balancer, with the options given when it is created. */
  datatype LoadBalancer = LoadBalancer(
    name: string,
    vip: string,
    accountingType: string,
    networkVolume: int,
    policyType: string,
    balancingType: int,
    balancingTargets: seq<Instance>,
    loadBalancerPort: int,
    instancePort: int,
    healthCheckTarget: string,
    healthCheckInterval: int,
    healthCheckUnhealthyThreshold: int,
    filters: seq<string>)

  predicate LoadBalancerEquals(lb: LoadBalancer, other: LoadBalancer) {
    && lb.name == other.name
    && lb.loadBalancerPort == other.loadBalancerPort
    && lb.instancePort == other.instancePort
  }

  function KeyOf(lb: LoadBalancer): Key {
    Key(lb.loadBalancerPort, lb.instancePort)
  }

  function KeySeq(lbs: seq<LoadBalancer>): (r: seq<Key>)
    ensures |r| == |lbs|
  {
    seq(|lbs|, i requires 0 <= i < |lbs| => KeyOf(lbs[i]))
  }

  // ---------------------------------------------------------------- what the cloud shows

  /** A listener without filters is listed with the wildcard address. */
  function ListedFilters(env: Env, filters: set<string>): seq<string> {
    if filters == {} then [ANY_IP_ADDRESSES] else env.list(filters)
  }

  function WithoutAny(addresses: seq<string>): seq<string> {
    Without(addresses, ANY_IP_ADDRESSES)
  }

  function ViewListener(env: Env, name: string, vip: string, k: Key, l: L4Listener): LoadBalancer {
    LoadBalancer(name, vip, "", 0, "", 0, ViewInstances(env, env.list(l.targets)),
                 k.port, k.instancePort, "", 0, 0, WithoutAny(ListedFilters(env, l.filters)))
  }

  function View(env: Env, name: string, b: L4Balancer): (r: seq<LoadBalancer>)
    ensures |r| == |b.order|
  {
    seq(|b.order|, i requires 0 <= i < |b.order| =>
      var k := b.order[i];
      ViewListener(env, name, b.vip, k, if k in b.at then b.at[k] else L4Listener({}, {})))
  }

  function ViewOf(env: Env, w: World, name: string): seq<LoadBalancer> {
    if name in w.l4 then View(env, name, w.l4[name]) else []
  }

  // ---------------------------------------------------------------- plans

  function On(name: string, op: L4Op): Plan {
    Act(Ask(L4(name, op), None))
  }

  function Changes(addresses: seq<string>, add: bool): (r: seq<Filter>)
    ensures |r| == |addresses|
  {
    seq(|addresses|, i requires 0 <= i < |addresses| => Filter(add, addresses[i]))
  }

  /** The changes that are sent: the wildcard never is. */
  function Sent(changes: seq<Filter>): seq<Filter> {
    if changes == [] then []
    else
      var rest := Sent(changes[..|changes| - 1]);
      var f := changes[|changes| - 1];
      if f.ipAddress == ANY_IP_ADDRESSES then rest else rest + [f]
  }

  /** The health check that is asked for. */
  function CheckOf(lb: LoadBalancer): HealthCheck {
    HealthCheck(lb.healthCheckTarget, lb.healthCheckInterval, lb.healthCheckUnhealthyThreshold)
  }

  /** Health check, all targets and all filters of a listener that was just made. */
  function FillSteps(lb: LoadBalancer): Plan {
    Then(On(lb.name, L4Health(KeyOf(lb), CheckOf(lb))),
         Then(On(lb.name, L4Attach(KeyOf(lb), Ids(lb.balancingTargets))),
              On(lb.name, L4SetFilter(KeyOf(lb), Sent(Changes(lb.filters, true))))))
  }

  function CreateSteps(lb: LoadBalancer): Plan {
    Then(On(lb.name, L4Create(KeyOf(lb))), FillSteps(lb))
  }

  function RegisterSteps(lb: LoadBalancer): Plan {
    Then(On(lb.name, L4AddPort(KeyOf(lb))), FillSteps(lb))
  }

  function RegisterAll(lbs: seq<LoadBalancer>): Plan {
    if lbs == [] then Skip
    else Then(RegisterAll(lbs[..|lbs| - 1]), RegisterSteps(lbs[|lbs| - 1]))
  }

  function DeleteAll(lbs: seq<LoadBalancer>): Plan {
    if lbs == [] then Skip
    else
      var lb := lbs[|lbs| - 1];
      Then(DeleteAll(lbs[..|lbs| - 1]), On(lb.name, L4RemovePort(KeyOf(lb))))
  }

  function ToCreate(desire: seq<LoadBalancer>, current: seq<LoadBalancer>): seq<LoadBalancer> {
    Missing(desire, current, LoadBalancerEquals)
  }

  function ToDelete(desire: seq<LoadBalancer>, current: seq<LoadBalancer>): seq<LoadBalancer> {
    Missing(current, desire, LoadBalancerEquals)
  }

  /** All registrations, then all deletions, then a fresh look if anything was done. */
  function PortPlan(name: string, desire: seq<LoadBalancer>, current: seq<LoadBalancer>): Plan {
    Then(Then(RegisterAll(ToCreate(desire, current)), DeleteAll(ToDelete(desire, current))),
         if ToCreate(desire, current) == [] && ToDelete(desire, current) == [] then Skip
         else On(name, L4Look))
  }

  /** The filter changes of one listener; wildcards are dropped on both sides. */
  function FilterChanges(desired: LoadBalancer, current: LoadBalancer): seq<Filter> {
    Sent(Changes(Missing(desired.filters, current.filters, SameString), true)) +
    Sent(Changes(Missing(current.filters, desired.filters, SameString), false))
  }

  function AttachPlan(desired: LoadBalancer, current: LoadBalancer): Plan {
    var toRegister := Missing(desired.balancingTargets, current.balancingTargets, InstanceEquals);
    if toRegister == [] then Skip else On(current.name, L4Attach(KeyOf(current), Ids(toRegister)))
  }

  function DetachPlan(desired: LoadBalancer, current: LoadBalancer): Plan {
    var toDeregister := Missing(current.balancingTargets, desired.balancingTargets, InstanceEquals);
    if toDeregister == [] then Skip else On(current.name, L4Detach(KeyOf(current), Ids(toDeregister)))
  }

  function FilterPlan(desired: LoadBalancer, current: LoadBalancer): Plan {
    var toSet := FilterChanges(desired, current);
    if toSet == [] then Skip else On(current.name, L4SetFilter(KeyOf(current), Sent(toSet)))
  }

  function ListenerPlan(desired: LoadBalancer, current: LoadBalancer): Plan {
    Then(AttachPlan(desired, current), Then(DetachPlan(desired, current), FilterPlan(desired, current)))
  }

  /** The part of the plan that belongs to one listener the cloud shows. */
  function PlanFor(desire: seq<LoadBalancer>, lb: LoadBalancer): Plan {
    match Find(desire, lb, LoadBalancerEquals)
    case Some(d) => ListenerPlan(d, lb)
    case None => Act(Stop(TargetNotFound))
  }

  function ReconcileAll(desire: seq<LoadBalancer>, current: seq<LoadBalancer>): Plan {
    if current == [] then Skip
    else
      var lb := current[|current| - 1];
      Then(ReconcileAll(desire, current[..|current| - 1]), PlanFor(desire, lb))
  }

  // ---------------------------------------------------------------- whole operations

  function FirstVip(view: seq<LoadBalancer>): string {
    if view == [] then "" else view[0].vip
  }

  function VipIn(w: World, name: string): string {
    if name in w.l4 then w.l4[name].vip else ""
  }

  function EnsureCreated(c: Ctx, r: Run, name: string, desire: seq<LoadBalancer>): Finished<string>
    requires desire != []
  {
    var r1 := Exec(c, r, CreateSteps(desire[0]));
    var r2 := Exec(c, r1, RegisterAll(desire[1..]));
    Finish(r2, VipIn(r1.world, name))
  }

  function EnsureUpdated(c: Ctx, r: Run, name: string, desire: seq<LoadBalancer>): Finished<string> {
    var r1 := Exec(c, r, PortPlan(name, desire, ViewOf(c.env, r.world, name)));
    var current := ViewOf(c.env, r1.world, name);
    Finish(Exec(c, r1, ReconcileAll(desire, current)), FirstVip(current))
  }

  function EnsureL4(c: Ctx, r: Run, name: string, desire: seq<LoadBalancer>): Finished<string> {
    if desire == [] then Finished(r, Err(NothingDesired))
    else
      var r1 := Exec(c, r, On(name, L4Look));
      if r1.out == Failed(BalancerNotFound) then EnsureCreated(c, r1.(out := Done), name, desire)
      else if r1.out.Failed? then Finish(r1, "")
      else EnsureUpdated(c, r1, name, desire)
  }

  function DeleteL4(c: Ctx, r: Run, name: string): Finished<()> {
    var r1 := Exec(c, r, On(name, L4Look));
    if r1.out == Failed(BalancerNotFound) then Finished(r1.(out := Done), Ok(()))
    else Finish(Exec(c, r1, DeleteAll(ViewOf(c.env, r1.world, name))), ())
  }
}
