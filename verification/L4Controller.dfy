/** The reconciler of L4 load balancers: the loops that drive the client. */
module L4Controller {
  import opened Base
  import opened Cloud
  import opened Runs
  import opened Differences
  import opened L4Plan
  import opened Client

  // ---------------------------------------------------------------- a plan that failed stays where it is

  lemma {:induction false} RegisterAllStops(c: Ctx, r: Run, lbs: seq<LoadBalancer>, n: nat)
    requires n <= |lbs| && Exec(c, r, RegisterAll(lbs[..n])).out.Failed?
    ensures Exec(c, r, RegisterAll(lbs)) == Exec(c, r, RegisterAll(lbs[..n]))
  {
    if n == |lbs| {
      assert lbs[..n] == lbs;
    } else {
      var init := lbs[..|lbs| - 1];
      assert init[..n] == lbs[..n];
      RegisterAllStops(c, r, init, n);
      ExecAfterFailure(c, Exec(c, r, RegisterAll(init)), RegisterSteps(lbs[|lbs| - 1]));
    }
  }

  lemma {:induction false} DeleteAllStops(c: Ctx, r: Run, lbs: seq<LoadBalancer>, n: nat)
    requires n <= |lbs| && Exec(c, r, DeleteAll(lbs[..n])).out.Failed?
    ensures Exec(c, r, DeleteAll(lbs)) == Exec(c, r, DeleteAll(lbs[..n]))
  {
    if n == |lbs| {
      assert lbs[..n] == lbs;
    } else {
      var init, last := lbs[..|lbs| - 1], lbs[|lbs| - 1];
      assert init[..n] == lbs[..n];
      DeleteAllStops(c, r, init, n);
      ExecAfterFailure(c, Exec(c, r, DeleteAll(init)), On(last.name, L4RemovePort(KeyOf(last))));
    }
  }

  lemma {:induction false} ReconcileAllStops(c: Ctx, r: Run, desire: seq<LoadBalancer>, lbs: seq<LoadBalancer>, n: nat)
    requires n <= |lbs| && Exec(c, r, ReconcileAll(desire, lbs[..n])).out.Failed?
    ensures Exec(c, r, ReconcileAll(desire, lbs)) == Exec(c, r, ReconcileAll(desire, lbs[..n]))
  {
    if n == |lbs| {
      assert lbs[..n] == lbs;
    } else {
      var init, last := lbs[..|lbs| - 1], lbs[|lbs| - 1];
      assert init[..n] == lbs[..n];
      ReconcileAllStops(c, r, desire, init, n);
      ExecAfterFailure(c, Exec(c, r, ReconcileAll(desire, init)), PlanFor(desire, last));
    }
  }

  lemma UpdateStops(c: Ctx, r: Run, name: string, desire: seq<LoadBalancer>)
    requires Exec(c, r, PortPlan(name, desire, ViewOf(c.env, r.world, name))).out.Failed?
    ensures var r1 := Exec(c, r, PortPlan(name, desire, ViewOf(c.env, r.world, name)));
            EnsureUpdated(c, r, name, desire) == Finished(r1.(out := Done), Err(r1.out.error))
  {
    var r1 := Exec(c, r, PortPlan(name, desire, ViewOf(c.env, r.world, name)));
    ExecAfterFailure(c, r1, ReconcileAll(desire, ViewOf(c.env, r1.world, name)));
  }

  class L4Reconciler {
    const client: CloudAPIClient

    constructor (client: CloudAPIClient)
      ensures this.client == client
    {
      this.client := client;
    }

    /** Creates the balancer with its first listener and registers the others. */
    method CreateAll(name: string, desire: seq<LoadBalancer>) returns (r: Result<string, Error>)
      requires desire != [] && forall d :: d in desire ==> d.name == name
      modifies client
      ensures Finished(client.State(), r) == EnsureCreated(client.Context(), old(client.State()), name, desire)
    {
      ghost var c, start, rest := client.Context(), client.State(), desire[1..];
      var vip := "";
      ghost var created := start;
      for i := 0 to |desire|
        invariant client.Context() == c
        invariant i == 0 ==> client.State() == start
        invariant i > 0 ==> created == Exec(c, start, CreateSteps(desire[0])) && vip == VipIn(created.world, name)
        invariant i > 0 ==> client.State() == Exec(c, created, RegisterAll(rest[..i - 1]))
      {
        var lb := desire[i];
        if i == 0 {
          var v := client.CreateLoadBalancer(lb);
          if v.Err? {
            ExecAfterFailure(c, client.After(OutcomeOf(v)), RegisterAll(rest));
            return Err(v.error);
          }
          vip := v.value;
          created := client.State();
          assert rest[..0] == [];
        } else {
          var e := client.RegisterPortWithLoadBalancer(lb);
          assert rest[..i][..i - 1] == rest[..i - 1] && rest[i - 1] == lb;
          if e.Failed? {
            RegisterAllStops(c, created, rest, i);
            return Err(e.error);
          }
        }
      }
      assert rest[..|desire| - 1] == rest;
      return Ok(vip);
    }

    method RegisterMissing(toCreate: seq<LoadBalancer>) returns (r: Outcome<Error>)
      modifies client
      ensures client.After(r) == Exec(client.Context(), old(client.State()), RegisterAll(toCreate))
    {
      ghost var c, start := client.Context(), client.State();
      for i := 0 to |toCreate|
        invariant client.Context() == c
        invariant client.State() == Exec(c, start, RegisterAll(toCreate[..i]))
      {
        r := client.RegisterPortWithLoadBalancer(toCreate[i]);
        assert toCreate[..i + 1][..i] == toCreate[..i];
        if r.Failed? {
          RegisterAllStops(c, start, toCreate, i + 1);
          return;
        }
      }
      assert toCreate[..|toCreate|] == toCreate;
      r := Done;
    }

    method DeleteListed(toDelete: seq<LoadBalancer>) returns (r: Outcome<Error>)
      modifies client
      ensures client.After(r) == Exec(client.Context(), old(client.State()), DeleteAll(toDelete))
    {
      ghost var c, start := client.Context(), client.State();
      for i := 0 to |toDelete|
        invariant client.Context() == c
        invariant client.State() == Exec(c, start, DeleteAll(toDelete[..i]))
      {
        r := client.DeleteLoadBalancer(toDelete[i]);
        assert toDelete[..i + 1][..i] == toDelete[..i];
        if r.Failed? {
          DeleteAllStops(c, start, toDelete, i + 1);
          return;
        }
      }
      assert toDelete[..|toDelete|] == toDelete;
      r := Done;
    }

    /** Registers and deregisters instances and adjusts the filter of one listener. */
    method ReconcileListener(desireLB: LoadBalancer, currentLB: LoadBalancer) returns (r: Outcome<Error>)
      modifies client
      ensures client.After(r) == Exec(client.Context(), old(client.State()), ListenerPlan(desireLB, currentLB))
    {
      ghost var c, plan := client.Context(), ListenerPlan(desireLB, currentLB);
      ghost var r0 := client.State();
      r := Done;
      var toRegister := Difference(desireLB.balancingTargets, currentLB.balancingTargets, InstanceEquals);
      if |toRegister| > 0 {
        r := client.RegisterInstancesWithLoadBalancer(currentLB, Some(toRegister));
        if r.Failed? {
          ExecAfterFailure(c, client.After(r), plan.next);
          return;
        }
      }
      ghost var r1 := client.State();
      assert r1 == Exec(c, r0, plan.first);
      var toDeregister := Difference(currentLB.balancingTargets, desireLB.balancingTargets, InstanceEquals);
      if |toDeregister| > 0 {
        r := client.DeregisterInstancesFromLoadBalancer(currentLB, toDeregister);
        if r.Failed? {
          ExecAfterFailure(c, client.After(r), plan.next.next);
          return;
        }
      }
      ghost var r2 := client.State();
      assert r2 == Exec(c, r1, plan.next.first);
      var toSet := ChangedFilters(desireLB, currentLB);
      if |toSet| > 0 {
        r := client.SetFilterForLoadBalancer(currentLB, Some(toSet));
      }
      assert client.After(r) == Exec(c, r2, plan.next.next);
      assert client.After(r) == Exec(c, r1, plan.next);
    }

    /** The filter changes of one listener, without wildcards: additions first, then removals. */
    method ChangedFilters(desireLB: LoadBalancer, currentLB: LoadBalancer) returns (toSet: seq<Filter>)
      ensures toSet == FilterChanges(desireLB, currentLB)
    {
      var toAuthorize := Difference(desireLB.filters, currentLB.filters, SameString);
      var toRevoke := Difference(currentLB.filters, desireLB.filters, SameString);
      toSet := [];
      for i := 0 to |toAuthorize|
        invariant toSet == Sent(Changes(toAuthorize[..i], true))
      {
        assert Changes(toAuthorize[..i + 1], true)[..i] == Changes(toAuthorize[..i], true);
        if toAuthorize[i] == ANY_IP_ADDRESSES {
          continue;
        }
        toSet := toSet + [Filter(true, toAuthorize[i])];
      }
      assert toAuthorize[..|toAuthorize|] == toAuthorize;
      for i := 0 to |toRevoke|
        invariant toSet == Sent(Changes(toAuthorize, true)) + Sent(Changes(toRevoke[..i], false))
      {
        assert Changes(toRevoke[..i + 1], false)[..i] == Changes(toRevoke[..i], false);
        if toRevoke[i] == ANY_IP_ADDRESSES {
          continue;
        }
        toSet := toSet + [Filter(false, toRevoke[i])];
      }
      assert toRevoke[..|toRevoke|] == toRevoke;
    }

    method ReconcileListeners(desire: seq<LoadBalancer>, current: seq<LoadBalancer>) returns (r: Outcome<Error>)
      modifies client
      ensures client.After(r) == Exec(client.Context(), old(client.State()), ReconcileAll(desire, current))
    {
      ghost var c, start := client.Context(), client.State();
      for i := 0 to |current|
        invariant client.Context() == c
        invariant client.State() == Exec(c, start, ReconcileAll(desire, current[..i]))
      {
        assert current[..i + 1][..i] == current[..i];
        var desireLB := FindEqual(desire, current[i], LoadBalancerEquals);
        if desireLB.None? {
          r := Failed(TargetNotFound);
          ReconcileAllStops(c, start, desire, current, i + 1);
          return;
        }
        r := ReconcileListener(desireLB.value, current[i]);
        if r.Failed? {
          ReconcileAllStops(c, start, desire, current, i + 1);
          return;
        }
      }
      assert current[..|current|] == current;
      r := Done;
    }

    method EnsureL4LoadBalancer(name: string, desire: seq<LoadBalancer>) returns (r: Result<string, Error>)
      requires WorldOK(client.env, client.world) && forall d :: d in desire ==> d.name == name
      modifies client
      ensures Finished(client.State(), r) == EnsureL4(client.Context(), old(client.State()), name, desire)
    {
      if |desire| == 0 {
        return Err(NothingDesired);
      }
      var answer := client.DescribeLoadBalancers(name);
      if answer.Err? {
        if answer.error == BalancerNotFound {
          r := CreateAll(name, desire);
          return;
        }
        return Err(answer.error);
      }
      r := UpdateAll(name, desire, answer.value);
    }

    /** The part of the operation for a balancer that exists. */
    method UpdateAll(name: string, desire: seq<LoadBalancer>, view: seq<LoadBalancer>)
      returns (r: Result<string, Error>)
      requires WorldOK(client.env, client.world) && name in client.world.l4
      requires view == ViewOf(client.env, client.world, name)
      modifies client
      ensures Finished(client.State(), r) == EnsureUpdated(client.Context(), old(client.State()), name, desire)
    {
      ghost var c, start := client.Context(), client.State();
      var current := view;
      ghost var plan := PortPlan(name, desire, view);
      var toCreate := Difference(desire, current, LoadBalancerEquals);
      var e := RegisterMissing(toCreate);
      if e.Failed? {
        ExecAfterFailure(c, client.After(e), plan.first.next);
        ExecAfterFailure(c, client.After(e), plan.next);
        UpdateStops(c, start, name, desire);
        return Err(e.error);
      }
      var toDelete := Difference(current, desire, LoadBalancerEquals);
      e := DeleteListed(toDelete);
      if e.Failed? {
        ExecAfterFailure(c, client.After(e), plan.next);
        UpdateStops(c, start, name, desire);
        return Err(e.error);
      }
      // fetch the listeners again if anything was done
      if |toCreate| > 0 || |toDelete| > 0 {
        var answer := client.DescribeLoadBalancers(name);
        if answer.Err? {
          UpdateStops(c, start, name, desire);
          return Err(answer.error);
        }
        current := answer.value;
      }
      assert client.State() == Exec(c, start, plan) && current == ViewOf(client.env, client.world, name);
      ExecKeepsWorldOK(c, start, plan);
      e := ReconcileListeners(desire, current);
      if e.Failed? {
        return Err(e.error);
      }
      return Ok(current[0].vip);
    }

    method EnsureL4LoadBalancerDeleted(name: string) returns (r: Result<(), Error>)
      modifies client
      ensures Finished(client.State(), r) == DeleteL4(client.Context(), old(client.State()), name)
    {
      ghost var c := client.Context();
      var answer := client.DescribeLoadBalancers(name);
      if answer.Err? {
        if answer.error == BalancerNotFound {
          return Ok(());
        }
        ExecAfterFailure(c, client.After(Failed(answer.error)), DeleteAll(ViewOf(client.env, client.world, name)));
        return Err(answer.error);
      }
      if |answer.value| == 0 {
        return Ok(());
      }
      var e := DeleteListed(answer.value);
      if e.Failed? {
        return Err(e.error);
      }
      return Ok(());
    }
  }
}
