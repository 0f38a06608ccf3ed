/** The cloud provider that the service controller calls. */
module Provider {
  import opened Base
  import opened Cloud
  import opened Runs
  import opened Annotations
  import opened Rules
  import opened Builders
  import opened Client
  import opened L4Controller
  import opened ElbController
  import opened Services

  class LoadBalancers {
    const client: CloudAPIClient
    const l4: L4Reconciler
    const elastic: ElbReconciler
    const isIP: string -> bool

    constructor (client: CloudAPIClient, isIP: string -> bool)
      ensures this.client == client && this.isIP == isIP && Wired()
    {
      this.client, this.isIP := client, isIP;
      this.l4 := new L4Reconciler(client);
      this.elastic := new ElbReconciler(client);
    }

    /** Both reconcilers drive the one client. */
    predicate Wired() {
      l4.client == client && elastic.client == client
    }

    method EnsureLoadBalancer(s: Service, nodes: seq<string>) returns (r: Result<string, Error>)
      requires Wired() && EnvOK(client.env) && WorldOK(client.env, client.world) && |DashFree(s.uid)| >= NAME_LENGTH
      modifies client
      ensures Finished(client.State(), r) ==
              EnsureService(client.Context(), old(client.State()), s, nodes, isIP)
    {
      var portCount := |s.ports|;
      if portCount == 0 || portCount > MAX_PORTS || s.loadBalancerIP != "" {
        return Err(InvalidService);
      }
      var instances := client.DescribeInstancesByInstanceID(nodes);
      if instances.Err? {
        return Err(instances.error);
      }
      var name := LoadBalancerName(s);
      var valid := ValidateLoadBalancerAnnotations(s.annotations, isIP);
      if valid.Failed? {
        return Err(valid.error);
      }
      r := EnsureOfKind(s, name, instances.value);
    }

    /** Builds the desired listeners of either kind and hands them to its reconciler. */
    method EnsureOfKind(s: Service, name: string, instances: seq<Instance>) returns (r: Result<string, Error>)
      requires Wired() && EnvOK(client.env) && WorldOK(client.env, client.world)
      requires |DashFree(s.uid)| >= NAME_LENGTH && name == LoadBalancerName(s) && instances != []
      modifies client
      ensures Finished(client.State(), r) == EnsureKind(client.Context(), old(client.State()), s, instances)
    {
      BuiltNames(name, instances, s, client.env.list);
      if IsElastic(s.annotations) {
        var built := NewElasticLoadBalancerFromService(name, instances, s);
        if built.Err? {
          return Err(built.error);
        }
        var lbs := built.value;
        var desire := new ElasticLoadBalancer[|lbs|](i requires 0 <= i < |lbs| => lbs[i]);
        assert desire[..] == lbs;
        r := elastic.EnsureElasticLoadBalancer(name, desire);
      } else if IsL4(s.annotations) {
        var built := NewL4LoadBalancerFromService(name, instances, s, client.env.list);
        if built.Err? {
          return Err(built.error);
        }
        r := l4.EnsureL4LoadBalancer(name, built.value);
      } else {
        r := Err(InvalidService);
      }
    }

    /** Looks for the balancer of a service; finding none is an error here. */
    method LookForLoadBalancer(s: Service) returns (e: Outcome<Error>)
      requires |DashFree(s.uid)| >= NAME_LENGTH
      modifies client
      ensures client.After(e) == Exec(client.Context(), old(client.State()), Look(s))
    {
      if IsElastic(s.annotations) {
        var answer := client.DescribeElasticLoadBalancers(LoadBalancerName(s));
        e := if answer.Err? then Failed(answer.error) else Done;
      } else if IsL4(s.annotations) {
        var answer := client.DescribeLoadBalancers(LoadBalancerName(s));
        e := if answer.Err? then Failed(answer.error) else Done;
      } else {
        e := Failed(InvalidService);
      }
    }

    method UpdateLoadBalancer(s: Service, nodes: seq<string>) returns (r: Result<string, Error>)
      requires Wired() && EnvOK(client.env) && WorldOK(client.env, client.world) && |DashFree(s.uid)| >= NAME_LENGTH
      modifies client
      ensures Finished(client.State(), r) ==
              UpdateService(client.Context(), old(client.State()), s, nodes, isIP)
    {
      var valid := ValidateLoadBalancerAnnotations(s.annotations, isIP);
      if valid.Failed? {
        return Err(valid.error);
      }
      ExecKeepsWorldOK(client.Context(), client.State(), Look(s));
      var e := LookForLoadBalancer(s);
      if e.Failed? {
        return Err(e.error);
      }
      r := EnsureLoadBalancer(s, nodes);
    }

    method EnsureLoadBalancerDeleted(s: Service) returns (r: Result<(), Error>)
      requires Wired() && EnvOK(client.env) && |DashFree(s.uid)| >= NAME_LENGTH
      modifies client
      ensures Finished(client.State(), r) == DeleteService(client.Context(), old(client.State()), s)
    {
      var name := LoadBalancerName(s);
      if IsElastic(s.annotations) {
        r := elastic.EnsureElasticLoadBalancerDeleted(name);
      } else if IsL4(s.annotations) {
        r := l4.EnsureL4LoadBalancerDeleted(name);
      } else {
        r := Err(InvalidService);
      }
    }
  }
}
