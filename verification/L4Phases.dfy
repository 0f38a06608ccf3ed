/** The phases of an L4 run: filling a new listener, adding ports, deleting ports, reconciling a listener. */
module L4Phases {
  import opened Base
  import opened Cloud
  import opened Runs
  import opened Differences
  import opened L4Plan
  import opened L4Measure
  import opened L4Steps

  ghost predicate Describes(g: Goal, env: Env, lb: LoadBalancer) {
    && ListenerOK(env, g.name, lb)
    && KeyOf(lb) in g.want && g.want[KeyOf(lb)] == WantOf(lb)
    && KeyOf(lb) in g.checks && g.checks[KeyOf(lb)] == CheckOf(lb)
  }

  // ---------------------------------------------------------------- requests on one listener

  /** A request that sets one desired listener to something nearer. */
  lemma RequestSet(g: Goal, env: Env, w: World, op: L4Op, v: L4Balancer, k: Key, l: L4Listener)
    requires k in g.want && k in v.at && Lookup(w.l4, g.name) == Some(v)
    requires ApplyL4(env, g.name, Some(v), op) == Ok(Some(SetAt(v, k, l)))
    requires Fine(g, v) && Fine(g, SetAt(v, k, l))
    requires Nearer(g.want[k].targets, v.at[k].targets, l.targets)
    requires Nearer(g.want[k].filters, v.at[k].filters, l.filters)
    ensures Steady(env, w, On(g.name, op), Good(g))
    ensures Ideal(env, w, On(g.name, op)) == Ok(With(w, g.name, Some(SetAt(v, k, l))))
  {
    SetListener(g, v, k, l);
    OneRequest(g, env, w, op);
  }

  /** A request that changes nothing. */
  lemma {:induction false} RequestSame(g: Goal, env: Env, w: World, op: L4Op, v: L4Balancer)
    requires Lookup(w.l4, g.name) == Some(v) && ApplyL4(env, g.name, Some(v), op) == Ok(Some(v)) && Fine(g, v)
    ensures Steady(env, w, On(g.name, op), Good(g))
    ensures Ideal(env, w, On(g.name, op)) == Ok(w)
  {
    WithWith(w, g.name, Some(v), Some(v));
    OneRequest(g, env, w, op);
  }

  function SetCheck(v: L4Balancer, k: Key, check: HealthCheck): L4Balancer {
    v.(checks := v.checks[k := check])
  }

  /** The health check of a listener that the run made itself. */
  lemma RequestCheck(g: Goal, env: Env, w: World, v: L4Balancer, k: Key, check: HealthCheck)
    requires Lookup(w.l4, g.name) == Some(v) && k in v.at && k !in v.checks && Fine(g, v)
    requires k in g.checks && g.checks[k] == check && (g.start.Some? ==> k !in g.start.value.at)
    ensures Steady(env, w, On(g.name, L4Health(k, check)), Good(g))
    ensures Ideal(env, w, On(g.name, L4Health(k, check))) == Ok(With(w, g.name, Some(SetCheck(v, k, check))))
    ensures Fine(g, SetCheck(v, k, check))
  {
    OneRequest(g, env, w, L4Health(k, check));
  }

  // ---------------------------------------------------------------- a listener that was just made

  lemma FillAccepted(env: Env, lb: LoadBalancer)
    requires ListenerOK(env, lb.name, lb)
    ensures AttachOK(env, {}, Ids(lb.balancingTargets))
    ensures var s := Sent(Changes(lb.filters, true));
            FilterOK({}, s) && {} + Added(s) - Removed(s) == Elems(lb.filters) - {ANY_IP_ADDRESSES}
  {
    SentUnique(Changes(lb.filters, true));
    SentSets(lb.filters, true);
    forall id | id in Ids(lb.balancingTargets) ensures id in env.inventory {
      IdsMembers(lb.balancingTargets, id);
    }
  }

  function Half(lb: LoadBalancer): L4Listener {
    L4Listener(WantOf(lb).targets, {})
  }

  /** A listener of `v` that the run just made: empty, and with the health check of the cloud. */
  ghost predicate Fresh(g: Goal, v: L4Balancer, k: Key) {
    && k in v.at && v.at[k] == L4Listener({}, {}) && k !in v.checks && Fine(g, v)
    && (g.start.Some? ==> k !in g.start.value.at)
  }

  /** A listener of `v` that the run made itself and whose health check is as desired. */
  ghost predicate Watched(g: Goal, v: L4Balancer, k: Key, l: L4Listener) {
    && k in v.at && v.at[k] == l && Fine(g, v)
    && k in g.checks && k in v.checks && v.checks[k] == g.checks[k]
    && (g.start.Some? ==> k !in g.start.value.at)
  }

  lemma SetIsWatched(g: Goal, v: L4Balancer, k: Key, l: L4Listener, l': L4Listener)
    requires Watched(g, v, k, l)
    ensures Watched(g, SetAt(v, k, l'), k, l')
  {
  }

  lemma FillTargets(g: Goal, env: Env, w: World, lb: LoadBalancer, v: L4Balancer)
    requires Describes(g, env, lb) && Lookup(w.l4, g.name) == Some(v)
    requires Watched(g, v, KeyOf(lb), L4Listener({}, {}))
    ensures Steady(env, w, On(g.name, L4Attach(KeyOf(lb), Ids(lb.balancingTargets))), Good(g))
    ensures Ideal(env, w, On(g.name, L4Attach(KeyOf(lb), Ids(lb.balancingTargets)))) ==
            Ok(With(w, g.name, Some(SetAt(v, KeyOf(lb), Half(lb)))))
    ensures Watched(g, SetAt(v, KeyOf(lb), Half(lb)), KeyOf(lb), Half(lb))
  {
    FillAccepted(env, lb);
    SetIsWatched(g, v, KeyOf(lb), L4Listener({}, {}), Half(lb));
    assert {} + Elems(Ids(lb.balancingTargets)) == WantOf(lb).targets;
    RequestSet(g, env, w, L4Attach(KeyOf(lb), Ids(lb.balancingTargets)), v, KeyOf(lb), Half(lb));
  }

  lemma FillFilters(g: Goal, env: Env, w: World, lb: LoadBalancer, v: L4Balancer)
    requires Describes(g, env, lb) && Lookup(w.l4, g.name) == Some(v)
    requires Watched(g, v, KeyOf(lb), Half(lb))
    ensures Steady(env, w, On(g.name, L4SetFilter(KeyOf(lb), Sent(Changes(lb.filters, true)))), Good(g))
    ensures Ideal(env, w, On(g.name, L4SetFilter(KeyOf(lb), Sent(Changes(lb.filters, true))))) ==
            Ok(With(w, g.name, Some(SetAt(v, KeyOf(lb), WantOf(lb)))))
  {
    FillAccepted(env, lb);
    SetIsWatched(g, v, KeyOf(lb), Half(lb), WantOf(lb));
    RequestSet(g, env, w, L4SetFilter(KeyOf(lb), Sent(Changes(lb.filters, true))), v, KeyOf(lb), WantOf(lb));
  }

  /** Targets and filters of a listener whose health check is as desired. */
  lemma FillRest(g: Goal, env: Env, w: World, lb: LoadBalancer, v: L4Balancer)
    requires Describes(g, env, lb) && Lookup(w.l4, g.name) == Some(v)
    requires Watched(g, v, KeyOf(lb), L4Listener({}, {}))
    ensures Steady(env, w, FillSteps(lb).next, Good(g))
    ensures Ideal(env, w, FillSteps(lb).next) == Ok(With(w, g.name, Some(SetAt(v, KeyOf(lb), WantOf(lb)))))
  {
    var k, v1 := KeyOf(lb), SetAt(v, KeyOf(lb), Half(lb));
    FillTargets(g, env, w, lb, v);
    FillFilters(g, env, With(w, g.name, Some(v1)), lb, v1);
    WithWith(w, g.name, Some(v1), Some(SetAt(v1, k, WantOf(lb))));
    assert SetAt(v1, k, WantOf(lb)) == SetAt(v, k, WantOf(lb));
  }

  /** The listener complete: its health check, its targets and its filters. */
  function Filled(v: L4Balancer, lb: LoadBalancer): L4Balancer {
    SetAt(SetCheck(v, KeyOf(lb), CheckOf(lb)), KeyOf(lb), WantOf(lb))
  }

  /** Filling an empty listener is accepted, ends in the desired listener, and every step is progress. */
  lemma FillSteady(g: Goal, env: Env, w: World, lb: LoadBalancer, v: L4Balancer)
    requires Describes(g, env, lb) && Lookup(w.l4, g.name) == Some(v)
    requires Fresh(g, v, KeyOf(lb))
    ensures Steady(env, w, FillSteps(lb), Good(g))
    ensures Ideal(env, w, FillSteps(lb)) == Ok(With(w, g.name, Some(Filled(v, lb))))
  {
    var k, v1 := KeyOf(lb), SetCheck(v, KeyOf(lb), CheckOf(lb));
    var w1 := With(w, g.name, Some(v1));
    RequestCheck(g, env, w, v, k, CheckOf(lb));
    FillRest(g, env, w1, lb, v1);
    WithWith(w, g.name, Some(v1), Some(Filled(v, lb)));
    SteadyThen(env, w, FillSteps(lb).first, w1, FillSteps(lb).next, Good(g));
  }

  // ---------------------------------------------------------------- adding ports

  /** `v` with an empty listener more. */
  function Opened(env: Env, v: L4Balancer, k: Key): L4Balancer {
    v.(order := Arranged(env, v.order, k), at := v.at[k := L4Listener({}, {})])
  }

  /** `v` with a desired listener more, complete. */
  function Plus(env: Env, v: L4Balancer, lb: LoadBalancer): L4Balancer {
    v.(order := Arranged(env, v.order, KeyOf(lb)), at := v.at[KeyOf(lb) := WantOf(lb)],
       checks := v.checks[KeyOf(lb) := CheckOf(lb)])
  }

  /** Every desired listener of `lbs` was added to `v`, complete, in order. */
  function PlusAll(env: Env, v: L4Balancer, lbs: seq<LoadBalancer>): L4Balancer {
    if lbs == [] then v else Plus(env, PlusAll(env, v, lbs[..|lbs| - 1]), lbs[|lbs| - 1])
  }

  /** Every listener that was not there at the start has its desired health check. */
  ghost predicate AllWatched(g: Goal, v: L4Balancer) {
    g.had.Some? ==>
      forall k :: k in v.at && k !in g.had.value ==> k in g.checks && k in v.checks && v.checks[k] == g.checks[k]
  }

  /** While ports are added the old listeners are all there, untouched. */
  ghost predicate Adding(g: Goal, v: L4Balancer) {
    && v.checks.Keys <= v.at.Keys && AllWatched(g, v)
    && (g.start.Some? ==>
          && v.vip == g.start.value.vip && v.at != map[]
          && g.start.value.at.Keys <= v.at.Keys <= g.start.value.at.Keys + g.want.Keys
          && (forall k :: k in g.start.value.at ==> v.at[k] == g.start.value.at[k])
          && forall k :: k in g.start.value.at ==> SameCheck(k, g.start.value.checks, v.checks))
  }

  lemma AddingIsFine(g: Goal, v: L4Balancer)
    requires Adding(g, v)
    ensures Fine(g, v)
  {
  }

  lemma OpenedIsFine(g: Goal, env: Env, v: L4Balancer, k: Key)
    requires Adding(g, v) && k in g.want && k !in v.at
    ensures Fine(g, Opened(env, v, k))
  {
  }

  lemma AddPortStep(g: Goal, env: Env, v: L4Balancer, k: Key)
    requires Adding(g, v) && GoalOK(g) && k in g.want && k !in v.at && !PortTaken(v.at, k.port)
    ensures BalancerStep(g, Some(v), Some(Opened(env, v, k))) && Fresh(g, Opened(env, v, k), k)
  {
    AddingIsFine(g, v);
    OpenedIsFine(g, env, v, k);
  }

  lemma AddRequest(g: Goal, env: Env, w: World, k: Key, v: L4Balancer)
    requires GoalOK(g) && k in g.want && Lookup(w.l4, g.name) == Some(v)
    requires Adding(g, v) && k !in v.at && !PortTaken(v.at, k.port)
    ensures var v1 := Opened(env, v, k);
            && Steady(env, w, On(g.name, L4AddPort(k)), Good(g))
            && Ideal(env, w, On(g.name, L4AddPort(k))) == Ok(With(w, g.name, Some(v1)))
            && Fresh(g, v1, k)
  {
    AddPortStep(g, env, v, k);
    OneRequest(g, env, w, L4AddPort(k));
  }

  lemma OpenedThenFilled(env: Env, v: L4Balancer, lb: LoadBalancer)
    ensures Filled(Opened(env, v, KeyOf(lb)), lb) == Plus(env, v, lb)
  {
  }

  /** A port that is free is added, and its listener filled. */
  lemma AddAndFill(g: Goal, env: Env, w: World, lb: LoadBalancer, v: L4Balancer)
    requires GoalOK(g) && Describes(g, env, lb) && Lookup(w.l4, g.name) == Some(v)
    requires Adding(g, v) && KeyOf(lb) !in v.at && !PortTaken(v.at, lb.loadBalancerPort)
    ensures Steady(env, w, RegisterSteps(lb), Good(g))
    ensures Ideal(env, w, RegisterSteps(lb)) == Ok(With(w, g.name, Some(Plus(env, v, lb))))
  {
    AddRequest(g, env, w, KeyOf(lb), v);
    OpenedThenFilled(env, v, lb);
    RequestThenFill(g, env, w, L4AddPort(KeyOf(lb)), lb, Opened(env, v, KeyOf(lb)));
  }

  /** A request that makes a fresh listener, and the filling of that listener. */
  lemma RequestThenFill(g: Goal, env: Env, w: World, op: L4Op, lb: LoadBalancer, v1: L4Balancer)
    requires Describes(g, env, lb) && Fresh(g, v1, KeyOf(lb))
    requires Steady(env, w, On(g.name, op), Good(g))
    requires Ideal(env, w, On(g.name, op)) == Ok(With(w, g.name, Some(v1)))
    ensures Steady(env, w, Then(On(g.name, op), FillSteps(lb)), Good(g))
    ensures Ideal(env, w, Then(On(g.name, op), FillSteps(lb))) == Ok(With(w, g.name, Some(Filled(v1, lb))))
  {
    FillSteady(g, env, With(w, g.name, Some(v1)), lb, v1);
    WithWith(w, g.name, Some(v1), Some(Filled(v1, lb)));
    SteadyThen(env, w, On(g.name, op), With(w, g.name, Some(v1)), FillSteps(lb), Good(g));
  }

  /** Registering one port: refused if the port is taken, otherwise it ends in the desired listener. */
  lemma RegisterSteady(g: Goal, env: Env, w: World, lb: LoadBalancer, v: L4Balancer)
    requires GoalOK(g) && Describes(g, env, lb) && Lookup(w.l4, g.name) == Some(v)
    requires Adding(g, v) && KeyOf(lb) !in v.at
    ensures Steady(env, w, RegisterSteps(lb), Good(g))
    ensures Ideal(env, w, RegisterSteps(lb)) ==
            if PortTaken(v.at, lb.loadBalancerPort) then Err(PortExists)
            else Ok(With(w, g.name, Some(Plus(env, v, lb))))
  {
    if PortTaken(v.at, lb.loadBalancerPort) {
      assert Ideal(env, w, On(g.name, L4AddPort(KeyOf(lb)))) == Err(PortExists);
    } else {
      AddAndFill(g, env, w, lb, v);
    }
  }

  /** Whether some listener of `lbs` needs a port that is in use. */
  predicate AnyPortTaken(at: Listeners, lbs: seq<LoadBalancer>) {
    exists lb :: lb in lbs && PortTaken(at, lb.loadBalancerPort)
  }

  /** `u` is `v` with the desired listeners `ks` added. */
  ghost predicate Grown(g: Goal, v: L4Balancer, u: L4Balancer, ks: seq<Key>) {
    && (forall k :: k in u.at <==> k in v.at || k in ks)
    && (forall k :: k in v.at ==> u.at[k] == v.at[k])
    && (forall k :: k in u.at && k !in v.at ==> k in g.want && u.at[k] == g.want[k])
    && Elems(u.order) == Elems(v.order) + Elems(ks) && u.vip == v.vip
    && GrownChecks(g, v, u)
  }

  /** Their health checks: the old ones as they were, the new ones as desired. */
  ghost predicate GrownChecks(g: Goal, v: L4Balancer, u: L4Balancer) {
    && u.checks.Keys <= u.at.Keys
    && (forall k :: k in v.at ==> SameCheck(k, v.checks, u.checks))
    && (forall k :: k in u.at && k !in v.at ==> k in g.checks && k in u.checks && u.checks[k] == g.checks[k])
  }

  lemma PlusStaysAdding(g: Goal, env: Env, u: L4Balancer, lb: LoadBalancer)
    requires Adding(g, u) && Describes(g, env, lb) && (g.start.Some? ==> KeyOf(lb) !in g.start.value.at)
    ensures Adding(g, Plus(env, u, lb))
  {
  }

  lemma ChecksGrowByOne(g: Goal, env: Env, v: L4Balancer, u: L4Balancer, lb: LoadBalancer)
    requires GrownChecks(g, v, u) && Describes(g, env, lb) && KeyOf(lb) !in v.at
    ensures GrownChecks(g, v, Plus(env, u, lb))
  {
  }

  lemma GrowsByOne(g: Goal, env: Env, v: L4Balancer, u: L4Balancer, ks: seq<Key>, lb: LoadBalancer)
    requires Adding(g, u) && Grown(g, v, u, ks) && Describes(g, env, lb)
    requires KeyOf(lb) !in v.at && (g.start.Some? ==> KeyOf(lb) !in g.start.value.at)
    ensures var u' := Plus(env, u, lb); Adding(g, u') && Grown(g, v, u', ks + [KeyOf(lb)])
  {
    PlusStaysAdding(g, env, u, lb);
    ChecksGrowByOne(g, env, v, u, lb);
    ElemsAppend(ks, [KeyOf(lb)]);
  }

  lemma {:induction false} PlusAllKeys(g: Goal, env: Env, v: L4Balancer, lbs: seq<LoadBalancer>)
    requires Adding(g, v) && forall lb :: lb in lbs ==> Describes(g, env, lb) && KeyOf(lb) !in v.at
    ensures Adding(g, PlusAll(env, v, lbs)) && Grown(g, v, PlusAll(env, v, lbs), KeySeq(lbs))
  {
    if lbs != [] {
      var init, lb := lbs[..|lbs| - 1], lbs[|lbs| - 1];
      PlusAllKeys(g, env, v, init);
      assert KeySeq(lbs) == KeySeq(init) + [KeyOf(lb)];
      assert g.start.Some? ==> KeyOf(lb) !in g.start.value.at;
      GrowsByOne(g, env, v, PlusAll(env, v, init), KeySeq(init), lb);
    } else {
      assert Elems(KeySeq(lbs)) == {};
    }
  }

  /** Adding the earlier listeners takes no port of a later one. */
  lemma PortTakenLater(g: Goal, env: Env, v: L4Balancer, init: seq<LoadBalancer>, lb: LoadBalancer)
    requires Adding(g, v) && forall x :: x in init + [lb] ==> Describes(g, env, x) && KeyOf(x) !in v.at
    requires DistinctPorts(init + [lb])
    ensures KeyOf(lb) !in PlusAll(env, v, init).at
    ensures PortTaken(PlusAll(env, v, init).at, lb.loadBalancerPort) <==> PortTaken(v.at, lb.loadBalancerPort)
    ensures AnyPortTaken(v.at, init + [lb]) <==> AnyPortTaken(v.at, init) || PortTaken(v.at, lb.loadBalancerPort)
  {
    assert lb in init + [lb];
    PlusAllKeys(g, env, v, init);
    forall k | k in KeySeq(init) ensures k.port != lb.loadBalancerPort {
      var i :| 0 <= i < |init| && KeySeq(init)[i] == k;
      assert (init + [lb])[i].loadBalancerPort != (init + [lb])[|init|].loadBalancerPort;
    }
    if PortTaken(PlusAll(env, v, init).at, lb.loadBalancerPort) {
      var k :| k in PlusAll(env, v, init).at && k.port == lb.loadBalancerPort;
      assert k in v.at;
    }
    if PortTaken(v.at, lb.loadBalancerPort) {
      var k :| k in v.at && k.port == lb.loadBalancerPort;
      assert k in PlusAll(env, v, init).at;
    }
  }

  /** One more port, after those of `init`. */
  lemma RegisterNext(g: Goal, env: Env, w: World, init: seq<LoadBalancer>, lb: LoadBalancer, v: L4Balancer)
    requires GoalOK(g) && Adding(g, v) && DistinctPorts(init + [lb])
    requires Lookup(w.l4, g.name) == Some(PlusAll(env, v, init))
    requires forall x :: x in init + [lb] ==> Describes(g, env, x) && KeyOf(x) !in v.at
    ensures Steady(env, w, RegisterSteps(lb), Good(g))
    ensures Ideal(env, w, RegisterSteps(lb)) ==
            if PortTaken(v.at, lb.loadBalancerPort) then Err(PortExists)
            else Ok(With(w, g.name, Some(PlusAll(env, v, init + [lb]))))
  {
    var v1 := PlusAll(env, v, init);
    assert lb in init + [lb] && (init + [lb])[..|init|] == init;
    PortTakenLater(g, env, v, init, lb);
    PlusAllKeys(g, env, v, init);
    RegisterSteady(g, env, w, lb, v1);
  }

  /** Registering a list of ports: accepted exactly when none of their ports is in use. */
  lemma {:induction false} RegisterAllSteady(g: Goal, env: Env, w: World, lbs: seq<LoadBalancer>, v: L4Balancer)
    requires GoalOK(g) && Lookup(w.l4, g.name) == Some(v) && Adding(g, v)
    requires DistinctPorts(lbs) && forall lb :: lb in lbs ==> Describes(g, env, lb) && KeyOf(lb) !in v.at
    ensures Steady(env, w, RegisterAll(lbs), Good(g))
    ensures Ideal(env, w, RegisterAll(lbs)) ==
            if AnyPortTaken(v.at, lbs) then Err(PortExists) else Ok(With(w, g.name, Some(PlusAll(env, v, lbs))))
  {
    if lbs == [] {
      WithWith(w, g.name, Some(v), Some(v));
    } else {
      var init, lb := lbs[..|lbs| - 1], lbs[|lbs| - 1];
      assert lbs == init + [lb];
      RegisterAllSteady(g, env, w, init, v);
      PortTakenLater(g, env, v, init, lb);
      if !AnyPortTaken(v.at, init) {
        RegisterNext(g, env, With(w, g.name, Some(PlusAll(env, v, init))), init, lb, v);
        WithWith(w, g.name, Some(PlusAll(env, v, init)), Some(PlusAll(env, v, lbs)));
      }
    }
  }
}
