/** The requests that change the cloud are bounded: the nodes, whole runs, and runs that are repeated. */
module ElbBounded {
  import opened Base
  import opened Cloud
  import opened Runs
  import opened Spending
  import opened Differences
  import opened Rules
  import opened ElbPlan
  import opened ElbIdeal
  import opened ElbUpdate
  import opened ElbRuns
  import opened ElbEnsure
  import opened ElbConverge
  import opened ElbTheorems
  import opened ElbSafety
  import opened ElbRetries
  import opened ElbBudget

  // ---------------------------------------------------------------- the listener that the client reads

  /** The ports of a balancer, and the targets of the listener listed first. */
  datatype Head = Head(name: string, order: seq<Key>, keys: set<Key>, targets: set<string>)

  predicate HasHead(w: World, h: Head) {
    && h.name in w.elb && h.order != []
    && w.elb[h.name].order == h.order && w.elb[h.name].at.Keys == h.keys && h.order[0] in h.keys
    && w.elb[h.name].at[h.order[0]].targets == h.targets
  }

  /** Requests about rules, and about the targets of other listeners than the first. */
  ghost function LaterListeners(h: Head): Call -> bool {
    (call: Call) =>
      match call
      case Elb(_, op) => h.order != [] && (op.ElbAttach? || op.ElbDetach?) && op.key != h.order[0]
      case ListGroups => true
      case WaitGroup(_) => true
      case Authorize(_, _) => true
      case Revoke(_, _) => true
      case _ => false
  }

  ghost function KeepsHead(h: Head): World -> bool {
    (w: World) => HasHead(w, h)
  }

  lemma LaterKeepHead(env: Env, h: Head)
    ensures Preserved(env, LaterListeners(h), KeepsHead(h))
  {
  }

  lemma HeadKept(c: Ctx, r: Run, plan: Plan, h: Head)
    requires AllCalls(plan, LaterListeners(h)) && HasHead(r.world, h)
    ensures HasHead(Exec(c, r, plan).world, h)
  {
    LaterKeepHead(c.env, h);
    ExecInvariant(c, r, plan, LaterListeners(h), KeepsHead(h));
  }

  lemma OnlyRules(env: Env, add: bool, lb: ElasticLoadBalancer, instances: seq<Instance>, h: Head)
    ensures AllCalls(RulePlan(env, add, lb, instances), LaterListeners(h))
  {
    var ok := RuleCalls(env, add, Elems(Ids(instances)), Permissions(lb));
    RulePlanCalls(env, add, lb, instances);
    AllCallsWeaken(RulePlan(env, add, lb, instances), ok, LaterListeners(h));
  }

  /** A run that stopped before it changed anything. */
  ghost predicate Nothing(r: Run, r': Run) {
    r'.out.Failed? && r'.world == r.world && Spent(r, r') == 0
  }

  /** A request about the first listener with rules after it: nothing is changed, or its targets are. */
  lemma Turn(c: Ctx, r: Run, h: Head, op: ElbOp, rest: Plan, targets: set<string>)
    requires r.out.Done? && HasHead(r.world, h) && AllCalls(rest, LaterListeners(h.(targets := targets)))
    requires Apply(c.env, r.world, Elb(h.name, op)).Ok? ==>
               HasHead(Apply(c.env, r.world, Elb(h.name, op)).value, h.(targets := targets))
    ensures var r' := Exec(c, r, Then(On(h.name, op), rest));
            && Continues(r, r')
            && (Nothing(r, r') || (HasHead(r'.world, h.(targets := targets)) && Spent(r, r') <= 1 + Weight(rest)))
  {
    var r1 := Exec(c, r, On(h.name, op));
    OneSpent(c, r, Ask(Elb(h.name, op), None));
    if r1.out.Failed? {
      ExecAfterFailure(c, r1, rest);
    } else {
      ExecSpends(c, r1, rest);
      HeadKept(c, r1, rest, h.(targets := targets));
      SpentTwice(r, r1, Exec(c, r1, rest));
    }
  }

  // ---------------------------------------------------------------- one listener

  /** What the client reads of the listener `k`, with the targets `read`, and what is desired of it. */
  ghost predicate Compared(env: Env, a: Aim, width: nat, d: ElasticLoadBalancer, cur: ElasticLoadBalancer,
                           read: set<string>) {
    && EnvOK(env) && read <= env.inventory.Keys && ListenerOK(env, a.name, d) && IdSet(d) == a.ids
    && Priced(env, a, width, cur) && cur.balancingTargets == ViewInstances(env, env.list(read))
  }

  lemma NoneLeft(s: set<string>, t: set<string>)
    ensures s - t == {} <==> s <= t
  {
    forall x | s - t == {} && x in s ensures x in t {
      assert x !in s - t;
    }
  }

  lemma ComparedIds(env: Env, a: Aim, width: nat, d: ElasticLoadBalancer, cur: ElasticLoadBalancer, read: set<string>)
    requires Compared(env, a, width, d, cur, read)
    ensures var add := Missing(d.balancingTargets, cur.balancingTargets, InstanceEquals);
            Elems(Ids(add)) == a.ids - read && (add == [] <==> a.ids <= read)
    ensures var del := Missing(cur.balancingTargets, d.balancingTargets, InstanceEquals);
            Elems(Ids(del)) == read - a.ids && (del == [] <==> read <= a.ids)
  {
    ViewedIds(env, read);
    NoneLeft(a.ids, read);
    NoneLeft(read, a.ids);
    MissingIds(env, d.balancingTargets, cur.balancingTargets);
    MissingIds(env, cur.balancingTargets, d.balancingTargets);
    EmptyIds(Missing(d.balancingTargets, cur.balancingTargets, InstanceEquals));
    EmptyIds(Missing(cur.balancingTargets, d.balancingTargets, InstanceEquals));
  }

  /** What one listener costs: a request with its rules, or two. */
  function TurnPrice(a: Aim, read: set<string>): nat {
    if a.ids <= read then 1 + a.rules else 2 * (1 + a.rules)
  }

  lemma TurnWeight(env: Env, a: Aim, width: nat, d: ElasticLoadBalancer, cur: ElasticLoadBalancer, read: set<string>)
    requires Compared(env, a, width, d, cur, read)
    ensures Weight(Then(AttachPlan(env, d, cur), DetachPlan(env, d, cur))) <= TurnPrice(a, read)
  {
    var add := Missing(d.balancingTargets, cur.balancingTargets, InstanceEquals);
    var del := Missing(cur.balancingTargets, d.balancingTargets, InstanceEquals);
    ComparedIds(env, a, width, d, cur, read);
    PricedRules(env, a, width, cur, true, add);
    PricedRules(env, a, width, cur, false, del);
    OnStays(cur.name, ElbAttach(KeyOf(cur), Ids(add)));
    OnStays(cur.name, ElbDetach(KeyOf(cur), Ids(del)));
  }

  lemma LaterTurn(env: Env, d: ElasticLoadBalancer, cur: ElasticLoadBalancer, h: Head)
    requires h.order != [] && KeyOf(cur) != h.order[0]
    ensures AllCalls(Then(AttachPlan(env, d, cur), DetachPlan(env, d, cur)), LaterListeners(h))
  {
    var add := Missing(d.balancingTargets, cur.balancingTargets, InstanceEquals);
    var del := Missing(cur.balancingTargets, d.balancingTargets, InstanceEquals);
    var ok := LaterListeners(h);
    OnlyRules(env, true, cur, add, h);
    OnlyRules(env, false, cur, del, h);
    assert AllCalls(On(cur.name, ElbAttach(KeyOf(cur), Ids(add))), ok);
    assert AllCalls(On(cur.name, ElbDetach(KeyOf(cur), Ids(del))), ok);
    assert AllCalls(AttachPlan(env, d, cur), ok) && AllCalls(DetachPlan(env, d, cur), ok);
  }

  /** The registration of the first listener. */
  lemma FirstAttach(c: Ctx, r: Run, a: Aim, width: nat, d: ElasticLoadBalancer, cur: ElasticLoadBalancer, h: Head)
    requires Compared(c.env, a, width, d, cur, h.targets) && r.out.Done? && HasHead(r.world, h) && h.name == a.name
    requires KeyOf(cur) == h.order[0]
    ensures var r' := Exec(c, r, AttachPlan(c.env, d, cur));
            && Continues(r, r')
            && if a.ids <= h.targets then r' == r
               else Nothing(r, r') || (HasHead(r'.world, h.(targets := h.targets + a.ids))
                                       && Spent(r, r') <= 1 + a.rules)
  {
    var add := Missing(d.balancingTargets, cur.balancingTargets, InstanceEquals);
    ComparedIds(c.env, a, width, d, cur, h.targets);
    if add == [] {
      NothingSpent(r);
    } else {
      var h' := h.(targets := h.targets + a.ids);
      PricedRules(c.env, a, width, cur, true, add);
      OnlyRules(c.env, true, cur, add, h');
      HeadGains(c.env, r.world, h, Ids(add));
      assert h.targets + (a.ids - h.targets) == h.targets + a.ids;
      Turn(c, r, h, ElbAttach(h.order[0], Ids(add)), RulePlan(c.env, true, cur, add), h'.targets);
    }
  }

  lemma HeadGains(env: Env, w: World, h: Head, ids: seq<string>)
    requires HasHead(w, h)
    ensures var r := Apply(env, w, Elb(h.name, ElbAttach(h.order[0], ids)));
            r.Ok? ==> HasHead(r.value, h.(targets := h.targets + Elems(ids)))
  {
  }

  lemma HeadLoses(env: Env, w: World, h: Head, ids: seq<string>)
    requires HasHead(w, h)
    ensures var r := Apply(env, w, Elb(h.name, ElbDetach(h.order[0], ids)));
            r.Ok? ==> HasHead(r.value, h.(targets := h.targets - Elems(ids)))
  {
  }

  /** Its deregistration, when its targets are `h.targets` and those that were read are `read`. */
  lemma FirstDetach(c: Ctx, r: Run, a: Aim, width: nat, d: ElasticLoadBalancer, cur: ElasticLoadBalancer, h: Head,
                    read: set<string>)
    requires Compared(c.env, a, width, d, cur, read) && r.out.Done? && HasHead(r.world, h) && h.name == a.name
    requires KeyOf(cur) == h.order[0]
    ensures var r' := Exec(c, r, DetachPlan(c.env, d, cur));
            && Continues(r, r')
            && if read <= a.ids then r' == r
               else Nothing(r, r') ||
                    (HasHead(r'.world, h.(targets := h.targets - (read - a.ids))) && Spent(r, r') <= 1 + a.rules)
  {
    var del := Missing(cur.balancingTargets, d.balancingTargets, InstanceEquals);
    ComparedIds(c.env, a, width, d, cur, read);
    if del == [] {
      NothingSpent(r);
    } else {
      var h' := h.(targets := h.targets - (read - a.ids));
      PricedRules(c.env, a, width, cur, false, del);
      OnlyRules(c.env, false, cur, del, h');
      HeadLoses(c.env, r.world, h, Ids(del));
      Turn(c, r, h, ElbDetach(h.order[0], Ids(del)), RulePlan(c.env, false, cur, del), h'.targets);
    }
  }

  // ---------------------------------------------------------------- all listeners

  /**
   * Where the reconciliation of the nodes stands when the first listener had its turn: nothing was
   * changed and it stopped, or the first listener has the desired nodes, or it has them and others
   * and the run stopped there.
   */
  ghost predicate TurnsTaken(r: Run, r': Run, a: Aim, h: Head, turns: nat) {
    && Continues(r, r')
    && (|| Nothing(r, r')
        || (HasHead(r'.world, h.(targets := a.ids)) && Spent(r, r') <= turns * TurnPrice(a, h.targets))
        || (&& r'.out.Failed? && !(a.ids <= h.targets) && HasHead(r'.world, h.(targets := h.targets + a.ids))
            && Spent(r, r') <= 1 + a.rules))
  }

  lemma FirstTurn(c: Ctx, r: Run, a: Aim, width: nat, d: ElasticLoadBalancer, cur: ElasticLoadBalancer, h: Head)
    requires Compared(c.env, a, width, d, cur, h.targets) && r.out.Done? && HasHead(r.world, h) && h.name == a.name
    requires KeyOf(cur) == h.order[0] && h.targets != a.ids
    ensures TurnsTaken(r, Exec(c, r, Then(AttachPlan(c.env, d, cur), DetachPlan(c.env, d, cur))), a, h, 1)
  {
    var r1 := Exec(c, r, AttachPlan(c.env, d, cur));
    FirstAttach(c, r, a, width, d, cur, h);
    if a.ids <= h.targets {
      FirstDetach(c, r, a, width, d, cur, h, h.targets);
      assert h.targets - (h.targets - a.ids) == a.ids;
    } else if r1.out.Failed? {
      ExecAfterFailure(c, r1, DetachPlan(c.env, d, cur));
    } else {
      SecondHalf(c, r, r1, a, width, d, cur, h);
    }
  }

  lemma SecondHalf(c: Ctx, r: Run, r1: Run, a: Aim, width: nat, d: ElasticLoadBalancer, cur: ElasticLoadBalancer,
                   h: Head)
    requires Compared(c.env, a, width, d, cur, h.targets) && h.name == a.name && h.order != []
    requires KeyOf(cur) == h.order[0] && !(a.ids <= h.targets)
    requires Continues(r, r1) && r1.out.Done? && HasHead(r1.world, h.(targets := h.targets + a.ids))
    requires Spent(r, r1) <= 1 + a.rules
    ensures TurnsTaken(r, Exec(c, r1, DetachPlan(c.env, d, cur)), a, h, 1)
  {
    var h1, r' := h.(targets := h.targets + a.ids), Exec(c, r1, DetachPlan(c.env, d, cur));
    FirstDetach(c, r1, a, width, d, cur, h1, h.targets);
    SpentTwice(r, r1, r');
    assert h.targets <= a.ids ==> h.targets + a.ids == a.ids;
    assert h.targets + a.ids - (h.targets - a.ids) == a.ids;
  }

  lemma NextTurn(c: Ctx, r: Run, r1: Run, a: Aim, width: nat, d: ElasticLoadBalancer, cur: ElasticLoadBalancer, h: Head,
                 turns: nat)
    requires Compared(c.env, a, width, d, cur, h.targets) && h.order != [] && KeyOf(cur) != h.order[0]
    requires TurnsTaken(r, r1, a, h, turns)
    ensures TurnsTaken(r, Exec(c, r1, Then(AttachPlan(c.env, d, cur), DetachPlan(c.env, d, cur))), a, h, turns + 1)
  {
    var plan, h' := Then(AttachPlan(c.env, d, cur), DetachPlan(c.env, d, cur)), h.(targets := a.ids);
    OneMoreTimes(turns, TurnPrice(a, h.targets));
    if r1.out.Failed? {
      ExecAfterFailure(c, r1, plan);
    } else {
      TurnWeight(c.env, a, width, d, cur, h.targets);
      LaterTurn(c.env, d, cur, h');
      HeadKept(c, r1, plan, h');
      ExecSpends(c, r1, plan);
      SpentTwice(r, r1, Exec(c, r1, plan));
    }
  }

  /** What is known when the nodes are reconciled: the ports are right. */
  ghost predicate Comparable(env: Env, a: Aim, width: nat, placed: seq<ElasticLoadBalancer>, v: ElbBalancer) {
    && EnvOK(env) && DesireOK(env, a.name, a.ids, placed) && ElbOK(env, v) && a.want == Keys(placed) == v.at.Keys
    && NarrowNics(v.nics, width) && a.rules == MostRules(env, width)
  }

  lemma CurrentCompared(env: Env, a: Aim, width: nat, placed: seq<ElasticLoadBalancer>, v: ElbBalancer, i: nat)
    returns (d: ElasticLoadBalancer)
    requires Comparable(env, a, width, placed, v) && i < |v.order|
    ensures var cur := View(env, a.name, v)[i];
            && PlanFor(env, placed, cur) == Then(AttachPlan(env, d, cur), DetachPlan(env, d, cur))
            && Compared(env, a, width, d, cur, FirstTargets(v)) && KeyOf(cur) == v.order[i]
  {
    var cur := View(env, a.name, v)[i];
    ViewIs(env, a.name, v);
    assert cur in View(env, a.name, v);
    d := DesiredFor(env, a.name, a.ids, placed, cur);
  }

  lemma TurnsBegin(c: Ctx, r: Run, a: Aim, width: nat, placed: seq<ElasticLoadBalancer>, v: ElbBalancer, h: Head)
    requires Comparable(c.env, a, width, placed, v) && r.out.Done? && HasHead(r.world, h)
    requires h == Head(a.name, v.order, a.want, FirstTargets(v)) && h.targets != a.ids
    ensures TurnsTaken(r, Exec(c, r, ReconcileAll(c.env, placed, View(c.env, a.name, v)[..1])), a, h, 1)
  {
    var view := View(c.env, a.name, v);
    var d := CurrentCompared(c.env, a, width, placed, v, 0);
    ReconcileSplit(c.env, placed, view, 0);
    FirstTurn(c, r, a, width, d, view[0], h);
  }

  lemma TurnsGoOn(c: Ctx, r: Run, a: Aim, width: nat, placed: seq<ElasticLoadBalancer>, v: ElbBalancer, h: Head, i: nat)
    requires Comparable(c.env, a, width, placed, v) && 0 < i < |v.order|
    requires h == Head(a.name, v.order, a.want, FirstTargets(v))
    requires TurnsTaken(r, Exec(c, r, ReconcileAll(c.env, placed, View(c.env, a.name, v)[..i])), a, h, i)
    ensures TurnsTaken(r, Exec(c, r, ReconcileAll(c.env, placed, View(c.env, a.name, v)[..i + 1])), a, h, i + 1)
  {
    var view := View(c.env, a.name, v);
    var d := CurrentCompared(c.env, a, width, placed, v, i);
    ReconcileSplit(c.env, placed, view, i);
    assert v.order[i] != v.order[0];
    NextTurn(c, r, Exec(c, r, ReconcileAll(c.env, placed, view[..i])), a, width, d, view[i], h, i);
  }

  lemma {:induction false} Turns(c: Ctx, r: Run, a: Aim, width: nat, placed: seq<ElasticLoadBalancer>, v: ElbBalancer,
                                 h: Head, i: nat)
    requires Comparable(c.env, a, width, placed, v) && 0 < i <= |v.order| && r.out.Done? && HasHead(r.world, h)
    requires h == Head(a.name, v.order, a.want, FirstTargets(v)) && h.targets != a.ids
    ensures TurnsTaken(r, Exec(c, r, ReconcileAll(c.env, placed, View(c.env, a.name, v)[..i])), a, h, i)
  {
    if i == 1 {
      TurnsBegin(c, r, a, width, placed, v, h);
    } else {
      Turns(c, r, a, width, placed, v, h, i - 1);
      TurnsGoOn(c, r, a, width, placed, v, h, i - 1);
    }
  }

  // ---------------------------------------------------------------- what the nodes cost

  /** What the nodes may cost at most: each listener a registration and a deregistration, with their rules. */
  function MostForNodes(a: Aim): nat {
    |a.want| * (2 * (1 + a.rules))
  }

  /**
   * Once the ports are right, nothing if the first listener has exactly the desired nodes, and one
   * request with its rules for each listener if it has all of them and others.
   */
  function NodePrice(a: Aim, w: World): nat {
    if a.name in w.elb && w.elb[a.name].at.Keys == a.want then
      var read := FirstTargets(w.elb[a.name]);
      if read == a.ids then 0 else |a.want| * TurnPrice(a, read)
    else MostForNodes(a)
  }

  /** How many requests may still change the cloud. */
  function Budget(a: Aim, w: World): nat {
    PortPrice(a, KeysAt(w, a.name)) + NodePrice(a, w)
  }

  ghost function Price(a: Aim): World -> int {
    (w: World) => Budget(a, w)
  }

  lemma NodePriceIsBounded(a: Aim, w: World)
    ensures NodePrice(a, w) <= MostForNodes(a)
  {
    if a.name in w.elb {
      TimesMore(|a.want|, TurnPrice(a, FirstTargets(w.elb[a.name])), |a.want|, 2 * (1 + a.rules));
    }
  }

  lemma HeadPrice(a: Aim, w: World, h: Head)
    requires HasHead(w, h) && h.name == a.name && h.keys == a.want
    ensures NodePrice(a, w) == if h.targets == a.ids then 0 else |a.want| * TurnPrice(a, h.targets)
    ensures KeysAt(w, a.name) == a.want
  {
  }

  lemma AtLeastOnce(n: nat, m: nat)
    requires n > 0
    ensures m <= n * m && m + n * m <= n * (2 * m)
  {
  }

  /** The reconciliation of the nodes is paid for. */
  lemma TurnsPaid(r: Run, r': Run, a: Aim, h: Head)
    requires HasHead(r.world, h) && h.name == a.name && h.keys == a.want && h.targets != a.ids && |a.want| > 0
    requires TurnsTaken(r, r', a, h, |a.want|)
    ensures Paid(r, r', Price(a))
  {
    HeadPrice(a, r.world, h);
    if Nothing(r, r') {
    } else if HasHead(r'.world, h.(targets := a.ids)) && Spent(r, r') <= |a.want| * TurnPrice(a, h.targets) {
      HeadPrice(a, r'.world, h.(targets := a.ids));
    } else {
      HeadPrice(a, r'.world, h.(targets := h.targets + a.ids));
      AtLeastOnce(|a.want|, 1 + a.rules);
    }
  }

  lemma NodesPaid(c: Ctx, r: Run, a: Aim, width: nat, placed: seq<ElasticLoadBalancer>, v: ElbBalancer)
    requires Comparable(c.env, a, width, placed, v) && r.out.Done? && Lookup(r.world.elb, a.name) == Some(v)
    ensures Paid(r, Exec(c, r, ReconcileAll(c.env, placed, View(c.env, a.name, v))), Price(a))
  {
    var view, h := View(c.env, a.name, v), Head(a.name, v.order, a.want, FirstTargets(v));
    ViewIs(c.env, a.name, v);
    if h.targets == a.ids {
      NothingToReconcile(c.env, a, width, placed, v);
      IdleDoesNothing(c, r, ReconcileAll(c.env, placed, view));
      PaidNothing(r, Price(a));
    } else {
      DistinctCount(v.order);
      Turns(c, r, a, width, placed, v, h, |v.order|);
      assert view[..|v.order|] == view;
      TurnsPaid(r, Exec(c, r, ReconcileAll(c.env, placed, view)), a, h);
    }
  }

  lemma NothingToReconcile(env: Env, a: Aim, width: nat, placed: seq<ElasticLoadBalancer>, v: ElbBalancer)
    requires Comparable(env, a, width, placed, v) && FirstTargets(v) == a.ids
    ensures Idle(ReconcileAll(env, placed, View(env, a.name, v)))
  {
    ViewIs(env, a.name, v);
    ReconcileIdle(env, a.name, a.ids, placed, View(env, a.name, v));
  }

  // ---------------------------------------------------------------- whole runs

  /** No interface of the balancer has more than `width` system addresses, nor would one it is created with. */
  ghost predicate Narrow(env: Env, w: World, a: Aim, width: nat) {
    NarrowNics(Assigned(env, a.nics), width) && (a.name in w.elb ==> NarrowNics(w.elb[a.name].nics, width))
  }

  ghost function NarrowFor(env: Env, a: Aim, width: nat): World -> bool {
    (w: World) => Narrow(env, w, a, width)
  }

  /** Requests that create balancers with these interfaces only. */
  ghost function CreatesWith(nics: seq<NetworkInterface>): Call -> bool {
    (call: Call) => match call { case Elb(_, op) => op.ElbCreate? ==> op.nics == nics case _ => true }
  }

  lemma NarrowStays(env: Env, a: Aim, width: nat)
    ensures Preserved(env, CreatesWith(a.nics), NarrowFor(env, a, width))
  {
  }

  lemma StaysCreates(plan: Plan, nics: seq<NetworkInterface>)
    requires AllCalls(plan, PortsStay())
    ensures AllCalls(plan, CreatesWith(nics))
  {
    AllCallsWeaken(plan, PortsStay(), CreatesWith(nics));
  }

  lemma {:induction false} RegisterAllCreates(env: Env, lbs: seq<ElasticLoadBalancer>, nics: seq<NetworkInterface>)
    ensures AllCalls(RegisterAll(env, lbs), CreatesWith(nics))
  {
    if lbs != [] {
      var lb := lbs[|lbs| - 1];
      RegisterAllCreates(env, lbs[..|lbs| - 1], nics);
      FillStays(lb);
      RulesStay(env, true, lb, lb.balancingTargets);
      StaysCreates(FillSteps(lb), nics);
      StaysCreates(RulePlan(env, true, lb, lb.balancingTargets), nics);
      assert AllCalls(On(lb.name, ElbAddPort(KeyOf(lb))), CreatesWith(nics));
    }
  }

  lemma {:induction false} DeleteAllCreates(env: Env, lbs: seq<ElasticLoadBalancer>, nics: seq<NetworkInterface>)
    ensures AllCalls(DeleteAll(env, lbs), CreatesWith(nics))
  {
    if lbs != [] {
      var lb := lbs[|lbs| - 1];
      DeleteAllCreates(env, lbs[..|lbs| - 1], nics);
      RulesStay(env, false, lb, lb.balancingTargets);
      StaysCreates(RulePlan(env, false, lb, lb.balancingTargets), nics);
      assert AllCalls(On(lb.name, ElbRemovePort(KeyOf(lb))), CreatesWith(nics));
    }
  }

  lemma PlanForStays(env: Env, desire: seq<ElasticLoadBalancer>, cur: ElasticLoadBalancer)
    ensures AllCalls(PlanFor(env, desire, cur), PortsStay())
  {
    match Find(desire, cur, ElbEquals)
    case None =>
    case Some(d) =>
      var add := Missing(d.balancingTargets, cur.balancingTargets, InstanceEquals);
      var del := Missing(cur.balancingTargets, d.balancingTargets, InstanceEquals);
      RulesStay(env, true, cur, add);
      RulesStay(env, false, cur, del);
      OnStays(cur.name, ElbAttach(KeyOf(cur), Ids(add)));
      OnStays(cur.name, ElbDetach(KeyOf(cur), Ids(del)));
      assert AllCalls(AttachPlan(env, d, cur), PortsStay()) && AllCalls(DetachPlan(env, d, cur), PortsStay());
  }

  lemma {:induction false} ReconcileStays(env: Env, desire: seq<ElasticLoadBalancer>, view: seq<ElasticLoadBalancer>)
    ensures AllCalls(ReconcileAll(env, desire, view), PortsStay())
  {
    if view != [] {
      ReconcileStays(env, desire, view[..|view| - 1]);
      PlanForStays(env, desire, view[|view| - 1]);
    }
  }

  lemma CreationCreates(env: Env, first: ElasticLoadBalancer, placed: seq<ElasticLoadBalancer>)
    requires placed != []
    ensures var plan1 := Then(CreateSteps(first), On(first.name, ElbLook));
            var rest := Then(RulePlan(env, true, placed[0], placed[0].balancingTargets), RegisterAll(env, placed[1..]));
            AllCalls(plan1, CreatesWith(first.networkInterfaces))
              && AllCalls(rest, CreatesWith(first.networkInterfaces))
  {
    var nics := first.networkInterfaces;
    FillStays(first);
    StaysCreates(FillSteps(first), nics);
    StaysCreates(On(first.name, ElbLook), nics);
    assert AllCalls(On(first.name, ElbCreate(KeyOf(first), nics)), CreatesWith(nics));
    RulesStay(env, true, placed[0], placed[0].balancingTargets);
    StaysCreates(RulePlan(env, true, placed[0], placed[0].balancingTargets), nics);
    RegisterAllCreates(env, placed[1..], nics);
  }

  lemma PortPlanCreates(env: Env, name: string, placed: seq<ElasticLoadBalancer>, view: seq<ElasticLoadBalancer>,
                        nics: seq<NetworkInterface>)
    ensures AllCalls(PortPlan(env, name, placed, view), CreatesWith(nics))
  {
    RegisterAllCreates(env, ToCreate(placed, view), nics);
    DeleteAllCreates(env, ToDelete(placed, view), nics);
    OnStays(name, ElbLook);
    StaysCreates(On(name, ElbLook), nics);
  }

  lemma ExecKeepsNarrow(c: Ctx, r: Run, plan: Plan, a: Aim, width: nat)
    requires Narrow(c.env, r.world, a, width) && AllCalls(plan, CreatesWith(a.nics))
    ensures Narrow(c.env, Exec(c, r, plan).world, a, width)
  {
    NarrowStays(c.env, a, width);
    ExecInvariant(c, r, plan, CreatesWith(a.nics), NarrowFor(c.env, a, width));
  }

  lemma ViewNarrow(env: Env, w: World, a: Aim, width: nat)
    requires Narrow(env, w, a, width)
    ensures NarrowNics(FirstNics(ViewOf(env, w, a.name)), width)
  {
  }

  /** What pays for the ports pays for all, where the nodes may cost the most there is. */
  lemma PortsPayAll(r: Run, r': Run, a: Aim)
    requires Paid(r, r', PriceOfPorts(a)) && NodePrice(a, r.world) == MostForNodes(a)
    ensures Paid(r, r', Price(a))
  {
    NodePriceIsBounded(a, r'.world);
  }

  /** Where a run may begin: a well-formed cloud, whatever the balancer is like, and narrow interfaces. */
  ghost predicate Begins(c: Ctx, r: Run, a: Aim, width: nat, desire: seq<ElasticLoadBalancer>) {
    && WorldOK(c.env, r.world) && EnvOK(c.env) && r.out.Done? && DesireOK(c.env, a.name, a.ids, desire)
    && a.want == Keys(desire) && a.nics == desire[0].networkInterfaces
    && a.rules == MostRules(c.env, width) && Narrow(c.env, r.world, a, width)
  }

  lemma CreationPortsPaid(c: Ctx, r: Run, a: Aim, width: nat, first: ElasticLoadBalancer,
                          placed: seq<ElasticLoadBalancer>)
    requires first.name == a.name && KeyOf(first) in a.want && placed != []
    requires forall lb :: lb in placed ==> Priced(c.env, a, width, lb) && KeyOf(lb) in a.want
    ensures var plan1 := Then(CreateSteps(first), On(a.name, ElbLook));
            var plan2 := RulePlan(c.env, true, placed[0], placed[0].balancingTargets);
            Paid(r, Exec(c, r, Then(plan1, Then(plan2, RegisterAll(c.env, placed[1..])))), PriceOfPorts(a))
  {
    var plan1 := Then(CreateSteps(first), On(a.name, ElbLook));
    var plan2 := RulePlan(c.env, true, placed[0], placed[0].balancingTargets);
    CreatePaid(c, r, a, width, first, placed[0]);
    RegisterAllPaid(c, Exec(c, r, Then(plan1, plan2)), a, width, placed[1..]);
    ThenPaid(c, r, Then(plan1, plan2), RegisterAll(c.env, placed[1..]), PriceOfPorts(a));
    ThenRight(c, r, plan1, plan2, RegisterAll(c.env, placed[1..]));
  }

  lemma CreationPaid(c: Ctx, r: Run, a: Aim, width: nat, desire: seq<ElasticLoadBalancer>)
    requires Begins(c, r, a, width, desire) && a.name !in r.world.elb
    ensures var r' := EnsureCreated(c, r, a.name, desire).run;
            && Paid(r, r', Price(a)) && r'.out.Done? && WorldOK(c.env, r'.world) && Narrow(c.env, r'.world, a, width)
  {
    var plan := WholeCreate(c, r, a.name, desire);
    var view := ViewOf(c.env, Exec(c, r, plan.first).world, a.name);
    var placed := PlacedAll(desire, FirstVip(view), FirstNics(view));
    CreationCreates(c.env, desire[0], placed);
    ExecKeepsNarrow(c, r, plan.first, a, width);
    ViewNarrow(c.env, Exec(c, r, plan.first).world, a, width);
    PlacedPriced(c.env, a, width, desire, FirstVip(view), FirstNics(view));
    KeysOfAll(a.want, desire);
    CreationPortsPaid(c, r, a, width, desire[0], placed);
    PortsPayAll(r, Exec(c, r, plan), a);
    CreateIsWhole(c, r, a.name, desire);
    ExecKeepsNarrow(c, r, plan, a, width);
    ExecKeepsWorldOK(c, r, plan);
  }

  lemma PortedKeys(c: Ctx, r: Run, name: string, placed: seq<ElasticLoadBalancer>, b: ElbBalancer)
    requires WorldOK(c.env, r.world) && EnvOK(c.env) && Lookup(r.world.elb, name) == Some(b)
    requires forall d :: d in placed ==> d.name == name
    requires Exec(c, r, PortPlan(c.env, name, placed, View(c.env, name, b))).out.Done?
    ensures KeysAt(Exec(c, r, PortPlan(c.env, name, placed, View(c.env, name, b))).world, name) == Keys(placed)
  {
    var view, plan := View(c.env, name, b), PortPlan(c.env, name, placed, View(c.env, name, b));
    var created, deleted := ToCreate(placed, view), ToDelete(placed, view);
    var r1 := Exec(c, r, RegisterAll(c.env, created));
    var r2 := Exec(c, r1, DeleteAll(c.env, deleted));
    ExecDone(c, r2, plan.next);
    ExecDone(c, r1, DeleteAll(c.env, deleted));
    PortedLists(c.env, name, placed, b);
    RegisteredAll(c, r, name, created);
    ExecKeepsWorldOK(c, r, RegisterAll(c.env, created));
    DeletedAll(c, r1, name, deleted);
    OnStays(name, ElbLook);
    KeysStay(c, r2, plan.next, name);
  }

  lemma PortedLists(env: Env, name: string, placed: seq<ElasticLoadBalancer>, b: ElbBalancer)
    requires EnvOK(env) && ElbOK(env, b) && forall d :: d in placed ==> d.name == name
    ensures var created, deleted := ToCreate(placed, View(env, name, b)), ToDelete(placed, View(env, name, b));
            && Keys(created) == Keys(placed) - b.at.Keys && Keys(deleted) == b.at.Keys - Keys(placed)
            && (forall lb :: lb in created || lb in deleted ==> lb.name == name)
  {
    var view := View(env, name, b);
    ViewIs(env, name, b);
    MissingByKey(placed, view, ElbEquals, KeyOf);
    MissingByKey(view, placed, ElbEquals, KeyOf);
    assert Mapped(placed, KeyOf) == KeySeq(placed) && Mapped(view, KeyOf) == b.order;
    assert Mapped(ToCreate(placed, view), KeyOf) == KeySeq(ToCreate(placed, view));
    assert Mapped(ToDelete(placed, view), KeyOf) == KeySeq(ToDelete(placed, view));
  }

  lemma PortsOfUpdatePaid(c: Ctx, r: Run, a: Aim, width: nat, desire: seq<ElasticLoadBalancer>, b: ElbBalancer)
    requires Begins(c, r, a, width, desire) && Lookup(r.world.elb, a.name) == Some(b)
    ensures var placed := PlacedAll(desire, b.vip, b.nics);
            && Paid(r, Exec(c, r, PortPlan(c.env, a.name, placed, View(c.env, a.name, b))), Price(a))
            && DesireOK(c.env, a.name, a.ids, placed) && Keys(placed) == a.want
  {
    var placed := PlacedAll(desire, b.vip, b.nics);
    var plan := PortPlan(c.env, a.name, placed, View(c.env, a.name, b));
    PlacedDesire(c.env, a.name, a.ids, desire, b.vip, b.nics);
    PlacedPriced(c.env, a, width, desire, b.vip, b.nics);
    if b.at.Keys == a.want {
      PortsIdle(c.env, a.name, a.ids, placed, b);
      IdleDoesNothing(c, r, plan);
      PaidNothing(r, Price(a));
    } else {
      PortPlanPaid(c, r, a, width, placed, b);
      PortsPayAll(r, Exec(c, r, plan), a);
    }
  }

  lemma KeyOfSome(desire: seq<ElasticLoadBalancer>)
    requires desire != []
    ensures Keys(desire) != {}
  {
    assert KeySeq(desire)[0] in Keys(desire);
  }

  lemma NodesOfUpdatePaid(c: Ctx, r: Run, a: Aim, width: nat, placed: seq<ElasticLoadBalancer>)
    requires WorldOK(c.env, r.world) && EnvOK(c.env) && Narrow(c.env, r.world, a, width)
    requires DesireOK(c.env, a.name, a.ids, placed) && Keys(placed) == a.want && a.rules == MostRules(c.env, width)
    requires r.out.Done? ==> KeysAt(r.world, a.name) == a.want
    ensures Paid(r, Exec(c, r, ReconcileAll(c.env, placed, ViewOf(c.env, r.world, a.name))), Price(a))
  {
    if r.out.Done? {
      KeyOfSome(placed);
      NodesPaid(c, r, a, width, placed, r.world.elb[a.name]);
    } else {
      ExecAfterFailure(c, r, ReconcileAll(c.env, placed, ViewOf(c.env, r.world, a.name)));
      PaidNothing(r, Price(a));
    }
  }

  lemma UpdatePaid(c: Ctx, r: Run, a: Aim, width: nat, desire: seq<ElasticLoadBalancer>)
    requires Begins(c, r, a, width, desire) && a.name in r.world.elb
    ensures var r' := EnsureUpdated(c, r, a.name, desire).run;
            && Paid(r, r', Price(a)) && r'.out.Done? && WorldOK(c.env, r'.world) && Narrow(c.env, r'.world, a, width)
  {
    var b := r.world.elb[a.name];
    var placed := PlacedAll(desire, b.vip, b.nics);
    var ports := PortPlan(c.env, a.name, placed, View(c.env, a.name, b));
    var r1 := Exec(c, r, ports);
    var nodes := ReconcileAll(c.env, placed, ViewOf(c.env, r1.world, a.name));
    ViewFirst(c.env, r.world, a.name);
    PortsOfUpdatePaid(c, r, a, width, desire, b);
    ExecKeepsWorldOK(c, r, ports);
    PortPlanCreates(c.env, a.name, placed, View(c.env, a.name, b), a.nics);
    ExecKeepsNarrow(c, r, ports, a, width);
    if r1.out.Done? {
      PortedKeys(c, r, a.name, placed, b);
    }
    NodesOfUpdatePaid(c, r1, a, width, placed);
    PaidTwice(r, r1, Exec(c, r1, nodes), Price(a));
    ExecKeepsWorldOK(c, r1, nodes);
    ReconcileStays(c.env, placed, ViewOf(c.env, r1.world, a.name));
    StaysCreates(nodes, a.nics);
    ExecKeepsNarrow(c, r1, nodes, a, width);
  }

  lemma LookCostsNothing(c: Ctx, r: Run, a: Aim)
    requires r.out.Done?
    ensures var r1 := Exec(c, r, On(a.name, ElbLook)); Paid(r, r1, Price(a)) && r1.world == r.world
  {
    LookIdeal(c, r, a.name);
    ExecSpends(c, r, On(a.name, ElbLook));
    OnStays(a.name, ElbLook);
  }

  /** One run, whatever fails in it, is paid for and ends where another may begin. */
  lemma EnsurePaid(c: Ctx, r: Run, a: Aim, width: nat, desire: seq<ElasticLoadBalancer>)
    requires Begins(c, r, a, width, desire)
    ensures var r' := EnsureElb(c, r, a.name, desire).run; Paid(r, r', Price(a)) && Begins(c, r', a, width, desire)
  {
    var r1 := Exec(c, r, On(a.name, ElbLook));
    LookIdeal(c, r, a.name);
    LookCostsNothing(c, r, a);
    if r1.out == Failed(BalancerNotFound) {
      CreationPaid(c, r1.(out := Done), a, width, desire);
      PaidTwice(r, r1, EnsureElb(c, r, a.name, desire).run, Price(a));
    } else if r1.out.Done? {
      UpdatePaid(c, r1, a, width, desire);
      PaidTwice(r, r1, EnsureElb(c, r, a.name, desire).run, Price(a));
    }
  }

  ghost predicate Budgeted(c: Ctx, r: Run, r': Run, a: Aim, width: nat, desire: seq<ElasticLoadBalancer>) {
    Paid(r, r', Price(a)) && Begins(c, r', a, width, desire)
  }

  lemma RetryPaid(c: Ctx, r: Run, a: Aim, width: nat, desire: seq<ElasticLoadBalancer>, n: nat)
    requires Begins(c, r, a, width, desire)
    requires n > 0 ==> Budgeted(c, r, Retry(c, r, a.name, desire, n - 1), a, width, desire)
    ensures Budgeted(c, r, Retry(c, r, a.name, desire, n), a, width, desire)
  {
    if n == 0 {
      PaidNothing(r, Price(a));
    } else {
      var r1 := Retry(c, r, a.name, desire, n - 1);
      EnsurePaid(c, r1, a, width, desire);
      PaidTwice(r, r1, Retry(c, r, a.name, desire, n), Price(a));
    }
  }

  lemma {:induction n} RetriesPaid(c: Ctx, r: Run, a: Aim, width: nat, desire: seq<ElasticLoadBalancer>, n: nat)
    requires Begins(c, r, a, width, desire)
    ensures Budgeted(c, r, Retry(c, r, a.name, desire, n), a, width, desire)
  {
    RetryPaid(c, r, a, width, desire, n);
  }

  function AimOf(env: Env, name: string, ids: set<string>, desire: seq<ElasticLoadBalancer>, width: nat): Aim
    requires desire != []
  {
    Aim(name, Keys(desire), ids, desire[0].networkInterfaces, MostRules(env, width))
  }

  /**
   * From any well-formed cloud, however often the operation is repeated and whatever fails in it:
   * the requests that changed the cloud, those about rules included, and the budget that is left
   * come to no more than the budget at the start. The number `width` stands for the most system
   * addresses that an interface of the balancer has.
   */
  lemma RetriesChangeBoundedly(c: Ctx, r: Run, name: string, ids: set<string>, desire: seq<ElasticLoadBalancer>,
                               width: nat, n: nat)
    requires WorldOK(c.env, r.world) && EnvOK(c.env) && r.out.Done? && DesireOK(c.env, name, ids, desire)
    requires Narrow(c.env, r.world, AimOf(c.env, name, ids, desire, width), width)
    ensures var a, r' := AimOf(c.env, name, ids, desire, width), Retry(c, r, name, desire, n);
            Spent(r, r') + Budget(a, r'.world) <= Budget(a, r.world)
  {
    var a := AimOf(c.env, name, ids, desire, width);
    RetriesPaid(c, r, a, width, desire, n);
    assert Price(a)(r.world) == Budget(a, r.world);
  }

  lemma NoCount(s: set<Key>)
    ensures |s| == 0 <==> s == {}
  {
  }

  lemma ZeroTimes(n: nat, m: nat)
    ensures n * (m + 1) == 0 <==> n == 0
  {
    if n > 0 {
      AtLeastOnce(n, m + 1);
    }
  }

  /** Nothing is left to pay exactly when the ports are right and the first listener has exactly the nodes. */
  lemma BudgetZero(a: Aim, w: World)
    requires a.want != {}
    ensures Budget(a, w) == 0 <==>
            a.name in w.elb && w.elb[a.name].at.Keys == a.want && FirstTargets(w.elb[a.name]) == a.ids
  {
    var keys := KeysAt(w, a.name);
    NoCount(a.want - keys);
    NoCount(keys - a.want);
    NoCount(a.want);
    ZeroTimes(|a.want - keys|, 2 + a.rules);
    ZeroTimes(|keys - a.want|, a.rules);
    ZeroTimes(|a.want|, a.rules);
    ZeroTimes(|a.want|, 2 * a.rules + 1);
    SameSets(a.want, keys);
  }

  lemma SameSets(s: set<Key>, t: set<Key>)
    ensures s - t == {} && t - s == {} ==> s == t
  {
    if s - t == {} && t - s == {} {
      forall k ensures k in s <==> k in t {
        assert k !in s - t && k !in t - s;
      }
    }
  }
}
