/** What every single request of an L4 run does: the facts that hold between two neighbouring states. */
module L4Steps {
  import opened Base
  import opened Cloud
  import opened Runs
  import opened Differences
  import opened L4Plan
  import opened L4Measure

  // ---------------------------------------------------------------- what is desired

  /** The state a desired listener stands for. */
  function WantOf(d: LoadBalancer): L4Listener {
    L4Listener(Elems(Ids(d.balancingTargets)), Elems(d.filters) - {ANY_IP_ADDRESSES})
  }

  function Wanted(desire: seq<LoadBalancer>): Listeners {
    if desire == [] then map[]
    else
      var d := desire[|desire| - 1];
      Wanted(desire[..|desire| - 1])[KeyOf(d) := WantOf(d)]
  }

  /** The health checks of the desired listeners. */
  function WantedChecks(desire: seq<LoadBalancer>): map<Key, HealthCheck> {
    if desire == [] then map[]
    else
      var d := desire[|desire| - 1];
      WantedChecks(desire[..|desire| - 1])[KeyOf(d) := CheckOf(d)]
  }

  /** One listener as the builder makes it: known, distinct instances and distinct filters. */
  ghost predicate ListenerOK(env: Env, name: string, d: LoadBalancer) {
    && d.name == name
    && (forall x :: x in d.balancingTargets ==> Known(env, x))
    && Distinct(Ids(d.balancingTargets))
    && Distinct(d.filters)
  }

  ghost predicate DistinctPorts(desire: seq<LoadBalancer>) {
    forall i, j :: 0 <= i < j < |desire| ==> desire[i].loadBalancerPort != desire[j].loadBalancerPort
  }

  ghost predicate DesireOK(env: Env, name: string, desire: seq<LoadBalancer>) {
    && (forall d :: d in desire ==> ListenerOK(env, name, d))
    && DistinctPorts(desire)
  }

  lemma {:induction false} WantedKeys(desire: seq<LoadBalancer>)
    ensures Elems(KeySeq(desire)) == Wanted(desire).Keys == WantedChecks(desire).Keys
    ensures forall k :: k in Wanted(desire) ==> ANY_IP_ADDRESSES !in Wanted(desire)[k].filters
  {
    if desire != [] {
      var init, d := desire[..|desire| - 1], desire[|desire| - 1];
      WantedKeys(init);
      assert KeySeq(desire) == KeySeq(init) + [KeyOf(d)];
      ElemsAppend(KeySeq(init), [KeyOf(d)]);
    }
  }

  lemma {:induction false} WantedValues(desire: seq<LoadBalancer>, i: nat)
    requires DistinctPorts(desire) && i < |desire|
    ensures KeyOf(desire[i]) in Wanted(desire) && Wanted(desire)[KeyOf(desire[i])] == WantOf(desire[i])
    ensures KeyOf(desire[i]) in WantedChecks(desire) && WantedChecks(desire)[KeyOf(desire[i])] == CheckOf(desire[i])
  {
    var init := desire[..|desire| - 1];
    if i < |init| {
      WantedValues(init, i);
      assert desire[i].loadBalancerPort != desire[|desire| - 1].loadBalancerPort;
    }
  }

  lemma WantedPorts(desire: seq<LoadBalancer>)
    requires DistinctPorts(desire)
    ensures Distinct(KeySeq(desire)) && OnePortEach(Wanted(desire))
  {
    var ks := KeySeq(desire);
    forall i, j | 0 <= i < j < |ks| ensures ks[i].port != ks[j].port {
      assert desire[i].loadBalancerPort != desire[j].loadBalancerPort;
    }
    WantedKeys(desire);
  }

  lemma {:induction false} WantedAt(desire: seq<LoadBalancer>)
    requires DistinctPorts(desire)
    ensures forall d :: d in desire ==> KeyOf(d) in Wanted(desire) && Wanted(desire)[KeyOf(d)] == WantOf(d)
    ensures forall d :: d in desire ==> KeyOf(d) in WantedChecks(desire) && WantedChecks(desire)[KeyOf(d)] == CheckOf(d)
  {
    forall d | d in desire
      ensures KeyOf(d) in Wanted(desire) && Wanted(desire)[KeyOf(d)] == WantOf(d)
      ensures KeyOf(d) in WantedChecks(desire) && WantedChecks(desire)[KeyOf(d)] == CheckOf(d)
    {
      var i :| 0 <= i < |desire| && desire[i] == d;
      WantedValues(desire, i);
    }
  }

  // ---------------------------------------------------------------- what a run keeps

  /**
   * The desired listeners of one balancer, their health checks, the balancer that was there when
   * the run began, and the ports that were, where these matter.
   */
  datatype Goal = Goal(
    name: string,
    ks: seq<Key>,
    want: Listeners,
    checks: map<Key, HealthCheck>,
    start: Option<L4Balancer>,
    had: Option<set<Key>>)

  function GoalOf(name: string, desire: seq<LoadBalancer>, start: Option<L4Balancer>): Goal {
    Goal(name, KeySeq(desire), Wanted(desire), WantedChecks(desire), start, Some(AtOf(start).Keys))
  }

  /** The same whatever was there at the start. */
  function AnyStart(g: Goal): Goal {
    g.(start := None, had := None)
  }

  ghost predicate GoalOK(g: Goal) {
    && Elems(g.ks) == g.want.Keys == g.checks.Keys && OnePortEach(g.want)
    && forall k :: k in g.want ==> ANY_IP_ADDRESSES !in g.want[k].filters
  }

  function AtOf(b: Option<L4Balancer>): Listeners {
    if b.Some? then b.value.at else map[]
  }

  function ChecksOf(b: Option<L4Balancer>): map<Key, HealthCheck> {
    if b.Some? then b.value.checks else map[]
  }

  /** A port that the run made serves nobody before its health check is as desired. */
  ghost predicate Checked(g: Goal, b: Option<L4Balancer>) {
    g.had.Some? ==>
      forall k :: k in AtOf(b) && k !in g.had.value && AtOf(b)[k].targets != {} ==>
        k in g.checks && k in ChecksOf(b) && ChecksOf(b)[k] == g.checks[k]
  }

  /** No health check of a port that stays is changed, and those that are new are as desired. */
  ghost predicate ChecksStep(g: Goal, b: Option<L4Balancer>, b': Option<L4Balancer>) {
    && (forall k :: k in ChecksOf(b) && (k in AtOf(b) ==> k in AtOf(b')) ==>
          k in ChecksOf(b') && ChecksOf(b')[k] == ChecksOf(b)[k])
    && (forall k :: k in ChecksOf(b') && k !in ChecksOf(b) ==>
          k in g.checks && ChecksOf(b')[k] == g.checks[k])
  }

  /** No desired listener takes a port that is in use for another node port. */
  ghost predicate NoClash(want: Listeners, at: Listeners) {
    forall k, k' :: k in want && k' in at && k.port == k'.port ==> k == k'
  }

  /**
   * A listener that stays passes from the old to the new targets through their union, never below
   * both, and only then from the old to the new filters.
   */
  ghost predicate KeptListener(g: Goal, k: Key, was: L4Listener, now: L4Listener) {
    if k in g.want then
      && (now.targets == was.targets || now.targets == was.targets + g.want[k].targets ||
          now.targets == g.want[k].targets)
      && (now.filters == was.filters || now == g.want[k])
    else now == was
  }

  predicate SameCheck(k: Key, checks: map<Key, HealthCheck>, checks': map<Key, HealthCheck>) {
    (k in checks <==> k in checks') && (k in checks ==> checks[k] == checks'[k])
  }

  /** Nothing that both the old and the new form serve is ever interrupted. */
  ghost predicate Undisturbed(g: Goal, b: Option<L4Balancer>)
    requires g.start.Some?
  {
    && b.Some?
    && b.value.vip == g.start.value.vip
    && var was, now := g.start.value.at, b.value.at;
       && was.Keys * g.want.Keys <= now.Keys <= was.Keys + g.want.Keys
       && (was.Keys <= now.Keys || g.want.Keys <= now.Keys)
       && now != map[]
       && (forall k :: k in was && k in now ==> KeptListener(g, k, was[k], now[k]))
       && forall k :: k in was && k in now ==> SameCheck(k, g.start.value.checks, b.value.checks)
  }

  ghost predicate BalancerStep(g: Goal, b: Option<L4Balancer>, b': Option<L4Balancer>) {
    && Closer(g.want, AtOf(b), AtOf(b'))
    && (AtOf(b) == AtOf(b') && ChecksOf(b) == ChecksOf(b') ==> b == b')
    && ChecksStep(g, b, b') && Checked(g, b) && Checked(g, b')
    && (NoClash(g.want, AtOf(b)) ==> NoClash(g.want, AtOf(b')))
    && (g.start.Some? ==> Undisturbed(g, b) && Undisturbed(g, b'))
  }

  function With(w: World, name: string, b: Option<L4Balancer>): World {
    w.(l4 := Put(w.l4, name, b))
  }

  /** Only the L4 balancer `name` may differ between the two states. */
  ghost predicate OnlyL4(name: string, w: World, w': World) {
    w' == With(w, name, Lookup(w'.l4, name))
  }

  ghost predicate GoodStep(g: Goal, w: World, w': World) {
    && OnlyL4(g.name, w, w')
    && BalancerStep(g, Lookup(w.l4, g.name), Lookup(w'.l4, g.name))
  }

  ghost function Good(g: Goal): (World, World) -> bool {
    (w, w') => GoodStep(g, w, w')
  }

  lemma GoodClosed(g: Goal)
    ensures Closed(Good(g))
  {
    forall w, w' | GoodStep(g, w, w') ensures GoodStep(g, w, w) && GoodStep(g, w', w') {
      WithWith(w, g.name, None, None);
      WithWith(w', g.name, None, None);
    }
  }

  lemma WithWith(w: World, name: string, b: Option<L4Balancer>, b': Option<L4Balancer>)
    ensures With(With(w, name, b), name, b') == With(w, name, b')
    ensures With(w, name, Lookup(w.l4, name)) == w
  {
  }

  // ---------------------------------------------------------------- one action at a time

  /** One request that the cloud accepts or refuses. */
  lemma OneRequest(g: Goal, env: Env, w: World, op: L4Op)
    requires var r := ApplyL4(env, g.name, Lookup(w.l4, g.name), op);
             r.Ok? ==> BalancerStep(g, Lookup(w.l4, g.name), r.value)
    ensures Steady(env, w, On(g.name, op), Good(g))
    ensures var r := ApplyL4(env, g.name, Lookup(w.l4, g.name), op);
            Ideal(env, w, On(g.name, op)) == if r.Err? then Err(r.error) else Ok(With(w, g.name, r.value))
  {
  }

  // ---------------------------------------------------------------- filters on the wire

  lemma {:induction false} SentMembers(changes: seq<Filter>)
    ensures forall f :: f in Sent(changes) <==> f in changes && f.ipAddress != ANY_IP_ADDRESSES
  {
    if changes != [] {
      SentMembers(changes[..|changes| - 1]);
      assert changes == changes[..|changes| - 1] + [changes[|changes| - 1]];
    }
  }

  lemma {:induction false} SentUnique(changes: seq<Filter>)
    requires UniqueAddresses(changes)
    ensures UniqueAddresses(Sent(changes))
  {
    if changes != [] {
      var init, last := changes[..|changes| - 1], changes[|changes| - 1];
      SentUnique(init);
      SentMembers(init);
      var rest := Sent(init);
      forall i | 0 <= i < |rest| ensures rest[i].ipAddress != last.ipAddress {
        assert rest[i] in init;
      }
    }
  }

  lemma SentSets(addresses: seq<string>, add: bool)
    ensures var s := Sent(Changes(addresses, add));
            var clean := Elems(addresses) - {ANY_IP_ADDRESSES};
            Added(s) == (if add then clean else {}) && Removed(s) == (if add then {} else clean)
  {
    var s := Sent(Changes(addresses, add));
    SentMembers(Changes(addresses, add));
    forall x | x in addresses && x != ANY_IP_ADDRESSES ensures Filter(add, x) in s {
      var i :| 0 <= i < |addresses| && addresses[i] == x;
      assert Changes(addresses, add)[i] == Filter(add, x);
    }
    forall f | f in s ensures f.addOnFilter == add && f.ipAddress in addresses && f.ipAddress != ANY_IP_ADDRESSES {
      var i :| 0 <= i < |addresses| && Changes(addresses, add)[i] == f;
    }
  }

  lemma {:induction false} SentClean(changes: seq<Filter>)
    requires forall f :: f in changes ==> f.ipAddress != ANY_IP_ADDRESSES
    ensures Sent(changes) == changes
  {
    if changes != [] {
      SentClean(changes[..|changes| - 1]);
      assert changes == changes[..|changes| - 1] + [changes[|changes| - 1]];
    }
  }

  lemma ChangesAppend(p: seq<Filter>, q: seq<Filter>)
    ensures Added(p + q) == Added(p) + Added(q)
    ensures Removed(p + q) == Removed(p) + Removed(q)
  {
  }

  // ---------------------------------------------------------------- setting one listener

  function SetAt(v: L4Balancer, k: Key, l: L4Listener): L4Balancer {
    v.(at := v.at[k := l])
  }

  ghost predicate Fine(g: Goal, b: L4Balancer) {
    (g.start.Some? ==> Undisturbed(g, Some(b))) && Checked(g, Some(b))
  }

  /** Setting one desired listener to something nearer is progress. */
  lemma SetListener(g: Goal, v: L4Balancer, k: Key, l: L4Listener)
    requires k in g.want && k in v.at && Fine(g, v) && Fine(g, SetAt(v, k, l))
    requires Nearer(g.want[k].targets, v.at[k].targets, l.targets)
    requires Nearer(g.want[k].filters, v.at[k].filters, l.filters)
    ensures BalancerStep(g, Some(v), Some(SetAt(v, k, l)))
  {
  }
}
