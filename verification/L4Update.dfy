/** The plan of an L4 run on a balancer that exists, seen as a whole. */
module L4Update {
  import opened Base
  import opened Cloud
  import opened Runs
  import opened Differences
  import opened L4Plan
  import opened L4Measure
  import opened L4Steps
  import opened L4Phases
  import opened L4Reconcile

  // ---------------------------------------------------------------- which ports are created and deleted

  lemma ViewKeys(env: Env, name: string, v: L4Balancer)
    ensures KeySeq(View(env, name, v)) == v.order
    ensures forall lb :: lb in View(env, name, v) ==> lb.name == name
  {
  }

  lemma PartKeepsPorts(desire: seq<LoadBalancer>, part: seq<LoadBalancer>)
    requires DistinctPorts(desire) && Distinct(KeySeq(part)) && forall d :: d in part ==> d in desire
    ensures DistinctPorts(part)
  {
    forall i, j | 0 <= i < j < |part| ensures part[i].loadBalancerPort != part[j].loadBalancerPort {
      assert KeySeq(part)[i] != KeySeq(part)[j];
      assert part[i] in part && part[j] in part;
      var a :| 0 <= a < |desire| && desire[a] == part[i];
      var b :| 0 <= b < |desire| && desire[b] == part[j];
      assert a < b || b < a;
    }
  }

  // ---------------------------------------------------------------- the port phase

  /** What a run on `v` sets out from. */
  ghost predicate Setting(env: Env, name: string, desire: seq<LoadBalancer>, v: L4Balancer) {
    EnvOK(env) && DesireOK(env, name, desire) && desire != [] && L4OK(env, v)
  }

  lemma GoalIsOK(env: Env, name: string, desire: seq<LoadBalancer>, start: Option<L4Balancer>)
    requires DesireOK(env, name, desire)
    ensures GoalOK(GoalOf(name, desire, start))
    ensures forall d :: d in desire ==> Describes(GoalOf(name, desire, start), env, d)
  {
    WantedKeys(desire);
    WantedPorts(desire);
    WantedAt(desire);
  }

  lemma {:induction false} WantedHas(env: Env, name: string, desire: seq<LoadBalancer>, k: Key)
    requires DesireOK(env, name, desire) && k in Wanted(desire)
    ensures exists d :: d in desire && KeyOf(d) == k
  {
    WantedKeys(desire);
    var i :| 0 <= i < |desire| && KeySeq(desire)[i] == k;
    assert desire[i] in desire && KeyOf(desire[i]) == k;
  }

  /** A registration is refused exactly when a desired listener needs a port used for another node port. */
  lemma ClashIsTaken(env: Env, name: string, desire: seq<LoadBalancer>, v: L4Balancer)
    requires Setting(env, name, desire, v)
    ensures AnyPortTaken(v.at, ToCreate(desire, View(env, name, v))) <==> !NoClash(Wanted(desire), v.at)
  {
    var created := ToCreate(desire, View(env, name, v));
    CreatedKeys(env, name, desire, v);
    if AnyPortTaken(v.at, created) {
      var lb :| lb in created && PortTaken(v.at, lb.loadBalancerPort);
      var k' :| k' in v.at && k'.port == lb.loadBalancerPort;
      assert KeyOf(lb) in Wanted(desire) && KeyOf(lb) != k' && KeyOf(lb).port == k'.port;
    }
    if !NoClash(Wanted(desire), v.at) {
      var k, k' :| k in Wanted(desire) && k' in v.at && k.port == k'.port && k != k';
      assert k in Elems(KeySeq(created));
      var i :| 0 <= i < |created| && KeySeq(created)[i] == k;
      assert created[i] in created && PortTaken(v.at, created[i].loadBalancerPort);
    }
  }

  /** The balancer after all registrations and deletions. */
  function Ported(env: Env, name: string, desire: seq<LoadBalancer>, v: L4Balancer): L4Balancer {
    MinusAll(PlusAll(env, v, ToCreate(desire, View(env, name, v))), ToDelete(desire, View(env, name, v)))
  }

  /** After the port phase exactly the desired listeners exist; the old ones among them are untouched. */
  ghost predicate IsPorted(g: Goal, v: L4Balancer, v2: L4Balancer) {
    && v2.at.Keys == g.want.Keys && v2.vip == v.vip
    && (forall k :: k in v2.at ==> v2.at[k] == if k in v.at then v.at[k] else g.want[k])
    && v2.checks.Keys <= v2.at.Keys
    && forall k :: k in v2.at ==>
         if k in v.at then SameCheck(k, v.checks, v2.checks)
         else k in v2.checks && k in g.checks && v2.checks[k] == g.checks[k]
  }

  /** What is registered: the desired listeners that are not there. */
  lemma CreatedKeys(env: Env, name: string, desire: seq<LoadBalancer>, v: L4Balancer)
    requires Setting(env, name, desire, v)
    ensures var created := ToCreate(desire, View(env, name, v));
            && Elems(KeySeq(created)) == Wanted(desire).Keys - v.at.Keys
            && DistinctPorts(created)
            && forall lb :: lb in created ==> Describes(GoalOf(name, desire, Some(v)), env, lb) && KeyOf(lb) !in v.at
  {
    var view, created := View(env, name, v), ToCreate(desire, View(env, name, v));
    GoalIsOK(env, name, desire, Some(v));
    WantedKeys(desire);
    WantedPorts(desire);
    ViewKeys(env, name, v);
    MissingByKey(desire, view, LoadBalancerEquals, KeyOf);
    assert Mapped(desire, KeyOf) == KeySeq(desire) && Mapped(view, KeyOf) == v.order;
    assert Mapped(created, KeyOf) == KeySeq(created);
    PartKeepsPorts(desire, created);
    forall lb | lb in created ensures KeyOf(lb) !in v.at {
      assert KeyOf(lb) !in Elems(v.order);
    }
  }

  /** What is deleted: the listeners that are there and not desired. */
  lemma DeletedKeys(env: Env, name: string, desire: seq<LoadBalancer>, v: L4Balancer)
    requires Setting(env, name, desire, v)
    ensures var deleted := ToDelete(desire, View(env, name, v));
            && Elems(KeySeq(deleted)) == v.at.Keys - Wanted(desire).Keys
            && Distinct(KeySeq(deleted))
            && forall lb :: lb in deleted ==> lb.name == name && KeyOf(lb) in v.at && KeyOf(lb) !in Wanted(desire)
  {
    var view, deleted := View(env, name, v), ToDelete(desire, View(env, name, v));
    WantedKeys(desire);
    ViewKeys(env, name, v);
    MissingByKey(view, desire, LoadBalancerEquals, KeyOf);
    assert Mapped(desire, KeyOf) == KeySeq(desire) && Mapped(view, KeyOf) == v.order;
    assert Mapped(deleted, KeyOf) == KeySeq(deleted);
    forall lb | lb in deleted ensures KeyOf(lb) in v.at && KeyOf(lb) !in Wanted(desire) {
      assert KeyOf(lb) !in Elems(KeySeq(desire));
      var i :| 0 <= i < |view| && view[i] == lb;
      assert v.order[i] in Elems(v.order);
    }
  }

  lemma AddingAtStart(env: Env, name: string, desire: seq<LoadBalancer>, v: L4Balancer)
    requires Setting(env, name, desire, v)
    ensures Adding(GoalOf(name, desire, Some(v)), v)
  {
    assert v.order[0] in Elems(v.order);
  }

  /** Listeners are added, then those that nobody wants are taken away. */
  lemma GrownThenTrimmed(g: Goal, v: L4Balancer, u: L4Balancer, v2: L4Balancer, ks: seq<Key>, gone: set<Key>)
    requires Grown(g, v, u, ks) && v2.at == u.at - gone && v2.checks == u.checks - gone && v2.vip == u.vip
    requires Elems(ks) == g.want.Keys - v.at.Keys && gone == v.at.Keys - g.want.Keys
    ensures IsPorted(g, v, v2)
  {
    assert forall k :: k in ks <==> k in Elems(ks);
  }

  lemma GrownIsTrimming(g: Goal, v: L4Balancer, u: L4Balancer, ks: seq<Key>)
    requires Adding(g, u) && Grown(g, v, u, ks) && g.start == Some(v) && g.want != map[]
    requires Elems(ks) == g.want.Keys - v.at.Keys && Elems(v.order) == v.at.Keys
    ensures Trimming(g, u)
  {
    assert forall k :: k in ks <==> k in Elems(ks);
  }

  lemma PortedIs(env: Env, name: string, desire: seq<LoadBalancer>, v: L4Balancer)
    requires Setting(env, name, desire, v)
    ensures IsPorted(GoalOf(name, desire, Some(v)), v, Ported(env, name, desire, v))
    ensures Trimming(GoalOf(name, desire, Some(v)), PlusAll(env, v, ToCreate(desire, View(env, name, v))))
    ensures Deletable(GoalOf(name, desire, Some(v)), PlusAll(env, v, ToCreate(desire, View(env, name, v))),
                      ToDelete(desire, View(env, name, v)))
  {
    var g := GoalOf(name, desire, Some(v));
    var created, deleted := ToCreate(desire, View(env, name, v)), ToDelete(desire, View(env, name, v));
    CreatedKeys(env, name, desire, v);
    DeletedKeys(env, name, desire, v);
    AddingAtStart(env, name, desire, v);
    PlusAllKeys(g, env, v, created);
    MinusAllKeys(PlusAll(env, v, created), deleted);
    WantedKeys(desire);
    assert KeySeq(desire)[0] in Elems(KeySeq(desire));
    GrownThenTrimmed(g, v, PlusAll(env, v, created), Ported(env, name, desire, v), KeySeq(created),
                     Elems(KeySeq(deleted)));
    GrownIsTrimming(g, v, PlusAll(env, v, created), KeySeq(created));
  }

  lemma PortedVip(env: Env, name: string, desire: seq<LoadBalancer>, v: L4Balancer)
    requires Setting(env, name, desire, v)
    ensures Ported(env, name, desire, v).vip == v.vip
  {
    PortedIs(env, name, desire, v);
  }

  lemma CreatePhase(env: Env, w: World, name: string, desire: seq<LoadBalancer>, v: L4Balancer)
    requires Setting(env, name, desire, v) && Lookup(w.l4, name) == Some(v)
    ensures var plan := RegisterAll(ToCreate(desire, View(env, name, v)));
            && Steady(env, w, plan, Good(GoalOf(name, desire, Some(v))))
            && Ideal(env, w, plan) ==
               if NoClash(Wanted(desire), v.at)
               then Ok(With(w, name, Some(PlusAll(env, v, ToCreate(desire, View(env, name, v))))))
               else Err(PortExists)
  {
    GoalIsOK(env, name, desire, Some(v));
    CreatedKeys(env, name, desire, v);
    AddingAtStart(env, name, desire, v);
    RegisterAllSteady(GoalOf(name, desire, Some(v)), env, w, ToCreate(desire, View(env, name, v)), v);
    ClashIsTaken(env, name, desire, v);
  }

  lemma DeletePhase(env: Env, w: World, name: string, desire: seq<LoadBalancer>, v: L4Balancer)
    requires Setting(env, name, desire, v)
    requires Lookup(w.l4, name) == Some(PlusAll(env, v, ToCreate(desire, View(env, name, v))))
    ensures var plan := DeleteAll(ToDelete(desire, View(env, name, v)));
            && Steady(env, w, plan, Good(GoalOf(name, desire, Some(v))))
            && Ideal(env, w, plan) == Ok(With(w, name, Some(Ported(env, name, desire, v))))
    ensures Trimming(GoalOf(name, desire, Some(v)), Ported(env, name, desire, v))
    ensures Fine(GoalOf(name, desire, Some(v)), Ported(env, name, desire, v))
  {
    PortedIs(env, name, desire, v);
    DeleteAllSteady(GoalOf(name, desire, Some(v)), env, w, ToDelete(desire, View(env, name, v)),
                    PlusAll(env, v, ToCreate(desire, View(env, name, v))));
    TrimmingIsFine(GoalOf(name, desire, Some(v)), Ported(env, name, desire, v));
  }

  lemma LookOrNot(g: Goal, env: Env, w: World, v: L4Balancer, idle: bool)
    requires Lookup(w.l4, g.name) == Some(v) && Fine(g, v)
    ensures var plan := if idle then Skip else On(g.name, L4Look);
            Steady(env, w, plan, Good(g)) && Ideal(env, w, plan) == Ok(w)
  {
    RequestSame(g, env, w, L4Look, v);
  }

  lemma ThreeParts(env: Env, w: World, p: Plan, w1: World, q: Plan, w2: World, s: Plan, good: (World, World) -> bool)
    requires Steady(env, w, p, good) && Ideal(env, w, p) == Ok(w1)
    requires Steady(env, w1, q, good) && Ideal(env, w1, q) == Ok(w2)
    requires Steady(env, w2, s, good) && Ideal(env, w2, s) == Ok(w2)
    ensures Steady(env, w, Then(Then(p, q), s), good) && Ideal(env, w, Then(Then(p, q), s)) == Ok(w2)
  {
    SteadyThen(env, w, p, w1, q, good);
    SteadyThen(env, w, Then(p, q), w2, s, good);
  }

  lemma FirstFails(env: Env, w: World, p: Plan, e: Error, q: Plan, s: Plan, good: (World, World) -> bool)
    requires Steady(env, w, p, good) && Ideal(env, w, p) == Err(e)
    ensures Steady(env, w, Then(Then(p, q), s), good) && Ideal(env, w, Then(Then(p, q), s)) == Err(e)
  {
    assert Steady(env, w, Then(p, q), good) && Ideal(env, w, Then(p, q)) == Err(e);
  }

  /** The port phase: refused at the first clash, otherwise it ends with exactly the desired listeners. */
  lemma PortPhase(env: Env, w: World, name: string, desire: seq<LoadBalancer>, v: L4Balancer)
    requires Setting(env, name, desire, v) && Lookup(w.l4, name) == Some(v)
    ensures var plan := PortPlan(name, desire, View(env, name, v));
            && Steady(env, w, plan, Good(GoalOf(name, desire, Some(v))))
            && Ideal(env, w, plan) ==
               if NoClash(Wanted(desire), v.at) then Ok(With(w, name, Some(Ported(env, name, desire, v))))
               else Err(PortExists)
    ensures Trimming(GoalOf(name, desire, Some(v)), Ported(env, name, desire, v))
  {
    var g, v2 := GoalOf(name, desire, Some(v)), Ported(env, name, desire, v);
    var v1 := PlusAll(env, v, ToCreate(desire, View(env, name, v)));
    CreatePhase(env, w, name, desire, v);
    DeletePhase(env, With(w, name, Some(v1)), name, desire, v);
    var plan, w1, w2 := PortPlan(name, desire, View(env, name, v)), With(w, name, Some(v1)), With(w, name, Some(v2));
    WithWith(w, name, Some(v1), Some(v2));
    if NoClash(Wanted(desire), v.at) {
      LookOrNot(g, env, w2, v2, plan.next == Skip);
      ThreeParts(env, w, plan.first.first, w1, plan.first.next, w2, plan.next, Good(g));
    } else {
      FirstFails(env, w, plan.first.first, PortExists, plan.first.next, plan.next, Good(g));
    }
  }

  // ---------------------------------------------------------------- the reconciliation phase

  /** The first `i` listeners in the cloud's order have their desired form, the others that of `v`. */
  function FixedUpTo(v: L4Balancer, want: Listeners, i: nat): L4Balancer
    requires i <= |v.order|
  {
    if i == 0 then v
    else
      var k := v.order[i - 1];
      if k in want then SetAt(FixedUpTo(v, want, i - 1), k, want[k]) else FixedUpTo(v, want, i - 1)
  }

  lemma {:induction false} FixedKeeps(v: L4Balancer, want: Listeners, i: nat)
    requires v.at.Keys <= want.Keys && Elems(v.order) == v.at.Keys && i <= |v.order|
    ensures var v1 := FixedUpTo(v, want, i);
            v1.at.Keys == v.at.Keys && v1.vip == v.vip && v1.order == v.order && v1.checks == v.checks
  {
    if i > 0 {
      FixedKeeps(v, want, i - 1);
      assert v.order[i - 1] in Elems(v.order);
    }
  }

  lemma InPrefix(order: seq<Key>, i: nat, k: Key)
    requires 0 < i <= |order|
    ensures k in order[..i] <==> k in order[..i - 1] || k == order[i - 1]
  {
  }

  lemma {:induction false} FixedAt(v: L4Balancer, want: Listeners, i: nat, k: Key)
    requires Elems(v.order) == v.at.Keys && v.at.Keys <= want.Keys && i <= |v.order| && k in v.at
    ensures var v1 := FixedUpTo(v, want, i);
            k in v1.at && v1.at[k] == if k in v.order[..i] then want[k] else v.at[k]
  {
    if i > 0 {
      FixedKeeps(v, want, i - 1);
      FixedAt(v, want, i - 1, k);
      InPrefix(v.order, i, k);
      assert v.order[i - 1] in Elems(v.order);
    }
  }

  /** When every listener had its turn the balancer has its desired form. */
  lemma FixedIsWanted(v: L4Balancer, want: Listeners)
    requires Listed(v.order, v.at) && v.at.Keys == want.Keys
    ensures FixedUpTo(v, want, |v.order|) == v.(at := want)
  {
    FixedKeeps(v, want, |v.order|);
    forall k | k in v.at ensures FixedUpTo(v, want, |v.order|).at[k] == want[k] {
      FixedAt(v, want, |v.order|, k);
      assert k in Elems(v.order);
    }
    assert FixedUpTo(v, want, |v.order|).at == want;
  }

  /** What a run knows before it reconciles: exactly the desired listeners, the kept ones as they were. */
  ghost predicate Reconcilable(env: Env, g: Goal, v: L4Balancer) {
    && EnvOK(env) && L4OK(env, v) && v.at.Keys == g.want.Keys && Fine(g, v) && AllWatched(g, v)
    && (g.start.Some? ==> forall k :: k in v.at && k in g.start.value.at ==> v.at[k] == g.start.value.at[k])
  }

  lemma FixNext(g: Goal, env: Env, v: L4Balancer, i: nat)
    requires Reconcilable(env, g, v) && i < |v.order|
    ensures var k := v.order[i];
            && k in v.at && k in g.want
            && k in FixedUpTo(v, g.want, i).at && FixedUpTo(v, g.want, i).at[k] == v.at[k]
            && FixedUpTo(v, g.want, i + 1) == SetAt(FixedUpTo(v, g.want, i), k, g.want[k])
            && FixedUpTo(v, g.want, i).at.Keys == v.at.Keys && FixedUpTo(v, g.want, i).checks == v.checks
  {
    var k := v.order[i];
    assert k in Elems(v.order);
    assert k !in v.order[..i];
    FixedAt(v, g.want, i, k);
    FixedKeeps(v, g.want, i);
  }

  lemma NextMatched(env: Env, g: Goal, v: L4Balancer, v1: L4Balancer, k: Key, d: LoadBalancer)
    requires Reconcilable(env, g, v) && Fine(g, v1) && k in v.at && k in v1.at && v1.at[k] == v.at[k]
    requires Describes(g, env, d) && KeyOf(d) == k && v1.at.Keys == v.at.Keys && v1.checks == v.checks
    ensures Matched(g, env, v1, d, ViewListener(env, g.name, v.vip, k, v.at[k]), v1.at[k])
  {
  }

  lemma ReconcileNext(env: Env, w: World, name: string, desire: seq<LoadBalancer>,
                      start: Option<L4Balancer>, v: L4Balancer, i: nat)
    requires DesireOK(env, name, desire) && Reconcilable(env, GoalOf(name, desire, start), v) && i < |v.order|
    requires var v1 := FixedUpTo(v, Wanted(desire), i);
             Lookup(w.l4, name) == Some(v1) && Fine(GoalOf(name, desire, start), v1)
    ensures var g, v2 := GoalOf(name, desire, start), FixedUpTo(v, Wanted(desire), i + 1);
            && Steady(env, w, PlanFor(desire, View(env, name, v)[i]), Good(g))
            && Ideal(env, w, PlanFor(desire, View(env, name, v)[i])) == Ok(With(w, name, Some(v2)))
            && Fine(g, v2)
  {
    var g, v1 := GoalOf(name, desire, start), FixedUpTo(v, Wanted(desire), i);
    FixNext(g, env, v, i);
    var cur := View(env, name, v)[i];
    var d := CurrentIsDesired(env, name, desire, cur);
    GoalIsOK(env, name, desire, start);
    NextMatched(env, g, v, v1, v.order[i], d);
    ListenerSteady(g, env, w, v1, d, cur);
  }

  lemma ReconcileSplit(desire: seq<LoadBalancer>, view: seq<LoadBalancer>, i: nat)
    requires i < |view|
    ensures ReconcileAll(desire, view[..i + 1]) == Then(ReconcileAll(desire, view[..i]), PlanFor(desire, view[i]))
  {
    assert view[..i + 1][..i] == view[..i];
  }

  lemma ReconcileStep(env: Env, w: World, name: string, desire: seq<LoadBalancer>, start: Option<L4Balancer>,
                      v: L4Balancer, i: nat)
    requires DesireOK(env, name, desire) && Reconcilable(env, GoalOf(name, desire, start), v)
    requires Lookup(w.l4, name) == Some(v) && i < |v.order|
    requires var g, plan, v1 := GoalOf(name, desire, start), ReconcileAll(desire, View(env, name, v)[..i]),
                                FixedUpTo(v, Wanted(desire), i);
             Steady(env, w, plan, Good(g)) && Ideal(env, w, plan) == Ok(With(w, name, Some(v1))) && Fine(g, v1)
    ensures var g, plan, v2 := GoalOf(name, desire, start), ReconcileAll(desire, View(env, name, v)[..i + 1]),
                               FixedUpTo(v, Wanted(desire), i + 1);
            Steady(env, w, plan, Good(g)) && Ideal(env, w, plan) == Ok(With(w, name, Some(v2))) && Fine(g, v2)
  {
    var g, view := GoalOf(name, desire, start), View(env, name, v);
    var v1, v2 := FixedUpTo(v, Wanted(desire), i), FixedUpTo(v, Wanted(desire), i + 1);
    ReconcileNext(env, With(w, name, Some(v1)), name, desire, start, v, i);
    ReconcileSplit(desire, view, i);
    SteadyThen(env, w, ReconcileAll(desire, view[..i]), With(w, name, Some(v1)), PlanFor(desire, view[i]), Good(g));
    WithWith(w, name, Some(v1), Some(v2));
  }

  lemma {:induction false} ReconcileSteady(env: Env, w: World, name: string, desire: seq<LoadBalancer>,
                                           start: Option<L4Balancer>, v: L4Balancer, i: nat)
    requires DesireOK(env, name, desire) && Reconcilable(env, GoalOf(name, desire, start), v)
    requires Lookup(w.l4, name) == Some(v) && i <= |v.order|
    ensures var g := GoalOf(name, desire, start);
            && Steady(env, w, ReconcileAll(desire, View(env, name, v)[..i]), Good(g))
            && Ideal(env, w, ReconcileAll(desire, View(env, name, v)[..i])) ==
               Ok(With(w, name, Some(FixedUpTo(v, g.want, i))))
            && Fine(g, FixedUpTo(v, g.want, i))
  {
    if i == 0 {
      WithWith(w, name, Some(v), Some(v));
    } else {
      ReconcileSteady(env, w, name, desire, start, v, i - 1);
      ReconcileStep(env, w, name, desire, start, v, i - 1);
    }
  }

  lemma WholeView(env: Env, name: string, v: L4Balancer)
    requires v.order != []
    ensures View(env, name, v)[..|v.order|] == View(env, name, v) && FirstVip(View(env, name, v)) == v.vip
  {
  }

  /** Reconciling everything the cloud shows: accepted, and it ends in the desired form. */
  lemma ReconcileWhole(env: Env, w: World, name: string, desire: seq<LoadBalancer>,
                       start: Option<L4Balancer>, v: L4Balancer)
    requires DesireOK(env, name, desire) && Reconcilable(env, GoalOf(name, desire, start), v)
    requires Lookup(w.l4, name) == Some(v)
    ensures var plan := ReconcileAll(desire, View(env, name, v));
            && Steady(env, w, plan, Good(GoalOf(name, desire, start)))
            && Ideal(env, w, plan) == Ok(With(w, name, Some(v.(at := Wanted(desire)))))
    ensures FirstVip(View(env, name, v)) == v.vip
  {
    ReconcileSteady(env, w, name, desire, start, v, |v.order|);
    WholeView(env, name, v);
    FixedIsWanted(v, Wanted(desire));
  }

  lemma CurrentIsDesired(env: Env, name: string, desire: seq<LoadBalancer>, cur: LoadBalancer)
    returns (d: LoadBalancer)
    requires DesireOK(env, name, desire) && KeyOf(cur) in Wanted(desire) && cur.name == name
    ensures Find(desire, cur, LoadBalancerEquals) == Some(d) && d in desire && KeyOf(d) == KeyOf(cur)
  {
    WantedHas(env, name, desire, KeyOf(cur));
    var x :| x in desire && KeyOf(x) == KeyOf(cur);
    assert LoadBalancerEquals(cur, x);
    FindMatch(desire, cur, LoadBalancerEquals);
    d := Find(desire, cur, LoadBalancerEquals).value;
  }
}
