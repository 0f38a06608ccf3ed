/** The second phase of an elastic run: the nodes, through a client that reads one listener for all. */
module ElbConverge {
  import opened Base
  import opened Cloud
  import opened Runs
  import opened Differences
  import opened Rules
  import opened ElbPlan
  import opened ElbIdeal
  import opened ElbUpdate
  import opened ElbRuns
  import opened ElbEnsure

  // ---------------------------------------------------------------- the first listeners take their requests

  /** The first `i` listeners in the cloud's order have taken the requests. */
  function ShiftTo(v: ElbBalancer, read: set<string>, ids: set<string>, i: nat): ElbBalancer
    requires i <= |v.order|
  {
    if i == 0 then v
    else
      var prev, k := ShiftTo(v, read, ids, i - 1), v.order[i - 1];
      if k in prev.at then Retarget(prev, k, Shifted(prev.at[k].targets, read, ids)) else prev
  }

  lemma {:induction false} ShiftKeeps(v: ElbBalancer, read: set<string>, ids: set<string>, i: nat)
    requires i <= |v.order|
    ensures var v' := ShiftTo(v, read, ids, i);
            v'.at.Keys == v.at.Keys && v'.order == v.order && v'.vip == v.vip && v'.nics == v.nics
  {
    if i > 0 {
      ShiftKeeps(v, read, ids, i - 1);
    }
  }

  lemma {:induction false} ShiftAt(v: ElbBalancer, read: set<string>, ids: set<string>, i: nat, k: Key)
    requires i <= |v.order| && k in v.at && Distinct(v.order)
    ensures k in ShiftTo(v, read, ids, i).at
    ensures ShiftTo(v, read, ids, i).at[k] ==
            if k in v.order[..i] then v.at[k].(targets := Shifted(v.at[k].targets, read, ids)) else v.at[k]
  {
    if i > 0 {
      ShiftAt(v, read, ids, i - 1, k);
      assert v.order[..i] == v.order[..i - 1] + [v.order[i - 1]];
      assert v.order[i - 1] !in v.order[..i - 1];
    }
  }

  /** What is known when the reconciliation of `v` begins: the ports are right, the client reads `read`. */
  ghost predicate Reconcilable(env: Env, name: string, ids: set<string>, desire: seq<ElasticLoadBalancer>,
                               v: ElbBalancer, read: set<string>) {
    && EnvOK(env) && DesireOK(env, name, ids, desire) && ElbOK(env, v) && Usable(v)
    && v.at.Keys == Keys(desire) && read == FirstTargets(v)
  }

  lemma CurrentReads(env: Env, name: string, ids: set<string>, desire: seq<ElasticLoadBalancer>, v: ElbBalancer,
                     read: set<string>, i: nat, now: ElbBalancer) returns (d: ElasticLoadBalancer)
    requires Reconcilable(env, name, ids, desire, v, read) && i < |v.order| && now.at.Keys == v.at.Keys
    ensures var cur := View(env, name, v)[i];
            && Find(desire, cur, ElbEquals) == Some(d) && IdSet(d) == ids && KeyOf(d) == v.order[i]
            && Reads(env, name, now, d, cur, read)
  {
    var cur := View(env, name, v)[i];
    ViewIs(env, name, v);
    assert cur in View(env, name, v);
    ViewHasRules(env, name, v, KeyOf(cur), read);
    assert KeyOf(cur) in Keys(desire);
    var j :| 0 <= j < |desire| && KeySeq(desire)[j] == KeyOf(cur);
    assert desire[j] in desire && ElbEquals(cur, desire[j]);
    FindMatch(desire, cur, ElbEquals);
    d := Find(desire, cur, ElbEquals).value;
  }

  /** The state when the first `i` listeners had their turn. */
  function Halfway(env: Env, w: World, name: string, ids: set<string>, v: ElbBalancer, read: set<string>, i: nat): World
    requires i <= |v.order|
  {
    Set(w, name, Some(ShiftTo(v, read, ids, i)),
        NodeRules(env, w.rules, ids - read, read - ids, AllPermissions(View(env, name, v)[..i])))
  }

  lemma HalfwayStart(env: Env, w: World, name: string, ids: set<string>, v: ElbBalancer, read: set<string>)
    requires Lookup(w.elb, name) == Some(v)
    ensures Halfway(env, w, name, ids, v, read, 0) == w
  {
    NodeRulesTwice(env, w.rules, ids - read, read - ids, {}, {});
    assert AllPermissions(View(env, name, v)[..0]) == {};
    SetSet(w, name, None, w.rules, None, w.rules);
  }

  lemma HalfwayNext(env: Env, w: World, name: string, ids: set<string>, v: ElbBalancer, read: set<string>, i: nat)
    requires i < |v.order|
    ensures var h := Halfway(env, w, name, ids, v, read, i);
            Halfway(env, w, name, ids, v, read, i + 1) ==
            Set(h, name, Some(ShiftTo(v, read, ids, i + 1)),
                NodeRules(env, h.rules, ids - read, read - ids, Permissions(View(env, name, v)[i])))
  {
    var view := View(env, name, v);
    assert view[..i + 1] == view[..i] + [view[i]];
    AllPermissionsAppend(view[..i], view[i]);
    NodeRulesTwice(env, w.rules, ids - read, read - ids, AllPermissions(view[..i]), Permissions(view[i]));
    var h, h' := Halfway(env, w, name, ids, v, read, i), Halfway(env, w, name, ids, v, read, i + 1);
    SetSet(w, name, Some(ShiftTo(v, read, ids, i)), h.rules, Some(ShiftTo(v, read, ids, i + 1)), h'.rules);
  }

  /** The next listener before its turn: as it was, and as the client reads it. */
  lemma NextReads(env: Env, name: string, ids: set<string>, desire: seq<ElasticLoadBalancer>, v: ElbBalancer,
                  read: set<string>, i: nat) returns (d: ElasticLoadBalancer)
    requires Reconcilable(env, name, ids, desire, v, read) && i < |v.order|
    ensures var now, cur := ShiftTo(v, read, ids, i), View(env, name, v)[i];
            && v.order[i] in v.at && v.order[i] in now.at && now.at[v.order[i]] == v.at[v.order[i]]
            && Find(desire, cur, ElbEquals) == Some(d) && IdSet(d) == ids && KeyOf(d) == v.order[i]
            && Reads(env, name, now, d, cur, read)
  {
    var k, now := v.order[i], ShiftTo(v, read, ids, i);
    assert k in Elems(v.order) && k !in v.order[..i];
    ShiftKeeps(v, read, ids, i);
    ShiftAt(v, read, ids, i, k);
    d := CurrentReads(env, name, ids, desire, v, read, i, now);
  }

  /** A listener whose targets fit what the client reads takes its requests. */
  lemma NextIdeal(env: Env, w: World, name: string, ids: set<string>, desire: seq<ElasticLoadBalancer>,
                  v: ElbBalancer, read: set<string>, i: nat)
    requires Reconcilable(env, name, ids, desire, v, read) && i < |v.order| && w.rules.Keys == env.members.Keys
    requires v.order[i] in v.at && Fits(v.at[v.order[i]].targets, read, ids)
    ensures Ideal(env, Halfway(env, w, name, ids, v, read, i), PlanFor(env, desire, View(env, name, v)[i])) ==
            Ok(Halfway(env, w, name, ids, v, read, i + 1))
  {
    var now := ShiftTo(v, read, ids, i);
    var d := NextReads(env, name, ids, desire, v, read, i);
    ListenerIdeal(env, Halfway(env, w, name, ids, v, read, i), name, now, d, View(env, name, v)[i], read);
    HalfwayNext(env, w, name, ids, v, read, i);
  }

  /** Whether each of the first `i` listeners takes its requests. */
  ghost predicate AllFit(v: ElbBalancer, read: set<string>, ids: set<string>, i: nat)
    requires i <= |v.order|
  {
    forall j :: 0 <= j < i ==> v.order[j] in v.at && Fits(v.at[v.order[j]].targets, read, ids)
  }

  lemma ReconcileNext(env: Env, w: World, name: string, ids: set<string>, desire: seq<ElasticLoadBalancer>,
                      v: ElbBalancer, read: set<string>, i: nat)
    requires Reconcilable(env, name, ids, desire, v, read) && i < |v.order| && w.rules.Keys == env.members.Keys
    requires v.order[i] in v.at && Fits(v.at[v.order[i]].targets, read, ids)
    requires Ideal(env, w, ReconcileAll(env, desire, View(env, name, v)[..i])) ==
               Ok(Halfway(env, w, name, ids, v, read, i))
    ensures Ideal(env, w, ReconcileAll(env, desire, View(env, name, v)[..i + 1])) ==
            Ok(Halfway(env, w, name, ids, v, read, i + 1))
  {
    var view := View(env, name, v);
    NextIdeal(env, w, name, ids, desire, v, read, i);
    ReconcileSplit(env, desire, view, i);
    IdealThen(env, w, ReconcileAll(env, desire, view[..i]), Halfway(env, w, name, ids, v, read, i),
              PlanFor(env, desire, view[i]));
  }

  lemma {:induction false} ReconcileIdeal(env: Env, w: World, name: string, ids: set<string>,
                                          desire: seq<ElasticLoadBalancer>, v: ElbBalancer, read: set<string>, i: nat)
    requires Reconcilable(env, name, ids, desire, v, read) && i <= |v.order| && w.rules.Keys == env.members.Keys
    requires Lookup(w.elb, name) == Some(v) && AllFit(v, read, ids, i)
    ensures Ideal(env, w, ReconcileAll(env, desire, View(env, name, v)[..i])) ==
            Ok(Halfway(env, w, name, ids, v, read, i))
  {
    if i == 0 {
      HalfwayStart(env, w, name, ids, v, read);
    } else {
      ReconcileIdeal(env, w, name, ids, desire, v, read, i - 1);
      ReconcileNext(env, w, name, ids, desire, v, read, i - 1);
    }
  }

  lemma IdealThen(env: Env, w: World, p: Plan, w1: World, q: Plan)
    requires Ideal(env, w, p) == Ok(w1)
    ensures Ideal(env, w, Then(p, q)) == Ideal(env, w1, q)
  {
  }

  lemma ReconcileSplit(env: Env, desire: seq<ElasticLoadBalancer>, view: seq<ElasticLoadBalancer>, m: nat)
    requires m < |view|
    ensures ReconcileAll(env, desire, view[..m + 1]) ==
            Then(ReconcileAll(env, desire, view[..m]), PlanFor(env, desire, view[m]))
  {
    assert view[..m + 1][..m] == view[..m];
  }

  // ---------------------------------------------------------------- the first that does not stops the run

  /** How many of the first `i` listeners come before one that does not take its requests. */
  ghost function FirstMisfit(v: ElbBalancer, read: set<string>, ids: set<string>, i: nat): (m: nat)
    requires i <= |v.order|
    ensures m <= i && AllFit(v, read, ids, m)
    ensures m < i ==> v.order[m] !in v.at || !Fits(v.at[v.order[m]].targets, read, ids)
  {
    if i == 0 then 0
    else
      var m := FirstMisfit(v, read, ids, i - 1);
      if m == i - 1 && v.order[m] in v.at && Fits(v.at[v.order[m]].targets, read, ids) then i else m
  }

  /** The state when the listener `m` stops the run: those before it are done, and it is perhaps half done. */
  function StuckAt(env: Env, w: World, name: string, ids: set<string>, v: ElbBalancer, read: set<string>, m: nat): World
    requires m < |v.order| && v.order[m] in ShiftTo(v, read, ids, m).at
  {
    HalfTurned(env, Halfway(env, w, name, ids, v, read, m), name, ShiftTo(v, read, ids, m), v.order[m],
               View(env, name, v)[m], read, ids)
  }

  lemma NextFails(env: Env, w: World, name: string, ids: set<string>, desire: seq<ElasticLoadBalancer>,
                  v: ElbBalancer, read: set<string>, m: nat)
    requires Reconcilable(env, name, ids, desire, v, read) && m < |v.order| && w.rules.Keys == env.members.Keys
    requires v.order[m] in v.at && !Fits(v.at[v.order[m]].targets, read, ids)
    ensures v.order[m] in ShiftTo(v, read, ids, m).at
    ensures var w1, plan := Halfway(env, w, name, ids, v, read, m), PlanFor(env, desire, View(env, name, v)[m]);
            Ideal(env, w1, plan).Err? && Reach(env, w1, plan) == StuckAt(env, w, name, ids, v, read, m)
  {
    var d := NextReads(env, name, ids, desire, v, read, m);
    ListenerRefused(env, Halfway(env, w, name, ids, v, read, m), name, ShiftTo(v, read, ids, m), d,
                    View(env, name, v)[m], read);
  }

  /** What stopped at one listener stays stopped however many follow. */
  lemma {:induction false} StaysStopped(env: Env, w: World, desire: seq<ElasticLoadBalancer>,
                                        view: seq<ElasticLoadBalancer>, m: nat, n: nat)
    requires m <= n <= |view| && Ideal(env, w, ReconcileAll(env, desire, view[..m])).Err?
    ensures Ideal(env, w, ReconcileAll(env, desire, view[..n])).Err?
    ensures Reach(env, w, ReconcileAll(env, desire, view[..n])) == Reach(env, w, ReconcileAll(env, desire, view[..m]))
    decreases n
  {
    if m < n {
      StaysStopped(env, w, desire, view, m, n - 1);
      ReconcileSplit(env, desire, view, n - 1);
      FailsFirst(env, w, ReconcileAll(env, desire, view[..n - 1]), PlanFor(env, desire, view[n - 1]));
    }
  }

  lemma FailsFirst(env: Env, w: World, p: Plan, q: Plan)
    requires Ideal(env, w, p).Err?
    ensures Ideal(env, w, Then(p, q)).Err? && Reach(env, w, Then(p, q)) == Reach(env, w, p)
  {
  }

  lemma FailsSecond(env: Env, w: World, p: Plan, w1: World, q: Plan, w2: World)
    requires Ideal(env, w, p) == Ok(w1) && Ideal(env, w1, q).Err? && Reach(env, w1, q) == w2
    ensures Ideal(env, w, Then(p, q)).Err? && Reach(env, w, Then(p, q)) == w2
  {
  }

  lemma ReconcileFails(env: Env, w: World, name: string, ids: set<string>, desire: seq<ElasticLoadBalancer>,
                       v: ElbBalancer, read: set<string>, m: nat)
    requires Reconcilable(env, name, ids, desire, v, read) && w.rules.Keys == env.members.Keys
    requires Lookup(w.elb, name) == Some(v) && m < |v.order| && AllFit(v, read, ids, m)
    requires v.order[m] in v.at && !Fits(v.at[v.order[m]].targets, read, ids)
    ensures v.order[m] in ShiftTo(v, read, ids, m).at
    ensures var plan := ReconcileAll(env, desire, View(env, name, v));
            Ideal(env, w, plan).Err? && Reach(env, w, plan) == StuckAt(env, w, name, ids, v, read, m)
  {
    var view := View(env, name, v);
    ReconcileIdeal(env, w, name, ids, desire, v, read, m);
    NextFails(env, w, name, ids, desire, v, read, m);
    ReconcileSplit(env, desire, view, m);
    FailsSecond(env, w, ReconcileAll(env, desire, view[..m]), Halfway(env, w, name, ids, v, read, m),
                PlanFor(env, desire, view[m]), StuckAt(env, w, name, ids, v, read, m));
    StaysStopped(env, w, desire, view, m + 1, |view|);
    assert view[..|view|] == view;
  }

  // ---------------------------------------------------------------- the whole phase

  /** Whether every listener takes its requests. */
  ghost predicate Fitting(v: ElbBalancer, read: set<string>, ids: set<string>) {
    forall k :: k in v.at ==> Fits(v.at[k].targets, read, ids)
  }

  lemma FittingIsAllFit(v: ElbBalancer, read: set<string>, ids: set<string>)
    requires Elems(v.order) == v.at.Keys
    ensures Fitting(v, read, ids) <==> AllFit(v, read, ids, |v.order|)
    ensures Fitting(v, read, ids) <==> FirstMisfit(v, read, ids, |v.order|) == |v.order|
  {
    forall j | 0 <= j < |v.order| ensures v.order[j] in v.at {
      assert v.order[j] in Elems(v.order);
    }
    if AllFit(v, read, ids, |v.order|) {
      forall k | k in v.at ensures Fits(v.at[k].targets, read, ids) {
        assert k in Elems(v.order);
        var j :| 0 <= j < |v.order| && v.order[j] == k;
      }
    }
  }

  /** The state in which the phase ends when no fault interferes. */
  ghost function AfterNodes(env: Env, w: World, name: string, ids: set<string>, v: ElbBalancer,
                            read: set<string>): World
  {
    var m := FirstMisfit(v, read, ids, |v.order|);
    if m < |v.order| && v.order[m] in ShiftTo(v, read, ids, m).at then StuckAt(env, w, name, ids, v, read, m)
    else Halfway(env, w, name, ids, v, read, m)
  }

  /**
   * Without faults all listeners are reconciled, if each takes its requests; otherwise the run
   * stops at the first that does not.
   */
  lemma ReconcileOutcome(env: Env, w: World, name: string, ids: set<string>, desire: seq<ElasticLoadBalancer>,
                         v: ElbBalancer, read: set<string>)
    requires Reconcilable(env, name, ids, desire, v, read) && w.rules.Keys == env.members.Keys
    requires Lookup(w.elb, name) == Some(v)
    ensures var plan := ReconcileAll(env, desire, View(env, name, v));
            && (Ideal(env, w, plan).Ok? <==> Fitting(v, read, ids))
            && Reach(env, w, plan) == AfterNodes(env, w, name, ids, v, read)
            && (Fitting(v, read, ids) ==> Ideal(env, w, plan) == Ok(Halfway(env, w, name, ids, v, read, |v.order|)))
  {
    var view, m := View(env, name, v), FirstMisfit(v, read, ids, |v.order|);
    FittingIsAllFit(v, read, ids);
    if m == |v.order| {
      ReconcileIdeal(env, w, name, ids, desire, v, read, m);
      assert view[..m] == view;
      ReachIdeal(env, w, ReconcileAll(env, desire, view));
    } else {
      assert v.order[m] in Elems(v.order);
      ReconcileFails(env, w, name, ids, desire, v, read, m);
    }
  }

  /** The targets of the listener `j` after the phase. */
  function TargetsAfter(t: set<string>, read: set<string>, ids: set<string>, j: nat, m: nat): set<string> {
    if j < m then Shifted(t, read, ids) else if j == m then HalfShifted(t, read, ids) else t
  }

  lemma ShiftAtIndex(v: ElbBalancer, read: set<string>, ids: set<string>, i: nat, j: nat)
    requires Listed(v.order, v.at) && i <= |v.order| && j < |v.order|
    ensures var k := v.order[j];
            && k in v.at && k in ShiftTo(v, read, ids, i).at
            && ShiftTo(v, read, ids, i).at[k] ==
               if j < i then v.at[k].(targets := Shifted(v.at[k].targets, read, ids)) else v.at[k]
  {
    var k := v.order[j];
    assert k in Elems(v.order);
    ShiftAt(v, read, ids, i, k);
    if j < i {
      assert v.order[..i][j] == k;
    } else {
      assert k !in v.order[..i];
    }
  }

  /** What the phase does to each listener: nothing but its targets change, and those as far as it got. */
  lemma NodesAt(env: Env, w: World, name: string, ids: set<string>, v: ElbBalancer, read: set<string>, j: nat)
    requires Listed(v.order, v.at) && j < |v.order|
    ensures var w', m, k := AfterNodes(env, w, name, ids, v, read), FirstMisfit(v, read, ids, |v.order|), v.order[j];
            && name in w'.elb && k in v.at && k in w'.elb[name].at
            && w'.elb[name].at[k] == v.at[k].(targets := TargetsAfter(v.at[k].targets, read, ids, j, m))
  {
    var m := FirstMisfit(v, read, ids, |v.order|);
    ShiftAtIndex(v, read, ids, m, j);
    if m < |v.order| {
      ShiftAtIndex(v, read, ids, m, m);
      assert j != m ==> v.order[j] != v.order[m];
    }
  }

  lemma NodesKeep(env: Env, w: World, name: string, ids: set<string>, v: ElbBalancer, read: set<string>)
    requires Listed(v.order, v.at)
    ensures var w' := AfterNodes(env, w, name, ids, v, read);
            && name in w'.elb && w' == Set(w, name, Some(w'.elb[name]), w'.rules)
            && w'.elb[name].at.Keys == v.at.Keys && w'.elb[name].order == v.order
            && w'.elb[name].vip == v.vip && w'.elb[name].nics == v.nics
  {
    var m := FirstMisfit(v, read, ids, |v.order|);
    ShiftKeeps(v, read, ids, m);
    var h := Halfway(env, w, name, ids, v, read, m);
    var w' := AfterNodes(env, w, name, ids, v, read);
    SetSet(w, name, Some(ShiftTo(v, read, ids, m)), h.rules, Lookup(w'.elb, name), w'.rules);
  }

  /**
   * What the phase never touches: ports, health checks, address, interfaces; and the first listener
   * comes out right.
   */
  lemma NodesLeave(env: Env, w: World, name: string, ids: set<string>, v: ElbBalancer, read: set<string>)
    requires Listed(v.order, v.at) && read == FirstTargets(v)
    ensures var w' := AfterNodes(env, w, name, ids, v, read);
            && name in w'.elb && FirstTargets(w'.elb[name]) == ids && w'.elb[name].at.Keys == v.at.Keys
            && forall k :: k in v.at ==> w'.elb[name].at[k].health == v.at[k].health
  {
    var w' := AfterNodes(env, w, name, ids, v, read);
    NodesKeep(env, w, name, ids, v, read);
    forall k | k in v.at ensures w'.elb[name].at[k].health == v.at[k].health {
      assert k in Elems(v.order);
      var j :| 0 <= j < |v.order| && v.order[j] == k;
      NodesAt(env, w, name, ids, v, read, j);
    }
    ShiftedIsDesired(read, read, ids);
    assert v.order[0] in Elems(v.order);
    NodesAt(env, w, name, ids, v, read, 0);
  }
}
