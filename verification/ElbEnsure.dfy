/** The first phase of a run on an elastic balancer that exists: ports come and go. */
module ElbEnsure {
  import opened Base
  import opened Cloud
  import opened Runs
  import opened Differences
  import opened HealthTarget
  import opened Rules
  import opened ElbPlan
  import opened ElbIdeal
  import opened ElbUpdate
  import opened ElbRuns

  /** A balancer that exists, whatever the targets of its listeners are, and what is desired of it. */
  ghost predicate Setting(env: Env, name: string, ids: set<string>, desire: seq<ElasticLoadBalancer>,
                          b: ElbBalancer) {
    && EnvOK(env) && DesireOK(env, name, ids, desire) && ElbOK(env, b) && Usable(b)
    && forall d :: d in desire ==> d.vip == b.vip && d.networkInterfaces == b.nics
  }

  function Keys(desire: seq<ElasticLoadBalancer>): set<Key> {
    Elems(KeySeq(desire))
  }

  /** No desired listener takes a port that is in use for another node port. */
  ghost predicate NoClash(want: set<Key>, at: map<Key, ElbListener>) {
    forall k, k' :: k in want && k' in at && k.port == k'.port ==> k == k'
  }

  // ---------------------------------------------------------------- the port phase

  lemma CreatedPart(env: Env, name: string, ids: set<string>, desire: seq<ElasticLoadBalancer>, b: ElbBalancer)
    requires Setting(env, name, ids, desire, b)
    ensures var created := ToCreate(desire, View(env, name, b));
            && Keys(created) == Keys(desire) - b.at.Keys
            && DistinctPorts(created) && Distinct(KeySeq(created)) && Registrable(env, name, ids, created)
            && forall lb :: lb in created ==> lb in desire && KeyOf(lb) !in b.at
  {
    var view, created := View(env, name, b), ToCreate(desire, View(env, name, b));
    ViewIs(env, name, b);
    MissingByKey(desire, view, ElbEquals, KeyOf);
    assert Mapped(desire, KeyOf) == KeySeq(desire) && Mapped(view, KeyOf) == b.order;
    assert Mapped(created, KeyOf) == KeySeq(created);
    KeysDistinct(desire);
    PartKeepsPorts(desire, created);
    forall lb | lb in created ensures KeyOf(lb) !in b.at {
      assert KeyOf(lb) !in Elems(b.order);
    }
  }

  lemma KeysDistinct(lbs: seq<ElasticLoadBalancer>)
    requires DistinctPorts(lbs)
    ensures Distinct(KeySeq(lbs))
  {
  }

  lemma PartKeepsPorts(desire: seq<ElasticLoadBalancer>, part: seq<ElasticLoadBalancer>)
    requires DistinctPorts(desire) && Distinct(KeySeq(part)) && forall d :: d in part ==> d in desire
    ensures DistinctPorts(part)
  {
    forall i, j | 0 <= i < j < |part| ensures part[i].loadBalancerPort != part[j].loadBalancerPort {
      assert KeySeq(part)[i] != KeySeq(part)[j];
      assert part[i] in part && part[j] in part;
      var a :| 0 <= a < |desire| && desire[a] == part[i];
      var z :| 0 <= z < |desire| && desire[z] == part[j];
      assert a < z || z < a;
    }
  }

  lemma DeletedPart(env: Env, name: string, ids: set<string>, desire: seq<ElasticLoadBalancer>, b: ElbBalancer)
    requires Setting(env, name, ids, desire, b)
    ensures var deleted := ToDelete(desire, View(env, name, b));
            && Keys(deleted) == b.at.Keys - Keys(desire) && Removable(env, name, FirstTargets(b), b, deleted)
            && forall lb :: lb in deleted ==> lb in View(env, name, b)
  {
    var view, deleted := View(env, name, b), ToDelete(desire, View(env, name, b));
    ViewIs(env, name, b);
    MissingByKey(view, desire, ElbEquals, KeyOf);
    assert Mapped(desire, KeyOf) == KeySeq(desire) && Mapped(view, KeyOf) == b.order;
    assert Mapped(deleted, KeyOf) == KeySeq(deleted);
    ViewIsRemovable(env, name, b, deleted);
  }

  /** A registration is refused exactly when a desired listener needs a port used for another node port. */
  lemma ClashIsTaken(env: Env, name: string, ids: set<string>, desire: seq<ElasticLoadBalancer>, b: ElbBalancer)
    requires Setting(env, name, ids, desire, b)
    ensures AnyPortTaken(b.at, ToCreate(desire, View(env, name, b))) <==> !NoClash(Keys(desire), b.at)
  {
    CreatedPart(env, name, ids, desire, b);
    TakenMeansClash(Keys(desire), b.at, ToCreate(desire, View(env, name, b)));
  }

  lemma TakenMeansClash(want: set<Key>, at: map<Key, ElbListener>, created: seq<ElasticLoadBalancer>)
    requires OnePortEach(at) && Keys(created) == want - at.Keys
    ensures AnyPortTaken(at, created) <==> !NoClash(want, at)
  {
    if AnyPortTaken(at, created) {
      var lb :| lb in created && PortTaken(at, lb.loadBalancerPort);
      var k' :| k' in at && k'.port == lb.loadBalancerPort;
      var i :| 0 <= i < |created| && created[i] == lb;
      assert KeySeq(created)[i] in Keys(created);
      assert KeyOf(lb) in want && KeyOf(lb) != k' && KeyOf(lb).port == k'.port;
    }
    if !NoClash(want, at) {
      var k, k' :| k in want && k' in at && k.port == k'.port && k != k';
      assert k in Keys(created);
      var i :| 0 <= i < |created| && KeySeq(created)[i] == k;
      assert created[i] in created && PortTaken(at, created[i].loadBalancerPort);
    }
  }

  /** The balancer after all registrations and deletions. */
  function Ported(env: Env, name: string, desire: seq<ElasticLoadBalancer>, b: ElbBalancer): ElbBalancer {
    var v, gone := PlusAll(env, b, ToCreate(desire, View(env, name, b))), b.at.Keys - Keys(desire);
    v.(order := Excluding(v.order, gone), at := v.at - gone)
  }

  /** Adding what is wanted and missing, then removing what is not wanted, leaves what is wanted. */
  lemma OnlyWantedStay(order: seq<Key>, keys: set<Key>, had: set<Key>, want: set<Key>)
    requires Elems(order) == had + (want - had) == keys && want != {}
    ensures Elems(Excluding(order, had - want)) == want == keys - (had - want) && Excluding(order, had - want) != []
  {
    ExcludingMembers(order, had - want);
  }

  /** The desired listeners and no others; the kept ones are as they were. */
  lemma PortedIs(env: Env, name: string, ids: set<string>, desire: seq<ElasticLoadBalancer>, b: ElbBalancer)
    requires Setting(env, name, ids, desire, b)
    ensures var p := Ported(env, name, desire, b);
            && p.at.Keys == Keys(desire) && Elems(p.order) == Keys(desire) && p.order != []
            && p.vip == b.vip && p.nics == b.nics
            && forall k :: k in p.at && k in b.at ==> p.at[k] == b.at[k]
  {
    var v := PlusAll(env, b, ToCreate(desire, View(env, name, b)));
    CreatedPart(env, name, ids, desire, b);
    PlusAllIs(env, b, ToCreate(desire, View(env, name, b)));
    assert KeySeq(desire)[0] in Keys(desire);
    OnlyWantedStay(v.order, v.at.Keys, b.at.Keys, Keys(desire));
  }

  /** The created listeners are as desired. */
  lemma PortedNew(env: Env, name: string, ids: set<string>, desire: seq<ElasticLoadBalancer>, b: ElbBalancer, k: Key)
    requires Setting(env, name, ids, desire, b) && k in Keys(desire) - b.at.Keys
    ensures var p := Ported(env, name, desire, b);
            k in p.at && p.at[k].targets == ids && exists d :: d in desire && KeyOf(d) == k && p.at[k] == WantOf(d)
  {
    var created := ToCreate(desire, View(env, name, b));
    CreatedPart(env, name, ids, desire, b);
    var i :| 0 <= i < |created| && KeySeq(created)[i] == k;
    PlusAllValue(env, b, created, i);
    assert created[i] in created;
  }

  lemma PortedUsable(env: Env, name: string, ids: set<string>, desire: seq<ElasticLoadBalancer>, b: ElbBalancer)
    requires Setting(env, name, ids, desire, b)
    ensures Usable(Ported(env, name, desire, b))
  {
    var p := Ported(env, name, desire, b);
    PortedIs(env, name, ids, desire, b);
    forall k | k in p.at ensures Separate(p.at[k].health).Some? {
      if k !in b.at {
        PortedNew(env, name, ids, desire, b, k);
      }
    }
  }

  lemma PortedRemains(env: Env, name: string, ids: set<string>, desire: seq<ElasticLoadBalancer>, b: ElbBalancer)
    requires Setting(env, name, ids, desire, b)
    ensures var created, deleted := ToCreate(desire, View(env, name, b)), ToDelete(desire, View(env, name, b));
            Remaining(PlusAll(env, b, created), deleted) == Some(Ported(env, name, desire, b))
  {
    DeletedPart(env, name, ids, desire, b);
    PortedIs(env, name, ids, desire, b);
  }

  lemma PlusKeepsListed(env: Env, v: ElbBalancer, lbs: seq<ElasticLoadBalancer>)
    requires Listed(v.order, v.at) && DistinctPorts(lbs) && !AnyPortTaken(v.at, lbs)
    requires forall lb :: lb in lbs ==> KeyOf(lb) !in v.at
    ensures Listed(PlusAll(env, v, lbs).order, PlusAll(env, v, lbs).at)
  {
    if lbs != [] {
      var init, lb := lbs[..|lbs| - 1], lbs[|lbs| - 1];
      assert lbs == init + [lb];
      PortTakenLater(env, v, init, lb);
      PlusKeepsListed(env, v, init);
      ListedAfterAdd(env, PlusAll(env, v, init).order, PlusAll(env, v, init).at, KeyOf(lb), WantOf(lb));
    }
  }

  /** The rules after the port phase: first everything created is allowed, then everything deleted denied. */
  function PortedRules(env: Env, rules: RuleMap, name: string, ids: set<string>, desire: seq<ElasticLoadBalancer>,
                       b: ElbBalancer): RuleMap {
    Adjust(env, Adjust(env, rules, true, ids, AllPermissions(ToCreate(desire, View(env, name, b)))),
           false, FirstTargets(b), AllPermissions(ToDelete(desire, View(env, name, b))))
  }

  lemma LookAgain(env: Env, w: World, name: string)
    requires name in w.elb
    ensures Ideal(env, w, On(name, ElbLook)) == Ok(w)
  {
    RequestIdeal(env, w, name, ElbLook);
    SetSet(w, name, None, w.rules, None, w.rules);
  }

  lemma DeletePhase(env: Env, w: World, name: string, ids: set<string>, desire: seq<ElasticLoadBalancer>,
                    b: ElbBalancer)
    requires Setting(env, name, ids, desire, b) && w.rules.Keys == env.members.Keys
    requires NoClash(Keys(desire), b.at)
    requires Lookup(w.elb, name) == Some(PlusAll(env, b, ToCreate(desire, View(env, name, b))))
    ensures Ideal(env, w, DeleteAll(env, ToDelete(desire, View(env, name, b)))) ==
            Ok(Set(w, name, Some(Ported(env, name, desire, b)),
                   Adjust(env, w.rules, false, FirstTargets(b), AllPermissions(ToDelete(desire, View(env, name, b))))))
  {
    var created := ToCreate(desire, View(env, name, b));
    CreatedPart(env, name, ids, desire, b);
    ClashIsTaken(env, name, ids, desire, b);
    PortedRemains(env, name, ids, desire, b);
    DeletedPart(env, name, ids, desire, b);
    PlusKeepsListed(env, b, created);
    PlusAllIs(env, b, created);
    DeleteAllIdeal(env, w, name, FirstTargets(b), ToDelete(desire, View(env, name, b)), PlusAll(env, b, created));
  }

  lemma CreatePhase(env: Env, w: World, name: string, ids: set<string>, desire: seq<ElasticLoadBalancer>,
                    b: ElbBalancer)
    requires Setting(env, name, ids, desire, b) && Lookup(w.elb, name) == Some(b)
    requires w.rules.Keys == env.members.Keys
    ensures var created := ToCreate(desire, View(env, name, b));
            Ideal(env, w, RegisterAll(env, created)) ==
            if NoClash(Keys(desire), b.at) then
              Ok(Set(w, name, Some(PlusAll(env, b, created)), Adjust(env, w.rules, true, ids, AllPermissions(created))))
            else Err(PortExists)
  {
    CreatedPart(env, name, ids, desire, b);
    ClashIsTaken(env, name, ids, desire, b);
    RegisterAllIdeal(env, w, name, ids, ToCreate(desire, View(env, name, b)), b);
  }

  /** Three plans in a row, the last of which changes nothing. */
  lemma ThenTwice(env: Env, w: World, p: Plan, w1: World, q: Plan, w2: World, last: Plan)
    requires Ideal(env, w, p) == Ok(w1) && Ideal(env, w1, q) == Ok(w2) && Ideal(env, w2, last) == Ok(w2)
    ensures Ideal(env, w, Then(Then(p, q), last)) == Ok(w2)
  {
  }

  lemma PortsAllowed(env: Env, w: World, name: string, ids: set<string>, desire: seq<ElasticLoadBalancer>,
                     b: ElbBalancer)
    requires Setting(env, name, ids, desire, b) && Lookup(w.elb, name) == Some(b)
    requires w.rules.Keys == env.members.Keys && NoClash(Keys(desire), b.at)
    ensures Ideal(env, w, PortPlan(env, name, desire, View(env, name, b))) ==
            Ok(Set(w, name, Some(Ported(env, name, desire, b)), PortedRules(env, w.rules, name, ids, desire, b)))
  {
    var created := ToCreate(desire, View(env, name, b));
    var b1, b2 := PlusAll(env, b, created), Ported(env, name, desire, b);
    var rules1 := Adjust(env, w.rules, true, ids, AllPermissions(created));
    var rules2 := PortedRules(env, w.rules, name, ids, desire, b);
    var w1, w2 := Set(w, name, Some(b1), rules1), Set(w, name, Some(b2), rules2);
    var plan := PortPlan(env, name, desire, View(env, name, b));
    CreatePhase(env, w, name, ids, desire, b);
    DeletePhase(env, w1, name, ids, desire, b);
    SetSet(w, name, Some(b1), rules1, Some(b2), rules2);
    LookAgain(env, w2, name);
    ThenTwice(env, w, plan.first.first, w1, plan.first.next, w2, plan.next);
  }

  lemma PortIdeal(env: Env, w: World, name: string, ids: set<string>, desire: seq<ElasticLoadBalancer>,
                  b: ElbBalancer)
    requires Setting(env, name, ids, desire, b) && Lookup(w.elb, name) == Some(b)
    requires w.rules.Keys == env.members.Keys
    ensures Ideal(env, w, PortPlan(env, name, desire, View(env, name, b))) ==
            if NoClash(Keys(desire), b.at) then
              Ok(Set(w, name, Some(Ported(env, name, desire, b)), PortedRules(env, w.rules, name, ids, desire, b)))
            else Err(PortExists)
  {
    if NoClash(Keys(desire), b.at) {
      PortsAllowed(env, w, name, ids, desire, b);
    } else {
      CreatePhase(env, w, name, ids, desire, b);
    }
  }
}
