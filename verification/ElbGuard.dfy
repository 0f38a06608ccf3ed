/** The security groups of the targets: what creating, updating and deleting leaves in them. */
module ElbGuard {
  import opened Base
  import opened Cloud
  import opened Runs
  import opened Differences
  import opened HealthTarget
  import opened Rules
  import opened ElbPlan
  import opened ElbIdeal
  import opened ElbUpdate
  import opened ElbRuns
  import opened ElbEnsure
  import opened ElbConverge
  import opened ElbTheorems

  // ---------------------------------------------------------------- the permissions a listener needs

  /** What the instances behind a listener must let in; it does not depend on which they are. */
  function NeedWith(vip: string, nics: seq<NetworkInterface>, k: Key, health: string): set<Permission> {
    Permissions(ElasticLoadBalancer("", "", vip, "", "TCP", 0, 0, [], k.port, k.instancePort, health, 0, 0, nics))
  }

  function HealthAt(b: ElbBalancer, k: Key): string {
    if k in b.at then b.at[k].health else ""
  }

  function Need(b: ElbBalancer, k: Key): set<Permission> {
    NeedWith(b.vip, b.nics, k, HealthAt(b, k))
  }

  function Needs(b: ElbBalancer, ks: set<Key>): set<Permission> {
    set k, p | k in ks && p in Need(b, k) :: p
  }

  /** Every group that holds a target of a listener carries all permissions of that listener. */
  ghost predicate Guarded(env: Env, w: World, name: string) {
    forall k, g :: (name in w.elb && k in w.elb[name].at && g in w.rules
                    && Touched(env, g, w.elb[name].at[k].targets)) ==>
      Need(w.elb[name], k) <= w.rules[g]
  }

  lemma GuardedUniformly(env: Env, w: World, name: string, ids: set<string>)
    requires name in w.elb && Uniform(w.elb[name], ids)
    ensures Guarded(env, w, name) <==>
            forall g :: g in w.rules && Touched(env, g, ids) ==> Needs(w.elb[name], w.elb[name].at.Keys) <= w.rules[g]
  {
  }

  lemma InAllPermissions(lbs: seq<ElasticLoadBalancer>, p: Permission)
    ensures p in AllPermissions(lbs) <==> exists i :: 0 <= i < |lbs| && p in Permissions(lbs[i])
  {
  }

  lemma InNeeds(b: ElbBalancer, lbs: seq<ElasticLoadBalancer>, p: Permission)
    ensures p in Needs(b, Keys(lbs)) <==> exists i :: 0 <= i < |lbs| && p in Need(b, KeyOf(lbs[i]))
  {
    if p in Needs(b, Keys(lbs)) {
      var k :| k in Keys(lbs) && p in Need(b, k);
      var i :| 0 <= i < |lbs| && KeySeq(lbs)[i] == k;
      assert p in Need(b, KeyOf(lbs[i]));
    }
    if i :| 0 <= i < |lbs| && p in Need(b, KeyOf(lbs[i])) {
      assert KeySeq(lbs)[i] in Keys(lbs);
    }
  }

  /** The permissions of a list of listeners, by key. */
  lemma PermissionsByKey(b: ElbBalancer, lbs: seq<ElasticLoadBalancer>)
    requires forall lb :: lb in lbs ==> Permissions(lb) == Need(b, KeyOf(lb))
    ensures AllPermissions(lbs) == Needs(b, Keys(lbs))
  {
    forall p ensures p in AllPermissions(lbs) <==> p in Needs(b, Keys(lbs)) {
      InAllPermissions(lbs, p);
      InNeeds(b, lbs, p);
    }
  }

  lemma ViewNeeds(env: Env, name: string, b: ElbBalancer, part: seq<ElasticLoadBalancer>)
    requires EnvOK(env) && ElbOK(env, b) && forall lb :: lb in part ==> lb in View(env, name, b)
    ensures AllPermissions(part) == Needs(b, Keys(part))
  {
    ViewIs(env, name, b);
    forall lb | lb in part ensures Permissions(lb) == Need(b, KeyOf(lb)) {
      assert lb == ViewListener(env, name, b, KeyOf(lb), FirstTargets(b));
    }
    PermissionsByKey(b, part);
  }

  /** Desired listeners need in a balancer what they need in the desire, once they have its health checks. */
  lemma PlacedNeeds(b: ElbBalancer, lbs: seq<ElasticLoadBalancer>)
    requires forall d :: d in lbs ==> && d.protocol == "TCP" && d.vip == b.vip && d.networkInterfaces == b.nics
                                      && KeyOf(d) in b.at && b.at[KeyOf(d)].health == d.healthCheckTarget
    ensures AllPermissions(lbs) == Needs(b, Keys(lbs))
  {
    forall d | d in lbs ensures Permissions(d) == Need(b, KeyOf(d)) {
    }
    PermissionsByKey(b, lbs);
  }

  lemma NeedsSplit(b: ElbBalancer, s: set<Key>, t: set<Key>)
    ensures Needs(b, s) == Needs(b, t * s) + Needs(b, s - t) && t * s == s * t
  {
  }

  /** Needs depend on the address, the interfaces and the health checks only. */
  lemma SameNeeds(b: ElbBalancer, b': ElbBalancer, ks: set<Key>)
    requires b.vip == b'.vip && b.nics == b'.nics
    requires forall k :: k in ks ==> k in b.at && k in b'.at && b.at[k].health == b'.at[k].health
    ensures Needs(b, ks) == Needs(b', ks)
  {
    forall k | k in ks ensures Need(b, k) == Need(b', k) {
    }
  }

  lemma NeedIsSomething(b: ElbBalancer, k: Key)
    requires Usable(b) && k in b.at
    ensures Need(b, k) != {}
  {
    var lb := ElasticLoadBalancer("", "", b.vip, "", "TCP", 0, 0, [], k.port, k.instancePort, b.at[k].health,
                                  0, 0, b.nics);
    var rules := RulesOf(lb).value;
    assert rules[0] in rules;
    assert Encode(rules[0]) in Permissions(lb);
  }

  /** A health check target that reads as the protocol `h`. */
  predicate ChecksBy(health: string, h: string) {
    Separate(health).Some? && Separate(health).value.0 == h
  }

  lemma NeedRules(vip: string, nics: seq<NetworkInterface>, k: Key, health: string, h: string, rule: SecurityGroupRule)
    requires ArmsOK(nics) && ChecksBy(health, h)
    ensures var rules := RulesFor("TCP", vip, nics, k.instancePort, h);
            && NeedWith(vip, nics, k, health) == Encoded(rules)
            && (rule in rules ==> rule == Inbound(rule.ipProtocol, rule.fromPort, rule.ipRanges[0]))
  {
  }

  /** Two listeners need a common permission exactly when they share a rule: encoding merges no two rules. */
  lemma SharedNeeds(vip: string, nics: seq<NetworkInterface>, k: Key, health: string, h: string,
                    k': Key, health': string, h': string)
    requires ArmsOK(nics) && ChecksBy(health, h) && ChecksBy(health', h')
    ensures NeedWith(vip, nics, k, health) !! NeedWith(vip, nics, k', health') <==>
            !ShareRules(nics, vip, k.instancePort, h, k'.instancePort, h')
  {
    var need, need' := NeedWith(vip, nics, k, health), NeedWith(vip, nics, k', health');
    var rules, rules' := RulesFor("TCP", vip, nics, k.instancePort, h), RulesFor("TCP", vip, nics, k'.instancePort, h');
    assert need == Encoded(rules) && need' == Encoded(rules') by {
      NeedRules(vip, nics, k, health, h, Inbound("", 0, ""));
      NeedRules(vip, nics, k', health', h', Inbound("", 0, ""));
    }
    if ShareRules(nics, vip, k.instancePort, h, k'.instancePort, h') {
      var rule :| rule in rules && rule in rules';
      assert Encode(rule) in need && Encode(rule) in need';
    }
    if p :| p in need && p in need' {
      var rule :| rule in rules && Encode(rule) == p;
      var rule' :| rule' in rules' && Encode(rule') == p;
      NeedRules(vip, nics, k, health, h, rule);
      NeedRules(vip, nics, k', health', h', rule');
      EncodeIsFaithful(rule, rule');
    }
  }

  /** Checks and ports of two listeners of one balancer that make what they need disjoint. */
  predicate NothingInCommon(nics: seq<NetworkInterface>, k: Key, h: string, k': Key, h': string) {
    if |nics| == 1 then k.instancePort != k'.instancePort && !(h == "ICMP" && h' == "ICMP")
    else h != h' || (h == "TCP" && k.instancePort != k'.instancePort)
  }

  /**
   * With TCP and ICMP health checks, the needs of two listeners are disjoint exactly if: on one
   * arm, their node ports differ and not both are checked by ICMP; on two arms, they are checked
   * by different protocols, or both by TCP on different node ports.
   */
  lemma WhenNeedsAreDisjoint(vip: string, nics: seq<NetworkInterface>, k: Key, health: string, h: string,
                             k': Key, health': string, h': string)
    requires ArmsOK(nics) && h in {"TCP", "ICMP"} && h' in {"TCP", "ICMP"}
    requires ChecksBy(health, h) && ChecksBy(health', h')
    ensures NeedWith(vip, nics, k, health) !! NeedWith(vip, nics, k', health') <==> NothingInCommon(nics, k, h, k', h')
  {
    SharedNeeds(vip, nics, k, health, h, k', health', h');
    if |nics| == 1 {
      OneArmSharing(nics, vip, k.instancePort, h, k'.instancePort, h');
    } else {
      TwoArmSharing(nics, vip, k.instancePort, h, k'.instancePort, h');
    }
  }

  // ---------------------------------------------------------------- creating

  lemma CreatedNeeds(env: Env, name: string, ids: set<string>, desire: seq<ElasticLoadBalancer>)
    requires DesireOK(env, name, ids, desire) && ArmsOK(desire[0].networkInterfaces)
    ensures var b := Created(env, name, desire);
            AllPermissions(Located(env, name, desire)) == Needs(b, b.at.Keys)
  {
    var b, located := Created(env, name, desire), Located(env, name, desire);
    CreatedIs(env, name, ids, desire);
    PlacedIs(env, name, ids, desire, b.vip, b.nics);
    forall d | d in located ensures KeyOf(d) in b.at && b.at[KeyOf(d)].health == d.healthCheckTarget {
      var i :| 0 <= i < |desire| && located[i] == d;
      CreatedAt(env, name, ids, desire, i);
    }
    PlacedNeeds(b, located);
  }

  /** Creating a balancer makes every group of its targets carry all permissions of all its listeners. */
  lemma CreateGuards(c: Ctx, r: Run, name: string, ids: set<string>, desire: seq<ElasticLoadBalancer>)
    requires Ready(c, r, name, ids, desire) && name !in r.world.elb
    ensures var f := EnsureElb(c, r, name, desire);
            f.status.Ok? ==> name in f.run.world.elb && Guarded(c.env, f.run.world, name)
  {
    var f := EnsureElb(c, r, name, desire);
    EnsureRun(c, r, name, ids, desire);
    if f.status.Ok? {
      CreatedHas(c.env, name, ids, desire);
      CreatedNeeds(c.env, name, ids, desire);
      GuardedUniformly(c.env, f.run.world, name, ids);
    }
  }

  // ---------------------------------------------------------------- updating

  /** What the port phase leaves of each listener: kept ones keep their health check, created ones get theirs. */
  lemma PortedHealth(env: Env, name: string, ids: set<string>, desire: seq<ElasticLoadBalancer>, b: ElbBalancer)
    requires Setting(env, name, ids, desire, b)
    ensures var p := Ported(env, name, desire, b);
            && (forall k :: k in p.at && k in b.at ==> p.at[k].health == b.at[k].health)
            && (forall d :: d in ToCreate(desire, View(env, name, b)) ==>
                  KeyOf(d) in p.at && p.at[KeyOf(d)].health == d.healthCheckTarget)
  {
    var created := ToCreate(desire, View(env, name, b));
    PortedIs(env, name, ids, desire, b);
    CreatedPart(env, name, ids, desire, b);
    forall d | d in created
      ensures var p := Ported(env, name, desire, b); KeyOf(d) in p.at && p.at[KeyOf(d)].health == d.healthCheckTarget
    {
      AddedHealth(env, b, created, b.at.Keys - Keys(desire), d);
    }
  }

  lemma AddedHealth(env: Env, b: ElbBalancer, created: seq<ElasticLoadBalancer>, gone: set<Key>, d: ElasticLoadBalancer)
    requires DistinctPorts(created) && Keys(created) !! gone && d in created
    ensures var at := PlusAll(env, b, created).at - gone; KeyOf(d) in at && at[KeyOf(d)].health == d.healthCheckTarget
  {
    var i :| 0 <= i < |created| && created[i] == d;
    PlusAllValue(env, b, created, i);
    assert KeySeq(created)[i] in Keys(created);
  }

  /** A start on a well-formed cloud from which the ports can be made right. */
  ghost predicate Changeable(env: Env, w: World, name: string, ids: set<string>, desire: seq<ElasticLoadBalancer>,
                             b: ElbBalancer) {
    && Setting(env, name, ids, desire, b) && Lookup(w.elb, name) == Some(b)
    && WorldOK(env, AfterPorts(env, w, name, ids, desire, b))
  }

  /** Reconciling changes no health check. */
  lemma UpdatedHealth(env: Env, w: World, name: string, ids: set<string>, desire: seq<ElasticLoadBalancer>,
                      b: ElbBalancer)
    requires Changeable(env, w, name, ids, desire, b)
    ensures var p, w' := Ported(env, name, desire, b), AfterUpdate(env, w, name, ids, desire, b);
            && name in w'.elb && w'.elb[name].at.Keys == p.at.Keys == Keys(desire)
            && forall k :: k in p.at ==> w'.elb[name].at[k].health == p.at[k].health
  {
    var p := Ported(env, name, desire, b);
    PortedReconcilable(env, w, name, ids, desire, b);
    NodesLeave(env, AfterPorts(env, w, name, ids, desire, b), name, ids, p, ReadThen(env, name, desire, b));
  }

  /** What the created, the deleted and the kept listeners need, before and after. */
  lemma UpdatedNeeds(env: Env, w: World, name: string, ids: set<string>, desire: seq<ElasticLoadBalancer>,
                     b: ElbBalancer)
    requires Changeable(env, w, name, ids, desire, b)
    ensures var w', want := AfterUpdate(env, w, name, ids, desire, b), Keys(desire);
            && name in w'.elb
            && AllPermissions(ToCreate(desire, View(env, name, b))) == Needs(w'.elb[name], want - b.at.Keys)
            && AllPermissions(ToDelete(desire, View(env, name, b))) == Needs(b, b.at.Keys - want)
            && Needs(b, b.at.Keys * want) == Needs(w'.elb[name], b.at.Keys * want)
  {
    PortedHealth(env, name, ids, desire, b);
    PortedIs(env, name, ids, desire, b);
    UpdatedHealth(env, w, name, ids, desire, b);
    UpdatedHas(env, w, name, ids, desire, b);
    CreatedPart(env, name, ids, desire, b);
    DeletedPart(env, name, ids, desire, b);
    var b' := AfterUpdate(env, w, name, ids, desire, b).elb[name];
    PlacedNeeds(b', ToCreate(desire, View(env, name, b)));
    ViewNeeds(env, name, b, ToDelete(desire, View(env, name, b)));
    SameNeeds(b, b', b.at.Keys * Keys(desire));
  }

  /** The needs before and after an update, from those of the kept, the deleted and the created listeners. */
  lemma NeedsInParts(env: Env, w: World, name: string, ids: set<string>, desire: seq<ElasticLoadBalancer>,
                     b: ElbBalancer)
    requires Changeable(env, w, name, ids, desire, b)
    ensures var w', want := AfterUpdate(env, w, name, ids, desire, b), Keys(desire);
            && name in w'.elb
            && Needs(b, b.at.Keys) == Needs(b, b.at.Keys * want) + Needs(b, b.at.Keys - want)
            && Needs(w'.elb[name], want) ==
               Needs(b, b.at.Keys * want) + AllPermissions(ToCreate(desire, View(env, name, b)))
  {
    UpdatedNeeds(env, w, name, ids, desire, b);
    NeedsSplit(b, b.at.Keys, Keys(desire));
    NeedsSplit(AfterUpdate(env, w, name, ids, desire, b).elb[name], Keys(desire), b.at.Keys);
  }

  /** The rules a successful update leaves. */
  lemma UpdatedRules(env: Env, w: World, name: string, ids: set<string>, desire: seq<ElasticLoadBalancer>,
                     b: ElbBalancer)
    requires Changeable(env, w, name, ids, desire, b) && WillFit(env, name, ids, desire, b)
    ensures var p, read := Ported(env, name, desire, b), ReadThen(env, name, desire, b);
            AfterUpdate(env, w, name, ids, desire, b).rules ==
            NodeRules(env, PortedRules(env, w.rules, name, ids, desire, b), ids - read, read - ids,
                      AllPermissions(View(env, name, p)))
  {
    var p, read := Ported(env, name, desire, b), ReadThen(env, name, desire, b);
    PortedIs(env, name, ids, desire, b);
    FittingIsAllFit(p, read, ids);
    assert View(env, name, p)[..|p.order|] == View(env, name, p);
  }

  lemma UniformReads(want: set<Key>, b: ElbBalancer, k0: Key, ids: set<string>, had: set<string>)
    requires Uniform(b, had) && k0 in want && (ids == had || want == b.at.Keys)
    ensures var read := if k0 in b.at then b.at[k0].targets else ids;
            read == had && ReadsWellEnough(want, b.at, read, ids)
    ensures KeptRightly(want, b.at, ids)
  {
    ShiftedIsDesired(had, had, ids);
  }

  /** The start and the end of an update between balancers that are uniform. */
  lemma UniformUpdate(env: Env, w: World, name: string, ids: set<string>, desire: seq<ElasticLoadBalancer>,
                      b: ElbBalancer, had: set<string>)
    requires Changeable(env, w, name, ids, desire, b) && Uniform(b, had)
    requires ids == had || Keys(desire) == b.at.Keys
    ensures FirstTargets(b) == had && ReadThen(env, name, desire, b) == had && WillFit(env, name, ids, desire, b)
    ensures Arrived(AfterUpdate(env, w, name, ids, desire, b), name, Keys(desire), ids)
  {
    assert b.order[0] in Elems(b.order);
    WhatIsRead(env, name, ids, desire, b);
    UniformReads(Keys(desire), b, Ported(env, name, desire, b).order[0], ids, had);
    WhenAllFit(env, name, ids, desire, b);
    UpdatedArrives(env, w, name, ids, desire, b);
  }

  // ---------------------------------------------------------------- new ports, same nodes

  lemma PortsOnlyRules(env: Env, w: World, name: string, ids: set<string>, desire: seq<ElasticLoadBalancer>,
                       b: ElbBalancer)
    requires Changeable(env, w, name, ids, desire, b) && Uniform(b, ids)
    ensures AfterUpdate(env, w, name, ids, desire, b).rules == PortedRules(env, w.rules, name, ids, desire, b)
    ensures FirstTargets(b) == ids
  {
    UniformUpdate(env, w, name, ids, desire, b, ids);
    UpdatedRules(env, w, name, ids, desire, b);
    assert ids - ids == {};
    NodeRulesTwice(env, PortedRules(env, w.rules, name, ids, desire, b), {}, {},
                   AllPermissions(View(env, name, Ported(env, name, desire, b))), {});
  }

  ghost predicate SomeGroup(env: Env, rules: RuleMap, ids: set<string>) {
    exists g :: g in rules && Touched(env, g, ids)
  }

  /** Groups equipped for `kept + gone` stay equipped for `kept + added` exactly if `gone` avoids that. */
  lemma EquippedThroughChange(env: Env, rules: RuleMap, ids: set<string>, kept: set<Permission>,
                              added: set<Permission>, gone: set<Permission>)
    requires forall g :: g in rules && Touched(env, g, ids) ==> kept + gone <= rules[g]
    ensures var rules' := Adjust(env, Adjust(env, rules, true, ids, added), false, ids, gone);
            (forall g :: g in rules' && Touched(env, g, ids) ==> kept + added <= rules'[g]) <==>
            !SomeGroup(env, rules, ids) || (kept + added) !! gone
  {
  }

  /** What the kept and the created listeners need. */
  function NeedsThen(env: Env, name: string, desire: seq<ElasticLoadBalancer>, b: ElbBalancer): set<Permission> {
    Needs(b, b.at.Keys * Keys(desire)) + AllPermissions(ToCreate(desire, View(env, name, b)))
  }

  lemma PortsOnlyGuard(env: Env, w: World, name: string, ids: set<string>, desire: seq<ElasticLoadBalancer>,
                       b: ElbBalancer)
    requires Changeable(env, w, name, ids, desire, b) && Uniform(b, ids) && Guarded(env, w, name)
    ensures Guarded(env, AfterUpdate(env, w, name, ids, desire, b), name) <==>
            !SomeGroup(env, w.rules, ids) || NeedsThen(env, name, desire, b) !! Needs(b, b.at.Keys - Keys(desire))
  {
    var w', want := AfterUpdate(env, w, name, ids, desire, b), Keys(desire);
    UniformUpdate(env, w, name, ids, desire, b, ids);
    UpdatedNeeds(env, w, name, ids, desire, b);
    NeedsInParts(env, w, name, ids, desire, b);
    PortsOnlyRules(env, w, name, ids, desire, b);
    GuardedUniformly(env, w, name, ids);
    GuardedUniformly(env, w', name, ids);
    EquippedThroughChange(env, w.rules, ids, Needs(b, b.at.Keys * want),
                          AllPermissions(ToCreate(desire, View(env, name, b))), Needs(b, b.at.Keys - want));
  }

  /**
   * A run that changes only ports keeps every group of a target equipped exactly if no group
   * holds a target, or no permission of a deleted listener is one that a kept or created listener
   * needs; all of which can be told from the balancer and the service before the run.
   */
  lemma PortChangeKeepsGuard(c: Ctx, r: Run, name: string, ids: set<string>, desire: seq<ElasticLoadBalancer>)
    requires Ready(c, r, name, ids, desire) && Standing(r.world, name, ids) && Guarded(c.env, r.world, name)
    ensures var w, b, f := r.world, r.world.elb[name], EnsureElb(c, r, name, desire);
            f.status.Ok? ==>
              && name in f.run.world.elb
              && (Guarded(c.env, f.run.world, name) <==>
                    !SomeGroup(c.env, w.rules, ids) ||
                    NeedsThen(c.env, name, PlacedOn(w, name, desire), b) !! Needs(b, b.at.Keys - Keys(desire)))
  {
    EnsureRun(c, r, name, ids, desire);
    if EnsureElb(c, r, name, desire).status.Ok? {
      StartOfUpdate(c, r, name, ids, desire);
      PortsOnlyGuard(c.env, r.world, name, ids, PlacedOn(r.world, name, desire), r.world.elb[name]);
      UniformUpdate(c.env, r.world, name, ids, PlacedOn(r.world, name, desire), r.world.elb[name], ids);
    }
  }

  /** The health check of a desired listener once the ports are right. */
  function CheckThen(b: ElbBalancer, d: ElasticLoadBalancer): string {
    if KeyOf(d) in b.at then b.at[KeyOf(d)].health else d.healthCheckTarget
  }

  lemma NewNeed(b: ElbBalancer, d: ElasticLoadBalancer)
    requires d.protocol == "TCP" && d.vip == b.vip && d.networkInterfaces == b.nics && KeyOf(d) !in b.at
    ensures Permissions(d) == NeedWith(b.vip, b.nics, KeyOf(d), CheckThen(b, d))
  {
  }

  lemma NeedInNeeds(b: ElbBalancer, k: Key, ks: set<Key>)
    requires k in ks
    ensures Need(b, k) <= Needs(b, ks)
  {
  }

  lemma InAll(lbs: seq<ElasticLoadBalancer>, d: ElasticLoadBalancer)
    requires d in lbs
    ensures Permissions(d) <= AllPermissions(lbs)
  {
  }

  lemma DesiredNeed(env: Env, name: string, ids: set<string>, desire: seq<ElasticLoadBalancer>, b: ElbBalancer,
                    d: ElasticLoadBalancer)
    requires Setting(env, name, ids, desire, b) && d in desire
    ensures NeedWith(b.vip, b.nics, KeyOf(d), CheckThen(b, d)) <= NeedsThen(env, name, desire, b)
  {
    if KeyOf(d) in b.at {
      KeyInKeys(desire, d);
      NeedInNeeds(b, KeyOf(d), b.at.Keys * Keys(desire));
    } else {
      MissingIsCreated(env, name, desire, b, d);
      NewNeed(b, d);
      InAll(ToCreate(desire, View(env, name, b)), d);
    }
  }

  lemma InNeedsThen(env: Env, name: string, ids: set<string>, desire: seq<ElasticLoadBalancer>, b: ElbBalancer,
                    p: Permission)
    requires Setting(env, name, ids, desire, b) && p in NeedsThen(env, name, desire, b)
    ensures exists d :: d in desire && p in NeedWith(b.vip, b.nics, KeyOf(d), CheckThen(b, d))
  {
    var created := ToCreate(desire, View(env, name, b));
    CreatedPart(env, name, ids, desire, b);
    if p in AllPermissions(created) {
      var d :| d in created && p in Permissions(d);
      NewNeed(b, d);
    } else {
      var k :| k in b.at.Keys * Keys(desire) && p in Need(b, k);
      var i :| 0 <= i < |desire| && KeySeq(desire)[i] == k;
      assert p in NeedWith(b.vip, b.nics, KeyOf(desire[i]), CheckThen(b, desire[i]));
    }
  }

  lemma KeyInKeys(lbs: seq<ElasticLoadBalancer>, d: ElasticLoadBalancer)
    requires d in lbs
    ensures KeyOf(d) in Keys(lbs)
  {
    var i :| 0 <= i < |lbs| && lbs[i] == d;
    assert KeySeq(lbs)[i] == KeyOf(d);
  }

  lemma MissingIsCreated(env: Env, name: string, desire: seq<ElasticLoadBalancer>, b: ElbBalancer,
                         d: ElasticLoadBalancer)
    requires EnvOK(env) && ElbOK(env, b) && d in desire && KeyOf(d) !in b.at
    ensures d in ToCreate(desire, View(env, name, b))
  {
    var view := View(env, name, b);
    ViewIs(env, name, b);
    MissingMembers(desire, view, ElbEquals, d);
  }

  /** Every pair of a desired and a deleted listener has nothing in common. */
  ghost predicate PairsApart(desire: seq<ElasticLoadBalancer>, b: ElbBalancer) {
    forall d, k :: d in desire && k in b.at.Keys - Keys(desire) ==>
      NothingInCommon(b.nics, KeyOf(d), Protocol(CheckThen(b, d)), k, Protocol(HealthAt(b, k)))
  }

  /** The protocol of a health check target. */
  function Protocol(health: string): string {
    match Separate(health) { case Some((protocol, _)) => protocol case None => "" }
  }

  /** All health checks are by TCP or ICMP, as the builder makes them. */
  ghost predicate PlainChecks(desire: seq<ElasticLoadBalancer>, b: ElbBalancer) {
    && (forall d :: d in desire ==> Protocol(d.healthCheckTarget) in {"TCP", "ICMP"})
    && (forall k :: k in b.at ==> Protocol(b.at[k].health) in {"TCP", "ICMP"})
  }

  lemma ApartByChecks(env: Env, name: string, ids: set<string>, desire: seq<ElasticLoadBalancer>, b: ElbBalancer)
    requires Setting(env, name, ids, desire, b) && PlainChecks(desire, b)
    ensures NeedsThen(env, name, desire, b) !! Needs(b, b.at.Keys - Keys(desire)) <==> PairsApart(desire, b)
  {
    var gone := b.at.Keys - Keys(desire);
    forall d, k | d in desire && k in gone
      ensures NeedWith(b.vip, b.nics, KeyOf(d), CheckThen(b, d)) !! Need(b, k) <==>
              NothingInCommon(b.nics, KeyOf(d), Protocol(CheckThen(b, d)), k, Protocol(HealthAt(b, k)))
    {
      WhenNeedsAreDisjoint(b.vip, b.nics, KeyOf(d), CheckThen(b, d), Protocol(CheckThen(b, d)),
                           k, HealthAt(b, k), Protocol(HealthAt(b, k)));
    }
    forall d | d in desire
      ensures NeedWith(b.vip, b.nics, KeyOf(d), CheckThen(b, d)) <= NeedsThen(env, name, desire, b)
    {
      DesiredNeed(env, name, ids, desire, b, d);
    }
    forall p | p in NeedsThen(env, name, desire, b)
      ensures exists d :: d in desire && p in NeedWith(b.vip, b.nics, KeyOf(d), CheckThen(b, d))
    {
      InNeedsThen(env, name, ids, desire, b, p);
    }
    ByPairs(desire, b, NeedsThen(env, name, desire, b), gone);
  }

  lemma ByPairs(desire: seq<ElasticLoadBalancer>, b: ElbBalancer, needs: set<Permission>, gone: set<Key>)
    requires forall d :: d in desire ==> NeedWith(b.vip, b.nics, KeyOf(d), CheckThen(b, d)) <= needs
    requires forall p :: p in needs ==>
               exists d :: d in desire && p in NeedWith(b.vip, b.nics, KeyOf(d), CheckThen(b, d))
    ensures needs !! Needs(b, gone) <==>
            forall d, k :: d in desire && k in gone ==> NeedWith(b.vip, b.nics, KeyOf(d), CheckThen(b, d)) !! Need(b, k)
  {
    if d, k, p :| && d in desire && k in gone
                  && p in NeedWith(b.vip, b.nics, KeyOf(d), CheckThen(b, d)) && p in Need(b, k) {
      assert p in needs && p in Needs(b, gone);
    }
  }

  /**
   * The same by ports and health checks: the invariant survives a port change exactly if no group
   * holds a target, or every deleted listener differs from every remaining and new one in what it
   * needs: on one arm they have different node ports and are not both checked by ICMP, on two arms
   * they are checked by different protocols, or both by TCP on different node ports.
   */
  lemma PortChangeByChecks(c: Ctx, r: Run, name: string, ids: set<string>, desire: seq<ElasticLoadBalancer>)
    requires Ready(c, r, name, ids, desire) && Standing(r.world, name, ids) && Guarded(c.env, r.world, name)
    requires PlainChecks(desire, r.world.elb[name])
    ensures var f := EnsureElb(c, r, name, desire);
            f.status.Ok? ==>
              (Guarded(c.env, f.run.world, name) <==>
                 !SomeGroup(c.env, r.world.rules, ids) || PairsApart(desire, r.world.elb[name]))
  {
    var b, placed := r.world.elb[name], PlacedOn(r.world, name, desire);
    PortChangeKeepsGuard(c, r, name, ids, desire);
    if EnsureElb(c, r, name, desire).status.Ok? {
      PlacedSetting(c, r, name, ids, desire);
      PlacedChecks(desire, b);
      ApartByChecks(c.env, name, ids, placed, b);
    }
  }

  lemma PlacedChecks(desire: seq<ElasticLoadBalancer>, b: ElbBalancer)
    ensures var placed := PlacedAll(desire, b.vip, b.nics);
            && (PlainChecks(placed, b) <==> PlainChecks(desire, b))
            && (PairsApart(placed, b) <==> PairsApart(desire, b))
  {
    var placed := PlacedAll(desire, b.vip, b.nics);
    assert KeySeq(placed) == KeySeq(desire);
    forall i | 0 <= i < |desire|
      ensures placed[i] in placed && desire[i] in desire && KeyOf(placed[i]) == KeyOf(desire[i])
      ensures placed[i].healthCheckTarget == desire[i].healthCheckTarget
      ensures CheckThen(b, placed[i]) == CheckThen(b, desire[i])
    {
    }
  }

  // ---------------------------------------------------------------- new nodes, same ports

  lemma NothingPorted(env: Env, name: string, ids: set<string>, desire: seq<ElasticLoadBalancer>, b: ElbBalancer)
    requires Setting(env, name, ids, desire, b) && Keys(desire) == b.at.Keys
    ensures Ported(env, name, desire, b) == b
    ensures ToCreate(desire, View(env, name, b)) == [] && ToDelete(desire, View(env, name, b)) == []
  {
    CreatedPart(env, name, ids, desire, b);
    DeletedPart(env, name, ids, desire, b);
    NoElems(KeySeq(ToCreate(desire, View(env, name, b))));
    NoElems(KeySeq(ToDelete(desire, View(env, name, b))));
    NothingLost(b, b.at.Keys - Keys(desire));
  }

  lemma NothingLost(b: ElbBalancer, gone: set<Key>)
    requires Listed(b.order, b.at) && gone == {}
    ensures b.(order := Excluding(b.order, gone), at := b.at - gone) == b
  {
    NothingRemoved(b);
    assert Elems(KeySeq([])) == {} == gone;
    assert b.at - {} == b.at;
  }

  lemma NodesOnlyRules(env: Env, w: World, name: string, ids: set<string>, desire: seq<ElasticLoadBalancer>,
                       b: ElbBalancer, had: set<string>)
    requires Changeable(env, w, name, ids, desire, b) && Keys(desire) == b.at.Keys && Uniform(b, had)
    ensures AfterUpdate(env, w, name, ids, desire, b).rules ==
            NodeRules(env, w.rules, ids - had, had - ids, Needs(b, b.at.Keys))
  {
    NothingPorted(env, name, ids, desire, b);
    UniformUpdate(env, w, name, ids, desire, b, had);
    UpdatedRules(env, w, name, ids, desire, b);
    ViewIs(env, name, b);
    ViewNeeds(env, name, b, View(env, name, b));
    assert AllPermissions([]) == {};
    AdjustTwice(env, w.rules, true, ids, {}, {});
    AdjustTwice(env, w.rules, false, had, {}, {});
  }

  lemma EquippedThroughNodes(env: Env, rules: RuleMap, had: set<string>, ids: set<string>, need: set<Permission>)
    requires need != {} && forall g :: g in rules && Touched(env, g, had) ==> need <= rules[g]
    ensures var rules' := NodeRules(env, rules, ids - had, had - ids, need);
            (forall g :: g in rules' && Touched(env, g, ids) ==> need <= rules'[g]) <==>
            forall g :: g in rules && Touched(env, g, ids) ==> !Touched(env, g, had - ids)
  {
  }

  lemma NodesOnlyNeeds(env: Env, w: World, name: string, ids: set<string>, desire: seq<ElasticLoadBalancer>,
                       b: ElbBalancer)
    requires Changeable(env, w, name, ids, desire, b) && Keys(desire) == b.at.Keys
    ensures var w' := AfterUpdate(env, w, name, ids, desire, b);
            name in w'.elb && Needs(w'.elb[name], w'.elb[name].at.Keys) == Needs(b, b.at.Keys)
  {
    UpdatedHas(env, w, name, ids, desire, b);
    UpdatedNeeds(env, w, name, ids, desire, b);
    assert b.at.Keys * Keys(desire) == b.at.Keys;
  }

  lemma NodesOnlyGuard(env: Env, w: World, name: string, ids: set<string>, desire: seq<ElasticLoadBalancer>,
                       b: ElbBalancer, had: set<string>)
    requires Changeable(env, w, name, ids, desire, b) && Keys(desire) == b.at.Keys && Uniform(b, had)
    requires Guarded(env, w, name)
    ensures Guarded(env, AfterUpdate(env, w, name, ids, desire, b), name) <==>
            forall g :: g in w.rules && Touched(env, g, ids) ==> !Touched(env, g, had - ids)
  {
    NodesOnlyNeeds(env, w, name, ids, desire, b);
    NodesOnlyRules(env, w, name, ids, desire, b, had);
    UniformUpdate(env, w, name, ids, desire, b, had);
    GuardedUniformly(env, w, name, had);
    GuardedUniformly(env, AfterUpdate(env, w, name, ids, desire, b), name, ids);
    SomeNeed(b);
    EquippedThroughNodes(env, w.rules, had, ids, Needs(b, b.at.Keys));
  }

  lemma SomeNeed(b: ElbBalancer)
    requires Usable(b) && Listed(b.order, b.at)
    ensures Needs(b, b.at.Keys) != {}
  {
    var k := b.order[0];
    assert k in Elems(b.order);
    NeedIsSomething(b, k);
    var p :| p in Need(b, k);
    assert p in Needs(b, b.at.Keys);
  }

  /**
   * A run that changes only nodes keeps every group of a target equipped exactly if no group
   * holds both a target that stays or comes and one that goes.
   */
  lemma NodeChangeKeepsGuard(c: Ctx, r: Run, name: string, ids: set<string>, desire: seq<ElasticLoadBalancer>,
                             had: set<string>)
    requires Ready(c, r, name, ids, desire) && Standing(r.world, name, had) && Guarded(c.env, r.world, name)
    requires Keys(desire) == r.world.elb[name].at.Keys
    ensures var f := EnsureElb(c, r, name, desire);
            f.status.Ok? ==>
              (Guarded(c.env, f.run.world, name) <==>
                 forall g :: g in r.world.rules && Touched(c.env, g, ids) ==> !Touched(c.env, g, had - ids))
  {
    EnsureRun(c, r, name, ids, desire);
    if EnsureElb(c, r, name, desire).status.Ok? {
      StartOfUpdate(c, r, name, ids, desire);
      NodesOnlyGuard(c.env, r.world, name, ids, PlacedOn(r.world, name, desire), r.world.elb[name], had);
    }
  }

  // ---------------------------------------------------------------- creating and deleting

  lemma AddThenRemove(env: Env, rules: RuleMap, ids: set<string>, ps: set<Permission>)
    ensures Adjust(env, Adjust(env, rules, true, ids, ps), false, ids, ps) == rules <==>
            forall g :: g in rules && Touched(env, g, ids) ==> rules[g] !! ps
  {
  }

  lemma DeletedAgain(env: Env, w: World, name: string, ids: set<string>, desire: seq<ElasticLoadBalancer>)
    requires EnvOK(env) && DesireOK(env, name, ids, desire) && ArmsOK(desire[0].networkInterfaces) && name !in w.elb
    requires WorldOK(env, AfterCreate(env, w, name, ids, desire))
    ensures var ps, w1 := AllPermissions(Located(env, name, desire)), AfterCreate(env, w, name, ids, desire);
            && name in w1.elb && Usable(w1.elb[name])
            && AfterDelete(env, w1, name) ==
               w.(rules := Adjust(env, Adjust(env, w.rules, true, ids, ps), false, ids, ps))
  {
    var b, w1 := Created(env, name, desire), AfterCreate(env, w, name, ids, desire);
    assert name in w1.elb && w1.elb[name] == b;
    CreatedHas(env, name, ids, desire);
    CreatedNeeds(env, name, ids, desire);
    ViewIs(env, name, b);
    ViewNeeds(env, name, b, View(env, name, b));
    UniformFirst(env, w1, name, ids);
    SetSet(w, name, Some(b), w1.rules, None, AfterDelete(env, w1, name).rules);
    assert Put(w.elb, name, None) == w.elb;
  }

  /**
   * Creating a balancer and deleting it again gives back the cloud as it was, exactly if none of
   * its permissions was in a group of its targets before. Without faults both succeed.
   */
  lemma CreateThenDelete(c: Ctx, r: Run, name: string, ids: set<string>, desire: seq<ElasticLoadBalancer>)
    requires Ready(c, r, name, ids, desire) && name !in r.world.elb
    ensures var f := EnsureElb(c, r, name, desire);
            var f' := DeleteElb(c, f.run, name);
            && (FaultFree(c, r.clock, f.run.clock) ==> f.status.Ok?)
            && (f.status.Ok? && FaultFree(c, f.run.clock, f'.run.clock) ==> f'.status.Ok?)
            && (f.status.Ok? && f'.status.Ok? ==>
                  && f'.run.world == r.world.(rules := f'.run.world.rules)
                  && (f'.run.world == r.world <==>
                        forall g :: g in r.world.rules && Touched(c.env, g, ids) ==>
                          r.world.rules[g] !! AllPermissions(Located(c.env, name, desire))))
  {
    var f := EnsureElb(c, r, name, desire);
    EnsureRun(c, r, name, ids, desire);
    EnsureKeepsWorldOK(c, r, name, desire);
    if f.status.Ok? {
      DeletedAgain(c.env, r.world, name, ids, desire);
      DeleteRun(c, f.run, name);
      AddThenRemove(c.env, r.world.rules, ids, AllPermissions(Located(c.env, name, desire)));
    }
  }
}
