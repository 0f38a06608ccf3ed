/** When a successful run leaves the groups equipped, exactly, and one lost request after which none does. */
module ElbGuarded {
  import opened Base
  import opened Cloud
  import opened Runs
  import opened Differences
  import opened Rules
  import opened ElbPlan
  import opened ElbIdeal
  import opened ElbUpdate
  import opened ElbRuns
  import opened ElbEnsure
  import opened ElbTheorems
  import opened ElbFlattened
  import opened ElbGuard
  import opened ElbGaps

  // ---------------------------------------------------------------- exactly when

  /** What a run makes of the rules of one group: created, deleted and re-targeted listeners in turn. */
  function RulesThrough(rules: set<Permission>, created: Option<set<Permission>>, gone: Option<set<Permission>>,
                        gained: bool, lost: bool, all: set<Permission>): set<Permission> {
    var added := if created.Some? then rules + created.value else rules;
    Renewed(gained, lost, if gone.Some? then added - gone.value else added, all)
  }

  /** A group carries a need in the end exactly if nothing takes it away, and it was there or is given. */
  lemma CarriedThrough(need: set<Permission>, rules: set<Permission>, created: Option<set<Permission>>,
                       gone: Option<set<Permission>>, gained: bool, lost: bool, all: set<Permission>)
    requires need <= all && need != {}
    ensures need <= RulesThrough(rules, created, gone, gained, lost, all) <==>
            && !lost
            && (gained || (&& need <= (if created.Some? then rules + created.value else rules)
                           && (gone.Some? ==> need !! gone.value)))
  {
  }

  /** What a desired listener needs once the ports are right. */
  function NeedThen(b: ElbBalancer, d: ElasticLoadBalancer): set<Permission> {
    NeedWith(b.vip, b.nics, KeyOf(d), CheckThen(b, d))
  }

  /**
   * Whether a group of a desired listener carries what that listener needs in the end. It must
   * hold no node that goes. If it holds one that comes, it is given everything; otherwise it must
   * carry the need already, or be given it as a group of a created listener, and it must not hold
   * a node of listener 0 while a deleted listener needs part of the same.
   */
  ghost predicate WillCarry(env: Env, name: string, ids: set<string>, desire: seq<ElasticLoadBalancer>,
                            b: ElbBalancer, rules: set<Permission>, g: string, d: ElasticLoadBalancer) {
    var read := ReadThen(env, name, desire, b);
    && !Touched(env, g, read - ids)
    && (Touched(env, g, ids - read) ||
        (&& NeedThen(b, d) <= (if Touched(env, g, ids) then rules + AllPermissions(ToCreate(desire, View(env, name, b)))
                               else rules)
         && (Touched(env, g, FirstTargets(b)) ==> NeedThen(b, d) !! Needs(b, b.at.Keys - Keys(desire)))))
  }

  lemma RulesAt(env: Env, rules: RuleMap, ids: set<string>, created: set<Permission>, first: set<string>,
                gone: set<Permission>, add: set<string>, del: set<string>, all: set<Permission>, g: string)
    requires g in rules
    ensures var rules' := NodeRules(env, Adjust(env, Adjust(env, rules, true, ids, created), false, first, gone),
                                    add, del, all);
            && g in rules'
            && rules'[g] == RulesThrough(rules[g], if Touched(env, g, ids) then Some(created) else None,
                                         if Touched(env, g, first) then Some(gone) else None,
                                         Touched(env, g, add), Touched(env, g, del), all)
  {
  }

  lemma UpdatedGroup(env: Env, w: World, name: string, ids: set<string>, desire: seq<ElasticLoadBalancer>,
                     b: ElbBalancer, g: string)
    requires Changeable(env, w, name, ids, desire, b) && WillFit(env, name, ids, desire, b) && g in w.rules
    ensures var w', read := AfterUpdate(env, w, name, ids, desire, b), ReadThen(env, name, desire, b);
            var created, gone := AllPermissions(ToCreate(desire, View(env, name, b))),
                                 Needs(b, b.at.Keys - Keys(desire));
            && g in w'.rules && name in w'.elb
            && w'.rules[g] == RulesThrough(w.rules[g], if Touched(env, g, ids) then Some(created) else None,
                                           if Touched(env, g, FirstTargets(b)) then Some(gone) else None,
                                           Touched(env, g, ids - read), Touched(env, g, read - ids),
                                           Needs(w'.elb[name], Keys(desire)))
  {
    var read, all := ReadThen(env, name, desire, b), AllPermissions(View(env, name, Ported(env, name, desire, b)));
    var created, deleted := ToCreate(desire, View(env, name, b)), ToDelete(desire, View(env, name, b));
    UpdatedRules(env, w, name, ids, desire, b);
    UpdatedNeeds(env, w, name, ids, desire, b);
    PortedNeeds(env, w, name, ids, desire, b);
    RulesAt(env, w.rules, ids, AllPermissions(created), FirstTargets(b), AllPermissions(deleted),
            ids - read, read - ids, all, g);
  }

  /** The permissions of the listeners that the client reads before it reconciles are those they need in the end. */
  lemma PortedNeeds(env: Env, w: World, name: string, ids: set<string>, desire: seq<ElasticLoadBalancer>,
                    b: ElbBalancer)
    requires Changeable(env, w, name, ids, desire, b)
    ensures var p, w' := Ported(env, name, desire, b), AfterUpdate(env, w, name, ids, desire, b);
            name in w'.elb && AllPermissions(View(env, name, p)) == Needs(w'.elb[name], Keys(desire))
  {
    var p, w' := Ported(env, name, desire, b), AfterUpdate(env, w, name, ids, desire, b);
    PortedReconcilable(env, w, name, ids, desire, b);
    PortedIs(env, name, ids, desire, b);
    UpdatedHas(env, w, name, ids, desire, b);
    UpdatedHealth(env, w, name, ids, desire, b);
    ViewIs(env, name, p);
    ViewNeeds(env, name, p, View(env, name, p));
    SameNeeds(p, w'.elb[name], Keys(desire));
  }

  lemma CheckInTheEnd(env: Env, w: World, name: string, ids: set<string>, desire: seq<ElasticLoadBalancer>,
                      b: ElbBalancer, d: ElasticLoadBalancer)
    requires Changeable(env, w, name, ids, desire, b) && d in desire
    ensures var w' := AfterUpdate(env, w, name, ids, desire, b);
            name in w'.elb && KeyOf(d) in w'.elb[name].at && w'.elb[name].at[KeyOf(d)].health == CheckThen(b, d)
    ensures KeyOf(d) in Keys(desire)
  {
    KeyInKeys(desire, d);
    UpdatedHealth(env, w, name, ids, desire, b);
    PortedHealth(env, name, ids, desire, b);
    if KeyOf(d) !in b.at {
      MissingIsCreated(env, name, desire, b, d);
    }
  }

  lemma NeedOf(b: ElbBalancer, k: Key, vip: string, nics: seq<NetworkInterface>, health: string, ks: set<Key>)
    requires Usable(b) && k in b.at && k in ks && b.vip == vip && b.nics == nics && b.at[k].health == health
    ensures Need(b, k) == NeedWith(vip, nics, k, health) != {} && NeedWith(vip, nics, k, health) <= Needs(b, ks)
  {
    NeedInNeeds(b, k, ks);
    NeedIsSomething(b, k);
  }

  /** What a desired listener needs in the end can be told before. */
  lemma NeedInTheEnd(env: Env, w: World, name: string, ids: set<string>, desire: seq<ElasticLoadBalancer>,
                     b: ElbBalancer, d: ElasticLoadBalancer)
    requires Changeable(env, w, name, ids, desire, b) && d in desire
    ensures var w' := AfterUpdate(env, w, name, ids, desire, b);
            && name in w'.elb && KeyOf(d) in w'.elb[name].at && KeyOf(d) in Keys(desire)
            && Need(w'.elb[name], KeyOf(d)) == NeedThen(b, d) != {}
            && NeedThen(b, d) <= Needs(w'.elb[name], Keys(desire))
  {
    CheckInTheEnd(env, w, name, ids, desire, b, d);
    UpdatedHas(env, w, name, ids, desire, b);
    NeedOf(AfterUpdate(env, w, name, ids, desire, b).elb[name], KeyOf(d), b.vip, b.nics, CheckThen(b, d), Keys(desire));
  }

  lemma GroupCarries(env: Env, w: World, name: string, ids: set<string>, desire: seq<ElasticLoadBalancer>,
                     b: ElbBalancer, g: string, d: ElasticLoadBalancer)
    requires Changeable(env, w, name, ids, desire, b) && WillFit(env, name, ids, desire, b)
    requires g in w.rules && d in desire
    ensures var w' := AfterUpdate(env, w, name, ids, desire, b);
            && g in w'.rules && name in w'.elb
            && (Need(w'.elb[name], KeyOf(d)) <= w'.rules[g] <==> WillCarry(env, name, ids, desire, b, w.rules[g], g, d))
  {
    var w', read := AfterUpdate(env, w, name, ids, desire, b), ReadThen(env, name, desire, b);
    var created, gone := AllPermissions(ToCreate(desire, View(env, name, b))), Needs(b, b.at.Keys - Keys(desire));
    UpdatedGroup(env, w, name, ids, desire, b, g);
    NeedInTheEnd(env, w, name, ids, desire, b, d);
    CarriedThrough(NeedThen(b, d), w.rules[g], if Touched(env, g, ids) then Some(created) else None,
                   if Touched(env, g, FirstTargets(b)) then Some(gone) else None,
                   Touched(env, g, ids - read), Touched(env, g, read - ids), Needs(w'.elb[name], Keys(desire)));
  }

  /** Guardedness listener by listener. */
  lemma GuardedByDesire(env: Env, w: World, name: string, desire: seq<ElasticLoadBalancer>)
    requires name in w.elb && w.elb[name].at.Keys == Keys(desire)
    ensures Guarded(env, w, name) <==>
            forall d, g :: d in desire && KeyOf(d) in w.elb[name].at && g in w.rules
                           && Touched(env, g, w.elb[name].at[KeyOf(d)].targets) ==>
              Need(w.elb[name], KeyOf(d)) <= w.rules[g]
  {
    forall k | k in w.elb[name].at ensures exists d :: d in desire && KeyOf(d) == k {
      assert k in Keys(desire);
      var i :| 0 <= i < |desire| && KeySeq(desire)[i] == k;
      assert desire[i] in desire;
    }
  }

  /** The groups of every desired listener, by the nodes it ends with, will carry what it needs. */
  ghost predicate WillBeGuarded(env: Env, w: World, name: string, ids: set<string>, desire: seq<ElasticLoadBalancer>)
    requires name in w.elb
  {
    forall d, g :: d in PlacedOn(w, name, desire) && g in w.rules
                   && Touched(env, g, LeftAt(env, w, name, ids, desire, KeyOf(d))) ==>
      WillCarry(env, name, ids, PlacedOn(w, name, desire), w.elb[name], w.rules[g], g, d)
  }

  lemma UpdateGuardsExactly(c: Ctx, r: Run, name: string, ids: set<string>, desire: seq<ElasticLoadBalancer>)
    requires Ready(c, r, name, ids, desire) && name in r.world.elb && Usable(r.world.elb[name])
    requires Reachable(c.env, r.world, name, ids, desire)
    ensures Guarded(c.env, Settled(c.env, r.world, name, ids, desire), name) <==>
            WillBeGuarded(c.env, r.world, name, ids, desire)
  {
    var b, placed, w' := r.world.elb[name], PlacedOn(r.world, name, desire), Settled(c.env, r.world, name, ids, desire);
    StartOfUpdate(c, r, name, ids, desire);
    UpdateSucceeded(c, r, name, ids, desire);
    GuardedByDesire(c.env, w', name, placed);
    forall d, g | d in placed && g in r.world.rules
      ensures g in w'.rules && KeyOf(d) in w'.elb[name].at
      ensures w'.elb[name].at[KeyOf(d)].targets == LeftAt(c.env, r.world, name, ids, desire, KeyOf(d))
      ensures Need(w'.elb[name], KeyOf(d)) <= w'.rules[g] <==>
                WillCarry(c.env, name, ids, placed, b, r.world.rules[g], g, d)
    {
      KeyInKeys(placed, d);
      GroupCarries(c.env, r.world, name, ids, placed, b, g, d);
    }
    SameGroups(c.env, r.world, name, ids, placed, b);
  }

  lemma SameGroups(env: Env, w: World, name: string, ids: set<string>, desire: seq<ElasticLoadBalancer>, b: ElbBalancer)
    requires Changeable(env, w, name, ids, desire, b) && WillFit(env, name, ids, desire, b)
    ensures AfterUpdate(env, w, name, ids, desire, b).rules.Keys == w.rules.Keys
  {
    UpdatedRules(env, w, name, ids, desire, b);
  }

  /**
   * From any start, a run that reports success leaves every group of a target equipped exactly if
   * it created the balancer, or the groups of the targets that each listener ends with hold no
   * node that goes and, unless they hold one that comes, carry its permissions already or get them
   * as groups of a created listener, and do not lose them with a deleted one.
   */
  lemma SuccessGuardsExactly(c: Ctx, r: Run, name: string, ids: set<string>, desire: seq<ElasticLoadBalancer>)
    requires Ready(c, r, name, ids, desire) && UsableIfThere(r.world, name)
    ensures var f := EnsureElb(c, r, name, desire);
            f.status.Ok? ==>
              (Guarded(c.env, f.run.world, name) <==>
                 (name in r.world.elb ==> WillBeGuarded(c.env, r.world, name, ids, desire)))
  {
    EnsureRun(c, r, name, ids, desire);
    if EnsureElb(c, r, name, desire).status.Ok? {
      if name in r.world.elb {
        UpdateGuardsExactly(c, r, name, ids, desire);
      } else {
        CreateGuards(c, r, name, ids, desire);
      }
    }
  }

  // ---------------------------------------------------------------- one lost request

  /** The requests of a creation before the rules of the first listener. */
  function UpToRules(env: Env, name: string, x: Instance): Plan {
    Then(CreateSteps(OnePortFor(name, [x])[0]), On(name, ElbLook))
  }

  lemma OnePortMade(env: Env, w: World, name: string, x: Instance)
    requires EnvOK(env) && Known(env, x) && name !in w.elb
    ensures DesireOK(env, name, {x.instanceID}, OnePortFor(name, [x])) && Keys(OnePortFor(name, [x])) == {HTTP}
    ensures Ideal(env, w, UpToRules(env, name, x)) == Ok(WithB(w, name, OnePort(env, name, x.instanceID)))
  {
    assert Ids([x]) == [x.instanceID];
    OnePortForOK(env, name, [x]);
    FirstPlanIdeal(env, w, name, {x.instanceID}, OnePortFor(name, [x]));
    assert WantOf(OnePortFor(name, [x])[0]) == ElbListener({x.instanceID}, "ICMP");
  }

  /** A creation in which only the listing of the groups is lost leaves the listener, and no rules. */
  lemma LostRules(c: Ctx, r: Run, name: string, x: Instance)
    requires WorldOK(c.env, r.world) && EnvOK(c.env) && r.out.Done? && Known(c.env, x) && name !in r.world.elb
    requires var n := Exec(c, r, UpToRules(c.env, name, x)).clock;
             FaultFree(c, r.clock, n) && c.faults(n) == RequestLost
    ensures var f, r' := EnsureCreated(c, r, name, OnePortFor(name, [x])), Exec(c, r, UpToRules(c.env, name, x));
            && f.status == Err(Fault) && f.run.clock == r'.clock + 1 && f.run.out.Done?
            && f.run.world == WithB(r.world, name, OnePort(c.env, name, x.instanceID))
  {
    var desire, plan := OnePortFor(name, [x]), UpToRules(c.env, name, x);
    OnePortMade(c.env, r.world, name, x);
    ExecFaultFree(c, r, plan);
    var r1 := Exec(c, r, plan);
    ExecDone(c, r, plan);
    var view := ViewOf(c.env, r1.world, name);
    var placed := PlacedAll(desire, FirstVip(view), FirstNics(view));
    var rules := RulePlan(c.env, true, placed[0], placed[0].balancingTargets);
    ExecLost(c, r1, ListGroups, None, rules.next);
    ExecAfterFailure(c, Exec(c, r1, rules), RegisterAll(c.env, placed[1..]));
  }

  lemma OnePortAt(env: Env, name: string, x: Instance)
    requires EnvOK(env) && Known(env, x)
    ensures var b := OnePort(env, name, x.instanceID);
            b.at.Keys == {HTTP} == Keys(OnePortFor(name, [x])) && FirstTargets(b) == {x.instanceID}
    ensures DesireOK(env, name, {x.instanceID}, OnePortFor(name, [x])) && ArmsOK(COMMON_NICS)
  {
    assert Ids([x]) == [x.instanceID];
    OnePortForOK(env, name, [x]);
  }

  lemma OnePortLooksRight(c: Ctx, r: Run, name: string, x: Instance)
    requires WorldOK(c.env, r.world) && EnvOK(c.env) && r.out.Done? && Known(c.env, x)
    requires Lookup(r.world.elb, name) == Some(OnePort(c.env, name, x.instanceID))
    requires FaultFree(c, r.clock, EnsureElb(c, r, name, OnePortFor(name, [x])).run.clock)
    ensures var f := EnsureElb(c, r, name, OnePortFor(name, [x]));
            f.status == Ok(c.env.vipOf(name)) && f.run.world == r.world
  {
    OnePortAt(c.env, name, x);
    RightAtFirstSight(c, r, name, {x.instanceID}, OnePortFor(name, [x]));
  }

  lemma UnguardedLooksRight(c: Ctx, r: Run, name: string, x: Instance, g: string)
    requires WorldOK(c.env, r.world) && EnvOK(c.env) && r.out.Done? && Known(c.env, x)
    requires Lookup(r.world.elb, name) == Some(OnePort(c.env, name, x.instanceID))
    requires g in c.env.members && x.instanceID in c.env.members[g]
    requires !(Need(OnePort(c.env, name, x.instanceID), HTTP) <= r.world.rules[g])
    requires FaultFree(c, r.clock, EnsureElb(c, r, name, OnePortFor(name, [x])).run.clock)
    ensures var f := EnsureElb(c, r, name, OnePortFor(name, [x]));
            f.status == Ok(c.env.vipOf(name)) && f.run.world == r.world && !Guarded(c.env, r.world, name)
  {
    OnePortLooksRight(c, r, name, x);
    LacksRules(c.env, r.world, name, x.instanceID, g);
  }

  lemma LacksRules(env: Env, w: World, name: string, id: string, g: string)
    requires w.rules.Keys == env.members.Keys && g in env.members && id in env.members[g]
    requires Lookup(w.elb, name) == Some(OnePort(env, name, id))
    requires !(Need(OnePort(env, name, id), HTTP) <= w.rules[g])
    ensures !Guarded(env, w, name)
  {
    assert id in env.members[g] * {id};
    assert HTTP in w.elb[name].at && Touched(env, g, w.elb[name].at[HTTP].targets);
  }

  /**
   * One lost request in a creation, the one that lists the groups before the rules are allowed, is
   * never made up for: the creation reports the error, and the run after it success, changing
   * nothing, although a group of the target lacks the permissions of the listener.
   */
  lemma LostRulesAreNeverGiven(env: Env, r: Run, name: string, x: Instance, g: string) returns (n: nat)
    requires WorldOK(env, r.world) && EnvOK(env) && r.out.Done? && Known(env, x) && name !in r.world.elb
    requires g in env.members && x.instanceID in env.members[g]
    requires !(Need(OnePort(env, name, x.instanceID), HTTP) <= r.world.rules[g])
    ensures var c, desire := Ctx(env, LosesOnly(n)), OnePortFor(name, [x]);
            var f := EnsureElb(c, r, name, desire);
            var f' := EnsureElb(c, f.run, name, desire);
            && Ready(c, r, name, {x.instanceID}, desire) && f.status == Err(Fault)
            && f'.status == Ok(env.vipOf(name)) && f'.run.world == f.run.world && !Guarded(env, f'.run.world, name)
  {
    var c0, plan, desire := Ctx(env, (i: nat) => NoFault), UpToRules(env, name, x), OnePortFor(name, [x]);
    var s := Exec(c0, r, On(name, ElbLook)).(out := Done);
    n := Exec(c0, s, plan).clock;
    var c := Ctx(env, LosesOnly(n));
    OnePortMade(env, r.world, name, x);
    ExecContinues(c0, s, plan);
    ExecAgrees(c0, c, r, On(name, ElbLook));
    LookIdeal(c, r, name);
    ExecAgrees(c0, c, s, plan);
    LostRules(c, s, name, x);
    EnsureKeepsWorldOK(c, r, name, desire);
    UnguardedLooksRight(c, EnsureElb(c, r, name, desire).run, name, x, g);
  }
}
