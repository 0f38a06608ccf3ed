/** Operations on elastic balancers of different services end in the same cloud in either order. */
module ElbCommute {
  import opened Base
  import opened Cloud
  import opened Runs
  import opened Rules
  import opened ElbPlan
  import opened ElbIdeal
  import opened ElbUpdate
  import opened ElbRuns
  import opened ElbEnsure
  import opened ElbConverge
  import opened ElbTheorems
  import opened ElbApart
  import ElbFrame

  /** Rules as far as one permission in one group goes. */
  predicate Agree(rules: RuleMap, rules': RuleMap, g: string, p: Permission) {
    g in rules && g in rules' && (p in rules[g] <==> p in rules'[g])
  }

  lemma AdjustPointwise(env: Env, rules: RuleMap, rules': RuleMap, g: string, p: Permission,
                        add: bool, ids: set<string>, ps: set<Permission>)
    requires Agree(rules, rules', g, p)
    ensures Agree(Adjust(env, rules, add, ids, ps), Adjust(env, rules', add, ids, ps), g, p)
  {
  }

  // ---------------------------------------------------------------- operations

  datatype Operation = Ensure(name: string, ids: set<string>, desire: seq<ElasticLoadBalancer>) | Delete(name: string)

  /** Carries out one operation; a deletion answers with the empty string. */
  function Perform(c: Ctx, r: Run, o: Operation): Finished<string> {
    match o
    case Ensure(name, _, desire) => EnsureElb(c, r, name, desire)
    case Delete(name) =>
      var f := DeleteElb(c, r, name);
      Finished(f.run, if f.status.Ok? then Ok("") else Err(f.status.error))
  }

  ghost predicate Startable(c: Ctx, r: Run, o: Operation) {
    && WorldOK(c.env, r.world) && EnvOK(c.env) && r.out.Done? && UsableIfThere(r.world, o.name)
    && (o.Ensure? ==> Ready(c, r, o.name, o.ids, o.desire))
  }

  /** The address and the interfaces of the balancer that an operation is about. */
  function SiteFor(env: Env, w: World, o: Operation): Site {
    if o.Ensure? && o.desire != [] then SiteOf(env, w, o.name, o.desire)
    else if o.name in w.elb then Site(w.elb[o.name].vip, w.elb[o.name].nics)
    else Site("", [])
  }

  /** The state a successful operation ends in. */
  ghost function End(env: Env, w: World, o: Operation): World {
    if o.Ensure? && o.desire != [] then Settled(env, w, o.name, o.ids, o.desire)
    else if o.name in w.elb then AfterDelete(env, w, o.name)
    else w
  }

  function Answer(env: Env, w: World, o: Operation): string {
    if o.Delete? then "" else if o.name in w.elb then w.elb[o.name].vip else env.vipOf(o.name)
  }

  lemma DeleteKeepsWorldOK(c: Ctx, r: Run, name: string)
    requires WorldOK(c.env, r.world)
    ensures WorldOK(c.env, DeleteElb(c, r, name).run.world)
  {
    var r1 := Exec(c, r, On(name, ElbLook));
    ExecKeepsWorldOK(c, r, On(name, ElbLook));
    ExecKeepsWorldOK(c, r1, DeleteAll(c.env, ViewOf(c.env, r1.world, name)));
  }

  lemma DeleteIs(c: Ctx, r: Run, name: string)
    requires Startable(c, r, Delete(name)) && DeleteElb(c, r, name).status.Ok?
    ensures var f := DeleteElb(c, r, name);
            && f.run.out.Done? && WorldOK(c.env, f.run.world) && f.run.world == End(c.env, r.world, Delete(name))
            && Apart(f.run.world, r.world, name, SiteFor(c.env, r.world, Delete(name)))
  {
    DeleteRun(c, r, name);
    DeleteKeepsWorldOK(c, r, name);
    if name in r.world.elb {
      DeletionsStayApart(c, r, name);
    }
  }

  lemma PerformIs(c: Ctx, r: Run, o: Operation)
    requires Startable(c, r, o) && Perform(c, r, o).status.Ok?
    ensures var f := Perform(c, r, o);
            && f.run.out.Done? && WorldOK(c.env, f.run.world) && f.run.world == End(c.env, r.world, o)
            && f.status == Ok(Answer(c.env, r.world, o))
            && Apart(f.run.world, r.world, o.name, SiteFor(c.env, r.world, o))
  {
    match o
    case Ensure(name, ids, desire) =>
      EnsureRun(c, r, name, ids, desire);
      EnsureKeepsWorldOK(c, r, name, desire);
      RunsStayApart(c, r, name, desire);
    case Delete(name) =>
      DeleteIs(c, r, name);
  }

  // ---------------------------------------- what an operation does depends on its balancer only

  lemma NodeRulesPointwise(env: Env, rules: RuleMap, rules': RuleMap, g: string, p: Permission,
                           add: set<string>, del: set<string>, ps: set<Permission>)
    requires Agree(rules, rules', g, p)
    ensures Agree(NodeRules(env, rules, add, del, ps), NodeRules(env, rules', add, del, ps), g, p)
  {
  }

  lemma NodesPointwise(env: Env, w: World, w': World, name: string, ids: set<string>, v: ElbBalancer,
                       read: set<string>, g: string, p: Permission)
    requires Agree(w.rules, w'.rules, g, p)
    ensures Agree(AfterNodes(env, w, name, ids, v, read).rules, AfterNodes(env, w', name, ids, v, read).rules, g, p)
  {
    var m := FirstMisfit(v, read, ids, |v.order|);
    var view := View(env, name, v);
    var h, h' := Halfway(env, w, name, ids, v, read, m), Halfway(env, w', name, ids, v, read, m);
    NodeRulesPointwise(env, w.rules, w'.rules, g, p, ids - read, read - ids, AllPermissions(view[..m]));
    if m < |v.order| {
      AdjustPointwise(env, h.rules, h'.rules, g, p, true, ids - read, Permissions(view[m]));
    }
  }

  lemma UpdatePointwise(env: Env, w: World, w': World, name: string, ids: set<string>,
                        desire: seq<ElasticLoadBalancer>, b: ElbBalancer, g: string, p: Permission)
    requires Agree(w.rules, w'.rules, g, p)
    ensures Agree(AfterUpdate(env, w, name, ids, desire, b).rules,
                  AfterUpdate(env, w', name, ids, desire, b).rules, g, p)
  {
    var w1, w1' := AfterPorts(env, w, name, ids, desire, b), AfterPorts(env, w', name, ids, desire, b);
    var view := View(env, name, b);
    AdjustPointwise(env, w.rules, w'.rules, g, p, true, ids, AllPermissions(ToCreate(desire, view)));
    AdjustPointwise(env, Adjust(env, w.rules, true, ids, AllPermissions(ToCreate(desire, view))),
                    Adjust(env, w'.rules, true, ids, AllPermissions(ToCreate(desire, view))), g, p,
                    false, FirstTargets(b), AllPermissions(ToDelete(desire, view)));
    NodesPointwise(env, w1, w1', name, ids, Ported(env, name, desire, b), ReadThen(env, name, desire, b), g, p);
  }

  /** What a successful operation does to one permission depends on that and on its balancer only. */
  lemma EndPointwise(env: Env, w: World, w': World, o: Operation, g: string, p: Permission)
    requires Lookup(w.elb, o.name) == Lookup(w'.elb, o.name) && Agree(w.rules, w'.rules, g, p)
    ensures Agree(End(env, w, o).rules, End(env, w', o).rules, g, p)
  {
    if o.Ensure? && o.desire != [] {
      if o.name in w.elb {
        UpdatePointwise(env, w, w', o.name, o.ids, PlacedOn(w, o.name, o.desire), w.elb[o.name], g, p);
      } else {
        AdjustPointwise(env, w.rules, w'.rules, g, p, true, o.ids, AllPermissions(Located(env, o.name, o.desire)));
      }
    } else if o.name in w.elb {
      var b := w.elb[o.name];
      AdjustPointwise(env, w.rules, w'.rules, g, p, false, FirstTargets(b), AllPermissions(View(env, o.name, b)));
    }
  }

  /** The balancer that the second phase leaves. */
  ghost function Reconciled(v: ElbBalancer, read: set<string>, ids: set<string>): ElbBalancer {
    var m := FirstMisfit(v, read, ids, |v.order|);
    var now := ShiftTo(v, read, ids, m);
    if m < |v.order| && v.order[m] in now.at && (ids - read) !! now.at[v.order[m]].targets then
      Retarget(now, v.order[m], HalfShifted(now.at[v.order[m]].targets, read, ids))
    else now
  }

  lemma NodesBalancer(env: Env, w: World, name: string, ids: set<string>, v: ElbBalancer, read: set<string>)
    ensures Lookup(AfterNodes(env, w, name, ids, v, read).elb, name) == Some(Reconciled(v, read, ids))
  {
  }

  /** The balancer that an operation leaves depends on the one it finds. */
  lemma EndBalancer(env: Env, w: World, w': World, o: Operation)
    requires Lookup(w.elb, o.name) == Lookup(w'.elb, o.name)
    ensures Lookup(End(env, w, o).elb, o.name) == Lookup(End(env, w', o).elb, o.name)
  {
    if o.Ensure? && o.desire != [] && o.name in w.elb {
      var b, placed := w.elb[o.name], PlacedOn(w, o.name, o.desire);
      var p, read := Ported(env, o.name, placed, b), ReadThen(env, o.name, placed, b);
      NodesBalancer(env, AfterPorts(env, w, o.name, o.ids, placed, b), o.name, o.ids, p, read);
      NodesBalancer(env, AfterPorts(env, w', o.name, o.ids, placed, b), o.name, o.ids, p, read);
    }
  }

  /** Two independent changes, in either order. */
  lemma Diamond(w: World, wa: World, wb: World, wab: World, wba: World, a: string, sa: Site, b: string, sb: Site)
    requires a != b && Addresses(sa.vip, sa.nics) !! Addresses(sb.vip, sb.nics)
    requires Apart(wa, w, a, sa) && Apart(wb, w, b, sb) && Apart(wab, wa, b, sb) && Apart(wba, wb, a, sa)
    requires Lookup(wa.elb, a) == Lookup(wba.elb, a) && Lookup(wb.elb, b) == Lookup(wab.elb, b)
    requires forall g, p :: Agree(w.rules, wb.rules, g, p) ==> Agree(wa.rules, wba.rules, g, p)
    requires forall g, p :: Agree(w.rules, wa.rules, g, p) ==> Agree(wb.rules, wab.rules, g, p)
    ensures wab == wba
  {
    forall n ensures Lookup(wab.elb, n) == Lookup(wba.elb, n) {
    }
    SameMaps(wab.elb, wba.elb);
    forall g | g in w.rules ensures wab.rules[g] == wba.rules[g] {
      forall p ensures p in wab.rules[g] <==> p in wba.rules[g] {
        if FromOnly(p, Addresses(sa.vip, sa.nics)) {
          assert p.ipRanges[0] in Addresses(sa.vip, sa.nics);
          assert !FromOnly(p, Addresses(sb.vip, sb.nics)) by { assert p.ipRanges[0] in p.ipRanges; }
          assert Agree(w.rules, wb.rules, g, p);
        } else {
          assert Agree(w.rules, wa.rules, g, p);
        }
      }
    }
    assert wab.rules == wba.rules;
  }

  lemma SameMaps<V>(m: map<string, V>, m': map<string, V>)
    requires forall n :: Lookup(m, n) == Lookup(m', n)
    ensures m == m'
  {
    forall n ensures (n in m <==> n in m') && (n in m ==> m[n] == m'[n]) {
      assert Lookup(m, n) == Lookup(m', n);
    }
  }

  /** The second of two operations finds of its balancer what the first would have found. */
  lemma SecondOperation(c: Ctx, r: Run, o: Operation, r': Run, other: string, site: Site)
    requires Startable(c, r, o) && other != o.name
    requires WorldOK(c.env, r'.world) && r'.out.Done? && Apart(r'.world, r.world, other, site)
    requires Perform(c, r, o).status.Ok? && Perform(c, r', o).status.Ok?
    ensures var w, w' := Perform(c, r, o).run.world, Perform(c, r', o).run.world;
            && Lookup(w.elb, o.name) == Lookup(w'.elb, o.name)
            && Perform(c, r, o).status == Perform(c, r', o).status
            && (forall g, p :: Agree(r.world.rules, r'.world.rules, g, p) ==> Agree(w.rules, w'.rules, g, p))
            && Apart(w', r'.world, o.name, SiteFor(c.env, r.world, o))
  {
    assert Lookup(r.world.elb, o.name) == Lookup(r'.world.elb, o.name);
    PerformIs(c, r, o);
    PerformIs(c, r', o);
    EndBalancer(c.env, r.world, r'.world, o);
    forall g, p | Agree(r.world.rules, r'.world.rules, g, p)
      ensures Agree(End(c.env, r.world, o).rules, End(c.env, r'.world, o).rules, g, p)
    {
      EndPointwise(c.env, r.world, r'.world, o, g, p);
    }
  }

  /**
   * Operations on two balancers of different names that send from different addresses, whether
   * they ensure or delete, end in the same cloud, listeners and security group rules alike, and
   * give the same answers, whichever comes first.
   */
  lemma OperationsCommute(c: Ctx, r: Run, x: Operation, y: Operation)
    requires x.name != y.name && Startable(c, r, x) && Startable(c, r, y)
    requires var sx, sy := SiteFor(c.env, r.world, x), SiteFor(c.env, r.world, y);
             Addresses(sx.vip, sx.nics) !! Addresses(sy.vip, sy.nics)
    ensures var rx, ry := Perform(c, r, x), Perform(c, r, y);
            var rxy, ryx := Perform(c, rx.run, y), Perform(c, ry.run, x);
            rx.status.Ok? && ry.status.Ok? && rxy.status.Ok? && ryx.status.Ok? ==>
              rxy.run.world == ryx.run.world && rxy.status == ry.status && ryx.status == rx.status
  {
    var rx, ry := Perform(c, r, x), Perform(c, r, y);
    var rxy, ryx := Perform(c, rx.run, y), Perform(c, ry.run, x);
    if rx.status.Ok? && ry.status.Ok? && rxy.status.Ok? && ryx.status.Ok? {
      var sx, sy := SiteFor(c.env, r.world, x), SiteFor(c.env, r.world, y);
      PerformIs(c, r, x);
      PerformIs(c, r, y);
      SecondOperation(c, r, x, ry.run, y.name, sy);
      SecondOperation(c, r, y, rx.run, x.name, sx);
      Diamond(r.world, rx.run.world, ry.run.world, rxy.run.world, ryx.run.world, x.name, sx, y.name, sy);
    }
  }

  // ---------------------------------------------------------------- without faults, success or not

  /** States with the same balancer and groups, and with the same rules wherever `from` and `from'` have the same. */
  ghost function Unnoticed(name: string, from: RuleMap, from': RuleMap): (World, World) -> bool {
    (w: World, w': World) =>
      && Lookup(w.elb, name) == Lookup(w'.elb, name) && w.rules.Keys == w'.rules.Keys
      && from.Keys == from'.Keys == w.rules.Keys
      && forall g, p :: Agree(from, from', g, p) ==> Agree(w.rules, w'.rules, g, p)
  }

  lemma UnnoticedIsFrame(env: Env, name: string, from: RuleMap, from': RuleMap)
    ensures ElbFrame.Frame(env, name, Unnoticed(name, from, from'))
  {
    var rel, ok := Unnoticed(name, from, from'), ElbFrame.OwnActions(name);
    forall a, w, w' | ok(a) && rel(w, w')
      ensures match Settle(env, w, a)
              case Err(e) => Settle(env, w', a) == Err(e)
              case Ok(v) => Settle(env, w', a).Ok? && rel(v, Settle(env, w', a).value)
    {
      ActionUnnoticed(env, name, from, from', w, w', a);
    }
  }

  /** Adding or removing one permission keeps agreement. */
  lemma ChangeAgrees(rules: RuleMap, rules': RuleMap, from: RuleMap, from': RuleMap, group: string, q: Permission,
                     add: bool)
    requires rules.Keys == rules'.Keys && group in rules
    requires forall g, p :: Agree(from, from', g, p) ==> Agree(rules, rules', g, p)
    ensures var v, v' := InGroup(rules, group, add, {q}), InGroup(rules', group, add, {q});
            v.Keys == v'.Keys == rules.Keys && forall g, p :: Agree(from, from', g, p) ==> Agree(v, v', g, p)
  {
    forall g, p | Agree(from, from', g, p)
      ensures Agree(InGroup(rules, group, add, {q}), InGroup(rules', group, add, {q}), g, p)
    {
      assert Agree(rules, rules', g, p);
    }
  }

  /** What becomes of a rule request, whether or not the permission is there. */
  lemma SettledRule(env: Env, w: World, group: string, q: Permission, add: bool)
    requires group in w.rules
    ensures var a := if add then Ask(Authorize(group, q), Some(RuleDuplicate)) else Ask(Revoke(group, q),
                                                                                        Some(RuleNotFound));
            Settle(env, w, a) == Ok(w.(rules := InGroup(w.rules, group, add, {q})))
  {
    ChangeRuleIdeal(env, w, add, group, q);
  }

  lemma ActionUnnoticed(env: Env, name: string, from: RuleMap, from': RuleMap, w: World, w': World, a: Action)
    requires Unnoticed(name, from, from')(w, w') && ElbFrame.OwnActions(name)(a)
    ensures match Settle(env, w, a)
            case Err(e) => Settle(env, w', a) == Err(e)
            case Ok(v) => Settle(env, w', a).Ok? && Unnoticed(name, from, from')(v, Settle(env, w', a).value)
  {
    if a.Ask? && a.call.Authorize? && a.call.group in w.rules {
      SettledRule(env, w, a.call.group, a.call.permission, true);
      SettledRule(env, w', a.call.group, a.call.permission, true);
      ChangeAgrees(w.rules, w'.rules, from, from', a.call.group, a.call.permission, true);
    } else if a.Ask? && a.call.Revoke? && a.call.group in w.rules {
      SettledRule(env, w, a.call.group, a.call.permission, false);
      SettledRule(env, w', a.call.group, a.call.permission, false);
      ChangeAgrees(w.rules, w'.rules, from, from', a.call.group, a.call.permission, false);
    }
  }

  lemma PerformAlike(c: Ctx, r: Run, r': Run, o: Operation)
    requires Startable(c, r, o) && r'.out.Done? && r.world.rules.Keys == r'.world.rules.Keys
    requires Lookup(r.world.elb, o.name) == Lookup(r'.world.elb, o.name)
    requires Quiet(c, r, Perform(c, r, o)) && Quiet(c, r', Perform(c, r', o))
    ensures var w, w' := Perform(c, r, o).run.world, Perform(c, r', o).run.world;
            && Perform(c, r, o).status == Perform(c, r', o).status && Lookup(w.elb, o.name) == Lookup(w'.elb, o.name)
            && forall g, p :: Agree(r.world.rules, r'.world.rules, g, p) ==> Agree(w.rules, w'.rules, g, p)
  {
    var rel := Unnoticed(o.name, r.world.rules, r'.world.rules);
    UnnoticedIsFrame(c.env, o.name, r.world.rules, r'.world.rules);
    match o
    case Ensure(name, _, desire) =>
      ElbFrame.EnsureAlike(c, r, r', name, desire, rel);
    case Delete(name) =>
      ElbFrame.DeleteAlike(c, r, r', name, rel);
  }

  /** Whatever fails, an operation stays apart from everything else. */
  lemma PerformStaysApart(c: Ctx, r: Run, o: Operation)
    requires Startable(c, r, o)
    ensures var f := Perform(c, r, o);
            && f.run.out.Done? && WorldOK(c.env, f.run.world)
            && Apart(f.run.world, r.world, o.name, SiteFor(c.env, r.world, o))
  {
    match o
    case Ensure(name, ids, desire) =>
      EnsureRun(c, r, name, ids, desire);
      EnsureKeepsWorldOK(c, r, name, desire);
      RunsStayApart(c, r, name, desire);
    case Delete(name) =>
      DeleteKeepsWorldOK(c, r, name);
      LookIdeal(c, r, name);
      if name in r.world.elb {
        DeletionsStayApart(c, r, name);
      } else {
        ExecAfterFailure(c, Exec(c, r, On(name, ElbLook)), DeleteAll(c.env, ViewOf(c.env, r.world, name)));
      }
  }

  lemma SameSite(env: Env, w: World, w': World, o: Operation)
    requires Lookup(w.elb, o.name) == Lookup(w'.elb, o.name)
    ensures SiteFor(env, w, o) == SiteFor(env, w', o)
  {
  }

  /** The second of two operations without faults. */
  lemma SecondQuietly(c: Ctx, r: Run, o: Operation, r': Run, other: string, site: Site)
    requires Startable(c, r, o) && other != o.name
    requires WorldOK(c.env, r'.world) && r'.out.Done? && Apart(r'.world, r.world, other, site)
    requires Quiet(c, r, Perform(c, r, o)) && Quiet(c, r', Perform(c, r', o))
    ensures var w, w' := Perform(c, r, o).run.world, Perform(c, r', o).run.world;
            && Lookup(w.elb, o.name) == Lookup(w'.elb, o.name)
            && Perform(c, r, o).status == Perform(c, r', o).status
            && (forall g, p :: Agree(r.world.rules, r'.world.rules, g, p) ==> Agree(w.rules, w'.rules, g, p))
            && Apart(w', r'.world, o.name, SiteFor(c.env, r.world, o))
  {
    assert Lookup(r.world.elb, o.name) == Lookup(r'.world.elb, o.name);
    PerformAlike(c, r, r', o);
    SameSite(c.env, r.world, r'.world, o);
    PerformStaysApart(c, r', o);
  }

  /**
   * Without faults operations on two balancers of different names that send from different
   * addresses end in the same cloud, rules included, and give the same answers whichever comes
   * first, also where a port clash or anything else stops one.
   */
  lemma QuietOperationsCommute(c: Ctx, r: Run, x: Operation, y: Operation)
    requires x.name != y.name && Startable(c, r, x) && Startable(c, r, y)
    requires var sx, sy := SiteFor(c.env, r.world, x), SiteFor(c.env, r.world, y);
             Addresses(sx.vip, sx.nics) !! Addresses(sy.vip, sy.nics)
    ensures var rx, ry := Perform(c, r, x), Perform(c, r, y);
            var rxy, ryx := Perform(c, rx.run, y), Perform(c, ry.run, x);
            Quiet(c, r, rx) && Quiet(c, r, ry) && Quiet(c, rx.run, rxy) && Quiet(c, ry.run, ryx) ==>
              rxy.run.world == ryx.run.world && rxy.status == ry.status && ryx.status == rx.status
  {
    var rx, ry := Perform(c, r, x), Perform(c, r, y);
    var rxy, ryx := Perform(c, rx.run, y), Perform(c, ry.run, x);
    if Quiet(c, r, rx) && Quiet(c, r, ry) && Quiet(c, rx.run, rxy) && Quiet(c, ry.run, ryx) {
      var sx, sy := SiteFor(c.env, r.world, x), SiteFor(c.env, r.world, y);
      PerformStaysApart(c, r, x);
      PerformStaysApart(c, r, y);
      SecondQuietly(c, r, x, ry.run, y.name, sy);
      SecondQuietly(c, r, y, rx.run, x.name, sx);
      Diamond(r.world, rx.run.world, ry.run.world, rxy.run.world, ryx.run.world, x.name, sx, y.name, sy);
    }
  }
}
