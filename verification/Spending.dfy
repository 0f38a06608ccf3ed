/** Counting the requests that change the cloud, and paying for them from a budget. */
module Spending {
  import opened Base
  import opened Cloud
  import opened Runs

  /** How many requests of a record changed the cloud. */
  function Effective(log: seq<Event>): nat {
    if log == [] then 0
    else Effective(log[..|log| - 1]) + if log[|log| - 1].before != log[|log| - 1].after then 1 else 0
  }

  lemma {:induction false} EffectiveAppend(p: seq<Event>, q: seq<Event>)
    ensures Effective(p + q) == Effective(p) + Effective(q)
  {
    if q == [] {
      assert p + q == p;
    } else {
      assert (p + q)[..|p + q| - 1] == p + q[..|q| - 1];
      EffectiveAppend(p, q[..|q| - 1]);
    }
  }

  /** How many requests a run made after `r` that changed the cloud. */
  function Spent(r: Run, r': Run): nat {
    Effective(NewEvents(r, r'))
  }

  lemma SpentTwice(r0: Run, r1: Run, r2: Run)
    requires Continues(r0, r1) && Continues(r1, r2)
    ensures Continues(r0, r2) && Spent(r0, r2) == Spent(r0, r1) + Spent(r1, r2)
  {
    ContinuesTransitive(r0, r1, r2);
    EffectiveAppend(NewEvents(r0, r1), NewEvents(r1, r2));
  }

  lemma NothingSpent(r: Run)
    ensures Continues(r, r) && Spent(r, r) == 0
  {
    assert r.log[|r.log|..] == [];
  }

  // ---------------------------------------------------------------- what a plan can cost

  /** How many requests a plan may make that change something. */
  function Weight(plan: Plan): nat {
    match plan
    case Skip => 0
    case Act(a) => if a.Ask? && IsChange(a.call) then 1 else 0
    case Then(p, q) => Weight(p) + Weight(q)
  }

  lemma OneSpent(c: Ctx, r: Run, a: Action)
    ensures Continues(r, Do(c, r, a)) && Spent(r, Do(c, r, a)) <= Weight(Act(a))
    ensures Do(c, r, a).world == r.world ==> Spent(r, Do(c, r, a)) == 0
  {
    var r' := Do(c, r, a);
    ContinuesDo(c, r, a);
    if r.out.Done? && a.Ask? {
      var e := Event(a.call, r.world, r'.world);
      assert NewEvents(r, r') == [e] && [e][..|[e]| - 1] == [];
      assert Effective([e]) == if e.before != e.after then 1 else 0;
      UnlessChange(c.env, r.world, a.call);
    } else {
      NothingSpent(r);
    }
  }

  lemma UnlessChange(env: Env, w: World, call: Call)
    ensures !IsChange(call) && Apply(env, w, call).Ok? ==> Apply(env, w, call) == Ok(w)
  {
    match call
    case L4(name, _) =>
      assert Put(w.l4, name, Lookup(w.l4, name)) == w.l4;
    case Elb(name, _) =>
      assert Put(w.elb, name, Lookup(w.elb, name)) == w.elb;
    case _ =>
  }

  /** A run spends at most the weight of its plan. */
  lemma {:induction false} ExecSpends(c: Ctx, r: Run, plan: Plan)
    ensures Continues(r, Exec(c, r, plan)) && Spent(r, Exec(c, r, plan)) <= Weight(plan)
    decreases plan
  {
    match plan
    case Skip =>
      NothingSpent(r);
    case Act(a) =>
      OneSpent(c, r, a);
    case Then(p, q) =>
      ExecSpends(c, r, p);
      ExecSpends(c, Exec(c, r, p), q);
      SpentTwice(r, Exec(c, r, p), Exec(c, r, plan));
  }

  // ---------------------------------------------------------------- paying

  /** A run whose requests that change the cloud are paid for by what the price of the state falls. */
  ghost predicate Paid(r: Run, r': Run, price: World -> int) {
    Continues(r, r') && Spent(r, r') + price(r'.world) <= price(r.world)
  }

  lemma PaidTwice(r0: Run, r1: Run, r2: Run, price: World -> int)
    requires Paid(r0, r1, price) && Paid(r1, r2, price)
    ensures Paid(r0, r2, price)
  {
    SpentTwice(r0, r1, r2);
  }

  lemma PaidNothing(r: Run, price: World -> int)
    ensures Paid(r, r, price)
  {
    NothingSpent(r);
  }

  /** A request that pays for itself and all that follows it, if the cloud accepts it. */
  ghost predicate PaysFor(env: Env, w: World, call: Call, price: World -> int, cost: nat) {
    match Apply(env, w, call)
    case Err(_) => true
    case Ok(w') => price(w') + 1 + cost <= price(w)
  }

  /** What a plan may ask leaves the price as it is. */
  ghost predicate SamePrice(env: Env, ok: Call -> bool, price: World -> int) {
    forall w, call :: ok(call) && Apply(env, w, call).Ok? ==> price(Apply(env, w, call).value) == price(w)
  }

  lemma {:induction false} ExecSamePrice(c: Ctx, r: Run, plan: Plan, ok: Call -> bool, price: World -> int)
    requires AllCalls(plan, ok) && SamePrice(c.env, ok, price)
    ensures price(Exec(c, r, plan).world) == price(r.world)
    decreases plan
  {
    match plan
    case Skip =>
    case Act(_) =>
    case Then(p, q) =>
      ExecSamePrice(c, r, p, ok, price);
      ExecSamePrice(c, Exec(c, r, p), q, ok, price);
  }

  /** A request of which that is so, and what follows it. */
  lemma PaidBlock(c: Ctx, r: Run, call: Call, rest: Plan, ok: Call -> bool, price: World -> int)
    requires PaysFor(c.env, r.world, call, price, Weight(rest))
    requires AllCalls(rest, ok) && SamePrice(c.env, ok, price)
    ensures Paid(r, Exec(c, r, Then(Act(Ask(call, None)), rest)), price)
  {
    var r1 := Do(c, r, Ask(call, None));
    OneSpent(c, r, Ask(call, None));
    if r1.out.Failed? {
      ExecAfterFailure(c, r1, rest);
    } else {
      ExecSpends(c, r1, rest);
      ExecSamePrice(c, r1, rest, ok, price);
      SpentTwice(r, r1, Exec(c, r1, rest));
    }
  }
}
