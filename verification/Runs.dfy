/** Runs of the controller: plans of requests, cut short by failures and by a fault oracle, with a record of it all. */
module Runs {
  import opened Base
  import opened Cloud

  // A run performs a plan and stops at the first failure. A fault oracle decides, request by request,
  // whether the request reaches the cloud and whether its answer reaches the controller; every request
  // is recorded with the state of the cloud before and after it.

  /** A lost request has no effect; a lost answer hides an effect that took place. */
  datatype FaultKind = NoFault | RequestLost | AnswerLost

  datatype Ctx = Ctx(env: Env, faults: nat -> FaultKind)

  datatype Event = Event(call: Call, before: World, after: World)

  /** Where a run stands: the cloud, the number of requests made, the record, and the outcome so far. */
  datatype Run = Run(world: World, clock: nat, log: seq<Event>, out: Outcome<Error>)

  /** Either a request, whose answer may be one error that the controller ignores, or a local failure. */
  datatype Action = Ask(call: Call, tolerates: Option<Error>) | Stop(error: Error)

  datatype Plan = Skip | Act(action: Action) | Then(first: Plan, next: Plan)

  /** What an action does when no fault interferes. */
  function Settle(env: Env, w: World, a: Action): Result<World, Error> {
    match a
    case Stop(e) => Err(e)
    case Ask(c, t) =>
      var r := Apply(env, w, c);
      if r.Err? && t == Some(r.error) then Ok(w) else r
  }

  function Do(c: Ctx, r: Run, a: Action): Run {
    if r.out.Failed? then r
    else if a.Stop? then r.(out := Failed(a.error))
    else
      var s := Settle(c.env, r.world, a);
      var fault := c.faults(r.clock);
      var after := if s.Ok? && !fault.RequestLost? then s.value else r.world;
      var out := if !fault.NoFault? then Failed(Fault) else if s.Ok? then Done else Failed(s.error);
      Run(after, r.clock + 1, r.log + [Event(a.call, r.world, after)], out)
  }

  function Exec(c: Ctx, r: Run, plan: Plan): Run
    decreases plan
  {
    match plan
    case Skip => r
    case Act(a) => Do(c, r, a)
    case Then(p, q) => Exec(c, Exec(c, r, p), q)
  }

  /** The state a plan reaches when no fault interferes, or the error that stops it. */
  function Ideal(env: Env, w: World, plan: Plan): Result<World, Error>
    decreases plan
  {
    match plan
    case Skip => Ok(w)
    case Act(a) => Settle(env, w, a)
    case Then(p, q) => (match Ideal(env, w, p) case Err(e) => Err(e) case Ok(w') => Ideal(env, w', q))
  }

  /** The last state reached without faults, whether or not the plan runs to its end. */
  function Reach(env: Env, w: World, plan: Plan): World
    decreases plan
  {
    match plan
    case Skip => w
    case Act(a) => (match Settle(env, w, a) case Err(_) => w case Ok(w') => w')
    case Then(p, q) =>
      (match Ideal(env, w, p) case Err(_) => Reach(env, w, p) case Ok(w') => Reach(env, w', q))
  }

  /** Every change along a plan, up to where the cloud refuses a request, is `good`. */
  ghost predicate Steady(env: Env, w: World, plan: Plan, good: (World, World) -> bool)
    decreases plan
  {
    match plan
    case Skip => true
    case Act(a) => (match Settle(env, w, a) case Err(_) => true case Ok(w') => good(w, w'))
    case Then(p, q) =>
      && Steady(env, w, p, good)
      && (match Ideal(env, w, p) case Err(_) => true case Ok(w') => Steady(env, w', q, good))
  }

  /** A relation that says of both ends of a change what it says of a state that does not change. */
  ghost predicate Closed(good: (World, World) -> bool) {
    forall w, w' :: good(w, w') ==> good(w, w) && good(w', w')
  }

  /** A plan followed by another, both steady. */
  lemma SteadyThen(env: Env, w: World, p: Plan, w1: World, q: Plan, good: (World, World) -> bool)
    requires Steady(env, w, p, good) && Ideal(env, w, p) == Ok(w1) && Steady(env, w1, q, good)
    ensures Steady(env, w, Then(p, q), good) && Ideal(env, w, Then(p, q)) == Ideal(env, w1, q)
  {
  }

  ghost predicate FaultFree(c: Ctx, from: nat, to: nat) {
    forall n: nat :: from <= n < to ==> c.faults(n) == NoFault
  }

  /** The record starts in `w`, ends in `w'` and leaves no gap. */
  ghost predicate Chained(w: World, log: seq<Event>, w': World) {
    if log == [] then w == w'
    else Chained(w, log[..|log| - 1], log[|log| - 1].before) && log[|log| - 1].after == w'
  }

  ghost predicate AllGood(log: seq<Event>, good: (World, World) -> bool) {
    forall i :: 0 <= i < |log| ==> good(log[i].before, log[i].after)
  }

  /** The requests a run made after `r`. */
  function NewEvents(r: Run, r': Run): seq<Event> {
    if |r.log| <= |r'.log| then r'.log[|r.log|..] else []
  }

  /** `r'` continues `r`: its record only grew, and connects the two states. */
  ghost predicate Continues(r: Run, r': Run) {
    && r.clock <= r'.clock
    && |r.log| <= |r'.log|
    && r'.log[..|r.log|] == r.log
    && Chained(r.world, r'.log[|r.log|..], r'.world)
  }

  /** The end of an operation: the run, ready for the next operation, and what the caller gets. */
  datatype Finished<T> = Finished(run: Run, status: Result<T, Error>)

  function Finish<T>(r: Run, value: T): Finished<T> {
    Finished(r.(out := Done), if r.out.Done? then Ok(value) else Err(r.out.error))
  }

  function OutcomeOf<T>(r: Result<T, Error>): Outcome<Error> {
    if r.Ok? then Done else Failed(r.error)
  }

  // ---------------------------------------------------------------- records

  lemma {:induction false} ChainAppend(w: World, p: seq<Event>, w1: World, q: seq<Event>, w2: World)
    requires Chained(w, p, w1) && Chained(w1, q, w2)
    ensures Chained(w, p + q, w2)
  {
    if q == [] {
      assert p + q == p;
    } else {
      assert (p + q)[..|p + q| - 1] == p + q[..|q| - 1];
      ChainAppend(w, p, w1, q[..|q| - 1], q[|q| - 1].before);
    }
  }

  lemma ContinuesTransitive(r0: Run, r1: Run, r2: Run)
    requires Continues(r0, r1) && Continues(r1, r2)
    ensures Continues(r0, r2)
    ensures NewEvents(r0, r2) == NewEvents(r0, r1) + NewEvents(r1, r2)
  {
    assert r2.log[..|r0.log|] == r2.log[..|r1.log|][..|r0.log|];
    assert r2.log[|r0.log|..] == r1.log[|r0.log|..] + r2.log[|r1.log|..];
    ChainAppend(r0.world, r1.log[|r0.log|..], r1.world, r2.log[|r1.log|..], r2.world);
  }

  lemma ContinuesDo(c: Ctx, r: Run, a: Action)
    ensures Continues(r, Do(c, r, a))
  {
  }

  lemma {:induction false} ExecContinues(c: Ctx, r: Run, plan: Plan)
    ensures Continues(r, Exec(c, r, plan))
    decreases plan
  {
    match plan
    case Skip =>
      assert r.log[|r.log|..] == [];
    case Act(a) =>
      ContinuesDo(c, r, a);
    case Then(p, q) =>
      ExecContinues(c, r, p);
      ExecContinues(c, Exec(c, r, p), q);
      ContinuesTransitive(r, Exec(c, r, p), Exec(c, r, plan));
  }

  // ---------------------------------------------------------------- runs against plans

  lemma {:induction false} ExecAfterFailure(c: Ctx, r: Run, plan: Plan)
    requires r.out.Failed?
    ensures Exec(c, r, plan) == r
    decreases plan
  {
    match plan
    case Skip =>
    case Act(_) =>
    case Then(p, q) =>
      ExecAfterFailure(c, r, p);
      ExecAfterFailure(c, r, q);
  }

  /** A run that reports success has done everything the plan says. */
  lemma {:induction false} ExecDone(c: Ctx, r: Run, plan: Plan)
    requires Exec(c, r, plan).out.Done?
    ensures r.out.Done?
    ensures Ideal(c.env, r.world, plan) == Ok(Exec(c, r, plan).world)
    decreases plan
  {
    match plan
    case Skip =>
    case Act(_) =>
    case Then(p, q) =>
      ExecDone(c, Exec(c, r, p), q);
      ExecDone(c, r, p);
  }

  /** A run that reports success lost nothing: any fault makes it fail. */
  lemma {:induction false} ExecHeeds(c: Ctx, r: Run, plan: Plan)
    requires Exec(c, r, plan).out.Done?
    ensures r.out.Done? && r.clock <= Exec(c, r, plan).clock && FaultFree(c, r.clock, Exec(c, r, plan).clock)
    decreases plan
  {
    match plan
    case Skip =>
    case Act(_) =>
    case Then(p, q) =>
      ExecHeeds(c, Exec(c, r, p), q);
      ExecHeeds(c, r, p);
  }

  lemma {:induction false} ReachIdeal(env: Env, w: World, plan: Plan)
    ensures Ideal(env, w, plan).Ok? ==> Reach(env, w, plan) == Ideal(env, w, plan).value
    decreases plan
  {
    match plan
    case Skip =>
    case Act(_) =>
    case Then(p, q) =>
      if Ideal(env, w, p).Ok? {
        ReachIdeal(env, Ideal(env, w, p).value, q);
      }
  }

  /** Without faults a run does exactly what the plan says, and fails only where the cloud refuses. */
  lemma {:induction false} ExecFaultFree(c: Ctx, r: Run, plan: Plan)
    requires r.out.Done? && FaultFree(c, r.clock, Exec(c, r, plan).clock)
    ensures Exec(c, r, plan).out == OutcomeOf(Ideal(c.env, r.world, plan))
    ensures Exec(c, r, plan).world == Reach(c.env, r.world, plan)
    decreases plan
  {
    match plan
    case Skip =>
    case Act(_) =>
    case Then(p, q) =>
      var r1 := Exec(c, r, p);
      ExecContinues(c, r, p);
      ExecContinues(c, r1, q);
      ExecFaultFree(c, r, p);
      if r1.out.Done? {
        ExecDone(c, r, p);
        ExecFaultFree(c, r1, q);
      } else {
        ExecAfterFailure(c, r1, q);
      }
  }

  /** Whatever the faults, every recorded change of a run is one of the changes of its plan. */
  lemma {:induction false} ExecSteady(c: Ctx, r: Run, plan: Plan, good: (World, World) -> bool)
    requires r.out.Done? && Steady(c.env, r.world, plan, good)
    requires Closed(good) && good(r.world, r.world)
    ensures AllGood(NewEvents(r, Exec(c, r, plan)), good)
    ensures good(Exec(c, r, plan).world, Exec(c, r, plan).world)
    decreases plan
  {
    match plan
    case Skip =>
    case Act(a) =>
    case Then(p, q) =>
      var r1 := Exec(c, r, p);
      ExecSteady(c, r, p, good);
      if r1.out.Done? {
        ExecDone(c, r, p);
        ExecSteady(c, r1, q, good);
        ExecContinues(c, r, p);
        ExecContinues(c, r1, q);
        ContinuesTransitive(r, r1, Exec(c, r1, q));
      } else {
        ExecAfterFailure(c, r1, q);
      }
  }

  lemma {:induction false} ExecKeepsWorldOK(c: Ctx, r: Run, plan: Plan)
    requires WorldOK(c.env, r.world)
    ensures WorldOK(c.env, Exec(c, r, plan).world)
    decreases plan
  {
    match plan
    case Skip =>
    case Act(a) =>
      if a.Ask? {
        ApplyKeepsWorldOK(c.env, r.world, a.call);
      }
    case Then(p, q) =>
      ExecKeepsWorldOK(c, r, p);
      ExecKeepsWorldOK(c, Exec(c, r, p), q);
  }

  lemma {:induction false} IdealKeepsWorldOK(env: Env, w: World, plan: Plan)
    requires WorldOK(env, w) && Ideal(env, w, plan).Ok?
    ensures WorldOK(env, Ideal(env, w, plan).value)
    decreases plan
  {
    match plan
    case Skip =>
    case Act(a) =>
      if a.Ask? {
        ApplyKeepsWorldOK(env, w, a.call);
      }
    case Then(p, q) =>
      IdealKeepsWorldOK(env, w, p);
      IdealKeepsWorldOK(env, Ideal(env, w, p).value, q);
  }

  /** Every request of a record was accepted and did what the cloud does with it. */
  ghost predicate AllAccepted(env: Env, log: seq<Event>) {
    forall i :: 0 <= i < |log| ==> Apply(env, log[i].before, log[i].call) == Ok(log[i].after)
  }

  /** A plan that ignores no error. */
  predicate Strict(plan: Plan) {
    match plan
    case Skip => true
    case Act(a) => a.Ask? ==> a.tolerates == None
    case Then(p, q) => Strict(p) && Strict(q)
  }

  /** A successful run of a strict plan made no request that the cloud refuses. */
  lemma {:induction false} ExecAccepted(c: Ctx, r: Run, plan: Plan)
    requires Strict(plan) && Exec(c, r, plan).out.Done?
    ensures AllAccepted(c.env, NewEvents(r, Exec(c, r, plan)))
    decreases plan
  {
    match plan
    case Skip =>
    case Act(a) =>
    case Then(p, q) =>
      var r1 := Exec(c, r, p);
      ExecDone(c, r1, q);
      ExecAccepted(c, r, p);
      ExecAccepted(c, r1, q);
      ExecContinues(c, r, p);
      ExecContinues(c, r1, q);
      ContinuesTransitive(r, r1, Exec(c, r1, q));
  }

  /** A plan that makes no request. */
  predicate Idle(plan: Plan) {
    match plan
    case Skip => true
    case Act(_) => false
    case Then(p, q) => Idle(p) && Idle(q)
  }

  lemma {:induction false} IdleDoesNothing(c: Ctx, r: Run, plan: Plan)
    requires Idle(plan)
    ensures Exec(c, r, plan) == r
    decreases plan
  {
    match plan
    case Skip =>
    case Then(p, q) =>
      IdleDoesNothing(c, r, p);
      IdleDoesNothing(c, r, q);
  }

  /** Every request a plan may make satisfies `ok`. */
  ghost predicate AllCalls(plan: Plan, ok: Call -> bool) {
    match plan
    case Skip => true
    case Act(a) => a.Ask? ==> ok(a.call)
    case Then(p, q) => AllCalls(p, ok) && AllCalls(q, ok)
  }

  ghost predicate Preserved(env: Env, ok: Call -> bool, inv: World -> bool) {
    forall w, call :: ok(call) && inv(w) && Apply(env, w, call).Ok? ==> inv(Apply(env, w, call).value)
  }

  ghost predicate AllStates(log: seq<Event>, inv: World -> bool) {
    forall i :: 0 <= i < |log| ==> inv(log[i].before) && inv(log[i].after)
  }

  /** What no request of a plan can break holds in every state of every run of it, failing runs included. */
  lemma {:induction false} ExecInvariant(c: Ctx, r: Run, plan: Plan, ok: Call -> bool, inv: World -> bool)
    requires AllCalls(plan, ok) && Preserved(c.env, ok, inv) && inv(r.world)
    ensures inv(Exec(c, r, plan).world) && AllStates(NewEvents(r, Exec(c, r, plan)), inv)
    decreases plan
  {
    match plan
    case Skip =>
    case Act(a) =>
    case Then(p, q) =>
      var r1 := Exec(c, r, p);
      ExecInvariant(c, r, p, ok, inv);
      ExecInvariant(c, r1, q, ok, inv);
      ExecContinues(c, r, p);
      ExecContinues(c, r1, q);
      ContinuesTransitive(r, r1, Exec(c, r1, q));
  }

  /** Only the requests a run makes decide what it does: oracles that agree on them give the same run. */
  lemma {:induction false} ExecAgrees(c: Ctx, c': Ctx, r: Run, plan: Plan)
    requires c.env == c'.env
    requires forall n: nat :: r.clock <= n < Exec(c, r, plan).clock ==> c.faults(n) == c'.faults(n)
    ensures Exec(c', r, plan) == Exec(c, r, plan)
    decreases plan
  {
    match plan
    case Skip =>
    case Act(_) =>
    case Then(p, q) =>
      ExecContinues(c, r, p);
      ExecContinues(c, Exec(c, r, p), q);
      ExecAgrees(c, c', r, p);
      ExecAgrees(c, c', Exec(c, r, p), q);
  }

  /** A request that is lost ends the run and changes nothing. */
  lemma ExecLost(c: Ctx, r: Run, call: Call, tolerates: Option<Error>, plan: Plan)
    requires r.out.Done? && c.faults(r.clock) == RequestLost
    ensures var r' := Exec(c, r, Then(Act(Ask(call, tolerates)), plan));
            r'.world == r.world && r'.clock == r.clock + 1 && r'.out == Failed(Fault)
  {
    ExecAfterFailure(c, Exec(c, r, Act(Ask(call, tolerates))), plan);
  }

  /** Everything works but one request, which is lost. */
  function LosesOnly(n: nat): nat -> FaultKind {
    (i: nat) => if i == n then RequestLost else NoFault
  }

  /** A run without faults, seen from its first request to any that comes later. */
  lemma FaultFreeExec(c: Ctx, r: Run, end: nat, plan: Plan)
    requires FaultFree(c, r.clock, end) && Exec(c, r, plan).clock <= end
    ensures FaultFree(c, Exec(c, r, plan).clock, end)
    ensures r.out.Failed? ==> Exec(c, r, plan).out == r.out && Exec(c, r, plan).world == r.world
    ensures r.out.Done? ==> && Exec(c, r, plan).out == OutcomeOf(Ideal(c.env, r.world, plan))
                            && Exec(c, r, plan).world == Reach(c.env, r.world, plan)
  {
    ExecContinues(c, r, plan);
    if r.out.Done? {
      ExecFaultFree(c, r, plan);
    } else {
      ExecAfterFailure(c, r, plan);
    }
  }

  /** Two runs that stand at the same state of the cloud with the same outcome so far. */
  predicate SamePlace(r: Run, r': Run) {
    r.world == r'.world && r.out == r'.out
  }

  /** The same plan leads from the same place to the same place, if no fault interferes before the ends. */
  lemma SameExec(c: Ctx, r: Run, end: nat, r': Run, end': nat, plan: Plan)
    requires SamePlace(r, r') && FaultFree(c, r.clock, end) && FaultFree(c, r'.clock, end')
    requires Exec(c, r, plan).clock <= end && Exec(c, r', plan).clock <= end'
    ensures SamePlace(Exec(c, r, plan), Exec(c, r', plan))
    ensures FaultFree(c, Exec(c, r, plan).clock, end) && FaultFree(c, Exec(c, r', plan).clock, end')
  {
    FaultFreeExec(c, r, end, plan);
    FaultFreeExec(c, r', end', plan);
  }

  // ---------------------------------------------------------------- runs that cannot be told apart

  ghost predicate AllActions(plan: Plan, ok: Action -> bool) {
    match plan
    case Skip => true
    case Act(a) => ok(a)
    case Then(p, q) => AllActions(p, ok) && AllActions(q, ok)
  }

  /** Actions that cannot tell related states apart: they fail alike, or lead to related states. */
  ghost predicate Simulates(env: Env, ok: Action -> bool, rel: (World, World) -> bool) {
    forall a, w, w' :: ok(a) && rel(w, w') ==>
      match Settle(env, w, a)
      case Err(e) => Settle(env, w', a) == Err(e)
      case Ok(v) => Settle(env, w', a).Ok? && rel(v, Settle(env, w', a).value)
  }

  lemma {:induction false} IdealSimulates(env: Env, w: World, w': World, plan: Plan, ok: Action -> bool,
                                          rel: (World, World) -> bool)
    requires AllActions(plan, ok) && Simulates(env, ok, rel) && rel(w, w')
    ensures match Ideal(env, w, plan)
            case Err(e) => Ideal(env, w', plan) == Err(e)
            case Ok(v) => Ideal(env, w', plan).Ok? && rel(v, Ideal(env, w', plan).value)
    ensures rel(Reach(env, w, plan), Reach(env, w', plan))
    decreases plan
  {
    match plan
    case Skip =>
    case Act(_) =>
    case Then(p, q) =>
      IdealSimulates(env, w, w', p, ok, rel);
      if Ideal(env, w, p).Ok? {
        IdealSimulates(env, Ideal(env, w, p).value, Ideal(env, w', p).value, q, ok, rel);
      }
  }

  /** Two runs at related states of the cloud with the same outcome so far. */
  ghost predicate Alike(r: Run, r': Run, rel: (World, World) -> bool) {
    r.out == r'.out && rel(r.world, r'.world)
  }

  /** The same plan keeps runs alike, if no fault interferes before the ends. */
  lemma ExecSimulates(c: Ctx, r: Run, end: nat, r': Run, end': nat, plan: Plan, ok: Action -> bool,
                      rel: (World, World) -> bool)
    requires Alike(r, r', rel) && FaultFree(c, r.clock, end) && FaultFree(c, r'.clock, end')
    requires AllActions(plan, ok) && Simulates(c.env, ok, rel)
    requires Exec(c, r, plan).clock <= end && Exec(c, r', plan).clock <= end'
    ensures Alike(Exec(c, r, plan), Exec(c, r', plan), rel)
    ensures FaultFree(c, Exec(c, r, plan).clock, end) && FaultFree(c, Exec(c, r', plan).clock, end')
  {
    FaultFreeExec(c, r, end, plan);
    FaultFreeExec(c, r', end', plan);
    if r.out.Done? {
      IdealSimulates(c.env, r.world, r'.world, plan, ok, rel);
    }
  }

  /** Two operations that ended alike and gave the same answer. */
  ghost predicate AlikeEnd<T>(f: Finished<T>, f': Finished<T>, rel: (World, World) -> bool) {
    rel(f.run.world, f'.run.world) && f.status == f'.status
  }

  /** No fault interfered with an operation. */
  ghost predicate Quiet<T>(c: Ctx, r: Run, f: Finished<T>) {
    FaultFree(c, r.clock, f.run.clock)
  }
}
