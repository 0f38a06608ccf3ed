# Load balancer reconciler of the NIFCLOUD cloud controller manager

A Dafny model of the part of the controller that brings NIFCLOUD load balancers to the form that
Kubernetes services ask for, and proofs of what it keeps and where it ends.

The controller reads the listeners that the cloud has, compares them with the listeners built from a
service, and sends requests until they agree: it registers and deletes ports, registers and
deregisters instances, sets filters, authorizes and revokes security group rules. Every request may
fail, before or after it took effect, and the service controller then simply starts the operation
again. There are two kinds of balancer. An L4 balancer has filters; an elastic balancer has network
interfaces and needs rules in the security groups of its targets.

## How the model is built

- **The cloud** (`Cloud.dfy`) is a value: L4 balancers, elastic balancers and the permissions of each
  security group, with a function that says which requests are refused and what accepted ones
  change. A second listener on a port is refused, an instance is registered once, a filter address
  is added once, a balancer goes with its last listener, a fresh listener has no targets and no
  filters. What requests never change (instances, group members, the address a name gets, the order in
  which a collection is listed, and where among the others a new listener is listed) is a separate
  environment.
- **Runs** (`Runs.dfy`) perform a plan of requests and stop at the first failure. A fault oracle may
  lose any request before the cloud sees it, or its answer afterwards. Each request is recorded with
  the cloud before and after it, so that results can speak of every intermediate state.
- **The controller** is imperative, as it is in Go: `Client.dfy` is the API client, a class over the
  state of the cloud with the composite create and register sequences, `L4Controller.dfy` and
  `ElbController.dfy` hold the reconcilers with their loops and early returns, `Builders.dfy` fills
  the desired listeners in place, `Annotations.dfy` validates, `Provider.dfy` is what the service
  controller calls. Each method is proved to make exactly the requests of a plan
  (`L4Plan.dfy`, `ElbPlan.dfy`, `Services.dfy`), faults included.
- **The results** are lemmas about those plans and runs: `L4Theorems.dfy`, `ElbTheorems.dfy`,
  `ElbFlattened.dfy`, `ElbUndisturbed.dfy`, `ElbRetries.dfy`, `ElbBounded.dfy`, `ElbGuard.dfy`,
  `ElbGuarded.dfy`, `ElbAdmitted.dfy`, `ElbGaps.dfy`, `ElbSafety.dfy`, `ElbApart.dfy`, `ElbCommute.dfy`,
  `ElbUndo.dfy`, `ElbLeaks.dfy`, `Pace.dfy`, `Soundness.dfy`, `Validity.dfy`, `Built.dfy`,
  `Services.dfy`, `Outcomes.dfy` and `Updates.dfy`; `Witness.dfy` meets their
  hypotheses with a small cloud, and the other files carry the steps towards them. `Rules.dfy`,
  `HealthTarget.dfy`, `Differences.dfy`, `Strings.dfy` and `ProviderId.dfy` are the pure parts.

Check the whole project with `dafny verify dfyconfig.toml`.

## Where the code does less than it seems to

- Registration comes before deletion, and the cloud refuses a second listener on a port. A service
  that changes the node port of a port therefore fails; without faults, success is guaranteed exactly
  if there is no such clash. That success implies convergence needs no such condition.
- The client gives every elastic listener the instances of the first one. The view is right exactly
  while all listeners have the same targets. A run that stops half way can break this (one lost
  request is enough), and a later run then reports success although other listeners are wrong. So
  the controller's promise that success means convergence is false for elastic balancers; the exact
  conditions under which it is true, from any balancer, are among the results. Even from a uniform
  balancer, adding a port beside kept ones while the nodes change is answered with an error if a
  kept listener is listed first, and wrongly with success if a created one is. Two runs without
  faults and without a port clash always end in reported success.
- Deleting an elastic balancer revokes its permissions in the groups of listener 0's targets only. One
  lost request while the nodes change is enough for a deletion that leaves permissions behind.
- A deletion that stops after its last listener is gone and before its permissions are revoked is
  reported as a success when it is tried again, and the permissions stay for good.
- Rules are allowed only after a registration in the same run. If the run stops between the two, the
  next one finds nothing to register, reports success, and the groups never get the rules.
- The health check of an L4 port is asked for when the port is made, and never again. If that one
  request is lost, the next run finishes the port and reports success without it.
- A service without nodes gets a balancer that serves every instance of the account, because the
  request for its instances then names none.
- Revoking the rules of a removed node takes them from every group that holds it, also if the group
  holds a node that stays; and a removed listener may need the same permissions as a remaining one.
  The exact conditions under which groups stay equipped are among the results.
- Filters are compared as sets: the conversion to a sortable slice does not sort.
- The log says that a port without a node port is ignored; it is not, it becomes a listener from
  port 0 to port 0.
- Requests for a rule with several ranges would name the last one several times, because the loop
  variable is shared (the module asks for Go 1.20). All generated rules have one range.
- The pattern match of a health check target that has no valid form would end in a hard stop; the
  model makes it a failure of the run. Built targets always match.

## What is taken for granted

- Kubernetes delivers services with distinct ports, and node ports for all of them (`PortsOK`).
- Instance ID and unique ID determine each other (`ConsistentInventory`); without this the
  comparison of instances need not be transitive (the exact condition is among the results).
- The cloud lists the listeners of a balancer in an order that changes only when one is added, then
  in any way, or removed, which keeps the order of the rest. Only `ElbFlattened` and `ElbUndo` ask
  for more, where they say so.
- Elastic balancers have one or two interfaces and health checks that can be read (`Usable`), as the
  controller makes them; the results about repeated runs ask the same of the health check that the
  cloud gives new listeners.
- A lost request or answer does not show up as one of the few error codes that the controller
  interprets.
- Nobody else changes the cloud during an operation, and a service does not switch between the two
  kinds of balancer.
- The URL parser splits URLs of unreserved characters, and of colons in the path, as section 3 of
  RFC 3986 says (`SplitsSafeURLs`); what it does with other characters is left open.

## Model

| member | source | states |
|---|---|---|
| L4Theorems.SuccessMeansConverged | pkg/cloudprovider/providers/nifcloud/nifcloud_l4_load_balancer.go:41-155 | Whenever the L4 reconciler reports success, from any starting state and under any faults, the balancer has exactly the desired listener keys, each with exactly the desired targets and the desired filters without the wildcard; the VIP returned is the one the cloud holds, is the old one if there was a balancer, and nothing else changed; every port the run made has the desired health check (target, interval, threshold), kept ports have theirs |
| L4Theorems.NothingIsDisturbed | pkg/cloudprovider/providers/nifcloud/nifcloud_l4_load_balancer.go:73-128 | In the state before and after every single request of a run on a balancer that exists, failing runs included: kept listeners are there and nothing else than old and desired ones is, none is deleted before all are registered, the last listener never goes, the VIP is constant, and the targets of a kept listener are the old set, the union or the new set, its filters the old set or, only once its targets are the new ones, the new set; and no other balancer and no rule differs from what they were; the health checks of kept ports stay |
| L4Theorems.HealthCheckComesFirst | pkg/cloudprovider/providers/nifcloud/nifcloud_client.go:314-394 | In the state before and after every request of a run, creations and failing runs included, a port that the run made serves no instance before it has the desired health check |
| L4Theorems.SuccessChecksExactly | pkg/cloudprovider/providers/nifcloud/nifcloud_l4_load_balancer.go:41-155 | A run that reports success leaves every desired port with a health check if and only if every desired port that was there had one |
| L4Theorems.LostCheckIsNeverNoticed | pkg/cloudprovider/providers/nifcloud/nifcloud_client.go:317-326 | One lost request in a creation, the health check: the next run finishes the listener, reports success, and the port never gets its health check, since none is asked for once the port is there |
| Pace.L4RunsArePaced | pkg/cloudprovider/providers/nifcloud/nifcloud_client.go:314-394 | In every run, failing runs included, the requests after the making of a listener are its health check, its instances and its filter, in this order, with nothing between them and as far as the run gets |
| L4Theorems.OthersUntouched | pkg/cloudprovider/providers/nifcloud/nifcloud_l4_load_balancer.go:41-155 | Whatever fails, a run changes only the balancer it is about |
| L4Theorems.SucceedsExactlyWithoutClash | pkg/cloudprovider/providers/nifcloud/nifcloud_l4_load_balancer.go:71-97 | The run succeeds if and only if no request and no answer is lost, something is desired and no desired listener needs an LB port that is in use for another node port; in particular no failure is swallowed |
| L4Theorems.EveryRequestIsAccepted | pkg/cloudprovider/providers/nifcloud/nifcloud_l4_load_balancer.go:73-152 | A successful run on an existing balancer makes no request that the cloud refuses: it registers only unregistered instances, deregisters only registered ones, adds only absent and removes only present filter addresses, deletes only existing ports |
| L4Theorems.ConvergedIsLeftAlone | pkg/cloudprovider/providers/nifcloud/nifcloud_l4_load_balancer.go:71-154 | On a converged balancer a run makes one request, the look, leaves the cloud as it is and, without faults, returns the same VIP |
| L4Theorems.RetriesChangeBoundedly | pkg/cloudprovider/providers/nifcloud/nifcloud_l4_load_balancer.go:41-155 | Over any number of repeated runs under any faults, the requests that changed the cloud plus the remaining distance (missing listeners at 1 + targets + filters, extra listeners at 1, symmetric differences on shared ones, and 1 for each desired port without a health check) never exceed the initial distance |
| L4Theorems.RetriesConverge | pkg/cloudprovider/providers/nifcloud/nifcloud_l4_load_balancer.go:41-155 | If no port clashes at the start, none clashes after any number of faulty runs, and one run without faults then succeeds, converges and ends at a distance that counts just the ports which lacked a health check when it began |
| L4Measure.MeasureFalls | pkg/cloudprovider/providers/nifcloud/nifcloud_l4_load_balancer.go:73-152 | A step that brings every listener nearer to what is desired never raises the distance, and lowers it strictly if it changes anything |
| L4Theorems.StepFalls | pkg/cloudprovider/providers/nifcloud/nifcloud_client.go:314-394 | Every step that a run may take, those inside the create and register sequences included, lowers the distance to the desired state strictly if it changes the cloud |
| L4Theorems.DeleteRemoves | pkg/cloudprovider/providers/nifcloud/nifcloud_l4_load_balancer.go:285-310 | Deleting touches nothing but the balancer; if it reports success the balancer with its VIP is gone, and it does if and only if nothing is lost |
| L4Theorems.CreateThenDeleteRestores | pkg/cloudprovider/providers/nifcloud/nifcloud_l4_load_balancer.go:285-310 | Ensuring a balancer that did not exist and deleting it again gives back exactly the initial cloud, whatever failed in between |
| L4Theorems.OperationsCommute | pkg/cloudprovider/providers/nifcloud/nifcloud_l4_load_balancer.go:41-310 | Successful operations on two balancers of different names, each of them ensuring or deleting, end in the same cloud and give the same answers in either order |
| L4Theorems.QuietOperationsCommute | pkg/cloudprovider/providers/nifcloud/nifcloud_l4_load_balancer.go:41-310 | Without faults two operations on balancers of different names end in the same cloud and give the same answers in either order whatever comes of them, also where one is refused, on a port clash for instance |
| L4Runs.EnsureRun | pkg/cloudprovider/providers/nifcloud/nifcloud_l4_load_balancer.go:41-155 | The closed form of a whole run: its final state as a function of the initial one, its success condition, and the per-request guarantee that the results above rest on |
| L4Update.PortPhase | pkg/cloudprovider/providers/nifcloud/nifcloud_l4_load_balancer.go:73-97 | The port phase is refused at the first clash with everything else intact, and otherwise ends with exactly the desired keys, old listeners untouched and new ones complete |
| L4Reconcile.ListenerSteady | pkg/cloudprovider/providers/nifcloud/nifcloud_l4_load_balancer.go:101-151 | One listener goes through registration, deregistration and one filter request, each accepted, to exactly its desired form |
| L4Reconcile.FilterChangeSets | pkg/cloudprovider/providers/nifcloud/nifcloud_l4_load_balancer.go:130-145 | The filter changes add exactly what is desired and absent and remove exactly what is present and not desired, wildcards never |
| L4Controller.L4Reconciler.EnsureL4LoadBalancer | pkg/cloudprovider/providers/nifcloud/nifcloud_l4_load_balancer.go:41-155 | The reconciler, with the loops and early returns of the original, makes exactly the requests, in order, of the plan that the results are about |
| L4Controller.L4Reconciler.UpdateAll | pkg/cloudprovider/providers/nifcloud/nifcloud_l4_load_balancer.go:71-154 | Registrations, deletions, the fresh look only if something changed, then the listeners in the order the cloud lists them |
| L4Controller.L4Reconciler.CreateAll | pkg/cloudprovider/providers/nifcloud/nifcloud_l4_load_balancer.go:50-65 | Create for the first listener, register for the others, and the VIP of the creation |
| L4Controller.L4Reconciler.ReconcileListener | pkg/cloudprovider/providers/nifcloud/nifcloud_l4_load_balancer.go:101-151 | Difference, register, difference, deregister, filters; each request only if there is something to ask |
| L4Controller.L4Reconciler.ChangedFilters | pkg/cloudprovider/providers/nifcloud/nifcloud_l4_load_balancer.go:130-145 | Additions, then removals, without wildcards, in order |
| L4Controller.L4Reconciler.EnsureL4LoadBalancerDeleted | pkg/cloudprovider/providers/nifcloud/nifcloud_l4_load_balancer.go:285-310 | Deletes every listed listener; a balancer that is not found is no error |
| ElbTheorems.SuccessMeansConverged | pkg/cloudprovider/providers/nifcloud/nifcloud_elastic_load_balancer.go:49-172 | Whenever an elastic run reports success, from any balancer or none and under any faults: exactly the desired keys, listener 0 has exactly the desired targets, every kept listener has gained and lost what the client thought it had to, the VIP is the balancer's own, no other balancer changed; all listeners have the desired targets if and only if, before the run, the kept ones had equal targets or, beside a created one, the desired ones |
| ElbTheorems.SucceedsExactly | pkg/cloudprovider/providers/nifcloud/nifcloud_elastic_load_balancer.go:93-171 | A run succeeds if and only if nothing is lost, no port clashes and either the client, once the ports are right, reads the desired targets from listener 0, or no port is created and every listener kept lacks all instances to register and has all to deregister, both as read from listener 0 |
| ElbTheorems.TwoRunsConverge | pkg/cloudprovider/providers/nifcloud/nifcloud_elastic_load_balancer.go:93-171 | From any balancer a fault-free run without a port clash makes the ports and listener 0 right even where it reports an error; the next run changes nothing and reports success, which is true of every listener if and only if, before the first run, those it got through were read rightly and the others were right (or, for the one that stopped it, lacked just what it registers) |
| ElbTheorems.WhatIsRead | pkg/cloudprovider/providers/nifcloud/nifcloud_client.go:594-602 | What the client reads for every listener once the ports are right: the old targets of the listener the cloud then lists first if it was kept, the desired ones if it is new |
| ElbFlattened.UniformStarts | pkg/cloudprovider/providers/nifcloud/nifcloud_elastic_load_balancer.go:100-171 | On a balancer whose listeners all have the same targets, a fault-free run without a clash succeeds if and only if the nodes stay, or no port is created, or none is kept, or a created listener is listed first; it leaves all listeners right if and only if one of the first three holds or no kept listener is listed behind a created one |
| ElbTheorems.RightAtFirstSight | pkg/cloudprovider/providers/nifcloud/nifcloud_elastic_load_balancer.go:135-171 | If the keys are right and listener 0 has the desired targets, a run makes one request, the look, and reports success whatever the other listeners serve; on a converged balancer this is idempotence |
| ElbFlattened.LostRequestIsNeverNoticed | pkg/cloudprovider/providers/nifcloud/nifcloud_client.go:594-602 | In a creation with two ports one lost request, the one that registers the instances of the second, leaves a half-filled balancer; if the cloud lists the second port behind the first, the next run without faults changes nothing and reports success although that port serves nobody |
| ElbRetries.RetriesConverge | pkg/cloudprovider/providers/nifcloud/nifcloud_elastic_load_balancer.go:49-172 | If no port clashes at the start then, after any number of runs under any faults, two runs without faults end in reported success, with the desired ports and listener 0 right, and the second changes nothing |
| ElbBounded.RetriesChangeBoundedly | pkg/cloudprovider/providers/nifcloud/nifcloud_elastic_load_balancer.go:49-172 | From any well-formed cloud and over any number of repeated runs under any faults, the requests that changed the cloud, those about rules included, plus the budget that remains never exceed the initial budget: three requests and the rules for each missing port, one and the rules for each superfluous one, and for each desired port up to two and their rules, depending on what listener 0 has; the rules of one request being, in each group, at most two more than an interface has system addresses |
| ElbBounded.BudgetZero | pkg/cloudprovider/providers/nifcloud/nifcloud_elastic_load_balancer.go:49-172 | Nothing is left of that budget if and only if the ports are the desired ones and listener 0 has exactly the desired targets |
| ElbBounded.TurnsPaid | pkg/cloudprovider/providers/nifcloud/nifcloud_elastic_load_balancer.go:135-169 | The reconciliation of the nodes pays for its requests: wherever it stops, either nothing was changed, or listener 0 has exactly the desired targets, or it has these and its old ones and the run stopped there |
| ElbUndisturbed.NothingIsDisturbed | pkg/cloudprovider/providers/nifcloud/nifcloud_elastic_load_balancer.go:93-171 | In every state of every run on a balancer that exists, failing runs included: the VIP stays, kept ports are there and no other than old and desired ones is, none is gone before all desired ones are there, the last one never goes, health checks of kept ports stay, and a kept port loses no node that is to stay and gets none that is not desired |
| Pace.ElasticRunsArePaced | pkg/cloudprovider/providers/nifcloud/nifcloud_client.go:626-733 | In every run, failing runs included, a listener that was made is awaited, gets its health check, is awaited, gets its instances and is awaited, with nothing between these and as far as the run gets; where instances come or go or a listener goes, the rules are next, and each change of a rule is followed by a wait for its group |
| Pace.ElasticDeletionsArePaced | pkg/cloudprovider/providers/nifcloud/nifcloud_elastic_load_balancer.go:603-634 | In a deletion the rules are next after each listener, and each revoked rule is followed by a wait for its group, as far as the run gets |
| ElbUndo.FailedCreationIsUndone | pkg/cloudprovider/providers/nifcloud/nifcloud_elastic_load_balancer.go:59-88 | Creating and then deleting gives back exactly the initial cloud, rules included, whatever failed in the creation, if no group carried a permission for what the balancer sends and the cloud keeps listing the first listener first |
| ElbLeaks.UndoNeedsOwnFree | pkg/cloudprovider/providers/nifcloud/nifcloud_elastic_load_balancer.go:603-634 | Where a group of the target carried a permission of the new balancer before, creating and deleting it without faults does not give back the cloud |
| ElbLeaks.UndoNeedsFirstStays | pkg/cloudprovider/providers/nifcloud/nifcloud_elastic_load_balancer.go:603-634 | Where the cloud lists a second port before the first, one lost request in the creation and a deletion without faults leave the rules of the first port in a group that did not carry them |
| ElbUpdate.FlattenedViewIsRight | pkg/cloudprovider/providers/nifcloud/nifcloud_client.go:570-602 | The described view gives every listener its true targets if and only if all listeners have the same targets |
| ElbRuns.CreateRun | pkg/cloudprovider/providers/nifcloud/nifcloud_elastic_load_balancer.go:59-88 | A creation that reports success ends in one explicit state (listeners, VIP, interfaces, rules); without faults it succeeds |
| ElbRuns.DeleteRun | pkg/cloudprovider/providers/nifcloud/nifcloud_elastic_load_balancer.go:603-634 | A deletion that reports success ends in one explicit state: the balancer gone, the permissions of all its listeners revoked in every group that holds a target of listener 0, and in no other; without faults it succeeds, also when a revoke finds nothing |
| ElbGaps.DeletionCleansUp | pkg/cloudprovider/providers/nifcloud/nifcloud_elastic_load_balancer.go:603-634 | After a successful deletion no group of any listener's targets carries a permission of the balancer if and only if every such group that carried one holds a target of listener 0 |
| ElbGaps.LeakingDeletion | pkg/cloudprovider/providers/nifcloud/nifcloud_elastic_load_balancer.go:603-634 | Where the second listener has a target of its own, a deletion without faults succeeds and leaves all permissions in a group that holds only that target |
| ElbLeaks.LeakIsReached | pkg/cloudprovider/providers/nifcloud/nifcloud_elastic_load_balancer.go:135-169 | Where the cloud lists a second port behind the first, such a balancer is reached from a cloud without it by a creation that succeeds and a change of its node in which one request is lost, the listing of the groups before the rules of the first port are denied; the deletion without faults then leaves all permissions of the balancer in a group of its old node |
| ElbLeaks.InterruptedDeletionLeaks | pkg/cloudprovider/providers/nifcloud/nifcloud_elastic_load_balancer.go:603-634 | One lost request in the deletion of a balancer with one listener, the listing of the groups once the listener is gone: the balancer is gone, all permissions stay, and the next deletion finds no balancer, reports success and changes nothing |
| ElbConverge.ReconcileOutcome | pkg/cloudprovider/providers/nifcloud/nifcloud_elastic_load_balancer.go:135-169 | Without faults every listener is reconciled if each takes what is asked of it; otherwise the run stops at the first that does not, with those before it done and the stopping one at most registered |
| ElbConverge.NodesAt | pkg/cloudprovider/providers/nifcloud/nifcloud_elastic_load_balancer.go:135-169 | The reconciliation changes nothing of a listener but its targets, and these by its place in the listing: shifted before the one that stops the run, perhaps registered there, untouched behind it |
| ElbUpdate.ListenerRefused | pkg/cloudprovider/providers/nifcloud/nifcloud_elastic_load_balancer.go:141-168 | A listener that has an instance to register, or lacks one to deregister, refuses: the run stops with its targets and rules untouched, or registered and allowed if only the deregistration is refused |
| ElbGuard.CreateGuards | pkg/cloudprovider/providers/nifcloud/nifcloud_elastic_load_balancer.go:59-88 | Creating establishes the security group invariant: every group that holds a target of a listener carries all permissions that listener needs |
| ElbAdmitted.CreationAdmits | pkg/cloudprovider/providers/nifcloud/nifcloud_elastic_load_balancer.go:59-91 | After a creation that reports success a group admits a permission if and only if it did before, or it holds a target and a listener of the balancer needs it: inbound, one address, on one arm TCP on the node port from the VIP and the health check (port 0 for ICMP, else the node port) from the VIP and the system addresses, on two arms the health check alone from the address and system addresses of the interface without the VIP |
| ElbAdmitted.DeletionRevokes | pkg/cloudprovider/providers/nifcloud/nifcloud_elastic_load_balancer.go:603-634 | After a deletion that reports success a group admits a permission if and only if it did before and it does not both hold a target of listener 0 and, by the same words, be needed by a listener |
| ElbAdmitted.GuardedIsLetIn | pkg/cloudprovider/providers/nifcloud/nifcloud_elastic_load_balancer.go:391-425 | The invariant of the results about guarded balancers, in so many words: every group that holds a target of a listener admits all that this listener needs |
| ElbGuarded.SuccessGuardsExactly | pkg/cloudprovider/providers/nifcloud/nifcloud_elastic_load_balancer.go:49-172 | A run that reports success, from any start and under any faults, leaves every group of a target with all permissions if and only if it created the balancer or, at the start, for every desired listener each group of the targets it will end with holds no node that goes and either holds one that comes, or carries its permissions already or gets them as a group of a created listener, and does not lose them with a deleted one |
| ElbAdmitted.SuccessLetsIn | pkg/cloudprovider/providers/nifcloud/nifcloud_elastic_load_balancer.go:49-172 | The same condition decides, from any start, whether after reported success the groups of all targets let in what their listeners need |
| ElbAdmitted.SuccessSetsChecks | pkg/cloudprovider/providers/nifcloud/nifcloud_client.go:626-733 | Whenever a run reports success, every port that it made has the desired health check target and every kept port the one it had |
| ElbGuarded.LostRulesAreNeverGiven | pkg/cloudprovider/providers/nifcloud/nifcloud_elastic_load_balancer.go:71-88 | One lost request in a creation, the one that lists the groups for the rules: the next run reports success and changes nothing, although a group of the target lacks the permissions |
| ElbGuard.PortChangeKeepsGuard | pkg/cloudprovider/providers/nifcloud/nifcloud_elastic_load_balancer.go:102-126 | A successful run that changes only ports keeps the invariant if and only if no group holds a target, or no permission of a deleted listener is among those that the kept listeners need and the created ones will; start and desire alone decide |
| ElbGuard.PortChangeByChecks | pkg/cloudprovider/providers/nifcloud/nifcloud_elastic_load_balancer.go:463-585 | The same by ports and checks, with TCP and ICMP checks: if and only if no group holds a target, or each deleted listener differs from each kept or created one: on one arm in the node port and not both checked by ICMP, on two arms in the check protocol, or both TCP on different node ports |
| ElbGaps.RemovedPortTakesRules | pkg/cloudprovider/providers/nifcloud/nifcloud_elastic_load_balancer.go:116-126 | Of two ports checked by ICMP on one arm, removing the second takes the health check permission of the first from the groups of its targets: two fault-free runs that lose the invariant |
| ElbGuard.NodeChangeKeepsGuard | pkg/cloudprovider/providers/nifcloud/nifcloud_elastic_load_balancer.go:135-169 | A successful run that changes only nodes keeps the invariant if and only if no group holds both a desired target and a removed one |
| ElbGaps.RemovedNodeTakesRules | pkg/cloudprovider/providers/nifcloud/nifcloud_elastic_load_balancer.go:156-168 | With two targets in one group, removing one takes the permissions for the other: two fault-free runs that lose the invariant |
| ElbGuard.CreateThenDelete | pkg/cloudprovider/providers/nifcloud/nifcloud_elastic_load_balancer.go:603-634 | Creating and then deleting gives back exactly the initial cloud, rules included, if and only if none of the permissions was in an affected group before; without faults both succeed, for any number of listeners and shared ICMP rules |
| ElbGuard.WhenNeedsAreDisjoint | pkg/cloudprovider/providers/nifcloud/nifcloud_elastic_load_balancer.go:463-585 | The permissions that two listeners put on the wire are disjoint if and only if: on one arm, the node ports differ and not both are checked by ICMP; on two arms, the check protocols differ, or both are TCP on different node ports |
| ElbSafety.AllowAndDenyAreExact | pkg/cloudprovider/providers/nifcloud/nifcloud_elastic_load_balancer.go:391-461 | Allow and deny change exactly the groups that hold a listed instance, by exactly the rules of the listener, whichever were there (duplicate and not-found answers ignored); every state of a run, stopped or not, lies between start and end |
| ElbSafety.AllowAndDenyAreIdempotent | pkg/cloudprovider/providers/nifcloud/nifcloud_elastic_load_balancer.go:391-461 | Doing either twice ends where doing it once does |
| ElbApart.RunsStayApart | pkg/cloudprovider/providers/nifcloud/nifcloud_elastic_load_balancer.go:49-172 | In every state of every run, failing ones included, only the one balancer differs from the start, its VIP and interfaces never change, and only permissions that let in what that balancer sends are touched |
| ElbApart.DeletionsStayApart | pkg/cloudprovider/providers/nifcloud/nifcloud_elastic_load_balancer.go:603-634 | The same for deletions |
| ElbCommute.OperationsCommute | pkg/cloudprovider/providers/nifcloud/nifcloud_elastic_load_balancer.go:49-634 | Successful operations on two elastic balancers that send from different addresses, each of them ensuring or deleting, end in the same cloud, rules included, with the same answers in either order |
| ElbCommute.QuietOperationsCommute | pkg/cloudprovider/providers/nifcloud/nifcloud_elastic_load_balancer.go:49-634 | The same without faults for two elastic balancers that send from different addresses, whatever comes of the operations, rules included, also where one or both are refused half way |
| ElbController.ElbReconciler.EnsureElasticLoadBalancer | pkg/cloudprovider/providers/nifcloud/nifcloud_elastic_load_balancer.go:49-172 | The reconciler, writing VIP and interfaces into the desired listeners in place, makes exactly the requests of the plan that the results are about |
| ElbController.ElbReconciler.Place | pkg/cloudprovider/providers/nifcloud/nifcloud_elastic_load_balancer.go:95-98 | Every desired listener gets the VIP and interfaces of listener 0, nothing else of it changes |
| ElbController.ElbReconciler.CreateAll | pkg/cloudprovider/providers/nifcloud/nifcloud_elastic_load_balancer.go:59-88 | Create, look, allow; then register and allow for each further listener |
| ElbController.ElbReconciler.ChangePorts | pkg/cloudprovider/providers/nifcloud/nifcloud_elastic_load_balancer.go:100-133 | Register and allow, then delete and deny, then a fresh look only if something changed |
| ElbController.ElbReconciler.AttachMissing | pkg/cloudprovider/providers/nifcloud/nifcloud_elastic_load_balancer.go:141-154 | Registers the missing instances and allows the rules of the listener the client read, for these instances |
| ElbController.ElbReconciler.DetachSurplus | pkg/cloudprovider/providers/nifcloud/nifcloud_elastic_load_balancer.go:156-168 | Deregisters the surplus instances and denies the rules for these instances |
| ElbController.ElbReconciler.ChangeSecurityGroupRules | pkg/cloudprovider/providers/nifcloud/nifcloud_elastic_load_balancer.go:391-461 | Allow or deny: groups by instance, rules of the listener, one request and one wait for each pair, stopping at the first error that is not ignored |
| ElbController.ElbReconciler.EnsureElasticLoadBalancerDeleted | pkg/cloudprovider/providers/nifcloud/nifcloud_elastic_load_balancer.go:603-634 | Deletes every listed listener and denies its rules; a balancer that is not found is no error |
| Rules.SecurityGroupRulesOfElasticLoadBalancer | pkg/cloudprovider/providers/nifcloud/nifcloud_elastic_load_balancer.go:463-576 | The generator, appending rule by rule, returns the rules that the following three results describe field by field |
| Rules.OneArmRules | pkg/cloudprovider/providers/nifcloud/nifcloud_elastic_load_balancer.go:463-517 | With one interface a rule is generated if and only if it is inbound, has no groups, one port and one address, and is the listener's protocol on the node port from the VIP, or the health check protocol, without a port for ICMP and else on the node port, from the VIP or a system address |
| Rules.TwoArmRules | pkg/cloudprovider/providers/nifcloud/nifcloud_elastic_load_balancer.go:518-570 | With two interfaces a rule is generated if and only if it is inbound, has no groups, one port and one address, and is for the health check from the address or a system address of the interface that does not carry the VIP |
| Rules.WithoutRules | pkg/cloudprovider/providers/nifcloud/nifcloud_elastic_load_balancer.go:571-585 | There are no rules, but an error, if and only if the health check target has no valid form or there are neither one nor two interfaces |
| ElbAdmitted.PermissionsAre | pkg/cloudprovider/providers/nifcloud/nifcloud_client.go:957-982 | What is sent for a TCP listener is, permission by permission, exactly that, with the second port left out |
| Rules.OneArmSharing | pkg/cloudprovider/providers/nifcloud/nifcloud_elastic_load_balancer.go:469-516 | Two TCP listeners of a one-arm balancer share a rule if and only if they use the same node port or both are checked by ICMP |
| Rules.TwoArmSharing | pkg/cloudprovider/providers/nifcloud/nifcloud_elastic_load_balancer.go:518-570 | Two listeners of a two-arm balancer share a rule if and only if they are checked by the same protocol and, for TCP, use the same node port |
| Rules.EncodeRule | pkg/cloudprovider/providers/nifcloud/nifcloud_client.go:957-982 | The request built through pointers to the shared loop variable carries n copies of the last range |
| Rules.RangesSentFaithfully | pkg/cloudprovider/providers/nifcloud/nifcloud_client.go:957-964 | A request names the ranges of its rule if and only if all of them equal the last one |
| Rules.EncodeIsFaithful | pkg/cloudprovider/providers/nifcloud/nifcloud_client.go:966-977 | Rules with one range, as all generated ones are, have equal requests if and only if they are equal, for authorize and revoke alike |
| HealthTarget.SeparateIs | pkg/cloudprovider/providers/nifcloud/nifcloud_elastic_load_balancer.go:578-585 | The separator accepts exactly ICMP and the three protocols followed by a colon and digits, and returns the two parts |
| HealthTarget.BuiltTargetReadsBack | pkg/cloudprovider/providers/nifcloud/nifcloud_elastic_load_balancer.go:284-305 | For every node port the built target reads back as TCP and that number, and ICMP as itself; the match never fails |
| Differences.Difference | pkg/cloudprovider/providers/nifcloud/nifcloud_l4_load_balancer.go:325-380 | The nested loops return, in order, exactly the elements that have no equal in the other list |
| Differences.MissingMembers | pkg/cloudprovider/providers/nifcloud/nifcloud_l4_load_balancer.go:325-342 | An element is in the difference if and only if it is in the first list and nothing in the second equals it |
| Differences.MissingAppend | pkg/cloudprovider/providers/nifcloud/nifcloud_elastic_load_balancer.go:649-666 | The difference distributes over concatenation: order and repetitions of the first list are kept |
| Differences.PatchGivesTarget | pkg/cloudprovider/providers/nifcloud/nifcloud_l4_load_balancer.go:344-361 | Adding what the target lacks and removing what only the other has gives back the target, up to sameness, for every equivalence |
| Differences.WhenEqualsIsEquivalence | pkg/cloudprovider/providers/nifcloud/nifcloud_client.go:110-115 | Among given instances the comparison is an equivalence if and only if for every one without a unique ID: of those that have one, just those with its instance ID share the unique ID of one with its instance ID |
| Differences.EqualsIsEquivalence | pkg/cloudprovider/providers/nifcloud/nifcloud_client.go:110-115 | On a consistent inventory that condition holds, so the comparison is an equivalence |
| Differences.InconsistentInventoryBreaksPatch | pkg/cloudprovider/providers/nifcloud/nifcloud_client.go:110-115 | An inventory where it is not transitive, and where patching loses a wanted instance |
| Differences.MissingIds | pkg/cloudprovider/providers/nifcloud/nifcloud_elastic_load_balancer.go:668-685 | On a consistent inventory the difference of two target lists is the set difference of their instance IDs |
| Differences.FindMatch | pkg/cloudprovider/providers/nifcloud/nifcloud_l4_load_balancer.go:312-323 | Something equal is found if and only if there is something equal to find |
| Client.CloudAPIClient.DescribeLoadBalancers | pkg/cloudprovider/providers/nifcloud/nifcloud_client.go:257-312 | One entry for each listener in the cloud's order, the wildcard filter dropped |
| Client.CloudAPIClient.SetFilterForLoadBalancer | pkg/cloudprovider/providers/nifcloud/nifcloud_client.go:441-480 | Without an explicit list all filters of the balancer are added; wildcards are never sent |
| Client.CloudAPIClient.RegisterInstancesWithLoadBalancer | pkg/cloudprovider/providers/nifcloud/nifcloud_client.go:482-512 | Without an explicit list the targets of the balancer are registered |
| Client.CloudAPIClient.CreateLoadBalancer | pkg/cloudprovider/providers/nifcloud/nifcloud_client.go:314-337 | Create, health check, instances, filter, stopping at the first failure; the VIP returned is the one in the cloud |
| Client.CloudAPIClient.RegisterPortWithLoadBalancer | pkg/cloudprovider/providers/nifcloud/nifcloud_client.go:372-394 | Port, health check, instances, filter, stopping at the first failure |
| Client.CloudAPIClient.DescribeElasticLoadBalancers | pkg/cloudprovider/providers/nifcloud/nifcloud_client.go:559-624 | One entry for each listener, all with the instances of the first |
| Client.CloudAPIClient.FillElasticLoadBalancer | pkg/cloudprovider/providers/nifcloud/nifcloud_client.go:635-651 | Wait, health check, wait, instances, wait, stopping at the first failure |
| Client.CloudAPIClient.CreateElasticLoadBalancer | pkg/cloudprovider/providers/nifcloud/nifcloud_client.go:626-654 | Create, then health check and instances, each followed by a wait; the VIP returned is the one in the cloud |
| Client.CloudAPIClient.RegisterPortWithElasticLoadBalancer | pkg/cloudprovider/providers/nifcloud/nifcloud_client.go:706-733 | Port, then health check and instances, each followed by a wait |
| Client.CloudAPIClient.DescribeSecurityGroupsByInstanceIDs | pkg/cloudprovider/providers/nifcloud/nifcloud_client.go:911-955 | The groups, in listing order, that hold one of the instances |
| Client.CloudAPIClient.DescribeInstancesByInstanceID | pkg/cloudprovider/providers/nifcloud/nifcloud_client.go:187-219 | The instances asked for; an empty answer is an error |
| Client.CloudAPIClient.AuthorizeSecurityGroupIngress | pkg/cloudprovider/providers/nifcloud/nifcloud_client.go:957-993 | One authorize request, with the encoding of the rule |
| Client.CloudAPIClient.RevokeSecurityGroupIngress | pkg/cloudprovider/providers/nifcloud/nifcloud_client.go:995-1030 | One revoke request, with the same encoding |
| Annotations.ValidateLoadBalancerAnnotations | pkg/cloudprovider/providers/nifcloud/nifcloud_load_balancer.go:199-396 | The validator, check by check in order, accepts exactly the annotation maps that satisfy the stated conditions; the following results say what each annotation contributes, with the numbers and words of the source |
| Validity.UnannotatedIsValid | pkg/cloudprovider/providers/nifcloud/nifcloud_load_balancer.go:199-396 | Annotations without any of the known keys are valid, and stay so with either type |
| Validity.TypeDecides | pkg/cloudprovider/providers/nifcloud/nifcloud_load_balancer.go:201-208 | No type is valid exactly where type "lb" is; a type other than "lb" and "elb" never is |
| Validity.BalancingDecides | pkg/cloudprovider/providers/nifcloud/nifcloud_load_balancer.go:210-214 | Whatever else is annotated, a balancing type keeps it valid if and only if it is "1" or "2" |
| Validity.AccountingDecides | pkg/cloudprovider/providers/nifcloud/nifcloud_load_balancer.go:216-220 | The same for the accounting type |
| Validity.ProtocolDecides | pkg/cloudprovider/providers/nifcloud/nifcloud_load_balancer.go:222-226 | A health check protocol keeps it valid if and only if it is "TCP" or "ICMP" |
| Validity.PrintedThresholdDecides | pkg/cloudprovider/providers/nifcloud/nifcloud_load_balancer.go:228-233 | A printed 64-bit number as unhealthy threshold keeps it valid if and only if it is from 1 to 10 |
| Validity.PrintedIntervalDecides | pkg/cloudprovider/providers/nifcloud/nifcloud_load_balancer.go:235-240 | A printed 64-bit number as health check interval keeps it valid if and only if it is from 5 to 300 |
| Validity.VolumeDecides | pkg/cloudprovider/providers/nifcloud/nifcloud_load_balancer.go:244-248 | A network volume keeps it valid if and only if it is the decimal form of 10, 20, 30, 40 or of whole hundreds, up to 2000 for an L4 balancer |
| Validity.PrintedVolumeDecides | pkg/cloudprovider/providers/nifcloud/nifcloud_load_balancer.go:300-304 | The same for any printed number, and up to 500 for an elastic balancer |
| Validity.PolicyDecides | pkg/cloudprovider/providers/nifcloud/nifcloud_load_balancer.go:250-254 | A policy type keeps it valid if and only if it is "standard" or "ats" for an L4 balancer, empty for an elastic one |
| Validity.VipNetworkDecides | pkg/cloudprovider/providers/nifcloud/nifcloud_load_balancer.go:388-392 | An arm for the VIP keeps it valid if and only if it is "1" or "2" for an elastic balancer, empty for an L4 one |
| Validity.NetworkDecides | pkg/cloudprovider/providers/nifcloud/nifcloud_load_balancer.go:312-348 | The network of either arm keeps it valid if and only if, for an elastic balancer, it is one of the two common networks and the arm has no addresses, or another one and the arm has an IP address and two of them joined by a comma as system addresses; for an L4 balancer it must be empty |
| Validity.AddressesWithoutNetwork | pkg/cloudprovider/providers/nifcloud/nifcloud_load_balancer.go:312-386 | The addresses of an arm without a network are not looked at for an elastic balancer, and must be empty for an L4 one |
| Annotations.ValidateInterface | pkg/cloudprovider/providers/nifcloud/nifcloud_load_balancer.go:312-348 | A private LAN needs an address and exactly two system addresses, all of them IP addresses; other networks must have neither |
| Soundness.AtoiReadsBack | pkg/cloudprovider/providers/nifcloud/nifcloud_load_balancer.go:228-240 | A printed 64-bit number, negative ones included, is read back as it was |
| Soundness.SignsAreRead | pkg/cloudprovider/providers/nifcloud/nifcloud_load_balancer.go:228-240 | Digits are read with a plus sign as without, with a minus sign as their negative |
| Soundness.ElasticValidationIsSound | pkg/cloudprovider/providers/nifcloud/nifcloud_elastic_load_balancer.go:174-389 | For annotations that pass validation and TCP ports the elastic builder cannot fail: one listener for each port, every number as annotated (no truncation to 32 bits), one or two interfaces, two IP system addresses exactly on private LANs, and a listener whose rules can be generated |
| Soundness.ElasticDesireIsOK | pkg/cloudprovider/providers/nifcloud/nifcloud_elastic_load_balancer.go:174-389 | What it builds meets every hypothesis of the elastic results: distinct ports, uniform known targets, parsing health checks |
| Soundness.L4ValidationIsSound | pkg/cloudprovider/providers/nifcloud/nifcloud_l4_load_balancer.go:157-270 | For annotations that pass validation, TCP ports and parsed source ranges the L4 builder cannot fail, ports without a node port included; it returns one listener for each port with the annotated numbers untruncated and, where there is a node port, with its ports, nodes and filters and a health check target that reads back |
| Soundness.L4DesireIsOK | pkg/cloudprovider/providers/nifcloud/nifcloud_l4_load_balancer.go:157-270 | What it builds meets every hypothesis of the L4 results, with exactly the filters of the source ranges |
| Soundness.FilterOfCidr | pkg/cloudprovider/providers/nifcloud/nifcloud_l4_load_balancer.go:258-264 | Of a printed range only the prefix length 32 is cut off |
| Soundness.FiltersAreDistinct | pkg/cloudprovider/providers/nifcloud/nifcloud_l4_load_balancer.go:256-266 | Different source ranges give different filters |
| Soundness.PortsWithoutNodePortStay | pkg/cloudprovider/providers/nifcloud/nifcloud_l4_load_balancer.go:197-200 | A port without a node port is not left out: it becomes a listener from 0 to 0 without targets; the listeners of distinct ports have distinct ports if and only if at most one port lacks its node port |
| Builders.NewElasticLoadBalancerFromService | pkg/cloudprovider/providers/nifcloud/nifcloud_elastic_load_balancer.go:174-389 | The builder, filling the desired listeners loop by loop in place, returns exactly one listener for each port, or an error exactly where the original does |
| Builders.NewL4LoadBalancerFromService | pkg/cloudprovider/providers/nifcloud/nifcloud_l4_load_balancer.go:157-270 | The builder, filling entry by entry in place, with the entry left half filled for a port without node port |
| Built.ElasticEntryInFull | pkg/cloudprovider/providers/nifcloud/nifcloud_elastic_load_balancer.go:174-389 | For annotations that pass validation and TCP ports, every field of the listener of a port: name, no address, ports, TCP, all nodes, the zone of the first one, the annotated types and numbers, health check "TCP:" and the node port or "ICMP" with interval 10 and threshold 1 unless annotated, and the interfaces |
| Built.InterfacesInFull | pkg/cloudprovider/providers/nifcloud/nifcloud_elastic_load_balancer.go:312-386 | Every field of the interfaces: of each annotated arm, in order, network, address, system addresses on private LANs, and whether the VIP is on it; or the one common global network with the VIP if no arm is annotated |
| Built.L4EntryInFull | pkg/cloudprovider/providers/nifcloud/nifcloud_l4_load_balancer.go:157-270 | Every field of the entry of a port with a node port, defaults included, with no filters if the source ranges hold 0.0.0.0/0 |
| Built.OnlyTCPIsBuilt | pkg/cloudprovider/providers/nifcloud/nifcloud_elastic_load_balancer.go:226-231 | A port of another protocol than TCP makes either builder fail, whatever the rest of the service is like |
| Builders.NetworkInterfacesFrom | pkg/cloudprovider/providers/nifcloud/nifcloud_elastic_load_balancer.go:312-386 | It fails if and only if an annotated private LAN lacks its two system addresses; otherwise one interface for each annotated network in order, or the common global one with the VIP, two system addresses exactly on private LANs, and the annotation names the VIP arm of two |
| Soundness.ValidInterfacesBuild | pkg/cloudprovider/providers/nifcloud/nifcloud_load_balancer.go:312-348 | Annotations that pass validation never make it fail, and all addresses it returns on private LANs are IP addresses |
| Services.NameOf | pkg/cloudprovider/providers/nifcloud/nifcloud_load_balancer.go:111-114 | The name of a service whose UID is in its usual form is the first group, the second and three characters of the third |
| Services.EnsuredL4Serves | pkg/cloudprovider/providers/nifcloud/nifcloud_load_balancer.go:116-161 | From service to cloud: whenever ensuring an L4 service reports success, its balancer has one listener for each port, serving exactly the instances meant by the nodes and filtering exactly the source ranges, its new ports have the annotated or default health check, and nothing else changed |
| Services.NoNodesMeanEveryInstance | pkg/cloudprovider/providers/nifcloud/nifcloud_client.go:187-219 | Ensuring an L4 service without nodes, if it reports success, makes every listener serve every instance there is, since a request that names no instance is answered with all of them |
| Services.EnsureL4SucceedsExactly | pkg/cloudprovider/providers/nifcloud/nifcloud_load_balancer.go:116-161 | It succeeds if and only if nothing is lost, there are one to three ports and no fixed address, the annotations are valid, the nodes exist and no port clashes |
| Services.EnsuredElasticServes | pkg/cloudprovider/providers/nifcloud/nifcloud_load_balancer.go:146-152 | From service to cloud for elastic services, from any balancer or none: after reported success one listener for each port, listener 0 serving exactly the nodes, no other balancer changed; all serve exactly the nodes if and only if the kept ones served the same nodes before or, beside a new one, the ones asked for |
| Services.EnsureElasticSucceedsExactly | pkg/cloudprovider/providers/nifcloud/nifcloud_load_balancer.go:146-152 | It succeeds if and only if nothing is lost, there are one to three ports and no fixed address, the annotations are valid, the nodes exist, no port clashes, and the client reads the nodes asked for, or no port is new and every listener takes what is asked of it |
| Services.RefusedAtOnce | pkg/cloudprovider/providers/nifcloud/nifcloud_load_balancer.go:117-126 | No port, more than three or a fixed address: refused without a request, whatever else |
| Services.RefusedAfterTheNodes | pkg/cloudprovider/providers/nifcloud/nifcloud_load_balancer.go:128-145 | Missing nodes, annotations that are not valid or a port that is not TCP: refused after at most the look at the nodes, with the cloud as it was |
| Outcomes.EnsuredElasticIsChecked | pkg/cloudprovider/providers/nifcloud/nifcloud_load_balancer.go:146-152 | From service to cloud: after reported success every new port of an elastic service is checked by ICMP if that is annotated and else by TCP on its node port |
| Outcomes.EnsuredElasticIsAdmitted | pkg/cloudprovider/providers/nifcloud/nifcloud_load_balancer.go:146-152 | From service to cloud: after reported success of a creation the balancer has the annotated interfaces as the cloud assigns them, and a group admits a permission if and only if it did before, or it holds a node and a port of the service needs it |
| Updates.UpdateEndsAsEnsure | pkg/cloudprovider/providers/nifcloud/nifcloud_load_balancer.go:163-186 | Without faults, updating a service of either kind with valid annotations and a balancer ends in the same cloud with the same answer as ensuring it, also where both fail; without a balancer, or with other annotations, an update fails and changes nothing, whatever the faults |
| Updates.SuccessfulL4UpdateIsEnsure | pkg/cloudprovider/providers/nifcloud/nifcloud_load_balancer.go:163-186 | Under any faults, an update and an ensuring of an L4 service that both succeed end in the same cloud with the same address |
| Updates.SuccessfulElasticUpdateIsEnsure | pkg/cloudprovider/providers/nifcloud/nifcloud_load_balancer.go:163-186 | The same for elastic services, whatever the targets of the listeners were |
| Services.DeletedServiceIsGone | pkg/cloudprovider/providers/nifcloud/nifcloud_load_balancer.go:188-197 | After a successful deletion the service has no balancer and every other balancer is as it was |
| Services.DeleteServiceSucceeds | pkg/cloudprovider/providers/nifcloud/nifcloud_load_balancer.go:188-197 | Deleting a service of type "lb", "elb", empty or none succeeds if and only if nothing is lost; after success the balancer of that kind is gone and the others are as they were; any other type is refused without a request |
| Services.L4ServiceIsUndone | pkg/cloudprovider/providers/nifcloud/nifcloud_load_balancer.go:188-197 | Whatever failed in ensuring an L4 service without a balancer, deleting it gives back the cloud, and succeeds without faults |
| Outcomes.ElasticServiceIsUndone | pkg/cloudprovider/providers/nifcloud/nifcloud_load_balancer.go:188-197 | Ensuring an elastic service without a balancer and deleting it, both with success, gives back the cloud if and only if no group of a node admitted anything before that the balancer needed |
| Outcomes.FailedElasticServiceIsUndone | pkg/cloudprovider/providers/nifcloud/nifcloud_load_balancer.go:188-197 | Whatever failed in ensuring an elastic service without a balancer, deleting it without faults gives back the cloud if no group let in what the balancer sends and the cloud keeps listing the first port first |
| Witness.SmallServicesSucceed | pkg/cloudprovider/providers/nifcloud/nifcloud_load_balancer.go:116-161 | The hypotheses of the results can be met together: on a small cloud without balancers, ensuring a service of either kind succeeds without faults, with a node or with none |
| Provider.LoadBalancers.EnsureLoadBalancer | pkg/cloudprovider/providers/nifcloud/nifcloud_load_balancer.go:116-161 | Port count and fixed address, then the nodes, then the annotations, then the builder and reconciler of the annotated type; exactly the requests that the results are about |
| Provider.LoadBalancers.UpdateLoadBalancer | pkg/cloudprovider/providers/nifcloud/nifcloud_load_balancer.go:163-186 | Validation, then the look, then ensuring |
| Provider.LoadBalancers.EnsureLoadBalancerDeleted | pkg/cloudprovider/providers/nifcloud/nifcloud_load_balancer.go:188-197 | The deletion of the annotated type, without validation |
| ProviderId.PrintedFormsReadBack | pkg/cloudprovider/providers/nifcloud/nifcloud_instances.go:172-178 | Both printed forms parse back to the unique ID if and only if the zone, leading slashes aside, has no slash (an empty zone is fine); otherwise the format is rejected |
| ProviderId.BareIDReadsBack | pkg/cloudprovider/providers/nifcloud/util.go:20-51 | A bare unique ID parses to itself |
| ProviderId.ResultsAreStable | pkg/cloudprovider/providers/nifcloud/util.go:46-50 | Every accepted ID has the form i-... without a slash and, if it consists of safe characters, parses to itself again |
| ProviderId.UniqueIDIs | pkg/cloudprovider/providers/nifcloud/util.go:46-50 | A unique ID is "i-" and anything without a slash |
| ProviderId.SchemeIsNeverWrong | pkg/cloudprovider/providers/nifcloud/util.go:23-34 | Neither the URL error nor the scheme error can occur for an ID with the right prefix and safe characters behind it, nor for one without that prefix in safe characters and colons |
| ProviderId.ForeignSchemes | pkg/cloudprovider/providers/nifcloud/util.go:20-51 | An ID with any other scheme is taken for a bare one: its format is wrong, unless nothing but slashes follows a scheme that looks like a unique ID, which is then accepted with its colon |
| ProviderId.TokenOfPath | pkg/cloudprovider/providers/nifcloud/util.go:36-44 | The last of one or two path tokens is the ID; a slash inside the zone makes three or more tokens |
| Strings.SplitThenJoin | pkg/cloudprovider/providers/nifcloud/util.go:37-37 | Splitting loses nothing: joining the pieces gives the string back and no piece holds the separator |

## Left out

- HTTP, XML, the SDK, waiters, contexts and timeouts: a wait is a request that changes nothing and may fail.
- Error texts, logging, metrics, start-up, environment variables and charts: an error is its kind.
- Zones, node addresses, instance types and shutdown lookups: single branches over one call.
- GetLoadBalancer: it looks and changes nothing; the look is part of every operation modelled here.
- Balancing type, accounting type, policy and network volume after creation: the code never reconciles them, so the cloud state keeps none of them. Health checks are not reconciled either; the state of an L4 balancer keeps them in full, that of an elastic one their targets, and the views leave them blank where no code reads them.
- The protocol of an elastic listener in the cloud: builders only make TCP listeners, so the state does not store it.
- The address of a new balancer: a function of its name, since nothing depends on how the cloud picks it.
- net.ParseIP and the parsing of source ranges: an arbitrary predicate on strings, and a set of ranges that parsed or did not.
- Upper-casing of the annotated health check protocol: ASCII only; validated protocols are upper case already.
- Services.NameOf: asks for a UID in its usual form; all operations ask for one of at least 15 characters besides dashes, where the original would stop hard on a shorter one.
- Concurrent changes by others, and switching a service from one kind of balancer to the other: the code handles neither.
