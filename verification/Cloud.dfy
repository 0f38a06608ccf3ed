/** The cloud as the controller sees it: what it stores, what it refuses, and what accepted requests change. */
module Cloud {
  import opened Base

  // Nothing here is code of the controller; it is the environment that the controller is proved against.

  // ---------------------------------------------------------------- values

  datatype Instance = Instance(instanceID: string, uniqueID: string, zone: string)

  /** A listener is identified by the port it listens on and the node port it forwards to. */
  datatype Key = Key(port: int, instancePort: int)

  datatype NetworkInterface = NetworkInterface(
    networkId: string,
    ipAddress: string,
    systemIpAddresses: seq<string>,
    isVipNetwork: bool)

  datatype Filter = Filter(addOnFilter: bool, ipAddress: string)

  /** A security group rule as the wire carries it: `toPort` is absent when it equals `fromPort`. */
  datatype Permission = Permission(
    ipProtocol: string,
    fromPort: int,
    toPort: Option<int>,
    inOut: string,
    ipRanges: seq<string>)

  const ANY_IP_ADDRESSES := "*.*.*.*"

  datatype Error =
    | Fault                    // the request or its answer was lost, or anything not listed below
    | BalancerNotFound
    | BalancerExists
    | PortExists
    | PortNotFound
    | InstanceNotFound
    | InstanceRegistered
    | InstanceNotRegistered
    | FilterConflict
    | GroupNotFound
    | RuleDuplicate
    | RuleNotFound
    | NothingDesired           // raised by the controller, not by the cloud
    | TargetNotFound           // raised by the controller
    | InvalidInterfaces        // raised by the controller
    | BadHealthTarget          // where the original indexes a failed match
    | InvalidService           // raised by the controller

  // ---------------------------------------------------------------- state

  datatype L4Listener = L4Listener(targets: set<string>, filters: set<string>)

  datatype HealthCheck = HealthCheck(target: string, interval: int, threshold: int)

  /**
   * `order` is the order in which the cloud lists the listeners, `checks` the health checks that
   * were configured; a listener without one has the cloud's default.
   */
  datatype L4Balancer = L4Balancer(
    vip: string,
    order: seq<Key>,
    at: map<Key, L4Listener>,
    checks: map<Key, HealthCheck>)

  datatype ElbListener = ElbListener(targets: set<string>, health: string)

  datatype ElbBalancer = ElbBalancer(
    vip: string,
    nics: seq<NetworkInterface>,
    order: seq<Key>,
    at: map<Key, ElbListener>)

  /** `rules` gives the permissions of every security group. */
  datatype World = World(
    l4: map<string, L4Balancer>,
    elb: map<string, ElbBalancer>,
    rules: map<string, set<Permission>>)

  /**
   * What no request of the controller changes: the instances, the members of each security
   * group, the addresses the cloud hands out, the health check of a new elastic listener, the
   * order in which the cloud lists a collection, and where it lists a new listener.
   */
  datatype Env = Env(
    inventory: map<string, Instance>,
    members: map<string, set<string>>,
    vipOf: string -> string,
    assignNic: NetworkInterface -> NetworkInterface,
    defaultHealth: string,
    list: set<string> -> seq<string>,
    arrange: (seq<Key>, Key) -> seq<Key>)

  /** Instance IDs and (non-empty) unique IDs determine each other. */
  ghost predicate ConsistentInventory(env: Env) {
    && (forall id :: id in env.inventory ==> env.inventory[id].instanceID == id)
    && (forall a, b ::
          (a in env.inventory && b in env.inventory && env.inventory[a].uniqueID != "" &&
           env.inventory[a].uniqueID == env.inventory[b].uniqueID) ==> a == b)
  }

  ghost predicate EnvOK(env: Env) {
    && ConsistentInventory(env)
    && (forall s :: Elems(env.list(s)) == s && Distinct(env.list(s)))
  }

  ghost predicate OnePortEach<L>(at: map<Key, L>) {
    forall k, k' :: k in at && k' in at && k.port == k'.port ==> k == k'
  }

  ghost predicate Listed<L>(order: seq<Key>, at: map<Key, L>) {
    order != [] && Distinct(order) && Elems(order) == at.Keys && OnePortEach(at)
  }

  ghost predicate L4OK(env: Env, b: L4Balancer) {
    && Listed(b.order, b.at) && b.checks.Keys <= b.at.Keys
    && (forall k :: k in b.at ==> b.at[k].targets <= env.inventory.Keys && ANY_IP_ADDRESSES !in b.at[k].filters)
  }

  ghost predicate ElbOK(env: Env, b: ElbBalancer) {
    && Listed(b.order, b.at)
    && (forall k :: k in b.at ==> b.at[k].targets <= env.inventory.Keys)
  }

  ghost predicate WorldOK(env: Env, w: World) {
    && (forall n :: n in w.l4 ==> L4OK(env, w.l4[n]))
    && (forall n :: n in w.elb ==> ElbOK(env, w.elb[n]))
    && w.rules.Keys == env.members.Keys
  }

  // ---------------------------------------------------------------- requests

  datatype L4Op =
    | L4Look
    | L4Create(key: Key)
    | L4AddPort(key: Key)
    | L4RemovePort(key: Key)
    | L4Health(key: Key, check: HealthCheck)
    | L4Attach(key: Key, ids: seq<string>)
    | L4Detach(key: Key, ids: seq<string>)
    | L4SetFilter(key: Key, changes: seq<Filter>)

  datatype ElbOp =
    | ElbLook
    | ElbWait
    | ElbCreate(key: Key, nics: seq<NetworkInterface>)
    | ElbAddPort(key: Key)
    | ElbRemovePort(key: Key)
    | ElbHealth(key: Key, target: string)
    | ElbAttach(key: Key, ids: seq<string>)
    | ElbDetach(key: Key, ids: seq<string>)

  datatype Call =
    | L4(name: string, l4op: L4Op)
    | Elb(name: string, elbop: ElbOp)
    | ListGroups
    | WaitGroup(group: string)
    | Authorize(group: string, permission: Permission)
    | Revoke(group: string, permission: Permission)
    | LookInstances(ids: seq<string>)

  /** Whether a request asks for a change at all. */
  predicate IsChange(c: Call) {
    match c
    case L4(_, op) => !op.L4Look?
    case Elb(_, op) => !op.ElbLook? && !op.ElbWait?
    case ListGroups => false
    case WaitGroup(_) => false
    case LookInstances(_) => false
    case Authorize(_, _) => true
    case Revoke(_, _) => true
  }

  predicate PortTaken<L>(at: map<Key, L>, port: int) {
    exists k :: k in at && k.port == port
  }

  predicate AttachOK(env: Env, targets: set<string>, ids: seq<string>) {
    Elems(ids) <= env.inventory.Keys && Distinct(ids) && Elems(ids) !! targets
  }

  function Added(changes: seq<Filter>): set<string> {
    set f | f in changes && f.addOnFilter :: f.ipAddress
  }

  function Removed(changes: seq<Filter>): set<string> {
    set f | f in changes && !f.addOnFilter :: f.ipAddress
  }

  predicate UniqueAddresses(changes: seq<Filter>) {
    forall i, j :: 0 <= i < j < |changes| ==> changes[i].ipAddress != changes[j].ipAddress
  }

  predicate FilterOK(filters: set<string>, changes: seq<Filter>) {
    && UniqueAddresses(changes)
    && Added(changes) !! filters
    && Removed(changes) <= filters
    && ANY_IP_ADDRESSES !in Added(changes)
  }

  /**
   * How the cloud lists the listeners of `order` once `k` is added: any permutation of them, so
   * the new one may come last, first, or wherever its ports sort it.
   */
  function Arranged(env: Env, order: seq<Key>, k: Key): (r: seq<Key>)
    ensures Elems(r) == Elems(order) + {k}
    ensures Distinct(order) && k !in order ==> Distinct(r)
  {
    var r := env.arrange(order, k);
    if Elems(r) == Elems(order) + {k} && Distinct(r) then r else order + [k]
  }

  function ApplyL4(env: Env, name: string, b: Option<L4Balancer>, op: L4Op)
    : Result<Option<L4Balancer>, Error>
  {
    if op.L4Create? then
      if b.Some? then Err(BalancerExists)
      else Ok(Some(L4Balancer(env.vipOf(name), [op.key], map[op.key := L4Listener({}, {})], map[])))
    else if b.None? then Err(BalancerNotFound)
    else if op.L4Look? then Ok(b)
    else
      var v := b.value;
      if op.L4AddPort? then
        if PortTaken(v.at, op.key.port) then Err(PortExists)
        else Ok(Some(v.(order := Arranged(env, v.order, op.key), at := v.at[op.key := L4Listener({}, {})])))
      else if op.key !in v.at then Err(PortNotFound)
      else
        var l := v.at[op.key];
        match op
        case L4RemovePort(k) =>
          if Without(v.order, k) == [] then Ok(None)
          else Ok(Some(v.(order := Without(v.order, k), at := v.at - {k}, checks := v.checks - {k})))
        case L4Health(k, check) => Ok(Some(v.(checks := v.checks[k := check])))
        case L4Attach(k, ids) =>
          if !(Elems(ids) <= env.inventory.Keys) then Err(InstanceNotFound)
          else if !AttachOK(env, l.targets, ids) then Err(InstanceRegistered)
          else Ok(Some(v.(at := v.at[k := l.(targets := l.targets + Elems(ids))])))
        case L4Detach(k, ids) =>
          if !(Elems(ids) <= l.targets) then Err(InstanceNotRegistered)
          else Ok(Some(v.(at := v.at[k := l.(targets := l.targets - Elems(ids))])))
        case L4SetFilter(k, changes) =>
          if !FilterOK(l.filters, changes) then Err(FilterConflict)
          else Ok(Some(v.(at := v.at[k := l.(filters := l.filters + Added(changes) - Removed(changes))])))
  }

  function Assigned(env: Env, nics: seq<NetworkInterface>): (r: seq<NetworkInterface>)
    ensures |r| == |nics|
  {
    seq(|nics|, i requires 0 <= i < |nics| => env.assignNic(nics[i]))
  }

  function ApplyElb(env: Env, name: string, b: Option<ElbBalancer>, op: ElbOp)
    : Result<Option<ElbBalancer>, Error>
  {
    if op.ElbCreate? then
      if b.Some? then Err(BalancerExists)
      else Ok(Some(ElbBalancer(env.vipOf(name), Assigned(env, op.nics), [op.key],
                               map[op.key := ElbListener({}, env.defaultHealth)])))
    else if b.None? then Err(BalancerNotFound)
    else if op.ElbLook? || op.ElbWait? then Ok(b)
    else
      var v := b.value;
      if op.ElbAddPort? then
        if PortTaken(v.at, op.key.port) then Err(PortExists)
        else Ok(Some(v.(order := Arranged(env, v.order, op.key),
                        at := v.at[op.key := ElbListener({}, env.defaultHealth)])))
      else if op.key !in v.at then Err(PortNotFound)
      else
        var l := v.at[op.key];
        match op
        case ElbRemovePort(k) =>
          if Without(v.order, k) == [] then Ok(None)
          else Ok(Some(v.(order := Without(v.order, k), at := v.at - {k})))
        case ElbHealth(k, target) => Ok(Some(v.(at := v.at[k := l.(health := target)])))
        case ElbAttach(k, ids) =>
          if !(Elems(ids) <= env.inventory.Keys) then Err(InstanceNotFound)
          else if !AttachOK(env, l.targets, ids) then Err(InstanceRegistered)
          else Ok(Some(v.(at := v.at[k := l.(targets := l.targets + Elems(ids))])))
        case ElbDetach(k, ids) =>
          if !(Elems(ids) <= l.targets) then Err(InstanceNotRegistered)
          else Ok(Some(v.(at := v.at[k := l.(targets := l.targets - Elems(ids))])))
  }

  function Lookup<V>(m: map<string, V>, name: string): Option<V> {
    if name in m then Some(m[name]) else None
  }

  function Put<V>(m: map<string, V>, name: string, v: Option<V>): (r: map<string, V>)
    ensures Lookup(r, name) == v
    ensures forall n :: n != name ==> Lookup(r, n) == Lookup(m, n)
  {
    if v.Some? then m[name := v.value] else m - {name}
  }

  /** What the cloud does with a request that reaches it. */
  function Apply(env: Env, w: World, c: Call): Result<World, Error> {
    match c
    case L4(name, op) =>
      (match ApplyL4(env, name, Lookup(w.l4, name), op)
       case Err(e) => Err(e)
       case Ok(b) => Ok(w.(l4 := Put(w.l4, name, b))))
    case Elb(name, op) =>
      (match ApplyElb(env, name, Lookup(w.elb, name), op)
       case Err(e) => Err(e)
       case Ok(b) => Ok(w.(elb := Put(w.elb, name, b))))
    case ListGroups => Ok(w)
    case WaitGroup(g) => if g in w.rules then Ok(w) else Err(GroupNotFound)
    case Authorize(g, p) =>
      if g !in w.rules then Err(GroupNotFound)
      else if p in w.rules[g] then Err(RuleDuplicate)
      else Ok(w.(rules := w.rules[g := w.rules[g] + {p}]))
    case Revoke(g, p) =>
      if g !in w.rules then Err(GroupNotFound)
      else if p !in w.rules[g] then Err(RuleNotFound)
      else Ok(w.(rules := w.rules[g := w.rules[g] - {p}]))
    case LookInstances(ids) =>
      if Elems(ids) <= env.inventory.Keys then Ok(w) else Err(InstanceNotFound)
  }

  // ---------------------------------------------------------------- requests keep the state well formed

  lemma ListedAfterAdd<L>(env: Env, order: seq<Key>, at: map<Key, L>, k: Key, l: L)
    requires Listed(order, at) && !PortTaken(at, k.port)
    ensures Listed(Arranged(env, order, k), at[k := l])
  {
  }

  lemma ListedAfterRemove<L>(order: seq<Key>, at: map<Key, L>, k: Key)
    requires Listed(order, at) && Without(order, k) != []
    ensures Listed(Without(order, k), at - {k})
  {
    WithoutDistinct(order, k);
  }

  lemma L4KeepsOK(env: Env, name: string, b: Option<L4Balancer>, op: L4Op)
    requires b.Some? ==> L4OK(env, b.value)
    ensures ApplyL4(env, name, b, op).Ok? && ApplyL4(env, name, b, op).value.Some? ==>
              L4OK(env, ApplyL4(env, name, b, op).value.value)
  {
    if b.Some? && op.L4AddPort? && !PortTaken(b.value.at, op.key.port) {
      ListedAfterAdd(env, b.value.order, b.value.at, op.key, L4Listener({}, {}));
    } else if b.Some? && op.L4RemovePort? && Without(b.value.order, op.key) != [] {
      ListedAfterRemove(b.value.order, b.value.at, op.key);
    }
  }

  lemma ElbKeepsOK(env: Env, name: string, b: Option<ElbBalancer>, op: ElbOp)
    requires b.Some? ==> ElbOK(env, b.value)
    ensures ApplyElb(env, name, b, op).Ok? && ApplyElb(env, name, b, op).value.Some? ==>
              ElbOK(env, ApplyElb(env, name, b, op).value.value)
  {
    if b.Some? && op.ElbAddPort? && !PortTaken(b.value.at, op.key.port) {
      ListedAfterAdd(env, b.value.order, b.value.at, op.key, ElbListener({}, env.defaultHealth));
    } else if b.Some? && op.ElbRemovePort? && Without(b.value.order, op.key) != [] {
      ListedAfterRemove(b.value.order, b.value.at, op.key);
    }
  }

  /** No request makes the stored state ill formed. */
  lemma ApplyKeepsWorldOK(env: Env, w: World, c: Call)
    requires WorldOK(env, w)
    ensures Apply(env, w, c).Ok? ==> WorldOK(env, Apply(env, w, c).value)
  {
    match c
    case L4(name, op) =>
      L4KeepsOK(env, name, Lookup(w.l4, name), op);
    case Elb(name, op) =>
      ElbKeepsOK(env, name, Lookup(w.elb, name), op);
    case _ =>
  }
}
