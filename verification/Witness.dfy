/** A small cloud and two small services: the hypotheses of the results can be met, all at once. */
module Witness {
  import opened Base
  import opened Cloud
  import opened Runs
  import opened Strings
  import opened HealthTarget
  import opened Annotations
  import opened Builders
  import opened Soundness
  import opened Services
  import opened Validity
  import opened ElbFlattened
  import opened ElbUndo

  /** Some order for every set. */
  ghost function Listing(s: set<string>): seq<string> {
    if s == {} then []
    else
      var x :| x in s;
      Listing(s - {x}) + [x]
  }

  lemma {:induction false} ListingLists(s: set<string>)
    ensures Elems(Listing(s)) == s && Distinct(Listing(s))
  {
    if s != {} {
      var x :| x in s && Listing(s) == Listing(s - {x}) + [x];
      ListingLists(s - {x});
      ElemsAppend(Listing(s - {x}), [x]);
      assert x !in Elems(Listing(s - {x}));
      DistinctAppend(Listing(s - {x}), x);
    }
  }

  ghost function SmallEnv(): Env {
    Env(map["node-1" := Instance("node-1", "i-1", "east-11")], map["workers" := {"node-1"}],
        (name: string) => "203.0.113.1", (nic: NetworkInterface) => nic, "ICMP", (s: set<string>) => Listing(s),
        (order: seq<Key>, k: Key) => order + [k])
  }

  ghost function Context(): Ctx {
    Ctx(SmallEnv(), (n: nat) => NoFault)
  }

  /** A run that begins on a cloud without balancers. */
  const START := Run(World(map[], map[], map["workers" := {}]), 0, [], Done)

  function SmallService(kind: string): Service {
    Service("0123456789abcdef", map[LB_TYPE := kind], [ServicePort("TCP", 80, 30080)], "", Some({"10.0.0.0/8"}))
  }

  lemma SmallEnvOK()
    ensures EnvOK(SmallEnv()) && WorldOK(SmallEnv(), START.world)
  {
    forall s ensures Elems(SmallEnv().list(s)) == s && Distinct(SmallEnv().list(s)) {
      ListingLists(s);
    }
  }

  /** This cloud lists new listeners last, and its health checks parse: it meets the other hypotheses too. */
  lemma SmallEnvIsOrderly()
    ensures FirstStays(SmallEnv()) && Separate(SmallEnv().defaultHealth).Some?
    ensures Arranged(SmallEnv(), [HTTP], HTTPS)[0] == HTTP
  {
    forall order: seq<Key>, k: Key | order != []
      ensures Arranged(SmallEnv(), order, k) != [] && Arranged(SmallEnv(), order, k)[0] == order[0]
    {
      assert SmallEnv().arrange(order, k) == order + [k];
    }
  }

  lemma SmallRangeIsCidr()
    ensures IsCidr("10.0.0.0/8")
  {
    assert Decimal(8) == "8";
    assert "10.0.0.0/8" == "10.0.0.0" + "/" + Decimal(8);
  }

  lemma {:induction false} NothingRemoved(s: string, c: char)
    requires c !in s
    ensures Removing(s, c) == s
  {
    if s != "" {
      NothingRemoved(s[1..], c);
    }
  }

  lemma TypeAloneIsValid(a: AnnotationMap, kind: string, isIP: string -> bool)
    requires a == map[LB_TYPE := kind] && (kind == "lb" || kind == "elb")
    ensures Valid(a, isIP) && TypeOf(a) == kind
  {
    UnannotatedIsValid(map[], isIP);
  }

  lemma SmallServiceOK(kind: string, isIP: string -> bool)
    requires kind == "lb" || kind == "elb"
    ensures var s := SmallService(kind);
            && |DashFree(s.uid)| >= NAME_LENGTH && Acceptable(s) && Valid(s.annotations, isIP)
            && PortsOK(s.ports) && RangesOK(s) && TypeOf(s.annotations) == kind
  {
    NothingRemoved("0123456789abcdef", '-');
    SmallRangeIsCidr();
    TypeAloneIsValid(SmallService(kind).annotations, kind, isIP);
  }

  lemma SmallNodes()
    ensures NodesThere(SmallEnv(), ["node-1"]) && NodesThere(SmallEnv(), [])
  {
    assert "node-1" in SmallEnv().inventory.Keys;
  }

  lemma SmallL4ServiceSucceeds(isIP: string -> bool, nodes: seq<string>)
    requires nodes == ["node-1"] || nodes == []
    ensures L4Service(Context(), SmallService("lb"), nodes)
    ensures EnsureService(Context(), START, SmallService("lb"), nodes, isIP).status.Ok?
  {
    SmallEnvOK();
    SmallNodes();
    SmallServiceOK("lb", isIP);
    EnsureL4SucceedsExactly(Context(), START, SmallService("lb"), nodes, isIP);
  }

  lemma SmallElasticServiceSucceeds(isIP: string -> bool, nodes: seq<string>)
    requires nodes == ["node-1"] || nodes == []
    ensures ElasticService(Context(), SmallService("elb"), nodes)
    ensures EnsureService(Context(), START, SmallService("elb"), nodes, isIP).status.Ok?
  {
    SmallEnvOK();
    SmallNodes();
    SmallServiceOK("elb", isIP);
    EnsureElasticSucceedsExactly(Context(), START, SmallService("elb"), nodes, isIP);
  }

  /** On an empty cloud ensuring either service without faults succeeds, with a node or without any. */
  lemma SmallServicesSucceed(isIP: string -> bool, nodes: seq<string>)
    requires nodes == ["node-1"] || nodes == []
    ensures L4Service(Context(), SmallService("lb"), nodes)
    ensures ElasticService(Context(), SmallService("elb"), nodes)
    ensures EnsureService(Context(), START, SmallService("lb"), nodes, isIP).status.Ok?
    ensures EnsureService(Context(), START, SmallService("elb"), nodes, isIP).status.Ok?
  {
    SmallL4ServiceSucceeds(isIP, nodes);
    SmallElasticServiceSucceeds(isIP, nodes);
  }
}
