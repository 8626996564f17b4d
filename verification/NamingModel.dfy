/** The naming records that travel between the client's components (model/service.go). */
module NamingModel {
  import opened Wrappers

  /** Go's nil map and empty map differ under `reflect.DeepEqual`, hence the option. */
  datatype Instance = Instance(
    instanceId: string,
    ip: string,
    port: nat,
    weight: real,
    healthy: bool,
    enable: bool,
    ephemeral: bool,
    clusterName: string,
    serviceName: string,
    metadata: Option<map<string, string>>,
    heartBeatInterval: int,
    ipDeleteTimeout: int,
    heartBeatTimeOut: int)

  /** `hosts` is `None` for a nil slice. */
  datatype Service = Service(
    hosts: Option<seq<Instance>>,
    lastRefTime: nat,
    clusters: string,
    name: string,
    groupName: string,
    checksum: string,
    cacheMillis: nat,
    valid: bool,
    allIPs: bool,
    reachProtectionThreshold: bool)

  function Hosts(s: Service): seq<Instance> {
    match s.hosts
    case None => []
    case Some(hosts) => hosts
  }

  ghost predicate Permutes(sort: seq<Instance> -> seq<Instance>) {
    forall s :: multiset(sort(s)) == multiset(s)
  }
}
