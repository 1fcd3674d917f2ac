// The endpoint record the load balancers route to (cloud/discovery/discovery.go).
module Discovery {

  datatype Endpoint = Endpoint(
    addr: string,
    scheme: string,
    weight: int,
    disabled: bool,
    healthy: bool,
    metadata: map<string, string>)

  /** What a balancer's pick returns: an endpoint, or the error for an empty candidate set. */
  datatype PickResult = Picked(endpoint: Endpoint) | NoAvailable

  ghost predicate DistinctAddrs(eps: seq<Endpoint>) {
    forall i, j :: 0 <= i < j < |eps| ==> eps[i].addr != eps[j].addr
  }

  function Addrs(eps: seq<Endpoint>): set<string> {
    set i | 0 <= i < |eps| :: eps[i].addr
  }
}
