/**
 * The request and reply shapes the Health endpoint reads and writes
 * (the parts of Consul's `structs` package that the endpoint touches).
 */
module Structs {
  import opened Base

  /** One health check of a node, optionally tied to a service. */
  datatype HealthCheck = HealthCheck(node: string, checkID: string, status: string, serviceName: string)

  /** A catalog node with its metadata, which the node-meta filter inspects. */
  datatype Node = Node(name: string, meta: map<string, string>)

  /** A service instance registered on a node. */
  datatype NodeService = NodeService(id: string, service: string, tags: seq<string>)

  /** A service instance together with its node and the checks that apply to it. */
  datatype CheckServiceNode = CheckServiceNode(node: Node, service: NodeService, checks: seq<HealthCheck>)

  /** The `near` reference handed to the distance sort. */
  datatype QuerySource = QuerySource(datacenter: string, node: string)

  /** Arguments of `Health.ChecksInState`. */
  datatype ChecksInStateRequest = ChecksInStateRequest(
    state: string,
    nodeMetaFilters: map<string, string>,
    filter: string,
    token: string,
    source: QuerySource)

  /** Arguments of `Health.NodeChecks`. */
  datatype NodeSpecificRequest = NodeSpecificRequest(node: string, filter: string, token: string)

  /** A snapshot of the fields of a `ServiceSpecificRequest`. */
  datatype ServiceQuery = ServiceQuery(
    serviceName: string,
    serviceTag: string,         // legacy single tag, sent by agents older than 1.3.0
    serviceTags: seq<string>,
    tagFilter: bool,
    connect: bool,
    nodeMetaFilters: map<string, string>,
    filter: string,
    token: string,
    source: QuerySource)

  /**
   * Arguments of `Health.ServiceChecks` and `Health.ServiceNodes`. It is an object
   * because `ServiceNodes` sorts its `serviceTags` in place.
   */
  class ServiceSpecificRequest {
    var serviceName: string
    var serviceTag: string
    var serviceTags: seq<string>
    var tagFilter: bool
    var connect: bool
    var nodeMetaFilters: map<string, string>
    var filter: string
    var token: string
    var source: QuerySource

    function Value(): ServiceQuery
      reads this
    {
      ServiceQuery(serviceName, serviceTag, serviceTags, tagFilter, connect,
                   nodeMetaFilters, filter, token, source)
    }

    constructor (q: ServiceQuery)
      ensures Value() == q
    {
      serviceName, serviceTag, serviceTags := q.serviceName, q.serviceTag, q.serviceTags;
      tagFilter, connect := q.tagFilter, q.connect;
      nodeMetaFilters, filter, token, source := q.nodeMetaFilters, q.filter, q.token, q.source;
    }
  }

  /** The index and records a reply holds. */
  datatype Reply<T> = Reply(index: Index, records: seq<T>)

  /** `structs.IndexedHealthChecks`: the reply of the three check queries. */
  class IndexedHealthChecks {
    var index: Index
    var healthChecks: seq<HealthCheck>

    function Value(): Reply<HealthCheck>
      reads this
    {
      Reply(index, healthChecks)
    }

    constructor ()
      ensures Value() == Reply(0, [])
    {
      index, healthChecks := 0, [];
    }
  }

  /** `structs.IndexedCheckServiceNodes`: the reply of `ServiceNodes`. */
  class IndexedCheckServiceNodes {
    var index: Index
    var nodes: seq<CheckServiceNode>

    function Value(): Reply<CheckServiceNode>
      reads this
    {
      Reply(index, nodes)
    }

    constructor ()
      ensures Value() == Reply(0, [])
    {
      index, nodes := 0, [];
    }
  }

  /** A metrics label. */
  datatype Label = Label(name: string, value: string)

  /** One increment (by 1) of the counter named by `key`, with its labels. */
  datatype Counter = Counter(key: seq<string>, labels: seq<Label>)
}
