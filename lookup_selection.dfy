/**
 * Which state-store read each handler's read closure issues: the node-meta
 * choice of `ChecksInState` and `ServiceChecks`, and the three `serviceNodes*`
 * lookups `ServiceNodes` chooses between.
 */
module LookupSelection {
  import opened Structs
  import opened Collaborators

  /** The lookup functions `ServiceNodes` binds to `f`. */
  datatype Strategy = ConnectNodes | TagFilterNodes | DefaultNodes

  /** The `switch` that binds `f`: `Connect` wins over `TagFilter`, and no combination is refused. */
  function SelectStrategy(connect: bool, tagFilter: bool): (s: Strategy)
    ensures s == ConnectNodes <==> connect
    ensures s == TagFilterNodes <==> !connect && tagFilter
    ensures s == DefaultNodes <==> !connect && !tagFilter
  {
    if connect then ConnectNodes
    else if tagFilter then TagFilterNodes
    else DefaultNodes
  }

  /** The tags `serviceNodesTagFilter` passes to the store: the legacy single tag wins. */
  function TagFilterTags(q: ServiceQuery): seq<string> {
    if q.serviceTag != "" then [q.serviceTag] else q.serviceTags
  }

  /** The store read the chosen `serviceNodes*` function performs for `q`. */
  function ServiceNodesLookup(q: ServiceQuery): (l: Lookup)
    ensures !l.ByNodeMeta()
    ensures l.CheckConnectServiceNodes? || l.CheckServiceTagNodes? || l.CheckServiceNodes?
    ensures l.service == q.serviceName
    ensures l.CheckConnectServiceNodes? <==> q.connect
    ensures l.CheckServiceTagNodes? <==> !q.connect && q.tagFilter
    ensures l.CheckServiceTagNodes? ==> l.tags == if q.serviceTag != "" then [q.serviceTag] else q.serviceTags
  {
    match SelectStrategy(q.connect, q.tagFilter)
    case ConnectNodes => CheckConnectServiceNodes(q.serviceName)
    case TagFilterNodes => CheckServiceTagNodes(q.serviceName, TagFilterTags(q))
    case DefaultNodes => CheckServiceNodes(q.serviceName)
  }

  /** The store read of `ChecksInState`: the `ByNodeMeta` variant exactly when filters are given. */
  function ChecksInStateLookup(args: ChecksInStateRequest): (l: Lookup)
    ensures l.ChecksInState? || l.ChecksInStateByNodeMeta?
    ensures l.state == args.state
    ensures l.ByNodeMeta() <==> |args.nodeMetaFilters| > 0
    ensures l.ByNodeMeta() ==> l.filters == args.nodeMetaFilters
  {
    if |args.nodeMetaFilters| > 0 then ChecksInStateByNodeMeta(args.state, args.nodeMetaFilters)
    else ChecksInState(args.state)
  }

  /** The store read of `ServiceChecks`: the `ByNodeMeta` variant exactly when filters are given. */
  function ServiceChecksLookup(q: ServiceQuery): (l: Lookup)
    ensures l.ServiceChecks? || l.ServiceChecksByNodeMeta?
    ensures l.service == q.serviceName
    ensures l.ByNodeMeta() <==> |q.nodeMetaFilters| > 0
    ensures l.ByNodeMeta() ==> l.filters == q.nodeMetaFilters
  {
    if |q.nodeMetaFilters| > 0 then ServiceChecksByNodeMeta(q.serviceName, q.nodeMetaFilters)
    else ServiceChecks(q.serviceName)
  }
}
