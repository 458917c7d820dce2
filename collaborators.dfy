/**
 * The endpoint's collaborators, whose code lies outside the endpoint: RPC
 * forwarding, token resolution, the enterprise-meta check, the state store,
 * the ACL filter, the bexpr filter and the distance sort. Each is a
 * function-valued field, so every property proved below holds for every
 * behaviour those collaborators may have.
 */
module Collaborators {
  import opened Base
  import opened Structs

  /** What `srv.forward` decided: serve locally, or the request was handled elsewhere. */
  datatype ForwardOutcome = Local | Done(err: Option<string>)

  /** `acl.EnforcementDecision`. */
  datatype EnforcementDecision = Deny | Allow | Default

  /** The authorizer `ResolveTokenAndDefaultMeta` returns; it is nil when ACLs are off. */
  datatype Authorizer = NilAuthorizer | Authorizer(serviceRead: string -> EnforcementDecision)

  /** The state-store reads the endpoint issues, named after the store's methods. */
  datatype Lookup =
    | ChecksInState(state: string)
    | ChecksInStateByNodeMeta(state: string, filters: map<string, string>)
    | NodeChecks(node: string)
    | ServiceChecks(service: string)
    | ServiceChecksByNodeMeta(service: string, filters: map<string, string>)
    | CheckConnectServiceNodes(service: string)
    | CheckServiceTagNodes(service: string, tags: seq<string>)
    | CheckServiceNodes(service: string)
  {
    /** The lookups that narrow by node metadata inside the store. */
    predicate ByNodeMeta() {
      ChecksInStateByNodeMeta? || ServiceChecksByNodeMeta?
    }
  }

  /** A store read: the index it was served at and the records. */
  datatype Snapshot<T> = Snapshot(index: Index, records: seq<T>)

  /** The collaborators that depend on the record type of a reply. */
  datatype RecordOps<!T> = RecordOps(
    lookup: Lookup -> Result<Snapshot<T>>,                // the state store
    compile: string -> Option<string>,                    // bexpr.CreateFilter: its error, if any
    execute: (string, seq<T>) -> Result<seq<T>>,           // Filter.Execute of the compiled expression
    filterACL: (string, seq<T>) -> Result<seq<T>>,         // srv.filterACL(token, reply)
    sortByDistance: (QuerySource, seq<T>) -> Result<seq<T>>) // srv.sortNodesByDistanceFrom

  /** The server the `Health` endpoint belongs to, as seen from the endpoint. */
  datatype Server = Server(
    forward: string -> ForwardOutcome,          // keyed by the RPC method name
    resolveToken: string -> Result<Authorizer>, // ResolveTokenAndDefaultMeta
    validateEnterprise: Option<string>,         // validateEnterpriseRequest
    checks: RecordOps<HealthCheck>,
    nodes: RecordOps<CheckServiceNode>)

  /** One call the endpoint makes on a collaborator, in the order it makes them. */
  datatype Call =
    | Forward(rpc: string)
    | CreateFilter
    | ResolveToken
    | ValidateEnterprise
    | ServiceRead(service: string)
    | StoreLookup(lookup: Lookup)
    | ApplyNodeMetaFilter
    | FilterACL
    | ExecuteFilter
    | SortByDistance
}
