/**
 * Properties of the Health endpoint's handlers that hold whatever the
 * collaborators do: validation order, lookup selection, the Connect
 * authorization short-circuit, the read stages and the metrics.
 */
module HealthProperties {
  import opened Base
  import opened Structs
  import opened Collaborators
  import opened TagSort
  import opened NodeMeta
  import opened LookupSelection
  import opened ReadPipeline
  import opened Metrics
  import opened HealthEndpoint

  /** No store read appears among the calls. */
  ghost predicate NoStoreRead(calls: seq<Call>) {
    forall l :: StoreLookup(l) !in calls
  }

  // ----- early exits ---------------------------------------------------------

  /** `ServiceChecks` refuses `TagFilter` before forwarding or anything else. */
  lemma ServiceChecksRejectsTagFilter(srv: Server, q: ServiceQuery, prior: Reply<HealthCheck>)
    requires q.tagFilter
    ensures ServiceChecksRun(srv, q, prior) == Run(Failed(TAG_FILTER_UNSUPPORTED), prior, [])
  {
  }

  /** Once another server handled the request, nothing else is called and its error is returned. */
  lemma ForwardedRequestsStop(srv: Server, prior: Reply<HealthCheck>, nodePrior: Reply<CheckServiceNode>,
                              a: ChecksInStateRequest, n: NodeSpecificRequest, q: ServiceQuery)
    ensures srv.forward(CHECKS_IN_STATE_RPC).Done? ==>
      ChecksInStateRun(srv, a, prior) ==
        Run(Forwarded(srv.forward(CHECKS_IN_STATE_RPC).err), prior, [Forward(CHECKS_IN_STATE_RPC)])
    ensures srv.forward(NODE_CHECKS_RPC).Done? ==>
      NodeChecksRun(srv, n, prior) ==
        Run(Forwarded(srv.forward(NODE_CHECKS_RPC).err), prior, [Forward(NODE_CHECKS_RPC)])
    ensures !q.tagFilter && srv.forward(SERVICE_CHECKS_RPC).Done? ==>
      ServiceChecksRun(srv, q, prior) ==
        Run(Forwarded(srv.forward(SERVICE_CHECKS_RPC).err), prior, [Forward(SERVICE_CHECKS_RPC)])
    ensures srv.forward(SERVICE_NODES_RPC).Done? ==>
      ServiceNodesRun(srv, q, nodePrior) ==
        Run(Forwarded(srv.forward(SERVICE_NODES_RPC).err), nodePrior, [Forward(SERVICE_NODES_RPC)])
  {
  }

  /**
   * `ServiceNodes` refuses an empty service name right after forwarding: no
   * token resolution, no filter compilation, no store read.
   */
  lemma ServiceNodesRequiresServiceName(srv: Server, q: ServiceQuery, prior: Reply<CheckServiceNode>)
    requires srv.forward(SERVICE_NODES_RPC).Local?
    requires q.serviceName == ""
    ensures ServiceNodesRun(srv, q, prior) == Run(Failed(SERVICE_NAME_REQUIRED), prior, [Forward(SERVICE_NODES_RPC)])
  {
  }

  /**
   * A Connect query whose token may not read the target service succeeds
   * with the reply untouched and no counter emitted; the filter is never
   * compiled (so an invalid expression does not matter) and the store is
   * never read.
   */
  lemma ConnectDeniedIsEmptySuccess(srv: Server, q: ServiceQuery, prior: Reply<CheckServiceNode>)
    requires srv.forward(SERVICE_NODES_RPC).Local? && q.serviceName != "" && q.connect
    requires srv.resolveToken(q.token).Success? && srv.resolveToken(q.token).value.Authorizer?
    requires srv.validateEnterprise.None?
    requires srv.resolveToken(q.token).value.serviceRead(q.serviceName) != Allow
    ensures var run := ServiceNodesRun(srv, q, prior);
      && run.outcome == EmptyOk
      && run.outcome.Err().None? && run.outcome.Emitted() == []
      && run.reply == prior
      && CreateFilter !in run.calls
      && NoStoreRead(run.calls)
      && run.calls[|run.calls| - 1] == ServiceRead(q.serviceName)
  {
  }

  /** Without an authorizer (ACLs disabled) a Connect query is not short-circuited. */
  lemma ConnectWithoutAuthorizerIsNotChecked(srv: Server, q: ServiceQuery, prior: Reply<CheckServiceNode>)
    requires srv.resolveToken(q.token) == Success(NilAuthorizer)
    ensures ServiceNodesRun(srv, q, prior).outcome != EmptyOk
    ensures ServiceRead(q.serviceName) !in ServiceNodesRun(srv, q, prior).calls
  {
    var admission := ServiceNodesAdmission(srv, q);
    if admission.Admitted? {
      var plan, narrow := ServiceNodesPlan(q), MetaNarrowing(q.nodeMetaFilters);
      var read := Read(srv.nodes, plan, narrow, prior);
      assert read.calls <= Stages(plan, narrow.Some?);
      assert ServiceRead(q.serviceName) !in read.calls;
    }
  }

  /** Only a Connect query consults the authorizer, and only then can `ServiceNodes` end in `EmptyOk`. */
  lemma EmptyOkOnlyForConnect(srv: Server, q: ServiceQuery, prior: Reply<CheckServiceNode>)
    requires !q.connect
    ensures ServiceNodesRun(srv, q, prior).outcome != EmptyOk
    ensures forall s :: ServiceRead(s) !in ServiceNodesRun(srv, q, prior).calls
  {
  }

  // ----- lookup selection ----------------------------------------------------

  /** Every store read `ServiceNodes` issues is the lookup its flags select; none narrows by node meta. */
  lemma ServiceNodesReadsSelectedLookup(srv: Server, q: ServiceQuery, prior: Reply<CheckServiceNode>)
    ensures forall l :: StoreLookup(l) in ServiceNodesRun(srv, q, prior).calls ==>
      l == ServiceNodesLookup(q) && !l.ByNodeMeta()
  {
    match ServiceNodesAdmission(srv, q)
    case Refused(_, _) =>
    case Admitted(calls) =>
      ReadLooksUpPlannedLookup(srv.nodes, ServiceNodesPlan(q), MetaNarrowing(q.nodeMetaFilters), prior);
  }

  /**
   * Setting both `Connect` and `TagFilter` is not an error: the call is
   * exactly the Connect call without `TagFilter`.
   */
  lemma ConnectWinsOverTagFilter(srv: Server, q: ServiceQuery, prior: Reply<CheckServiceNode>)
    requires q.connect
    ensures ServiceNodesRun(srv, q.(tagFilter := true), prior) == ServiceNodesRun(srv, q.(tagFilter := false), prior)
  {
    CountersIgnoreTagFilter(q.(tagFilter := false), true, true);
    CountersIgnoreTagFilter(q.(tagFilter := false), true, false);
  }

  /** A non-empty legacy `ServiceTag` is the only tag the tag lookup sends; `ServiceTags` is ignored. */
  lemma LegacyTagTakesPrecedence(q: ServiceQuery, tags: seq<string>)
    requires !q.connect && q.tagFilter && q.serviceTag != ""
    ensures ServiceNodesLookup(q) == CheckServiceTagNodes(q.serviceName, [q.serviceTag])
    ensures ServiceNodesLookup(q.(serviceTags := tags)) == ServiceNodesLookup(q)
  {
  }

  /** `ChecksInState` reads `ChecksInStateByNodeMeta` exactly when node-meta filters are given. */
  lemma ChecksInStateMetaLookup(srv: Server, a: ChecksInStateRequest, prior: Reply<HealthCheck>)
    ensures forall l :: StoreLookup(l) in ChecksInStateRun(srv, a, prior).calls ==>
      l == ChecksInStateLookup(a) && (l.ChecksInStateByNodeMeta? <==> |a.nodeMetaFilters| > 0)
    ensures ApplyNodeMetaFilter !in ChecksInStateRun(srv, a, prior).calls
  {
  }

  /** `ServiceChecks` reads `ServiceChecksByNodeMeta` exactly when node-meta filters are given. */
  lemma ServiceChecksMetaLookup(srv: Server, q: ServiceQuery, prior: Reply<HealthCheck>)
    ensures forall l :: StoreLookup(l) in ServiceChecksRun(srv, q, prior).calls ==>
      l == ServiceChecksLookup(q) && (l.ServiceChecksByNodeMeta? <==> |q.nodeMetaFilters| > 0)
    ensures ApplyNodeMetaFilter !in ServiceChecksRun(srv, q, prior).calls
  {
  }

  /**
   * `ServiceNodes` narrows by node meta in memory, and only when filters are
   * given and the store read succeeded.
   */
  lemma ServiceNodesMetaFilterInMemory(srv: Server, q: ServiceQuery, prior: Reply<CheckServiceNode>)
    ensures ApplyNodeMetaFilter in ServiceNodesRun(srv, q, prior).calls <==>
      && ServiceNodesAdmission(srv, q).Admitted?
      && |q.nodeMetaFilters| > 0
      && srv.nodes.lookup(ServiceNodesLookup(q)).Success?
  {
  }

  /** `NodeChecks` has neither a node-meta stage nor a distance sort. */
  lemma NodeChecksNeverSorts(srv: Server, n: NodeSpecificRequest, prior: Reply<HealthCheck>)
    ensures SortByDistance !in NodeChecksRun(srv, n, prior).calls
    ensures ApplyNodeMetaFilter !in NodeChecksRun(srv, n, prior).calls
  {
  }

  // ----- the read ------------------------------------------------------------

  /** The index of a successful `ServiceNodes` reply is the index of its store read. */
  lemma ServiceNodesIndexFromLookup(srv: Server, q: ServiceQuery, prior: Reply<CheckServiceNode>)
    requires ServiceNodesRun(srv, q, prior).outcome.Ok?
    ensures srv.nodes.lookup(ServiceNodesLookup(q)).Success?
    ensures ServiceNodesRun(srv, q, prior).outcome.index == srv.nodes.lookup(ServiceNodesLookup(q)).value.index
  {
  }

  /** The index of a successful check query is the index of its store read. */
  lemma ChecksIndexFromLookup(srv: Server, a: ChecksInStateRequest, prior: Reply<HealthCheck>)
    requires ChecksInStateRun(srv, a, prior).outcome.Ok?
    ensures srv.checks.lookup(ChecksInStateLookup(a)).Success?
    ensures ChecksInStateRun(srv, a, prior).outcome.index == srv.checks.lookup(ChecksInStateLookup(a)).value.index
  {
  }

  /**
   * `ChecksInState` served locally: compile, resolve, validate, then the read
   * of `ChecksInStateLookup` sorted from the request's source.
   */
  lemma ChecksInStateSteps(srv: Server, a: ChecksInStateRequest, prior: Reply<HealthCheck>)
    requires srv.forward(CHECKS_IN_STATE_RPC).Local?
    ensures ChecksQuerySteps(srv, ReadPlan(ChecksInStateLookup(a), a.token, a.filter, Some(a.source)), prior,
                             [Forward(CHECKS_IN_STATE_RPC)], ChecksInStateRun(srv, a, prior))
  {
    ChecksQueryRunSteps(srv, ReadPlan(ChecksInStateLookup(a), a.token, a.filter, Some(a.source)), prior,
                        [Forward(CHECKS_IN_STATE_RPC)]);
  }

  /**
   * `NodeChecks` served locally: compile, resolve, validate, then the read of
   * `NodeChecks(Node)` with no distance sort; an `Ok` carries that read's index.
   */
  lemma NodeChecksSteps(srv: Server, n: NodeSpecificRequest, prior: Reply<HealthCheck>)
    requires srv.forward(NODE_CHECKS_RPC).Local?
    ensures ChecksQuerySteps(srv, ReadPlan(NodeChecks(n.node), n.token, n.filter, None), prior,
                             [Forward(NODE_CHECKS_RPC)], NodeChecksRun(srv, n, prior))
  {
    ChecksQueryRunSteps(srv, ReadPlan(NodeChecks(n.node), n.token, n.filter, None), prior, [Forward(NODE_CHECKS_RPC)]);
  }

  /**
   * `ServiceChecks` without `TagFilter`, served locally: compile, resolve,
   * validate, then the read of `ServiceChecksLookup` sorted from the source.
   */
  lemma ServiceChecksSteps(srv: Server, q: ServiceQuery, prior: Reply<HealthCheck>)
    requires !q.tagFilter && srv.forward(SERVICE_CHECKS_RPC).Local?
    ensures ChecksQuerySteps(srv, ReadPlan(ServiceChecksLookup(q), q.token, q.filter, Some(q.source)), prior,
                             [Forward(SERVICE_CHECKS_RPC)], ServiceChecksRun(srv, q, prior))
  {
    ChecksQueryRunSteps(srv, ReadPlan(ServiceChecksLookup(q), q.token, q.filter, Some(q.source)), prior,
                        [Forward(SERVICE_CHECKS_RPC)]);
  }

  /**
   * `ServiceNodes` with a service name, served locally: the token is resolved
   * before the enterprise meta is validated, and the filter is compiled once
   * the Connect authorization passed; a failure of any of the three ends the
   * call with that failure's own error and the reply untouched.
   */
  lemma ServiceNodesSteps(srv: Server, q: ServiceQuery, prior: Reply<CheckServiceNode>)
    requires srv.forward(SERVICE_NODES_RPC).Local? && q.serviceName != ""
    ensures var run := ServiceNodesRun(srv, q, prior);
      var before := [Forward(SERVICE_NODES_RPC)];
      var resolve := srv.resolveToken(q.token);
      var validate := srv.validateEnterprise;
      && (resolve.Failure? ==> run == Run(Failed(resolve.error), prior, before + [ResolveToken]))
      && (resolve.Success? && validate.Some? ==>
            run == Run(Failed(validate.value), prior, before + [ResolveToken, ValidateEnterprise]))
      && (resolve.Success? && validate.None? ==>
            var authz := resolve.value;
            var checked := q.connect && authz.Authorizer?;
            var authorized := before + [ResolveToken, ValidateEnterprise] + (if checked then [ServiceRead(q.serviceName)] else []);
            var compile := srv.nodes.compile(q.filter);
            (!checked || authz.serviceRead(q.serviceName) == Allow) ==>
              && (compile.Some? ==> run == Run(Failed(compile.value), prior, authorized + [CreateFilter]))
              && (compile.None? ==> ServiceNodesAdmission(srv, q) == Admitted(authorized + [CreateFilter])))
  {
  }

  /**
   * `ServiceNodes` is `Ok` exactly when it is admitted, its lookup succeeds
   * and the node-meta filter (when filters are given), the ACL filter, the
   * compiled filter and the distance sort all succeed; the reply then holds
   * the sorted instances.
   */
  lemma ServiceNodesResult(srv: Server, q: ServiceQuery, prior: Reply<CheckServiceNode>)
    ensures var run := ServiceNodesRun(srv, q, prior);
      var lookup := srv.nodes.lookup(ServiceNodesLookup(q));
      && (run.outcome.Ok? <==>
            && ServiceNodesAdmission(srv, q).Admitted?
            && lookup.Success?
            && Yields(srv.nodes, ServiceNodesPlan(q),
                      if |q.nodeMetaFilters| > 0 then NodeMetaFilter(q.nodeMetaFilters, lookup.value.records)
                      else lookup.value.records,
                      run.reply.records))
      && (run.outcome.Ok? ==> run.outcome.records == run.reply.records)
      && (ServiceNodesAdmission(srv, q).Admitted? ==>
            var read := Read(srv.nodes, ServiceNodesPlan(q), MetaNarrowing(q.nodeMetaFilters), prior);
            && run.outcome.Err() == read.err && run.reply == read.reply
            && run.calls == ServiceNodesAdmission(srv, q).calls + read.calls)
  {
    var narrow := MetaNarrowing(q.nodeMetaFilters);
    ReadSucceeds(srv.nodes, ServiceNodesPlan(q), narrow, prior);
    var lookup := srv.nodes.lookup(ServiceNodesLookup(q));
    if lookup.Success? && narrow.Some? {
      MetaNarrowingFilters(q.nodeMetaFilters, lookup.value.records);
    }
  }

  /** A store error is what `ServiceNodes` returns; no later stage runs and no counter is emitted. */
  lemma ServiceNodesStoreErrorAborts(srv: Server, q: ServiceQuery, prior: Reply<CheckServiceNode>)
    requires ServiceNodesAdmission(srv, q).Admitted?
    requires srv.nodes.lookup(ServiceNodesLookup(q)).Failure?
    ensures var run := ServiceNodesRun(srv, q, prior);
      && run.outcome == Failed(srv.nodes.lookup(ServiceNodesLookup(q)).error)
      && run.reply == prior
      && run.outcome.Emitted() == []
      && run.calls == ServiceNodesAdmission(srv, q).calls + [StoreLookup(ServiceNodesLookup(q))]
  {
  }

  // ----- metrics -------------------------------------------------------------

  /**
   * Counters are emitted only by a successful `ServiceNodes` call; they are
   * keyed `connect` or `service`, and `not-found` is among them exactly when
   * the reply holds no instance.
   */
  lemma ServiceNodesMetrics(srv: Server, q: ServiceQuery, prior: Reply<CheckServiceNode>)
    ensures var run := ServiceNodesRun(srv, q, prior);
      && (run.outcome.Emitted() != [] <==> run.outcome.Ok?)
      && (forall c :: c in run.outcome.Emitted() ==> c.key[1] == (if q.connect then "connect" else "service"))
      && (run.outcome.Ok? ==>
            ((exists c :: c in run.outcome.Emitted() && c.key[2] == "not-found") <==> |run.reply.records| == 0))
  {
    var run := ServiceNodesRun(srv, q, prior);
    if run.outcome.Ok? {
      NotFoundCountedIffEmpty(q, |run.reply.records| > 0);
    }
  }

  /**
   * After a successful call with tags the request's tags are sorted, and the
   * `query-tags` labels are the service followed by them.
   */
  lemma ServiceNodesSortsTags(srv: Server, q: ServiceQuery, prior: Reply<CheckServiceNode>)
    ensures var outcome := ServiceNodesRun(srv, q, prior).outcome;
      var tags := ServiceTagsAfter(q, outcome);
      outcome.Ok? && |q.serviceTags| > 0 ==>
        && Sorted(tags) && multiset(tags) == multiset(q.serviceTags)
        && Counter(["health", MetricKey(q.connect), "query-tags"], TagLabels(q.serviceName, tags)) in outcome.Emitted()
  {
    var run := ServiceNodesRun(srv, q, prior);
    QueryTagsCounter(q, |run.reply.records| > 0);
  }
}
