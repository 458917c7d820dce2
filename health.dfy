/**
 * Consul's `Health` RPC endpoint: the four handlers `ChecksInState`,
 * `NodeChecks`, `ServiceChecks` and `ServiceNodes`.
 *
 * Each handler is given twice. A function (`ChecksInStateRun`, ...) says what
 * one call produces: its outcome, the reply object as the call leaves it, and
 * the calls made on collaborators, in order. The methods of class `Health`
 * do the same work step by step on the request and reply objects and are
 * proved to agree with those functions.
 */
module HealthEndpoint {
  import opened Base
  import opened Structs
  import opened Collaborators
  import opened TagSort
  import opened NodeMeta
  import opened LookupSelection
  import opened ReadPipeline
  import opened Metrics

  const CHECKS_IN_STATE_RPC := "Health.ChecksInState"
  const NODE_CHECKS_RPC := "Health.NodeChecks"
  const SERVICE_CHECKS_RPC := "Health.ServiceChecks"
  const SERVICE_NODES_RPC := "Health.ServiceNodes"

  const TAG_FILTER_UNSUPPORTED := "Tag filtering is not supported"
  const SERVICE_NAME_REQUIRED := "Must provide service name"

  /** How a handler call ends. */
  datatype Outcome<T> =
    | Forwarded(forwardErr: Option<string>)                         // another server answered
    | Failed(reason: string)                                        // the handler returned an error
    | EmptyOk                                                       // nil error, reply left as it was
    | Ok(index: Index, records: seq<T>, counters: seq<Counter>)      // the query ran; counters emitted
  {
    /** The error the handler returns. */
    function Err(): Option<string> {
      match this
      case Forwarded(e) => e
      case Failed(reason) => Some(reason)
      case EmptyOk => None
      case Ok(_, _, _) => None
    }

    /** The counters the handler emits. */
    function Emitted(): seq<Counter> {
      if Ok? then counters else []
    }
  }

  /** One handler call: its outcome, the reply as left, and the collaborator calls made. */
  datatype Run<T> = Run(outcome: Outcome<T>, reply: Reply<T>, calls: seq<Call>)

  /** A run preceded by the calls made before it. */
  function After<T>(before: seq<Call>, run: Run<T>): Run<T> {
    run.(calls := before + run.calls)
  }

  /** The outcome once the read closure has run. */
  function Finish<T>(read: ReadResult<T>, counters: seq<Counter>): (run: Run<T>)
    ensures run.reply == read.reply && run.calls == read.calls
    ensures run.outcome.Ok? <==> read.err.None?
    ensures run.outcome.Ok? ==> run.outcome.index == read.reply.index && run.outcome.records == read.reply.records
    ensures read.err.Some? ==> run.outcome == Failed(read.err.value)
  {
    match read.err
    case Some(e) => Run(Failed(e), read.reply, read.calls)
    case None => Run(Ok(read.reply.index, read.reply.records, counters), read.reply, read.calls)
  }

  /**
   * The steps of a check query served locally, after the calls `before`:
   * compile the filter, resolve the token, validate the enterprise meta, then
   * read. Each failure before the read ends the call with its own error and
   * the reply as it was; once the read runs, its error, reply and calls are the
   * call's; the call is `Ok` exactly when every step and every read stage
   * succeeds, and then carries the lookup's index and the stages' records.
   */
  ghost predicate ChecksQuerySteps(srv: Server, plan: ReadPlan, prior: Reply<HealthCheck>, before: seq<Call>, run: Run<HealthCheck>) {
    var compile := srv.checks.compile(plan.filter);
    var resolve := srv.resolveToken(plan.token);
    var validate := srv.validateEnterprise;
    var lookup := srv.checks.lookup(plan.lookup);
    && before <= run.calls <= before + [CreateFilter, ResolveToken, ValidateEnterprise] + Stages(plan, false)
    && (compile.Some? ==> run == Run(Failed(compile.value), prior, before + [CreateFilter]))
    && (compile.None? && resolve.Failure? ==>
          run == Run(Failed(resolve.error), prior, before + [CreateFilter, ResolveToken]))
    && (compile.None? && resolve.Success? && validate.Some? ==>
          run == Run(Failed(validate.value), prior, before + [CreateFilter, ResolveToken, ValidateEnterprise]))
    && (compile.None? && resolve.Success? && validate.None? ==>
          var read := Read(srv.checks, plan, None, prior);
          && run.outcome.Err() == read.err && run.reply == read.reply
          && run.calls == before + [CreateFilter, ResolveToken, ValidateEnterprise] + read.calls)
    && (run.outcome.Ok? <==>
          compile.None? && resolve.Success? && validate.None? && lookup.Success?
          && Yields(srv.checks, plan, lookup.value.records, run.reply.records))
    && (run.outcome.Ok? ==>
          run.outcome == Ok(lookup.value.index, run.reply.records, []) && run.reply.index == lookup.value.index)
  }

  /**
   * What the three check queries do once they are served locally: compile the
   * filter, resolve the token, validate the enterprise meta, then read.
   */
  function ChecksQueryRun(srv: Server, plan: ReadPlan, prior: Reply<HealthCheck>): (run: Run<HealthCheck>)
    ensures |run.calls| > 0 && run.calls[0] == CreateFilter
    ensures run.outcome.Failed? || run.outcome.Ok?
    ensures run.outcome.Ok? ==> run.outcome.counters == []
  {
    match srv.checks.compile(plan.filter)
    case Some(e) => Run(Failed(e), prior, [CreateFilter])
    case None =>
      match srv.resolveToken(plan.token)
      case Failure(e) => Run(Failed(e), prior, [CreateFilter, ResolveToken])
      case Success(_) =>
        match srv.validateEnterprise
        case Some(e) => Run(Failed(e), prior, [CreateFilter, ResolveToken, ValidateEnterprise])
        case None =>
          After([CreateFilter, ResolveToken, ValidateEnterprise], Finish(Read(srv.checks, plan, None, prior), []))
  }

  /** A check query served after the calls `before` takes the steps of `ChecksQuerySteps`. */
  lemma ChecksQueryRunSteps(srv: Server, plan: ReadPlan, prior: Reply<HealthCheck>, before: seq<Call>)
    ensures ChecksQuerySteps(srv, plan, prior, before, After(before, ChecksQueryRun(srv, plan, prior)))
  {
    var checked := [CreateFilter, ResolveToken, ValidateEnterprise];
    if srv.checks.compile(plan.filter).None? && srv.resolveToken(plan.token).Success? && srv.validateEnterprise.None? {
      var read := Read(srv.checks, plan, None, prior);
      ReadSucceeds(srv.checks, plan, None, prior);
      var stages := Stages(plan, false);
      assert read.calls <= stages;
      assert before + checked + read.calls <= before + checked + stages by {
        assert forall i :: 0 <= i < |read.calls| ==> (before + checked + read.calls)[|before| + 3 + i] == stages[i];
      }
      assert After(before, ChecksQueryRun(srv, plan, prior)).calls == before + checked + read.calls;
    }
  }

  /** `Health.ChecksInState`. */
  function ChecksInStateRun(srv: Server, args: ChecksInStateRequest, prior: Reply<HealthCheck>): (run: Run<HealthCheck>)
    ensures |run.calls| > 0 && run.calls[0] == Forward(CHECKS_IN_STATE_RPC)
  {
    match srv.forward(CHECKS_IN_STATE_RPC)
    case Done(e) => Run(Forwarded(e), prior, [Forward(CHECKS_IN_STATE_RPC)])
    case Local =>
      var plan := ReadPlan(ChecksInStateLookup(args), args.token, args.filter, Some(args.source));
      After([Forward(CHECKS_IN_STATE_RPC)], ChecksQueryRun(srv, plan, prior))
  }

  /** `Health.NodeChecks`: its read has no distance sort. */
  function NodeChecksRun(srv: Server, args: NodeSpecificRequest, prior: Reply<HealthCheck>): (run: Run<HealthCheck>)
    ensures |run.calls| > 0 && run.calls[0] == Forward(NODE_CHECKS_RPC)
  {
    match srv.forward(NODE_CHECKS_RPC)
    case Done(e) => Run(Forwarded(e), prior, [Forward(NODE_CHECKS_RPC)])
    case Local =>
      var plan := ReadPlan(NodeChecks(args.node), args.token, args.filter, None);
      After([Forward(NODE_CHECKS_RPC)], ChecksQueryRun(srv, plan, prior))
  }

  /** `Health.ServiceChecks`: a tag-filtered request is refused before anything else. */
  function ServiceChecksRun(srv: Server, q: ServiceQuery, prior: Reply<HealthCheck>): (run: Run<HealthCheck>)
    ensures q.tagFilter <==> run.calls == []
    ensures !q.tagFilter ==> run.calls[0] == Forward(SERVICE_CHECKS_RPC)
  {
    if q.tagFilter then Run(Failed(TAG_FILTER_UNSUPPORTED), prior, [])
    else
      match srv.forward(SERVICE_CHECKS_RPC)
      case Done(e) => Run(Forwarded(e), prior, [Forward(SERVICE_CHECKS_RPC)])
      case Local =>
        var plan := ReadPlan(ServiceChecksLookup(q), q.token, q.filter, Some(q.source));
        After([Forward(SERVICE_CHECKS_RPC)], ChecksQueryRun(srv, plan, prior))
  }

  /** The in-memory node-meta stage of `ServiceNodes`: present only when filters are given. */
  function MetaNarrowing(filters: map<string, string>): (narrow: Option<seq<CheckServiceNode> -> seq<CheckServiceNode>>)
    ensures narrow.Some? <==> |filters| > 0
  {
    if |filters| > 0 then Some(nodes => NodeMetaFilter(filters, nodes)) else None
  }

  /** The node-meta stage, when present, is `NodeMetaFilter` with the request's filters. */
  lemma MetaNarrowingFilters(filters: map<string, string>, nodes: seq<CheckServiceNode>)
    requires |filters| > 0
    ensures Narrowed(MetaNarrowing(filters), nodes) == NodeMetaFilter(filters, nodes)
  {
  }

  /** The read closure of `ServiceNodes`: the selected lookup, always followed by the distance sort. */
  function ServiceNodesPlan(q: ServiceQuery): ReadPlan {
    ReadPlan(ServiceNodesLookup(q), q.token, q.filter, Some(q.source))
  }

  /** Where the checks before the read leave a `ServiceNodes` call. */
  datatype Admission =
    | Refused(outcome: Outcome<CheckServiceNode>, calls: seq<Call>)   // the handler returns here
    | Admitted(calls: seq<Call>)                                      // the read closure runs next

  /**
   * The checks `ServiceNodes` makes before its read, in order: forwarding,
   * the service name, the token, the enterprise meta, the Connect
   * authorization and the filter expression.
   */
  function ServiceNodesAdmission(srv: Server, q: ServiceQuery): (a: Admission)
    ensures |a.calls| > 0 && a.calls[0] == Forward(SERVICE_NODES_RPC)
    ensures a.Refused? ==> !a.outcome.Ok?
    ensures forall l :: StoreLookup(l) !in a.calls
  {
    var forward := [Forward(SERVICE_NODES_RPC)];
    match srv.forward(SERVICE_NODES_RPC)
    case Done(e) => Refused(Forwarded(e), forward)
    case Local =>
      if q.serviceName == "" then Refused(Failed(SERVICE_NAME_REQUIRED), forward)
      else
        var resolve := forward + [ResolveToken];
        match srv.resolveToken(q.token)
        case Failure(e) => Refused(Failed(e), resolve)
        case Success(authz) =>
          var validate := resolve + [ValidateEnterprise];
          match srv.validateEnterprise
          case Some(e) => Refused(Failed(e), validate)
          case None =>
            var checked := q.connect && authz.Authorizer?;
            var authorize := validate + (if checked then [ServiceRead(q.serviceName)] else []);
            if checked && authz.serviceRead(q.serviceName) != Allow then Refused(EmptyOk, authorize)
            else
              var compile := authorize + [CreateFilter];
              match srv.nodes.compile(q.filter)
              case Some(e) => Refused(Failed(e), compile)
              case None => Admitted(compile)
  }

  /** `Health.ServiceNodes`. */
  function ServiceNodesRun(srv: Server, q: ServiceQuery, prior: Reply<CheckServiceNode>): (run: Run<CheckServiceNode>)
    ensures |run.calls| > 0 && run.calls[0] == Forward(SERVICE_NODES_RPC)
  {
    match ServiceNodesAdmission(srv, q)
    case Refused(outcome, calls) => Run(outcome, prior, calls)
    case Admitted(calls) =>
      var read := Read(srv.nodes, ServiceNodesPlan(q), MetaNarrowing(q.nodeMetaFilters), prior);
      After(calls, Finish(read, ServiceNodesCounters(q, |read.reply.records| > 0)))
  }

  /** `ServiceNodes` leaves the request's tags sorted when it emitted the `query-tags` counter. */
  function ServiceTagsAfter(q: ServiceQuery, outcome: Outcome<CheckServiceNode>): (tags: seq<string>)
    ensures multiset(tags) == multiset(q.serviceTags)
    ensures outcome.Ok? && |q.serviceTags| > 0 ==> Sorted(tags)
    ensures !outcome.Ok? ==> tags == q.serviceTags
  {
    if outcome.Ok? && |q.serviceTags| > 0 then SortStrings(q.serviceTags) else q.serviceTags
  }

  /** The endpoint object; it only reads its server. */
  class Health {
    const srv: Server

    constructor (srv: Server)
      ensures this.srv == srv
    {
      this.srv := srv;
    }

    /** The read closure of the check queries. */
    method ReadChecks(plan: ReadPlan, reply: IndexedHealthChecks) returns (err: Option<string>, ghost calls: seq<Call>)
      modifies reply
      ensures var r := Read(srv.checks, plan, None, old(reply.Value()));
        err == r.err && reply.Value() == r.reply && calls == r.calls
    {
      calls := [StoreLookup(plan.lookup)];
      var looked := srv.checks.lookup(plan.lookup);
      if looked.Failure? {
        return Some(looked.error), calls;
      }
      reply.index, reply.healthChecks := looked.value.index, looked.value.records;
      calls := calls + [FilterACL];
      var allowed := srv.checks.filterACL(plan.token, reply.healthChecks);
      if allowed.Failure? {
        return Some(allowed.error), calls;
      }
      reply.healthChecks := allowed.value;
      calls := calls + [ExecuteFilter];
      var kept := srv.checks.execute(plan.filter, reply.healthChecks);
      if kept.Failure? {
        return Some(kept.error), calls;
      }
      reply.healthChecks := kept.value;
      if plan.sortFrom.Some? {
        calls := calls + [SortByDistance];
        var sorted := srv.checks.sortByDistance(plan.sortFrom.value, reply.healthChecks);
        if sorted.Failure? {
          return Some(sorted.error), calls;
        }
        reply.healthChecks := sorted.value;
      }
      err := None;
    }

    /** Compile, resolve, validate and read, as the three check queries do once served locally. */
    method ServeChecks(plan: ReadPlan, reply: IndexedHealthChecks) returns (err: Option<string>, ghost calls: seq<Call>)
      modifies reply
      ensures var run := ChecksQueryRun(srv, plan, old(reply.Value()));
        err == run.outcome.Err() && reply.Value() == run.reply && calls == run.calls
    {
      calls := [CreateFilter];
      var compileErr := srv.checks.compile(plan.filter);
      if compileErr.Some? {
        return compileErr, calls;
      }
      calls := calls + [ResolveToken];
      var authz := srv.resolveToken(plan.token);
      if authz.Failure? {
        return Some(authz.error), calls;
      }
      calls := calls + [ValidateEnterprise];
      if srv.validateEnterprise.Some? {
        return srv.validateEnterprise, calls;
      }
      ghost var readCalls;
      err, readCalls := ReadChecks(plan, reply);
      calls := calls + readCalls;
    }

    method ChecksInState(args: ChecksInStateRequest, reply: IndexedHealthChecks)
      returns (err: Option<string>, ghost calls: seq<Call>)
      modifies reply
      ensures var run := ChecksInStateRun(srv, args, old(reply.Value()));
        err == run.outcome.Err() && reply.Value() == run.reply && calls == run.calls
    {
      calls := [Forward(CHECKS_IN_STATE_RPC)];
      var forwarded := srv.forward(CHECKS_IN_STATE_RPC);
      if forwarded.Done? {
        return forwarded.err, calls;
      }
      ghost var rest;
      err, rest := ServeChecks(ReadPlan(ChecksInStateLookup(args), args.token, args.filter, Some(args.source)), reply);
      calls := calls + rest;
    }

    method NodeChecks(args: NodeSpecificRequest, reply: IndexedHealthChecks)
      returns (err: Option<string>, ghost calls: seq<Call>)
      modifies reply
      ensures var run := NodeChecksRun(srv, args, old(reply.Value()));
        err == run.outcome.Err() && reply.Value() == run.reply && calls == run.calls
    {
      calls := [Forward(NODE_CHECKS_RPC)];
      var forwarded := srv.forward(NODE_CHECKS_RPC);
      if forwarded.Done? {
        return forwarded.err, calls;
      }
      ghost var rest;
      err, rest := ServeChecks(ReadPlan(Lookup.NodeChecks(args.node), args.token, args.filter, None), reply);
      calls := calls + rest;
    }

    method ServiceChecks(args: ServiceSpecificRequest, reply: IndexedHealthChecks)
      returns (err: Option<string>, ghost calls: seq<Call>)
      modifies reply
      ensures var run := ServiceChecksRun(srv, args.Value(), old(reply.Value()));
        err == run.outcome.Err() && reply.Value() == run.reply && calls == run.calls
    {
      calls := [];
      if args.tagFilter {
        return Some(TAG_FILTER_UNSUPPORTED), calls;
      }
      calls := [Forward(SERVICE_CHECKS_RPC)];
      var forwarded := srv.forward(SERVICE_CHECKS_RPC);
      if forwarded.Done? {
        return forwarded.err, calls;
      }
      ghost var rest;
      err, rest := ServeChecks(ReadPlan(ServiceChecksLookup(args.Value()), args.token, args.filter, Some(args.source)), reply);
      calls := calls + rest;
    }

    /** The read closure of `ServiceNodes`. */
    method ReadNodes(plan: ReadPlan, metaFilters: map<string, string>, reply: IndexedCheckServiceNodes)
      returns (err: Option<string>, ghost calls: seq<Call>)
      modifies reply
      ensures var r := Read(srv.nodes, plan, MetaNarrowing(metaFilters), old(reply.Value()));
        err == r.err && reply.Value() == r.reply && calls == r.calls
    {
      calls := [StoreLookup(plan.lookup)];
      var looked := srv.nodes.lookup(plan.lookup);
      if looked.Failure? {
        return Some(looked.error), calls;
      }
      reply.index, reply.nodes := looked.value.index, looked.value.records;
      if |metaFilters| > 0 {
        calls := calls + [ApplyNodeMetaFilter];
        reply.nodes := NodeMetaFilter(metaFilters, reply.nodes);
      }
      calls := calls + [FilterACL];
      var allowed := srv.nodes.filterACL(plan.token, reply.nodes);
      if allowed.Failure? {
        return Some(allowed.error), calls;
      }
      reply.nodes := allowed.value;
      calls := calls + [ExecuteFilter];
      var kept := srv.nodes.execute(plan.filter, reply.nodes);
      if kept.Failure? {
        return Some(kept.error), calls;
      }
      reply.nodes := kept.value;
      if plan.sortFrom.Some? {
        calls := calls + [SortByDistance];
        var sorted := srv.nodes.sortByDistance(plan.sortFrom.value, reply.nodes);
        if sorted.Failure? {
          return Some(sorted.error), calls;
        }
        reply.nodes := sorted.value;
      }
      err := None;
    }

    /** The checks of `ServiceNodes` before its read, with their early returns. */
    method AdmitServiceNodes(args: ServiceSpecificRequest) returns (admission: Admission)
      ensures admission == ServiceNodesAdmission(srv, args.Value())
    {
      var calls := [Forward(SERVICE_NODES_RPC)];
      var forwarded := srv.forward(SERVICE_NODES_RPC);
      if forwarded.Done? {
        return Refused(Forwarded(forwarded.err), calls);
      }
      if args.serviceName == "" {
        return Refused(Failed(SERVICE_NAME_REQUIRED), calls);
      }
      calls := calls + [ResolveToken];
      var authz := srv.resolveToken(args.token);
      if authz.Failure? {
        return Refused(Failed(authz.error), calls);
      }
      calls := calls + [ValidateEnterprise];
      if srv.validateEnterprise.Some? {
        return Refused(Failed(srv.validateEnterprise.value), calls);
      }
      if args.connect && authz.value.Authorizer? {
        calls := calls + [ServiceRead(args.serviceName)];
        if authz.value.serviceRead(args.serviceName) != Allow {
          return Refused(EmptyOk, calls);
        }
      }
      calls := calls + [CreateFilter];
      var compileErr := srv.nodes.compile(args.filter);
      if compileErr.Some? {
        return Refused(Failed(compileErr.value), calls);
      }
      admission := Admitted(calls);
    }

    method ServiceNodes(args: ServiceSpecificRequest, reply: IndexedCheckServiceNodes)
      returns (err: Option<string>, emitted: seq<Counter>, ghost calls: seq<Call>)
      modifies args`serviceTags, reply
      ensures var run := ServiceNodesRun(srv, old(args.Value()), old(reply.Value()));
        && err == run.outcome.Err()
        && emitted == run.outcome.Emitted()
        && reply.Value() == run.reply
        && calls == run.calls
        && args.serviceTags == ServiceTagsAfter(old(args.Value()), run.outcome)
    {
      var admission := AdmitServiceNodes(args);
      calls := admission.calls;
      emitted := [];
      if admission.Refused? {
        return admission.outcome.Err(), emitted, calls;
      }
      var f := ServiceNodesLookup(args.Value());
      ghost var readCalls;
      err, readCalls := ReadNodes(ReadPlan(f, args.token, args.filter, Some(args.source)), args.nodeMetaFilters, reply);
      calls := calls + readCalls;
      if err == None {
        emitted := EmitServiceNodesMetrics(args, |reply.nodes| > 0);
      }
    }

    /** The metrics block of `ServiceNodes`; it sorts the request's tags in place. */
    method EmitServiceNodesMetrics(args: ServiceSpecificRequest, found: bool) returns (emitted: seq<Counter>)
      modifies args`serviceTags
      ensures emitted == ServiceNodesCounters(old(args.Value()), found)
      ensures args.serviceTags == if |old(args.serviceTags)| > 0 then SortStrings(old(args.serviceTags)) else old(args.serviceTags)
    {
      var q := args.Value();
      var key := MetricKey(q.connect);
      var service := Label("service", q.serviceName);
      emitted := [Counter(["health", key, "query"], [service])];
      if q.serviceTag != "" {
        emitted := emitted + [Counter(["health", key, "query-tag"], [service, Label("tag", q.serviceTag)])];
      }
      if |q.serviceTags| > 0 {
        var sorted := SortStrings(q.serviceTags);
        args.serviceTags := sorted;
        var labels := BuildTagLabels(q.serviceName, sorted);
        emitted := emitted + [Counter(["health", key, "query-tags"], labels)];
      }
      if !found {
        emitted := emitted + [Counter(["health", key, "not-found"], [service])];
      }
    }
  }
}
