# Consul Health endpoint — a Dafny model

This project models the request handling of Consul's `Health` RPC endpoint
(`agent/consul/health_endpoint.go`): the four handlers `ChecksInState`,
`NodeChecks`, `ServiceChecks` and `ServiceNodes`, and the `serviceNodes*`
lookup selectors. What is modelled is the decision logic around the
endpoint's collaborators:

- the order of the early exits: forwarding, the `TagFilter` refusal of
  `ServiceChecks`, the empty service name of `ServiceNodes`, token resolution,
  the enterprise-meta check, filter compilation and the Connect authorization
  short-circuit;
- which state-store read each handler issues (`...ByNodeMeta` or not; the
  Connect, tag and default lookups of `ServiceNodes` and the legacy
  single-tag precedence);
- the stages of the read closure handed to `blockingQuery`: lookup, in-memory
  node-meta filter (`ServiceNodes` only), ACL filter, bexpr filter, distance
  sort (not in `NodeChecks`); the first error ends the read, and the reply
  index is the lookup's;
- the counters `ServiceNodes` emits on success, with its tags sorted in place.

The collaborators (forwarding, `ResolveTokenAndDefaultMeta`,
`validateEnterpriseRequest`, the state store, `filterACL`, bexpr compile and
execute, `sortNodesByDistanceFrom`) are function-valued fields of the
`Collaborators.Server` datatype, so every property holds for all of their
possible behaviours. Each handler is given as a function (`...Run`) that
returns its outcome (`Forwarded`, `Failed`, `EmptyOk` or `Ok` with index,
records and emitted counters), the reply as it is left, and the ordered list
of collaborator calls made. The methods of class `HealthEndpoint.Health`
perform the same steps on the request and reply objects (`ServiceSpecificRequest`,
`IndexedHealthChecks`, `IndexedCheckServiceNodes`) and are proved to agree
with those functions. The lemmas in `HealthProperties`, `Metrics`,
`ReadPipeline` and `TagSort` state the properties.

Three behaviours of the code worth noting:

- Setting both `Connect` and `TagFilter` on a `ServiceNodes` request is not
  rejected; `Connect` selects the lookup and `TagFilter` is ignored
  (`HealthProperties.ConnectWinsOverTagFilter`).
- `ServiceNodes` compiles the filter expression only after token resolution,
  the enterprise-meta check and the Connect authorization, so an invalid
  expression on a denied Connect query still yields an empty success. The
  three check queries compile it before resolving the token.
- The counters are keyed only `connect` or `service`; the `query-tag` and
  `query-tags` counters depend on the request's tags, not on `TagFilter`
  (`Metrics.CountersIgnoreTagFilter`).

Files: `base.dfy` (Option, Result, Index), `structs.dfy` (requests, replies,
records, counters), `collaborators.dfy` (the server's collaborators, store
lookups, the call log), `lookup_selection.dfy`, `read_pipeline.dfy`,
`node_meta.dfy`, `tag_sort.dfy`, `metrics.dfy`, `health.dfy` (handlers),
`health_properties.dfy` (properties of the handlers).

## Model

| member | source | states |
|---|---|---|
| LookupSelection.SelectStrategy | agent/consul/health_endpoint.go:232-241 | the `switch` is total: the Connect lookup iff `Connect`, the tag lookup iff `TagFilter` without `Connect`, the default lookup otherwise |
| LookupSelection.ServiceNodesLookup | agent/consul/health_endpoint.go:332-349 | the selected store read is one of the three `CheckServiceNodes` reads for the requested service, never a node-meta read; Connect iff `Connect`, tag read iff `TagFilter` without `Connect`, sending `[ServiceTag]` when the legacy tag is non-empty and `ServiceTags` otherwise |
| LookupSelection.ChecksInStateLookup | agent/consul/health_endpoint.go:48-52 | `ChecksInStateByNodeMeta` exactly when node-meta filters are given, with those filters and the requested state |
| LookupSelection.ServiceChecksLookup | agent/consul/health_endpoint.go:149-153 | `ServiceChecksByNodeMeta` exactly when node-meta filters are given, for the requested service |
| ReadPipeline.Read | agent/consul/health_endpoint.go:270-291 | the read closure's calls are a prefix of lookup, node-meta, ACL, filter, sort in that order and are complete on success; once the lookup succeeded the reply index is the lookup's; a failed lookup leaves the reply as it was |
| ReadPipeline.ReadLooksUpPlannedLookup | agent/consul/health_endpoint.go:270-274 | the only store read a closure issues is the one bound before it |
| ReadPipeline.ReadStopsAtFirstError | agent/consul/health_endpoint.go:44-67 | the error returned is that of the first failing stage and later stages are not run; the reply holds the records of the last stage that succeeded, and after a successful distance sort no error and the sorted records |
| ReadPipeline.ReadSucceeds | agent/consul/health_endpoint.go:44-67 | a read succeeds exactly when the lookup and every later stage succeed (ACL filter, compiled filter, distance sort when present), and the reply then holds the records those stages produced |
| NodeMeta.NodeMetaFilter | agent/consul/health_endpoint.go:277-279 | keeps exactly the instances whose node metadata carries every filter key with the filter's value, and never more instances than it was given |
| NodeMeta.NodeMetaFilterEmpty | agent/consul/health_endpoint.go:277-279 | with no filters every instance is kept, in order |
| NodeMeta.NodeMetaFilterKeepsDuplicates | agent/consul/health_endpoint.go:277-279 | every matching instance is kept as many times as it was given |
| NodeMeta.NodeMetaFilterAppend | agent/consul/health_endpoint.go:277-279 | filtering a concatenation is the concatenation of the filtered parts, so the kept instances stay in their original order |
| TagSort.SortStrings | agent/consul/health_endpoint.go:311-313 | `sort.Strings` yields a sorted permutation of the tags |
| TagSort.SortedUnique | agent/consul/health_endpoint.go:311-313 | two sorted sequences with the same elements are equal, so a tag list has only one sorted order |
| TagSort.SortStringsOrderInsensitive | agent/consul/health_endpoint.go:311-313 | tags given in any order sort to the same sequence |
| Metrics.TagLabels | agent/consul/health_endpoint.go:315-318 | the `query-tags` labels are the service label followed by one `tag` label per tag, in order |
| Metrics.BuildTagLabels | agent/consul/health_endpoint.go:315-318 | the append loop builds exactly those labels |
| Metrics.ServiceNodesCounters | agent/consul/health_endpoint.go:302-324 | the first counter is `health.<key>.query` with the service label, and every counter is `health.<key>.*` |
| Metrics.CounterKinds | agent/consul/health_endpoint.go:302-324 | `query` is counted once and first; every later counter is `query-tag`, `query-tags` or `not-found`, each at most once and in that order |
| Metrics.QueryTagCounter | agent/consul/health_endpoint.go:306-309 | a `query-tag` counter is emitted exactly when the legacy `ServiceTag` is set, labelled with the service and that tag |
| Metrics.NotFoundCountedIffEmpty | agent/consul/health_endpoint.go:321-324 | `not-found` is counted exactly when the reply holds no instance, labelled with the service alone |
| Metrics.QueryTagsCounter | agent/consul/health_endpoint.go:310-320 | a `query-tags` counter is emitted exactly when tags were given, labelled with the service and the sorted tags |
| Metrics.CountersIgnoreTagOrder | agent/consul/health_endpoint.go:310-313 | the counters are the same for any order of the request's tags |
| Metrics.CountersIgnoreTagFilter | agent/consul/health_endpoint.go:294-325 | the counters do not depend on `TagFilter` |
| HealthEndpoint.ChecksQueryRun | agent/consul/health_endpoint.go:27-41 | a locally served check query compiles the filter first, and ends in an error or a success without counters; each of its exits, a failed read included, is stated by `ChecksQueryRunSteps` |
| HealthEndpoint.ChecksQueryRunSteps | agent/consul/health_endpoint.go:27-67 | compile, resolve, validate and the read's stages run in that order; a compile, resolve or validate failure ends the call with its own error, the reply untouched and no store read; once the read runs, the call returns the read's error, leaves the read's reply and ends with its calls; the call is `Ok` exactly when every step and stage succeeds, with the lookup's index and the stages' records |
| HealthEndpoint.ChecksInStateRun | agent/consul/health_endpoint.go:21-69 | `ChecksInState` calls forwarding before anything else; the steps after it are stated by `HealthProperties.ChecksInStateSteps` |
| HealthEndpoint.NodeChecksRun | agent/consul/health_endpoint.go:72-112 | `NodeChecks` calls forwarding before anything else; the steps after it are stated by `HealthProperties.NodeChecksSteps` |
| HealthEndpoint.ServiceChecksRun | agent/consul/health_endpoint.go:115-170 | `ServiceChecks` calls nothing at all exactly when `TagFilter` is set, and otherwise forwards first; the steps after it are stated by `HealthProperties.ServiceChecksSteps` |
| HealthEndpoint.MetaNarrowing | agent/consul/health_endpoint.go:277-279 | the in-memory node-meta stage exists exactly when filters are given |
| HealthEndpoint.MetaNarrowingFilters | agent/consul/health_endpoint.go:277-279 | with filters given, the node-meta stage is `NodeMetaFilter` with the request's filters |
| HealthEndpoint.ServiceNodesAdmission | agent/consul/health_endpoint.go:222-265 | the checks before the read start with forwarding, never read the store, and never end in success with data; each exit is stated by the `HealthProperties` lemmas, the resolve, validate and compile exits by `ServiceNodesSteps` |
| HealthEndpoint.ServiceNodesRun | agent/consul/health_endpoint.go:222-327 | `ServiceNodes` calls forwarding before anything else; its exits are stated by `HealthProperties.ServiceNodesSteps` and `ServiceNodesResult` |
| HealthEndpoint.ServiceTagsAfter | agent/consul/health_endpoint.go:310-313 | the request's tags keep their elements, are left sorted after a successful call with tags, and are untouched otherwise |
| HealthEndpoint.Health.ReadChecks | agent/consul/health_endpoint.go:44-67 | the step-by-step read closure of the check queries returns the error, reply and calls of `Read` |
| HealthEndpoint.Health.ServeChecks | agent/consul/health_endpoint.go:27-41 | the compile, resolve, validate and read steps agree with `ChecksQueryRun` |
| HealthEndpoint.Health.ChecksInState | agent/consul/health_endpoint.go:21-69 | the handler returns the error, leaves the reply and makes the calls of `ChecksInStateRun` |
| HealthEndpoint.Health.NodeChecks | agent/consul/health_endpoint.go:72-112 | the handler returns the error, leaves the reply and makes the calls of `NodeChecksRun` |
| HealthEndpoint.Health.ServiceChecks | agent/consul/health_endpoint.go:115-170 | the handler returns the error, leaves the reply and makes the calls of `ServiceChecksRun` |
| HealthEndpoint.Health.ReadNodes | agent/consul/health_endpoint.go:270-291 | the step-by-step read closure of `ServiceNodes` agrees with `Read` with the node-meta stage of `MetaNarrowing` |
| HealthEndpoint.Health.AdmitServiceNodes | agent/consul/health_endpoint.go:223-265 | the early returns of `ServiceNodes` agree with `ServiceNodesAdmission` |
| HealthEndpoint.Health.ServiceNodes | agent/consul/health_endpoint.go:222-327 | the handler's error, emitted counters, reply, calls and sorted tags are those of `ServiceNodesRun` and `ServiceTagsAfter`; no other request field changes |
| HealthEndpoint.Health.EmitServiceNodesMetrics | agent/consul/health_endpoint.go:294-325 | the metrics block emits `ServiceNodesCounters` and sorts the request's tags in place when there are any |
| HealthProperties.ServiceChecksRejectsTagFilter | agent/consul/health_endpoint.go:118-121 | `TagFilter` on `ServiceChecks` fails with "Tag filtering is not supported" before forwarding or any other call, reply untouched |
| HealthProperties.ForwardedRequestsStop | agent/consul/health_endpoint.go:23-25 | when forwarding handled a request, each handler returns the forwarding error and calls nothing else |
| HealthProperties.ServiceNodesRequiresServiceName | agent/consul/health_endpoint.go:223-230 | an empty service name fails with "Must provide service name" after forwarding and before token resolution, filter compilation and the store |
| HealthProperties.ConnectDeniedIsEmptySuccess | agent/consul/health_endpoint.go:253-260 | a Connect query whose authorizer does not `Allow` reading the service succeeds with the reply untouched, no counters, no filter compilation and no store read |
| HealthProperties.ConnectWithoutAuthorizerIsNotChecked | agent/consul/health_endpoint.go:255-256 | with a nil authorizer no service-read check is made and the call cannot end in the empty success |
| HealthProperties.EmptyOkOnlyForConnect | agent/consul/health_endpoint.go:255-260 | a non-Connect query never consults the authorizer and never ends in the empty success |
| HealthProperties.ServiceNodesReadsSelectedLookup | agent/consul/health_endpoint.go:233-241 | every store read `ServiceNodes` makes is the selected lookup, and none narrows by node meta |
| HealthProperties.ConnectWinsOverTagFilter | agent/consul/health_endpoint.go:234-241 | a Connect call with `TagFilter` set behaves exactly like one without it |
| HealthProperties.LegacyTagTakesPrecedence | agent/consul/health_endpoint.go:341-344 | with a legacy tag the tag lookup sends `[ServiceTag]` whatever `ServiceTags` holds |
| HealthProperties.ChecksInStateMetaLookup | agent/consul/health_endpoint.go:48-52 | `ChecksInState` reads by node meta exactly when filters are given and never filters in memory |
| HealthProperties.ServiceChecksMetaLookup | agent/consul/health_endpoint.go:149-153 | `ServiceChecks` reads by node meta exactly when filters are given and never filters in memory |
| HealthProperties.ServiceNodesMetaFilterInMemory | agent/consul/health_endpoint.go:276-279 | `ServiceNodes` runs the in-memory node-meta filter exactly when the read ran, filters are given and the lookup succeeded |
| HealthProperties.NodeChecksNeverSorts | agent/consul/health_endpoint.go:95-111 | `NodeChecks` has no distance sort and no node-meta stage |
| HealthProperties.ServiceNodesIndexFromLookup | agent/consul/health_endpoint.go:271-276 | a successful `ServiceNodes` reply carries the index of its store read |
| HealthProperties.ChecksIndexFromLookup | agent/consul/health_endpoint.go:45-56 | a successful `ChecksInState` reply carries the index of its store read |
| HealthProperties.ChecksInStateSteps | agent/consul/health_endpoint.go:21-69 | once served locally, `ChecksInState` takes the steps of `ChecksQueryRunSteps` with the `ChecksInStateLookup` read sorted from the request's source |
| HealthProperties.NodeChecksSteps | agent/consul/health_endpoint.go:72-112 | once served locally, `NodeChecks` takes the steps of `ChecksQueryRunSteps` with the `NodeChecks(Node)` read, no distance sort, and an `Ok` carrying that read's index |
| HealthProperties.ServiceChecksSteps | agent/consul/health_endpoint.go:115-170 | without `TagFilter` and once served locally, `ServiceChecks` takes the steps of `ChecksQueryRunSteps` with the `ServiceChecksLookup` read sorted from the request's source |
| HealthProperties.ServiceNodesSteps | agent/consul/health_endpoint.go:243-265 | with a service name and served locally, `ServiceNodes` resolves the token before validating the enterprise meta and compiles the filter once the Connect authorization passed; a resolve, validate or compile failure ends the call with that failure's own error, the reply untouched and exactly the calls made so far |
| HealthProperties.ServiceNodesResult | agent/consul/health_endpoint.go:267-291 | `ServiceNodes` is `Ok` exactly when admitted and its lookup, node-meta filter, ACL filter, compiled filter and distance sort succeed, the reply then holding the sorted instances; once admitted, the call returns the read's error, leaves the read's reply and ends with the read's calls |
| HealthProperties.ServiceNodesStoreErrorAborts | agent/consul/health_endpoint.go:271-274 | a store error is returned as is, the reply is untouched, no later stage runs and no counter is emitted |
| HealthProperties.ServiceNodesMetrics | agent/consul/health_endpoint.go:294-325 | counters are emitted iff the call succeeded, all under the `connect`/`service` key, with `not-found` iff the reply is empty |
| HealthProperties.ServiceNodesSortsTags | agent/consul/health_endpoint.go:310-320 | after a successful call with tags, the request's tags are a sorted permutation and label the `query-tags` counter |

## Left out

- `blockingQuery` is not part of this model: its watch and long-poll loop, and the query-meta fields it sets, are not modelled; each handler runs its read closure exactly once.
- Forwarding is a collaborator that answers "served locally" or "done, with this error"; the reply a remote server fills in is not modelled, so a forwarded call leaves the model's reply unchanged.
- `ResolveTokenAndDefaultMeta`, `validateEnterpriseRequest` and the enterprise meta passed to every store read are collaborators or omitted; the defaults the resolver writes into the request's enterprise meta are not modelled.
- `filterACL` and `sortNodesByDistanceFrom` work in place in the source; here each returns a new list or an error, and on an error the reply keeps the list from before that stage.
- The bexpr filter is an abstract compile step that may fail and an abstract execute step that may fail; compilation is keyed by the expression per reply type.
- The state-store reads, the ACL evaluator and the distance sort have no semantics beyond their signatures; no subset or idempotence property is claimed for them.
- `nodeMetaFilter` is defined outside `health_endpoint.go`; it is modelled as the conjunctive metadata match Consul uses for node-meta filters.
- Metrics emission is recorded as the ordered list of counters incremented (each by 1); go-metrics itself is not modelled.
- TagSort.SortStrings: compares strings by Unicode code point, which equals Go's byte order only for well-formed UTF-8.
- Indexes are `uint64` values (a subset type of that range) that the endpoint only passes through; no arithmetic on them is modelled.
- The swagger comment block describes the HTTP API and has no behaviour.
