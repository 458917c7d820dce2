/**
 * The counters `ServiceNodes` increments after a successful query.
 */
module Metrics {
  import opened Structs
  import opened TagSort

  /** Connect lookups are counted apart from plain service lookups. */
  function MetricKey(connect: bool): string {
    if connect then "connect" else "service"
  }

  /** The labels of the `query-tags` counter: the service, then one label per tag, in order. */
  function TagLabels(service: string, tags: seq<string>): (labels: seq<Label>)
    ensures |labels| == |tags| + 1
    ensures labels[0] == Label("service", service)
    ensures forall i :: 0 <= i < |tags| ==> labels[i + 1] == Label("tag", tags[i])
  {
    [Label("service", service)] + seq(|tags|, i requires 0 <= i < |tags| => Label("tag", tags[i]))
  }

  /** The append loop that builds the `query-tags` labels. */
  method BuildTagLabels(service: string, tags: seq<string>) returns (labels: seq<Label>)
    ensures labels == TagLabels(service, tags)
  {
    labels := [Label("service", service)];
    for i := 0 to |tags|
      invariant |labels| == i + 1
      invariant labels[0] == Label("service", service)
      invariant forall k :: 0 <= k < i ==> labels[k + 1] == Label("tag", tags[k])
    {
      labels := labels + [Label("tag", tags[i])];
    }
  }

  /**
   * The counters a successful `ServiceNodes` query emits, in order; `found`
   * says whether the reply holds any instance. The tags are those of the
   * request before it is sorted.
   */
  function ServiceNodesCounters(q: ServiceQuery, found: bool): (counters: seq<Counter>)
    ensures |counters| >= 1
    ensures counters[0] == Counter(["health", MetricKey(q.connect), "query"], [Label("service", q.serviceName)])
    ensures forall c :: c in counters ==> |c.key| == 3 && c.key[0] == "health" && c.key[1] == MetricKey(q.connect)
  {
    var key := MetricKey(q.connect);
    var service := Label("service", q.serviceName);
    [Counter(["health", key, "query"], [service])]
    + (if q.serviceTag != "" then [Counter(["health", key, "query-tag"], [service, Label("tag", q.serviceTag)])] else [])
    + (if |q.serviceTags| > 0 then [Counter(["health", key, "query-tags"], TagLabels(q.serviceName, SortStrings(q.serviceTags)))] else [])
    + (if !found then [Counter(["health", key, "not-found"], [service])] else [])
  }

  /** `not-found` is counted exactly when the reply holds no instance. */
  lemma NotFoundCountedIffEmpty(q: ServiceQuery, found: bool)
    ensures (exists c :: c in ServiceNodesCounters(q, found) && c.key[2] == "not-found") <==> !found
    ensures forall c :: c in ServiceNodesCounters(q, found) && c.key[2] == "not-found" ==>
      c.labels == [Label("service", q.serviceName)]
  {
    var counters := ServiceNodesCounters(q, found);
    if !found {
      assert counters[|counters| - 1].key[2] == "not-found";
    }
  }

  /**
   * `query` is counted once, first; every later counter is `query-tag`,
   * `query-tags` or `not-found`, each at most once and in that order.
   */
  lemma CounterKinds(q: ServiceQuery, found: bool)
    ensures var counters := ServiceNodesCounters(q, found);
      && counters[0].key[2] == "query"
      && (forall i :: 0 < i < |counters| ==> counters[i].key[2] in ["query-tag", "query-tags", "not-found"])
      && (forall i :: 0 < i < |counters| ==> Rank(counters[i - 1].key[2]) < Rank(counters[i].key[2]))
  {
    var key := MetricKey(q.connect);
    var service := Label("service", q.serviceName);
    var query := Counter(["health", key, "query"], [service]);
    var legacy: seq<Counter> := if q.serviceTag != "" then [Counter(["health", key, "query-tag"], [service, Label("tag", q.serviceTag)])] else [];
    var tagged: seq<Counter> := if |q.serviceTags| > 0 then [Counter(["health", key, "query-tags"], TagLabels(q.serviceName, SortStrings(q.serviceTags)))] else [];
    var missing: seq<Counter> := if !found then [Counter(["health", key, "not-found"], [service])] else [];
    assert ServiceNodesCounters(q, found) == [query] + legacy + tagged + missing;
    KindsOrdered(query, legacy, tagged, missing);
  }

  /** Counters of kinds `query`, then at most one each of `query-tag`, `query-tags`, `not-found`. */
  lemma KindsOrdered(query: Counter, legacy: seq<Counter>, tagged: seq<Counter>, missing: seq<Counter>)
    requires |query.key| == 3 && query.key[2] == "query"
    requires |legacy| <= 1 && forall c :: c in legacy ==> |c.key| == 3 && c.key[2] == "query-tag"
    requires |tagged| <= 1 && forall c :: c in tagged ==> |c.key| == 3 && c.key[2] == "query-tags"
    requires |missing| <= 1 && forall c :: c in missing ==> |c.key| == 3 && c.key[2] == "not-found"
    ensures var counters := [query] + legacy + tagged + missing;
      && (forall i :: 0 < i < |counters| ==> counters[i].key[2] in ["query-tag", "query-tags", "not-found"])
      && (forall i :: 0 < i < |counters| ==> Rank(counters[i - 1].key[2]) < Rank(counters[i].key[2]))
  {
    var counters := [query] + legacy + tagged + missing;
    forall i | 0 <= i < |counters|
      ensures i == 0 ==> counters[i].key[2] == "query"
      ensures 0 < i <= |legacy| ==> counters[i].key[2] == "query-tag"
      ensures |legacy| < i <= |legacy| + |tagged| ==> counters[i].key[2] == "query-tags"
      ensures |legacy| + |tagged| < i ==> counters[i].key[2] == "not-found"
    {
      if 0 < i <= |legacy| {
        assert counters[i] == legacy[i - 1];
      } else if |legacy| < i <= |legacy| + |tagged| {
        assert counters[i] == tagged[i - 1 - |legacy|];
      } else if |legacy| + |tagged| < i {
        assert counters[i] == missing[i - 1 - |legacy| - |tagged|];
      }
    }
  }

  /** The position of each counter kind in the order they are emitted. */
  function Rank(kind: string): nat {
    if kind == "query" then 0 else if kind == "query-tag" then 1 else if kind == "query-tags" then 2 else 3
  }

  /**
   * A `query-tag` counter is emitted exactly when the legacy `ServiceTag` is
   * set; its labels are the service and that tag.
   */
  lemma QueryTagCounter(q: ServiceQuery, found: bool)
    ensures (exists c :: c in ServiceNodesCounters(q, found) && c.key[2] == "query-tag") <==> q.serviceTag != ""
    ensures forall c :: c in ServiceNodesCounters(q, found) && c.key[2] == "query-tag" ==>
      c.labels == [Label("service", q.serviceName), Label("tag", q.serviceTag)]
  {
    var key := MetricKey(q.connect);
    var service := Label("service", q.serviceName);
    var legacy := Counter(["health", key, "query-tag"], [service, Label("tag", q.serviceTag)]);
    var others := [Counter(["health", key, "query"], [service])]
      + (if |q.serviceTags| > 0 then [Counter(["health", key, "query-tags"], TagLabels(q.serviceName, SortStrings(q.serviceTags)))] else [])
      + (if !found then [Counter(["health", key, "not-found"], [service])] else []);
    assert forall c :: c in others ==> c.key[2] != "query-tag";
    assert forall c :: c in ServiceNodesCounters(q, found) ==> c in others || (q.serviceTag != "" && c == legacy);
    if q.serviceTag != "" {
      assert legacy in ServiceNodesCounters(q, found);
    }
  }

  /**
   * A `query-tags` counter is emitted exactly when tags were given; its labels
   * are the service followed by those tags sorted (`SortStrings` yields a
   * sorted permutation).
   */
  lemma QueryTagsCounter(q: ServiceQuery, found: bool)
    ensures (exists c :: c in ServiceNodesCounters(q, found) && c.key[2] == "query-tags") <==> |q.serviceTags| > 0
    ensures forall c :: c in ServiceNodesCounters(q, found) && c.key[2] == "query-tags" ==>
      c.labels == TagLabels(q.serviceName, SortStrings(q.serviceTags))
  {
    var key := MetricKey(q.connect);
    var service := Label("service", q.serviceName);
    var tagged := Counter(["health", key, "query-tags"], TagLabels(q.serviceName, SortStrings(q.serviceTags)));
    var others := [Counter(["health", key, "query"], [service])]
      + (if q.serviceTag != "" then [Counter(["health", key, "query-tag"], [service, Label("tag", q.serviceTag)])] else [])
      + (if !found then [Counter(["health", key, "not-found"], [service])] else []);
    assert forall c :: c in others ==> c.key[2] != "query-tags";
    assert forall c :: c in ServiceNodesCounters(q, found) ==> c in others || (|q.serviceTags| > 0 && c == tagged);
    if |q.serviceTags| > 0 {
      assert tagged in ServiceNodesCounters(q, found);
    }
  }

  /** The counters do not depend on the order in which the request lists its tags. */
  lemma CountersIgnoreTagOrder(q: ServiceQuery, tags: seq<string>, found: bool)
    requires multiset(tags) == multiset(q.serviceTags)
    ensures ServiceNodesCounters(q.(serviceTags := tags), found) == ServiceNodesCounters(q, found)
  {
    SortStringsOrderInsensitive(tags, q.serviceTags);
  }

  /** The counters do not depend on `TagFilter`: tags given in the request are counted either way. */
  lemma CountersIgnoreTagFilter(q: ServiceQuery, tagFilter: bool, found: bool)
    ensures ServiceNodesCounters(q.(tagFilter := tagFilter), found) == ServiceNodesCounters(q, found)
  {
  }
}
