/**
 * The in-memory node-metadata filter `nodeMetaFilter` that `ServiceNodes`
 * applies after the store read. Its definition lives outside
 * health_endpoint.go; here it is the conjunctive match Consul uses for
 * node-meta filters: a node passes when it carries every filter key with
 * exactly the filter's value.
 */
module NodeMeta {
  import opened Structs

  /** `structs.SatisfiesMetaFilters`. */
  predicate SatisfiesMetaFilters(meta: map<string, string>, filters: map<string, string>) {
    forall k :: k in filters ==> k in meta && meta[k] == filters[k]
  }

  /** `nodeMetaFilter`: keeps, in order, the instances whose node matches every filter. */
  function NodeMetaFilter(filters: map<string, string>, nodes: seq<CheckServiceNode>): (r: seq<CheckServiceNode>)
    ensures forall n :: n in r <==> n in nodes && SatisfiesMetaFilters(n.node.meta, filters)
    ensures |r| <= |nodes|
  {
    if nodes == [] then []
    else
      var rest := NodeMetaFilter(filters, nodes[1..]);
      assert forall n :: n in nodes <==> n == nodes[0] || n in nodes[1..];
      if SatisfiesMetaFilters(nodes[0].node.meta, filters) then [nodes[0]] + rest else rest
  }

  /** Every matching instance is kept as many times as it was given. */
  lemma {:induction false} NodeMetaFilterKeepsDuplicates(filters: map<string, string>, nodes: seq<CheckServiceNode>, n: CheckServiceNode)
    requires SatisfiesMetaFilters(n.node.meta, filters)
    ensures multiset(NodeMetaFilter(filters, nodes))[n] == multiset(nodes)[n]
  {
    if nodes != [] {
      var rest := NodeMetaFilter(filters, nodes[1..]);
      NodeMetaFilterKeepsDuplicates(filters, nodes[1..], n);
      assert nodes == [nodes[0]] + nodes[1..];
      assert multiset(nodes) == multiset{nodes[0]} + multiset(nodes[1..]);
      if SatisfiesMetaFilters(nodes[0].node.meta, filters) {
        assert NodeMetaFilter(filters, nodes) == [nodes[0]] + rest;
        assert multiset(NodeMetaFilter(filters, nodes)) == multiset{nodes[0]} + multiset(rest);
      } else {
        assert NodeMetaFilter(filters, nodes) == rest;
        assert nodes[0] != n;
      }
    }
  }

  /** Filtering a concatenation filters each part and keeps them in order. */
  lemma {:induction false} NodeMetaFilterAppend(filters: map<string, string>, a: seq<CheckServiceNode>, b: seq<CheckServiceNode>)
    ensures NodeMetaFilter(filters, a + b) == NodeMetaFilter(filters, a) + NodeMetaFilter(filters, b)
  {
    if a != [] {
      assert (a + b)[1..] == a[1..] + b;
      NodeMetaFilterAppend(filters, a[1..], b);
    } else {
      assert a + b == b;
    }
  }

  /** With no filters every instance is kept, in its original order. */
  lemma {:induction false} NodeMetaFilterEmpty(nodes: seq<CheckServiceNode>)
    ensures NodeMetaFilter(map[], nodes) == nodes
  {
    if nodes != [] {
      NodeMetaFilterEmpty(nodes[1..]);
      assert nodes == [nodes[0]] + nodes[1..];
    }
  }
}
