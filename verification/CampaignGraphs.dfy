/** Traversal of a template: Kahn's topological order and the ready set. */
module CampaignGraphs {
  import opened Basics
  import opened Digraph
  import opened CampaignModel

  // ----- edge lists per node -----

  function EdgesFrom(edges: seq<Edge>, n: NodeId): seq<Edge> {
    if edges == [] then [] else
      var last := edges[|edges| - 1];
      EdgesFrom(edges[..|edges| - 1], n) + if last.from == n then [last] else []
  }

  function EdgesTo(edges: seq<Edge>, n: NodeId): seq<Edge> {
    if edges == [] then [] else
      var last := edges[|edges| - 1];
      EdgesTo(edges[..|edges| - 1], n) + if last.to == n then [last] else []
  }

  /** How many listed edges end in n. */
  ghost function Hits(edges: seq<Edge>, n: NodeId): nat {
    if edges == [] then 0 else (if edges[0].to == n then 1 else 0) + Hits(edges[1..], n)
  }

  /** How many edges into n start outside `done`. */
  ghost function Pending(edges: seq<Edge>, done: set<NodeId>, n: NodeId): nat {
    if edges == [] then 0 else
      var last := edges[|edges| - 1];
      Pending(edges[..|edges| - 1], done, n) + if last.to == n && last.from !in done then 1 else 0
  }

  lemma {:induction false} HitsAppend(a: seq<Edge>, b: seq<Edge>, n: NodeId)
    ensures Hits(a + b, n) == Hits(a, n) + Hits(b, n)
  {
    if a == [] {
      assert a + b == b;
    } else {
      HitsAppend(a[1..], b, n);
      assert (a + b)[1..] == a[1..] + b;
    }
  }

  /** Finishing u retires exactly the edges that leave it. */
  lemma {:induction false} PendingAfter(edges: seq<Edge>, done: set<NodeId>, u: NodeId, n: NodeId)
    requires u !in done
    ensures Pending(edges, done, n) == Pending(edges, done + {u}, n) + Hits(EdgesFrom(edges, u), n)
  {
    if edges != [] {
      var front, last := edges[..|edges| - 1], edges[|edges| - 1];
      PendingAfter(front, done, u, n);
      HitsAppend(EdgesFrom(front, u), if last.from == u then [last] else [], n);
    }
  }

  lemma {:induction false} PendingZero(edges: seq<Edge>, done: set<NodeId>, n: NodeId)
    ensures Pending(edges, done, n) == 0 <==> forall e | e in edges && e.to == n :: e.from in done
  {
    if edges != [] {
      var front, last := edges[..|edges| - 1], edges[|edges| - 1];
      PendingZero(front, done, n);
      assert edges == front + [last];
    }
  }

  lemma {:induction false} PendingAtStart(edges: seq<Edge>, n: NodeId)
    ensures Pending(edges, {}, n) == |EdgesTo(edges, n)|
  {
    if edges != [] {
      PendingAtStart(edges[..|edges| - 1], n);
    }
  }

  lemma {:induction false} EdgesToMembers(edges: seq<Edge>, n: NodeId, e: Edge)
    ensures e in EdgesTo(edges, n) <==> e in edges && e.to == n
  {
    if edges != [] {
      var front, last := edges[..|edges| - 1], edges[|edges| - 1];
      EdgesToMembers(front, n, e);
      assert edges == front + [last];
    }
  }

  lemma {:induction false} NothingArrives(edges: seq<Edge>, n: NodeId)
    ensures EdgesTo(edges, n) == [] <==> forall e | e in edges :: e.to != n
  {
    forall e ensures e in EdgesTo(edges, n) <==> e in edges && e.to == n {
      EdgesToMembers(edges, n, e);
    }
    assert EdgesTo(edges, n) != [] ==> EdgesTo(edges, n)[0] in edges;
  }

  lemma {:induction false} EdgesFromMembers(edges: seq<Edge>, n: NodeId, e: Edge)
    ensures e in EdgesFrom(edges, n) <==> e in edges && e.from == n
  {
    if edges != [] {
      var front, last := edges[..|edges| - 1], edges[|edges| - 1];
      EdgesFromMembers(front, n, e);
      assert edges == front + [last];
    }
  }

  // ----- one round of Kahn's algorithm -----

  /** In-degrees count the edges from unlisted nodes plus those of `out`, which
      the current round has yet to retire; the queue holds the unlisted nodes
      whose count is zero. */
  ghost predicate Tracks(edges: seq<Edge>, indeg: map<NodeId, int>, queue: seq<NodeId>, done: set<NodeId>,
                         out: seq<Edge>)
  {
    && Distinct(queue)
    && Elements(queue) !! done
    && Elements(queue) <= indeg.Keys
    && (forall e | e in out :: e.to in indeg)
    && (forall n | n in indeg :: indeg[n] == Pending(edges, done, n) + Hits(out, n))
    && (forall n | n in indeg :: indeg[n] == 0 <==> n in done || n in Elements(queue))
  }

  lemma {:induction false} TracksStart(edges: seq<Edge>, nid: NodeId, indeg: map<NodeId, int>,
                                       queue: seq<NodeId>, done: set<NodeId>)
    requires Tracks(edges, indeg, [nid] + queue, done, [])
    requires forall e | e in edges :: e.to in indeg
    ensures nid !in done && nid !in queue
    ensures Tracks(edges, indeg, queue, done + {nid}, EdgesFrom(edges, nid))
  {
    var longer := [nid] + queue;
    assert longer[0] == nid && longer[1..] == queue;
    assert Elements(longer) == {nid} + Elements(queue);
    assert nid in Elements(longer);
    assert forall i | 0 <= i < |queue| :: queue[i] == longer[i + 1];
    forall n ensures Pending(edges, done, n) == Pending(edges, done + {nid}, n) + Hits(EdgesFrom(edges, nid), n) {
      PendingAfter(edges, done, nid, n);
    }
    forall e | e in EdgesFrom(edges, nid) ensures e.to in indeg {
      EdgesFromMembers(edges, nid, e);
    }
  }

  lemma {:induction false} TracksStep(edges: seq<Edge>, indeg: map<NodeId, int>, queue: seq<NodeId>,
                                      done: set<NodeId>, out: seq<Edge>)
    requires out != [] && Tracks(edges, indeg, queue, done, out)
    ensures out[0].to in indeg
    ensures var to := out[0].to;
            var lower := indeg[to := indeg[to] - 1];
            Tracks(edges, lower, if lower[to] == 0 then queue + [to] else queue, done, out[1..])
  {
    var to := out[0].to;
    assert out[0] in out;
    var lower := indeg[to := indeg[to] - 1];
    assert Elements(queue + [to]) == Elements(queue) + {to};
    assert indeg[to] >= 1;
    forall n | n in lower ensures lower[n] == Pending(edges, done, n) + Hits(out[1..], n) {
      assert Hits(out, n) == (if to == n then 1 else 0) + Hits(out[1..], n);
    }
  }

  /** The front of the queue is unlisted and all its predecessors are listed. */
  lemma {:induction false} QueuedIsFree(t: Template, indeg: map<NodeId, int>, queue: seq<NodeId>, order: seq<NodeId>)
    requires queue != [] && Tracks(t.edges, indeg, queue, Elements(order), [])
    ensures queue[0] in indeg && queue[0] !in order
    ensures forall e | e in EdgeSet(t) && e.1 == queue[0] :: e.0 in order
  {
    var nid := queue[0];
    assert nid in Elements(queue) && nid in indeg && indeg[nid] == 0;
    PendingZero(t.edges, Elements(order), nid);
  }

  /** The queue holds those of the first i ids whose count is zero. */
  ghost predicate ZerosUpTo(ids: seq<NodeId>, i: nat, indeg: map<NodeId, int>, queue: seq<NodeId>)
    requires i <= |ids|
  {
    Distinct(queue) && forall n :: n in queue <==> n in ids[..i] && n in indeg && indeg[n] == 0
  }

  lemma {:induction false} ZerosStep(ids: seq<NodeId>, i: nat, indeg: map<NodeId, int>, queue: seq<NodeId>)
    requires Distinct(ids) && i < |ids| && ids[i] in indeg && ZerosUpTo(ids, i, indeg, queue)
    ensures ZerosUpTo(ids, i + 1, indeg, if indeg[ids[i]] == 0 then queue + [ids[i]] else queue)
  {
    assert ids[..i + 1] == ids[..i] + [ids[i]];
    assert ids[i] !in ids[..i];
  }

  ghost predicate EdgeLists(
    edges: seq<Edge>, ids: seq<NodeId>, incoming: map<NodeId, seq<Edge>>, outgoing: map<NodeId, seq<Edge>>)
  {
    && incoming.Keys == Elements(ids)
    && outgoing.Keys == Elements(ids)
    && (forall n | n in incoming :: incoming[n] == EdgesTo(edges, n))
    && (forall n | n in outgoing :: outgoing[n] == EdgesFrom(edges, n))
  }

  lemma {:induction false} EdgeListsStep(
    edges: seq<Edge>, i: nat, ids: seq<NodeId>, incoming: map<NodeId, seq<Edge>>, outgoing: map<NodeId, seq<Edge>>)
    requires i < |edges| && edges[i].from in ids && edges[i].to in ids
    requires EdgeLists(edges[..i], ids, incoming, outgoing)
    ensures var e := edges[i];
            EdgeLists(edges[..i + 1], ids, incoming[e.to := incoming[e.to] + [e]],
              outgoing[e.from := outgoing[e.from] + [e]])
  {
    assert edges[..i + 1][..i] == edges[..i];
  }

  // ----- readiness -----

  predicate EdgeSatisfied(t: Template, e: Edge, completed: set<NodeId>, ctx: Context) {
    e.from in completed && (e.condition.Some? ==> t.evaluate(e.condition.value, ctx))
  }

  /** Every incoming edge is satisfied; vacuously so for a root. */
  predicate IsReady(t: Template, n: NodeId, completed: set<NodeId>, ctx: Context) {
    forall e | e in t.edges && e.to == n :: EdgeSatisfied(t, e, completed, ctx)
  }

  function ReadyAmong(t: Template, ids: seq<NodeId>, completed: set<NodeId>, ctx: Context,
                      exclude: set<NodeId>): seq<NodeId>
  {
    if ids == [] then [] else
      var last := ids[|ids| - 1];
      ReadyAmong(t, ids[..|ids| - 1], completed, ctx, exclude)
      + if last !in completed + exclude && IsReady(t, last, completed, ctx) then [last] else []
  }

  /** The ready set, in declaration order. */
  function ReadyNodes(t: Template, completed: set<NodeId>, ctx: Context, exclude: set<NodeId>): seq<NodeId> {
    ReadyAmong(t, Ids(t.nodes), completed, ctx, exclude)
  }

  lemma {:induction false} ReadyAmongMembers(
    t: Template, ids: seq<NodeId>, completed: set<NodeId>, ctx: Context, exclude: set<NodeId>, n: NodeId)
    ensures n in ReadyAmong(t, ids, completed, ctx, exclude)
            <==> n in ids && n !in completed + exclude && IsReady(t, n, completed, ctx)
  {
    if ids != [] {
      var front := ids[..|ids| - 1];
      ReadyAmongMembers(t, front, completed, ctx, exclude, n);
      assert ids == front + [ids[|ids| - 1]];
    }
  }

  lemma {:induction false} ReadyAmongDistinct(
    t: Template, ids: seq<NodeId>, completed: set<NodeId>, ctx: Context, exclude: set<NodeId>)
    requires Distinct(ids)
    ensures Distinct(ReadyAmong(t, ids, completed, ctx, exclude))
  {
    if ids != [] {
      var front, last := ids[..|ids| - 1], ids[|ids| - 1];
      ReadyAmongDistinct(t, front, completed, ctx, exclude);
      ReadyAmongMembers(t, front, completed, ctx, exclude, last);
    }
  }

  /** The mutable traversal view built over a template. */
  class CampaignGraph {
    const template: Template
    var nodes: seq<NodeId>
    var incoming: map<NodeId, seq<Edge>>
    var outgoing: map<NodeId, seq<Edge>>

    ghost predicate Valid()
      reads this
    {
      && WellFormed(template)
      && nodes == Ids(template.nodes)
      && EdgeLists(template.edges, nodes, incoming, outgoing)
    }

    constructor (t: Template)
      requires WellFormed(t)
      ensures Valid() && template == t
    {
      template := t;
      nodes := Ids(t.nodes);
      incoming := map n | n in Ids(t.nodes) :: [];
      outgoing := map n | n in Ids(t.nodes) :: [];
      new;
      LinkEdges();
    }

    method LinkEdges()
      requires WellFormed(template) && nodes == Ids(template.nodes)
      requires EdgeLists([], nodes, incoming, outgoing)
      modifies `incoming, `outgoing
      ensures Valid()
    {
      for i := 0 to |template.edges|
        invariant EdgeLists(template.edges[..i], nodes, incoming, outgoing)
      {
        var e := template.edges[i];
        EdgeListsStep(template.edges, i, nodes, incoming, outgoing);
        outgoing := outgoing[e.from := outgoing[e.from] + [e]];
        incoming := incoming[e.to := incoming[e.to] + [e]];
      }
      assert template.edges[..|template.edges|] == template.edges;
    }

    /** Building a graph checks it: a cyclic template gives no graph but the nodes
        on or downstream of a cycle. */
    static method Build(t: Template) returns (r: Result<CampaignGraph, set<NodeId>>)
      requires WellFormed(t)
      ensures r.Success? <==> Acyclic(EdgeSet(t))
      ensures r.Success? ==> fresh(r.value) && r.value.Valid() && r.value.template == t
      ensures r.Failure? ==>
                r.error != {}
                && forall n :: n in r.error <==> HasNode(t, n) && DownstreamOfCycle(EdgeSet(t), n)
    {
      var graph := new CampaignGraph(t);
      var order := graph.TopologicalOrder();
      if order.Failure? {
        return Failure(order.error);
      }
      return Success(graph);
    }

    /** Kahn's algorithm.  It succeeds exactly on acyclic graphs, with every
        node listed once and every edge going forward; otherwise it names
        exactly the nodes on or downstream of a cycle. */
    method TopologicalOrder() returns (r: Result<seq<NodeId>, set<NodeId>>)
      requires Valid()
      ensures r.Success? <==> Acyclic(EdgeSet(template))
      ensures r.Success? ==>
                && Distinct(r.value) && Elements(r.value) == Elements(nodes)
                && PredecessorsFirst(EdgeSet(template), r.value)
      ensures r.Failure? ==>
                r.error != {}
                && forall n :: n in r.error <==> n in nodes && DownstreamOfCycle(EdgeSet(template), n)
    {
      var indeg, queue := InitialQueue();
      var order: seq<NodeId> := [];
      assert Elements(order) == {};
      while queue != []
        invariant indeg.Keys == Elements(nodes)
        invariant Distinct(order) && PredecessorsFirst(EdgeSet(template), order)
        invariant Elements(order) <= Elements(nodes)
        invariant Tracks(template.edges, indeg, queue, Elements(order), [])
        decreases |nodes| - |order|
      {
        var nid := queue[0];
        PopListed(order, indeg, queue);
        TracksStart(template.edges, nid, indeg, queue[1..], Elements(order));
        order := order + [nid];
        indeg, queue := Retire(template.edges, Elements(order), outgoing[nid], indeg, queue[1..]);
      }
      Conclude(order, indeg);
      if |order| != |nodes| {
        var remaining := set n | n in nodes && n !in order;
        assert remaining != {} by {
          var n :| n in nodes && n !in order;
          assert n in remaining;
        }
        return Failure(remaining);
      }
      return Success(order);
    }

    method InitialQueue() returns (indeg: map<NodeId, int>, queue: seq<NodeId>)
      requires Valid()
      ensures indeg.Keys == Elements(nodes)
      ensures Tracks(template.edges, indeg, queue, {}, [])
    {
      indeg := map n | n in nodes :: |incoming[n]|;
      queue := [];
      for i := 0 to |nodes|
        invariant ZerosUpTo(nodes, i, indeg, queue)
      {
        ZerosStep(nodes, i, indeg, queue);
        if indeg[nodes[i]] == 0 {
          queue := queue + [nodes[i]];
        }
      }
      assert nodes[..|nodes|] == nodes;
      forall n | n in indeg ensures indeg[n] == Pending(template.edges, {}, n) + Hits([], n) {
        PendingAtStart(template.edges, n);
      }
    }

    /** Take the edges of one finished node off the in-degrees and queue
        whatever reaches zero. */
    static method Retire(
      ghost edges: seq<Edge>, ghost done: set<NodeId>, out: seq<Edge>, indeg0: map<NodeId, int>, queue0: seq<NodeId>)
      returns (indeg: map<NodeId, int>, queue: seq<NodeId>)
      requires Tracks(edges, indeg0, queue0, done, out)
      ensures indeg.Keys == indeg0.Keys
      ensures Tracks(edges, indeg, queue, done, [])
    {
      indeg, queue := indeg0, queue0;
      ghost var left := out;
      for j := 0 to |out|
        invariant left == out[j..]
        invariant indeg.Keys == indeg0.Keys
        invariant Tracks(edges, indeg, queue, done, left)
      {
        var to := out[j].to;
        TracksStep(edges, indeg, queue, done, left);
        left := left[1..];
        indeg := indeg[to := indeg[to] - 1];
        queue := if indeg[to] == 0 then queue + [to] else queue;
      }
    }

    lemma {:induction false} DistinctWithin(order: seq<NodeId>)
      requires Valid() && Distinct(order) && Elements(order) <= Elements(nodes)
      ensures |order| <= |nodes|
      ensures |order| == |nodes| <==> Elements(order) == Elements(nodes)
    {
      DistinctSize(order);
      DistinctSize(nodes);
      SubsetSize(Elements(order), Elements(nodes));
    }

    lemma {:induction false} PopListed(order: seq<NodeId>, indeg: map<NodeId, int>, queue: seq<NodeId>)
      requires Valid() && queue != []
      requires indeg.Keys == Elements(nodes)
      requires Distinct(order) && PredecessorsFirst(EdgeSet(template), order) && Elements(order) <= Elements(nodes)
      requires Tracks(template.edges, indeg, queue, Elements(order), [])
      ensures var longer := order + [queue[0]];
              && Distinct(longer) && PredecessorsFirst(EdgeSet(template), longer)
              && Elements(longer) == Elements(order) + {queue[0]} && Elements(longer) <= Elements(nodes)
              && |longer| <= |nodes|
      ensures queue == [queue[0]] + queue[1..] && queue[0] in nodes
    {
      var nid := queue[0];
      QueuedIsFree(template, indeg, queue, order);
      AppendListed(EdgeSet(template), order, nid);
      DistinctWithin(order + [nid]);
    }

    lemma {:induction false} Conclude(order: seq<NodeId>, indeg: map<NodeId, int>)
      requires Valid() && Distinct(order) && Elements(order) <= Elements(nodes)
      requires PredecessorsFirst(EdgeSet(template), order)
      requires indeg.Keys == Elements(nodes) && Tracks(template.edges, indeg, [], Elements(order), [])
      ensures |order| == |nodes| <==> Elements(order) == Elements(nodes)
      ensures |order| == |nodes| <==> Acyclic(EdgeSet(template))
      ensures |order| != |nodes| ==> exists n :: n in nodes && n !in order
      ensures forall n | n in nodes :: n !in order <==> DownstreamOfCycle(EdgeSet(template), n)
    {
      assert Elements<NodeId>([]) == {};
      var edges := EdgeSet(template);
      var rest := set n | n in Elements(nodes) && n !in order;
      forall n | n in rest ensures HasPredecessorIn(edges, rest, n) {
        PendingZero(template.edges, Elements(order), n);
        var e :| e in template.edges && e.to == n && e.from !in Elements(order);
        assert (e.from, e.to) in edges;
      }
      forall n | n in nodes ensures n !in order <==> DownstreamOfCycle(edges, n) {
        LeftoverIsDownstreamOfCycle(edges, Elements(nodes), order, n);
      }
      DistinctWithin(order);
      AcyclicMeansNothingDownstream(edges, Elements(nodes));
    }

    /** The scan over declaration order agrees with the specification. */
    method Ready(completed: set<NodeId>, ctx: Context, exclude: set<NodeId>) returns (ready: seq<NodeId>)
      requires Valid()
      ensures ready == ReadyNodes(template, completed, ctx, exclude)
    {
      var skip := completed + exclude;
      ready := [];
      for i := 0 to |nodes|
        invariant ready == ReadyAmong(template, nodes[..i], completed, ctx, exclude)
      {
        var nid := nodes[i];
        assert nodes[..i + 1][..i] == nodes[..i];
        if nid in skip {
          continue;
        }
        var arriving := incoming[nid];
        forall e ensures e in arriving <==> e in template.edges && e.to == nid {
          EdgesToMembers(template.edges, nid, e);
        }
        if arriving == [] {
          assert IsReady(template, nid, completed, ctx) by {
            assert forall e :: e !in arriving;
          }
          ready := ready + [nid];
          continue;
        }
        if forall e | e in arriving :: EdgeSatisfied(template, e, completed, ctx) {
          ready := ready + [nid];
        }
      }
      assert nodes[..|nodes|] == nodes;
    }

    method Roots() returns (roots: seq<NodeId>)
      requires Valid()
      ensures forall n :: n in roots <==> n in nodes && forall e | e in template.edges :: e.to != n
    {
      roots := [];
      for i := 0 to |nodes|
        invariant forall n :: n in roots <==> n in nodes[..i] && incoming[n] == []
      {
        if incoming[nodes[i]] == [] {
          roots := roots + [nodes[i]];
        }
      }
      assert nodes[..|nodes|] == nodes;
      forall n | n in nodes ensures incoming[n] == [] <==> forall e | e in template.edges :: e.to != n {
        NothingArrives(template.edges, n);
      }
    }
  }
}
