/** What every reachable state of a campaign satisfies: the buckets, the step
    records and the pass in progress. */
module CampaignInvariants {
  import opened Basics
  import opened Digraph
  import opened CampaignModel
  import opened CampaignGraphs
  import opened CampaignSemantics

  /** All predecessors of n are completed. */
  ghost predicate Unlocked(t: Template, run: Run, n: NodeId) {
    forall e | e in t.edges && e.to == n :: e.from in run.completed
  }

  /** Holds in every history, however approvals and node ids are mixed up. */
  ghost predicate Sound(t: Template, run: Run) {
    && Distinct(run.completed) && Distinct(run.failed) && Distinct(run.blocked) && Distinct(run.needsApproval)
    && (forall n | n in run.completed :: n in run.steps && n !in run.failed)
    && (forall n | n in run.failed :: n in run.steps)
    && (forall n | n in run.needsApproval ::
          n in run.steps && n !in run.completed && n !in run.failed && n !in run.blocked)
    && (forall n | n in run.steps :: HasNode(t, n) && Unlocked(t, run, n))
  }

  ghost predicate PassSound(t: Template, w: World) {
    && (!w.driving ==> w.pass == [])
    && Distinct(w.pass)
    && forall n | n in w.pass :: HasNode(t, n) && n !in Excluded(w.core.run) && Unlocked(t, w.core.run, n)
  }

  /** The full bucket discipline: pairwise disjoint lists whose members carry
      the matching step status. */
  ghost predicate Buckets(run: Run) {
    && (forall n | n in run.blocked ::
          n in run.steps && n !in run.completed && n !in run.failed && run.steps[n].status == NodeBlocked)
    && (forall n | n in run.completed :: n in run.steps && run.steps[n].status == NodeCompleted)
    && (forall n | n in run.failed :: n in run.steps && run.steps[n].status == NodeFailed)
    && (forall n | n in run.needsApproval :: n in run.steps && run.steps[n].status == NodeNeedsApproval)
  }

  // ----- list operations -----

  lemma {:induction false} MarkFacts(bucket: seq<NodeId>, n: NodeId)
    requires Distinct(bucket)
    ensures Distinct(Mark(bucket, n))
    ensures forall m :: m in Mark(bucket, n) <==> m in bucket || m == n
  {
  }

  lemma {:induction false} UnmarkFacts(bucket: seq<NodeId>, n: NodeId)
    requires Distinct(bucket)
    ensures Distinct(Unmark(bucket, n))
    ensures forall m :: m in Unmark(bucket, n) <==> m in bucket && m != n
  {
    if bucket != [] && bucket[0] != n {
      assert bucket == [bucket[0]] + bucket[1..];
      UnmarkFacts(bucket[1..], n);
      var rest := Unmark(bucket[1..], n);
      assert bucket[0] !in bucket[1..];
      assert Unmark(bucket, n) == [bucket[0]] + rest;
    } else if bucket != [] {
      assert bucket == [bucket[0]] + bucket[1..];
      assert n !in bucket[1..];
    }
  }

  lemma {:induction false} UnmarkAbsent(bucket: seq<NodeId>, n: NodeId)
    requires n !in bucket
    ensures Unmark(bucket, n) == bucket
  {
    if bucket != [] {
      UnmarkAbsent(bucket[1..], n);
    }
  }

  lemma {:induction false} KeepUnclearedFacts(c: Core, nodes: seq<NodeId>)
    requires Distinct(nodes)
    ensures Distinct(KeepUncleared(c, nodes))
    ensures forall m :: m in KeepUncleared(c, nodes) <==> m in nodes && !Cleared(c, m)
  {
    if nodes != [] {
      assert nodes == [nodes[0]] + nodes[1..];
      assert nodes[0] !in nodes[1..];
      KeepUnclearedFacts(c, nodes[1..]);
    }
  }

  lemma {:induction false} UnmarkMiddle(a: seq<NodeId>, n: NodeId, b: seq<NodeId>)
    requires n !in a
    ensures Unmark(a + [n] + b, n) == a + b
  {
    if a == [] {
      assert (a + [n] + b)[1..] == b;
    } else {
      UnmarkMiddle(a[1..], n, b);
      HeadOff(a, [n] + b);
      HeadOff(a, b);
      assert a + [n] + b == a + ([n] + b) && a[1..] + [n] + b == a[1..] + ([n] + b);
    }
  }

  lemma {:induction false} HeadOff(a: seq<NodeId>, b: seq<NodeId>)
    requires a != []
    ensures (a + b)[0] == a[0] && (a + b)[1..] == a[1..] + b
    ensures [a[0]] + (a[1..] + b) == a + b
  {
  }

  lemma {:induction false} KeepUnclearedAppend(c: Core, nodes: seq<NodeId>, n: NodeId)
    ensures KeepUncleared(c, nodes + [n]) == KeepUncleared(c, nodes) + if Cleared(c, n) then [] else [n]
  {
    if nodes != [] {
      assert (nodes + [n])[1..] == nodes[1..] + [n];
      KeepUnclearedAppend(c, nodes[1..], n);
    }
  }

  // ----- executing a schedulable node -----

  /** What a pass guarantees about the node it executes next. */
  ghost predicate Schedulable(t: Template, run: Run, n: NodeId) {
    HasNode(t, n) && n !in Excluded(run) && Unlocked(t, run, n)
  }

  function AppendIf(bucket: seq<NodeId>, n: NodeId, here: bool): seq<NodeId> {
    if here then bucket + [n] else bucket
  }

  /** Executing a node lands it in exactly one bucket, the one its status names;
      nothing else moves, and only completion changes the context. */
  ghost predicate Lands(c: Run, d: Run, n: NodeId) {
    && d.state == c.state
    && d.steps.Keys == c.steps.Keys + {n}
    && (forall m | m in c.steps && m != n :: d.steps[m] == c.steps[m])
    && d.steps[n].status in {NodeCompleted, NodeFailed, NodeBlocked, NodeNeedsApproval}
    && d.completed == AppendIf(c.completed, n, d.steps[n].status == NodeCompleted)
    && d.failed == AppendIf(c.failed, n, d.steps[n].status == NodeFailed)
    && d.blocked == AppendIf(c.blocked, n, d.steps[n].status == NodeBlocked)
    && d.needsApproval == AppendIf(c.needsApproval, n, d.steps[n].status == NodeNeedsApproval)
    && (d.steps[n].status != NodeCompleted ==> d.ctx == c.ctx)
  }

  ghost predicate InNoBucket(run: Run, n: NodeId) {
    n !in run.completed && n !in run.failed && n !in run.blocked && n !in run.needsApproval
  }

  lemma {:induction false} DispatchLands(c: Core, node: Node, level: ApprovalLevel, outcomes: seq<Outcome>)
    requires InNoBucket(c.run, node.id)
    ensures Lands(c.run, Dispatch(c, node, level, outcomes).run, node.id)
  {
    UnmarkAbsent(c.run.needsApproval, node.id);
    UnmarkAbsent(c.run.blocked, node.id);
    UnmarkAbsent(c.run.failed, node.id);
  }

  lemma {:induction false} PerformLands(c: Core, node: Node, minted: Option<ApprovalId>, outcomes: seq<Outcome>)
    requires InNoBucket(c.run, node.id)
    ensures Lands(c.run, Perform(c, node, minted, outcomes).run, node.id)
  {
    var n := node.id;
    var level := ResolveLevel(node, c.run.ctx.overrides);
    var approval := StepOf(c.run, n).approval;
    if !Unsafe(node) {
      if level == NoApproval {
        DispatchLands(c, node, level, outcomes);
      } else if approval.Some? {
        var d := ReadGate(c, n, approval.value);
        if Satisfied(c.rows, approval) {
          DispatchLands(d, node, level, outcomes);
        }
        SameBucketsLand(c.run, d.run, Perform(c, node, minted, outcomes).run, n);
      }
    }
  }

  /** Which approvals a run lists as required does not matter. */
  lemma {:induction false} SameBucketsLand(c: Run, d: Run, e: Run, n: NodeId)
    requires d == c.(required := d.required) && Lands(d, e, n)
    ensures Lands(c, e, n)
  {
  }

  lemma {:induction false} AppendFacts(bucket: seq<NodeId>, n: NodeId, here: bool)
    requires Distinct(bucket) && n !in bucket
    ensures Distinct(AppendIf(bucket, n, here))
    ensures forall m :: m in AppendIf(bucket, n, here) <==> m in bucket || (here && m == n)
  {
  }

  lemma {:induction false} LandsMembers(t: Template, c: Run, d: Run, n: NodeId)
    requires Sound(t, c) && InNoBucket(c, n) && Lands(c, d, n)
    ensures Distinct(d.completed) && Distinct(d.failed) && Distinct(d.blocked) && Distinct(d.needsApproval)
    ensures forall m :: m in d.completed <==> m in c.completed || (m == n && d.steps[n].status == NodeCompleted)
    ensures forall m :: m in d.failed <==> m in c.failed || (m == n && d.steps[n].status == NodeFailed)
    ensures forall m :: m in d.blocked <==> m in c.blocked || (m == n && d.steps[n].status == NodeBlocked)
    ensures forall m :: m in d.needsApproval <==>
        m in c.needsApproval || (m == n && d.steps[n].status == NodeNeedsApproval)
  {
    AppendFacts(c.completed, n, d.steps[n].status == NodeCompleted);
    AppendFacts(c.failed, n, d.steps[n].status == NodeFailed);
    AppendFacts(c.blocked, n, d.steps[n].status == NodeBlocked);
    AppendFacts(c.needsApproval, n, d.steps[n].status == NodeNeedsApproval);
  }

  lemma {:induction false} InExcluded(run: Run, n: NodeId)
    ensures n in Excluded(run) <==> !InNoBucket(run, n)
  {
  }

  lemma {:induction false} LandsExcluded(t: Template, c: Run, d: Run, n: NodeId)
    requires Sound(t, c) && InNoBucket(c, n) && Lands(c, d, n)
    ensures Excluded(d) == Excluded(c) + {n}
  {
    LandsMembers(t, c, d, n);
    forall m ensures m in Excluded(d) <==> m in Excluded(c) + {n} {
      InExcluded(c, m);
      InExcluded(d, m);
    }
  }

  lemma {:induction false} LandsKeepsSound(t: Template, c: Run, d: Run, n: NodeId)
    requires Sound(t, c) && Schedulable(t, c, n) && Lands(c, d, n)
    ensures Sound(t, d)
    ensures forall m :: Unlocked(t, c, m) ==> Unlocked(t, d, m)
  {
    InExcluded(c, n);
    LandsMembers(t, c, d, n);
    assert forall m :: m in c.completed ==> m in d.completed;
    assert forall m :: Unlocked(t, c, m) ==> Unlocked(t, d, m);
  }

  lemma {:induction false} LandsKeepsBuckets(t: Template, c: Run, d: Run, n: NodeId)
    requires Sound(t, c) && Schedulable(t, c, n) && Lands(c, d, n) && Buckets(c)
    ensures Buckets(d)
  {
    InExcluded(c, n);
    LandsMembers(t, c, d, n);
  }

  // ----- every action keeps the invariant -----

  lemma {:induction false} ReadyNowFacts(t: Template, run: Run)
    requires WellFormed(t)
    ensures Distinct(ReadyNow(t, run))
    ensures forall n :: n in ReadyNow(t, run) <==>
                        HasNode(t, n) && n !in Excluded(run) && IsReady(t, n, CompletedSet(run), run.ctx)
    ensures forall n | n in ReadyNow(t, run) :: Schedulable(t, run, n)
  {
    ReadyAmongDistinct(t, Ids(t.nodes), CompletedSet(run), run.ctx, Excluded(run));
    forall n ensures n in ReadyNow(t, run) <==>
                     HasNode(t, n) && n !in CompletedSet(run) + Excluded(run) &&
                       IsReady(t, n, CompletedSet(run), run.ctx)
    {
      ReadyAmongMembers(t, Ids(t.nodes), CompletedSet(run), run.ctx, Excluded(run), n);
    }
    forall n | n in ReadyNow(t, run) ensures Schedulable(t, run, n) {
      forall e | e in t.edges && e.to == n ensures e.from in run.completed {
        assert EdgeSatisfied(t, e, CompletedSet(run), run.ctx);
      }
    }
  }

  lemma {:induction false} BlockRejectedKeepsSound(t: Template, c: Core, target: Option<NodeId>)
    requires Sound(t, c.run)
    ensures Sound(t, BlockRejected(c, target).run)
  {
    if target.Some? {
      MarkFacts(c.run.blocked, target.value);
      UnmarkFacts(c.run.needsApproval, target.value);
    }
  }

  lemma {:induction false} ExecuteKeepsSound(t: Template, w: World, a: Action)
    requires Sound(t, w.core.run) && PassSound(t, w)
    requires a.Execute? && Enabled(t, w, a)
    ensures Sound(t, Next(t, w, a).core.run) && PassSound(t, Next(t, w, a))
    ensures Buckets(w.core.run) ==> Buckets(Next(t, w, a).core.run)
  {
    var n := w.pass[0];
    InExcluded(w.core.run, n);
    PerformLands(w.core, NodeOf(t, n), a.minted, a.outcomes);
    LandsKeepsSound(t, w.core.run, Next(t, w, a).core.run, n);
    if Buckets(w.core.run) {
      LandsKeepsBuckets(t, w.core.run, Next(t, w, a).core.run, n);
    }
    LandsExcluded(t, w.core.run, Next(t, w, a).core.run, n);
    PassTail(t, w, Next(t, w, a));
  }

  lemma {:induction false} PassTail(t: Template, v: World, w: World)
    requires PassSound(t, v) && v.driving && v.pass != [] && w.driving && w.pass == v.pass[1..]
    requires Excluded(w.core.run) == Excluded(v.core.run) + {v.pass[0]}
    requires forall m :: Unlocked(t, v.core.run, m) ==> Unlocked(t, w.core.run, m)
    ensures PassSound(t, w)
  {
    assert forall i | 0 <= i < |w.pass| :: w.pass[i] == v.pass[i + 1];
  }

  lemma {:induction false} ActionKeepsSound(t: Template, w: World, a: Action)
    requires WellFormed(t) && Sound(t, w.core.run) && PassSound(t, w)
    requires Enabled(t, w, a)
    ensures Sound(t, Next(t, w, a).core.run) && PassSound(t, Next(t, w, a))
  {
    match a
    case Execute(_, _) => ExecuteKeepsSound(t, w, a);
    case OpenPass => ReadyNowFacts(t, w.core.run);
    case Advance => AdvanceKeepsSound(t, w.core);
    case ApproveNode(id, node) => ApproveKeepsSound(t, w.core, id, node);
    case RejectNode(id, node) =>
      BlockRejectedKeepsSound(t, Decide(w.core, id, Rejected), if node.Some? then node else w.core.rows[id].node);
    case _ =>
  }

  lemma {:induction false} AdvanceKeepsSound(t: Template, c: Core)
    requires Sound(t, c.run)
    ensures Sound(t, Reconcile(c).run)
  {
    KeepUnclearedFacts(c, c.run.needsApproval);
  }

  lemma {:induction false} ApproveKeepsSound(t: Template, c: Core, id: ApprovalId, node: Option<NodeId>)
    requires Sound(t, c.run) && id in c.rows
    ensures Sound(t, Approve(c, id, node).run)
  {
    var target := if node.Some? then node else c.rows[id].node;
    if target.Some? {
      UnmarkFacts(c.run.needsApproval, target.value);
    }
  }

  /** The bucket and scheduling invariant of every reachable state. */
  lemma {:induction false} HistorySound(t: Template, origin: World, acts: seq<Action>)
    requires History(t, origin, acts)
    ensures Sound(t, Replay(t, origin, acts).core.run) && PassSound(t, Replay(t, origin, acts))
  {
    if acts != [] {
      var before := acts[..|acts| - 1];
      HistorySound(t, origin, before);
      ActionKeepsSound(t, Replay(t, origin, before), acts[|acts| - 1]);
    }
  }

  // ----- the bucket discipline, and exactly when a rejection breaks it -----

  /** A rejection aims at a node whose gate has been reached and which has
      neither completed nor failed, or at no node at all. */
  ghost predicate WellAimed(run: Run, target: Option<NodeId>) {
    target.Some? ==> target.value in run.steps && target.value !in run.completed && target.value !in run.failed
  }

  function TargetOf(rows: map<ApprovalId, Approval>, id: ApprovalId, node: Option<NodeId>): Option<NodeId> {
    if node.Some? then node else if id in rows then rows[id].node else None
  }

  /** A rejection keeps the bucket discipline if and only if it is well aimed. */
  lemma {:induction false} RejectKeepsBuckets(t: Template, w: World, id: ApprovalId, node: Option<NodeId>)
    requires Sound(t, w.core.run) && Buckets(w.core.run)
    requires Enabled(t, w, RejectNode(id, node))
    ensures Buckets(Next(t, w, RejectNode(id, node)).core.run) <==>
        WellAimed(w.core.run, TargetOf(w.core.rows, id, node))
  {
    var c := Decide(w.core, id, Rejected);
    var target := TargetOf(w.core.rows, id, node);
    assert Reject(t, w.core, id, node) == Settle(t, BlockRejected(c, target));
    BlockRejectedBuckets(t, c, target);
  }

  lemma {:induction false} BlockRejectedBuckets(t: Template, c: Core, target: Option<NodeId>)
    requires Sound(t, c.run) && Buckets(c.run)
    ensures Buckets(BlockRejected(c, target).run) <==> WellAimed(c.run, target)
  {
    if target.Some? {
      MarkFacts(c.run.blocked, target.value);
      UnmarkFacts(c.run.needsApproval, target.value);
      assert target.value in BlockRejected(c, target).run.blocked;
    }
  }

  /** Every action but a badly aimed rejection keeps the discipline. */
  lemma {:induction false} ActionKeepsBuckets(t: Template, w: World, a: Action)
    requires WellFormed(t) && Sound(t, w.core.run) && PassSound(t, w) && Buckets(w.core.run)
    requires Enabled(t, w, a)
    requires a.RejectNode? ==> WellAimed(w.core.run, TargetOf(w.core.rows, a.id, a.node))
    ensures Buckets(Next(t, w, a).core.run)
  {
    match a
    case Execute(_, _) => ExecuteKeepsSound(t, w, a);
    case Advance => KeepUnclearedFacts(w.core, w.core.run.needsApproval);
    case ApproveNode(id, node) =>
      var target := if node.Some? then node else w.core.rows[id].node;
      if target.Some? {
        UnmarkFacts(w.core.run.needsApproval, target.value);
      }
    case RejectNode(id, node) => RejectKeepsBuckets(t, w, id, node);
    case _ =>
  }

  ghost predicate AllWellAimed(t: Template, origin: World, acts: seq<Action>) {
    forall i | 0 <= i < |acts| && acts[i].RejectNode? ::
      var w := Replay(t, origin, acts[..i]);
      WellAimed(w.core.run, TargetOf(w.core.rows, acts[i].id, acts[i].node))
  }

  /** In every history whose rejections are well aimed the buckets are duplicate
      free, pairwise disjoint, match the step statuses, and hold only nodes
      whose predecessors are all completed. */
  lemma {:induction false} HistoryBuckets(t: Template, origin: World, acts: seq<Action>)
    requires History(t, origin, acts) && AllWellAimed(t, origin, acts)
    ensures Buckets(Replay(t, origin, acts).core.run)
    ensures forall n | n in Excluded(Replay(t, origin, acts).core.run) ::
              HasNode(t, n) && Unlocked(t, Replay(t, origin, acts).core.run, n)
  {
    HistorySound(t, origin, acts);
    if acts != [] {
      var before, last := acts[..|acts| - 1], |acts| - 1;
      assert forall i | 0 <= i < last :: before[..i] == acts[..i];
      HistoryBuckets(t, origin, before);
      HistorySound(t, origin, before);
      assert acts[..last] == before;
      ActionKeepsBuckets(t, Replay(t, origin, before), acts[last]);
    }
  }

  // ----- settling -----

  lemma {:induction false} AllCompletedBySize(t: Template, run: Run)
    requires WellFormed(t) && Sound(t, run)
    ensures |CompletedSet(run)| >= |t.nodes| <==> forall n | HasNode(t, n) :: n in run.completed
  {
    var all := Elements(Ids(t.nodes));
    DistinctSize(Ids(t.nodes));
    SubsetSize(CompletedSet(run), all);
    if forall n | HasNode(t, n) :: n in run.completed {
      assert forall n | n in all :: HasNode(t, n);
      assert all == CompletedSet(run);
    }
    if |CompletedSet(run)| >= |t.nodes| {
      assert forall n | HasNode(t, n) :: n in all;
    }
  }

  /** Settling a run that is not cancelled reports completion exactly when every
      node of the template is completed. */
  lemma {:induction false} SettleReportsCompletion(t: Template, c: Core)
    requires WellFormed(t) && Sound(t, c.run)
    ensures c.run.state == Cancelled ==> Settle(t, c) == c
    ensures c.run.state != Cancelled ==>
              (Settle(t, c).run.state == Completed <==> forall n | HasNode(t, n) :: n in c.run.completed)
  {
    AllCompletedBySize(t, c.run);
  }
}
