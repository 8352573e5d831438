/** Drives end at a fixpoint, and at a fixpoint every node that has not completed
    has a reason. */
module CampaignProgress {
  import opened Basics
  import opened Digraph
  import opened CampaignModel
  import opened CampaignGraphs
  import opened CampaignSemantics
  import opened CampaignInvariants

  /** A node that explains why others wait: it sits in a bucket, or everything
      before it is completed but the condition of an incoming edge is false. */
  ghost predicate Culprit(t: Template, run: Run, n: NodeId) {
    && HasNode(t, n) && n !in run.completed
    && ( || n in run.failed || n in run.blocked || n in run.needsApproval
         || (Unlocked(t, run, n) && FalseCondition(t, run, n)))
  }

  ghost predicate FalseCondition(t: Template, run: Run, n: NodeId) {
    exists e :: e in t.edges && e.to == n && e.condition.Some? && !t.evaluate(e.condition.value, run.ctx)
  }

  /** A walk from a culprit to n through uncompleted nodes only. */
  ghost predicate Explains(t: Template, run: Run, p: seq<NodeId>, n: NodeId) {
    && IsWalk(EdgeSet(t), p) && p[|p| - 1] == n
    && Culprit(t, run, p[0])
    && forall i | 0 <= i < |p| :: p[i] !in run.completed
  }

  lemma {:induction false} NotReadyReason(t: Template, run: Run, n: NodeId) returns (u: NodeId)
    requires WellFormed(t) && ReadyNow(t, run) == []
    requires HasNode(t, n) && n !in run.completed && !Culprit(t, run, n)
    ensures (u, n) in EdgeSet(t) && HasNode(t, u) && u !in run.completed
  {
    ReadyNowFacts(t, run);
    InExcluded(run, n);
    assert n !in ReadyNow(t, run);
    assert !IsReady(t, n, CompletedSet(run), run.ctx);
    var e :| e in t.edges && e.to == n && !EdgeSatisfied(t, e, CompletedSet(run), run.ctx);
    if e.from in run.completed {
      assert FalseCondition(t, run, n);
      var f :| f in t.edges && f.to == n && f.from !in run.completed;
      u := f.from;
    } else {
      u := e.from;
    }
  }

  lemma {:induction false} NodesFit(t: Template, p: seq<NodeId>)
    requires WellFormed(t) && Distinct(p) && forall i | 0 <= i < |p| :: HasNode(t, p[i])
    ensures |p| <= |t.nodes|
  {
    DistinctSize(p);
    DistinctSize(Ids(t.nodes));
    SubsetSize(Elements(p), Elements(Ids(t.nodes)));
  }

  /** Walk upstream from n; the walk gets longer, so on an acyclic template it
      must meet a culprit. */
  lemma {:induction false} TraceCulprit(t: Template, run: Run, p: seq<NodeId>) returns (q: seq<NodeId>)
    requires WellFormed(t) && Acyclic(EdgeSet(t)) && ReadyNow(t, run) == []
    requires IsWalk(EdgeSet(t), p) && Distinct(p)
    requires forall i | 0 <= i < |p| :: HasNode(t, p[i]) && p[i] !in run.completed
    ensures Explains(t, run, q, p[|p| - 1])
    decreases |t.nodes| - |p|
  {
    if Culprit(t, run, p[0]) {
      q := p;
    } else {
      q := StepUpstream(t, run, p);
      q := TraceCulprit(t, run, q);
    }
  }

  lemma {:induction false} StepUpstream(t: Template, run: Run, p: seq<NodeId>) returns (longer: seq<NodeId>)
    requires WellFormed(t) && Acyclic(EdgeSet(t)) && ReadyNow(t, run) == []
    requires IsWalk(EdgeSet(t), p) && Distinct(p) && !Culprit(t, run, p[0])
    requires forall i | 0 <= i < |p| :: HasNode(t, p[i]) && p[i] !in run.completed
    ensures IsWalk(EdgeSet(t), longer) && Distinct(longer) && longer[|longer| - 1] == p[|p| - 1]
    ensures forall i | 0 <= i < |longer| :: HasNode(t, longer[i]) && longer[i] !in run.completed
    ensures |longer| == |p| + 1 <= |t.nodes|
  {
    var u := NotReadyReason(t, run, p[0]);
    WalkFrom(EdgeSet(t), u, p);
    WalkIsFresh(EdgeSet(t), u, p);
    longer := [u] + p;
    assert forall i | 0 <= i < |p| :: longer[i + 1] == p[i];
    NodesFit(t, longer);
  }

  /** No unexplained stall: when nothing is ready, every uncompleted node is
      downstream, through uncompleted nodes only, of a culprit. */
  lemma {:induction false} NoUnexplainedStall(t: Template, run: Run, n: NodeId)
    requires WellFormed(t) && Acyclic(EdgeSet(t)) && ReadyNow(t, run) == []
    requires HasNode(t, n) && n !in run.completed
    ensures exists p :: Explains(t, run, p, n)
  {
    assert IsWalk(EdgeSet(t), [n]) && Distinct([n]);
    var q := TraceCulprit(t, run, [n]);
    assert [n][|[n]| - 1] == n;
  }

  /** So after every drive of every history, each uncompleted node is explained. */
  lemma {:induction false} EveryDriveIsExplained(t: Template, origin: World, acts: seq<Action>, w: World, n: NodeId)
    requires History(t, origin, acts) && acts != [] && acts[|acts| - 1].SettleDrive? && w == Replay(t, origin, acts)
    requires Acyclic(EdgeSet(t)) && HasNode(t, n) && n !in w.core.run.completed
    ensures exists p :: Explains(t, w.core.run, p, n)
  {
    var run := Replay(t, origin, acts[..|acts| - 1]).core.run;
    NoUnexplainedStall(t, run, n);
    var p :| Explains(t, run, p, n);
    assert Explains(t, w.core.run, p, n);
  }

  ghost predicate Unconditional(t: Template) {
    forall e | e in t.edges :: e.condition.None?
  }

  /** A drive that ends in PAUSED is waiting for a false condition and nothing
      else; so a template without conditions never ends a drive in PAUSED. */
  lemma {:induction false} PausedMeansFalseCondition(t: Template, origin: World, acts: seq<Action>, w: World)
    requires History(t, origin, acts) && acts != [] && acts[|acts| - 1].SettleDrive? && w == Replay(t, origin, acts)
    requires Acyclic(EdgeSet(t))
    requires w.core.run.state == Paused
    ensures exists n :: Unlocked(t, w.core.run, n) && FalseCondition(t, w.core.run, n) && InNoBucket(w.core.run, n)
    ensures !Unconditional(t)
  {
    var before := acts[..|acts| - 1];
    var v := Replay(t, origin, before);
    HistorySound(t, origin, before);
    var run := v.core.run;
    assert w.core.run.completed == run.completed && w.core.run.ctx == run.ctx;
    DrivingMeansRunning(t, origin, before);
    var n := StallsOnCondition(t, run);
    assert Unlocked(t, w.core.run, n) && FalseCondition(t, w.core.run, n) && InNoBucket(w.core.run, n);
  }

  lemma {:induction false} StallsOnCondition(t: Template, run: Run) returns (n: NodeId)
    requires WellFormed(t) && Acyclic(EdgeSet(t)) && Sound(t, run)
    requires ReadyNow(t, run) == [] && SettledState(t, run) == Paused
    ensures Unlocked(t, run, n) && FalseCondition(t, run, n) && InNoBucket(run, n)
  {
    AllCompletedBySize(t, run);
    var m :| HasNode(t, m) && m !in run.completed;
    NoUnexplainedStall(t, run, m);
    var p :| Explains(t, run, p, m);
    n := p[0];
  }

  /** While a drive is under way the run is RUNNING. */
  lemma {:induction false} DrivingMeansRunning(t: Template, origin: World, acts: seq<Action>)
    requires History(t, origin, acts)
    ensures Replay(t, origin, acts).driving ==> Replay(t, origin, acts).core.run.state == Running
  {
    if acts != [] {
      var before := acts[..|acts| - 1];
      DrivingMeansRunning(t, origin, before);
      HistorySound(t, origin, before);
      var w, a := Replay(t, origin, before), acts[|acts| - 1];
      if a.Execute? {
        InExcluded(w.core.run, w.pass[0]);
        PerformLands(w.core, NodeOf(t, w.pass[0]), a.minted, a.outcomes);
      }
    }
  }

  /** CANCELLED is left by approving a request and in no other way. */
  lemma {:induction false} OnlyApprovalLeavesCancelled(t: Template, w: World, a: Action)
    requires w.core.run.state == Cancelled && !w.driving && Enabled(t, w, a)
    ensures Next(t, w, a).core.run.state != Cancelled <==> a.ApproveNode?
  {
  }

  /** Rollback mode HALT changes nothing that leaving the node failed would not:
      siblings of the pass are still executed. */
  lemma {:induction false} HaltIsLeaveFailed(c: Core, node: Node, minted: Option<ApprovalId>, outcomes: seq<Outcome>)
    ensures Perform(c, node.(rollback := Halt), minted, outcomes)
            == Perform(c, node.(rollback := LeaveFailed), minted, outcomes)
  {
  }

  // ----- a pass that completes nothing exhausts the ready set -----

  /** If completions and context are as they were when the pass opened and every
      node that was ready then has landed in a bucket, nothing is ready now. */
  lemma {:induction false} BarrenPassExhausts(t: Template, first: Run, now: Run)
    requires WellFormed(t)
    requires now.completed == first.completed && now.ctx == first.ctx
    requires Excluded(first) <= Excluded(now)
    requires forall n | n in ReadyNow(t, first) :: n in Excluded(now)
    ensures ReadyNow(t, now) == []
  {
    var ready := ReadyNow(t, now);
    assert ready != [] ==> ready[0] in ready;
    ReadyNowFacts(t, first);
    ReadyNowFacts(t, now);
    assert forall n | n in ready :: n in ReadyNow(t, first);
  }

  lemma {:induction false} CompletedFits(t: Template, run: Run)
    requires WellFormed(t) && Sound(t, run)
    ensures |run.completed| <= |t.nodes|
  {
    assert forall n | n in run.completed :: HasNode(t, n);
    NodesFit(t, run.completed);
  }
}
