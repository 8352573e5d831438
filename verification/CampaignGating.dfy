/** The ledger of every history is causally sound: an attempt on a gated node
    follows a gate check that read its own approval as given, which follows the
    decision, which follows the request. */
module CampaignGating {
  import opened Basics
  import opened CampaignModel
  import opened CampaignSemantics

  // ----- what each ledger entry must be preceded by -----

  ghost function LastState(log: seq<Event>): CampaignState {
    if log == [] then Draft
    else if log[|log| - 1].Moved? then log[|log| - 1].to
    else LastState(log[..|log| - 1])
  }

  /** Requested for n, then approved, all before position i. */
  ghost predicate ApprovedBefore(log: seq<Event>, i: nat, id: ApprovalId, n: NodeId)
    requires i <= |log|
  {
    exists k, j :: 0 <= k < j < i && log[k] == Minted(id, n) && log[j] == Decided(id, Approved)
  }

  /** Attempt k of n at position i continues an unbroken series of failed
      attempts, which for a gated node begins right after a passed gate check. */
  ghost predicate AttemptInSeries(log: seq<Event>, i: nat, n: NodeId, level: ApprovalLevel, k: nat)
    requires i < |log|
  {
    && 1 <= k <= i + 1
    && (forall p | i - k < p < i :: log[p] == Attempted(n, level, k - i + p, false))
    && (level != NoApproval ==>
          k <= i && log[i - k].GateRead? && log[i - k].node == n && log[i - k].approved)
  }

  ghost predicate AllowedLevel(t: Template, n: NodeId, level: ApprovalLevel) {
    && HasNode(t, n) && !Unsafe(NodeOf(t, n))
    && Strictness(level) >= Strictness(NodeOf(t, n).approvalRequired)
    && Strictness(level) >= Strictness(SpecFor(NodeOf(t, n).kind).defaultApproval)
  }

  ghost predicate Justified(t: Template, log: seq<Event>, i: nat)
    requires i < |log|
  {
    match log[i]
    case Moved(from, _) => from == LastState(log[..i])
    case Minted(_, n) => forall k, id | 0 <= k < i :: log[k] != Minted(id, n)
    case GateRead(n, id, approved) => approved ==> ApprovedBefore(log, i, id, n)
    case Attempted(n, level, k, _) => AllowedLevel(t, n, level) && AttemptInSeries(log, i, n, level, k)
    case _ => true
  }

  ghost predicate GoodLog(t: Template, log: seq<Event>) {
    forall i | 0 <= i < |log| :: Justified(t, log, i)
  }

  lemma {:induction false} JustifiedStays(t: Template, log: seq<Event>, ext: seq<Event>, i: nat)
    requires i < |log| && Justified(t, log, i)
    ensures Justified(t, log + ext, i)
  {
    assert (log + ext)[..i] == log[..i];
    if log[i].GateRead? && log[i].approved {
      var k, j :| 0 <= k < j < i && log[k] == Minted(log[i].id, log[i].node) && log[j] == Decided(log[i].id, Approved);
      assert (log + ext)[k] == log[k] && (log + ext)[j] == log[j];
    }
  }

  lemma {:induction false} GoodLogAppend(t: Template, log: seq<Event>, e: Event)
    requires GoodLog(t, log) && Justified(t, log + [e], |log|)
    ensures GoodLog(t, log + [e])
  {
    forall i | 0 <= i < |log + [e]| ensures Justified(t, log + [e], i) {
      if i < |log| {
        JustifiedStays(t, log, [e], i);
      }
    }
  }

  // ----- the queue agrees with the ledger -----

  ghost predicate DecidedAfter(log: seq<Event>, k: nat, id: ApprovalId) {
    exists j :: k < j < |log| && log[j] == Decided(id, Approved)
  }

  /** The request at position k is on record with its node, and if the queue
      says approved then the ledger says so too, later. */
  ghost predicate RequestExplained(c: Core, k: nat)
    requires k < |c.log| && c.log[k].Minted?
  {
    var id, n := c.log[k].id, c.log[k].node;
    && id in c.rows && c.rows[id].node == Some(n)
    && n in c.run.steps && c.run.steps[n].approval == Some(id)
    && (c.rows[id].status == Approved ==> DecidedAfter(c.log, k, id))
  }

  ghost predicate Requested(log: seq<Event>, id: ApprovalId, n: NodeId) {
    exists k :: 0 <= k < |log| && log[k] == Minted(id, n)
  }

  ghost predicate QueueExplained(c: Core) {
    && (forall k | 0 <= k < |c.log| && c.log[k].Minted? :: RequestExplained(c, k))
    && (forall n | n in c.run.steps && c.run.steps[n].approval.Some? ::
          Requested(c.log, c.run.steps[n].approval.value, n))
  }

  ghost predicate Causal(t: Template, c: Core) {
    && GoodLog(t, c.log)
    && QueueExplained(c)
    && LastState(c.log) == c.run.state
  }

  // ----- steps that neither request nor read approvals -----

  ghost predicate SameApprovals(c: Core, d: Core) {
    && c.run.steps.Keys <= d.run.steps.Keys
    && (forall n | n in d.run.steps :: d.run.steps[n].approval == StepOf(c.run, n).approval)
  }

  /** c grows to d without a new request: steps keep their approvals, rows keep
      their nodes, and a row turns approved only along with a ledger entry. */
  ghost predicate Gentle(c: Core, d: Core) {
    && c.log <= d.log
    && (forall i | |c.log| <= i < |d.log| :: !d.log[i].Minted?)
    && SameApprovals(c, d)
    && c.rows.Keys <= d.rows.Keys
    && (forall id | id in c.rows ::
          d.rows[id].node == c.rows[id].node
          && (d.rows[id].status == Approved && c.rows[id].status != Approved ==>
                exists j :: |c.log| <= j < |d.log| && d.log[j] == Decided(id, Approved)))
  }

  lemma {:induction false} GentleKeepsQueue(c: Core, d: Core)
    requires QueueExplained(c) && Gentle(c, d)
    ensures QueueExplained(d)
  {
    forall k | 0 <= k < |d.log| && d.log[k].Minted? ensures RequestExplained(d, k) {
      assert k < |c.log| && c.log[k] == d.log[k];
      assert RequestExplained(c, k);
      var id := c.log[k].id;
      if d.rows[id].status == Approved && c.rows[id].status == Approved {
        var j :| k < j < |c.log| && c.log[j] == Decided(id, Approved);
        assert d.log[j] == Decided(id, Approved);
      }
    }
    forall n | n in d.run.steps && d.run.steps[n].approval.Some?
      ensures Requested(d.log, d.run.steps[n].approval.value, n)
    {
      var id := d.run.steps[n].approval.value;
      var k :| 0 <= k < |c.log| && c.log[k] == Minted(id, n);
      assert d.log[k] == Minted(id, n);
    }
  }

  lemma {:induction false} MoveIsCausal(t: Template, c: Core, to: CampaignState)
    requires Causal(t, c)
    ensures Causal(t, Move(c, to))
  {
    assert (c.log + [Moved(c.run.state, to)])[..|c.log|] == c.log;
    GoodLogAppend(t, c.log, Moved(c.run.state, to));
    GentleKeepsQueue(c, Move(c, to));
  }

  /** Same ledger and rows, same approvals on the steps, same state. */
  lemma {:induction false} QuietIsCausal(t: Template, c: Core, d: Core)
    requires Causal(t, c) && Gentle(c, d) && d.log == c.log && d.run.state == c.run.state
    ensures Causal(t, d)
  {
    GentleKeepsQueue(c, d);
  }

  lemma {:induction false} SettleIsCausal(t: Template, c: Core)
    requires Causal(t, c)
    ensures Causal(t, Settle(t, c))
  {
    if c.run.state != Cancelled {
      var d := c.(run := c.run.(current := None));
      QuietIsCausal(t, c, d);
      MoveIsCausal(t, d, SettledState(t, c.run));
    }
  }

  lemma {:induction false} DecideIsCausal(t: Template, c: Core, id: ApprovalId, verdict: Verdict)
    requires Causal(t, c) && id in c.rows
    ensures Causal(t, Decide(c, id, verdict))
  {
    var d := Decide(c, id, verdict);
    assert d.log[|c.log|] == Decided(id, verdict);
    assert d.log[..|c.log|] == c.log;
    GoodLogAppend(t, c.log, Decided(id, verdict));
    GentleKeepsQueue(c, d);
  }

  // ----- executing a node -----

  lemma {:induction false} GentleAppend(t: Template, c: Core, d: Core, e: Event)
    requires Causal(t, c) && d.log == c.log + [e] && !e.Minted? && !e.Moved?
    requires d.rows == c.rows && d.run.state == c.run.state
    requires c.run.steps.Keys <= d.run.steps.Keys
    requires forall n | n in d.run.steps :: d.run.steps[n].approval == StepOf(c.run, n).approval
    requires Justified(t, d.log, |c.log|)
    ensures Causal(t, d)
  {
    assert d.log[..|c.log|] == c.log;
    GoodLogAppend(t, c.log, e);
    GentleKeepsQueue(c, d);
  }

  /** The gate reads approved only if the ledger shows request and decision. */
  lemma {:induction false} GateIsCausal(t: Template, c: Core, n: NodeId)
    requires Causal(t, c) && StepOf(c.run, n).approval.Some?
    ensures Causal(t, ReadGate(c, n, StepOf(c.run, n).approval.value))
  {
    var id := StepOf(c.run, n).approval.value;
    var log := c.log + [GateRead(n, id, Satisfied(c.rows, Some(id)))];
    if Satisfied(c.rows, Some(id)) {
      assert Requested(c.log, id, n);
      var k :| 0 <= k < |c.log| && c.log[k] == Minted(id, n);
      assert RequestExplained(c, k);
      var j :| k < j < |c.log| && c.log[j] == Decided(id, Approved);
      assert log[k] == Minted(id, n) && log[j] == Decided(id, Approved);
      assert ApprovedBefore(log, |c.log|, id, n);
    }
    GentleAppend(t, c, ReadGate(c, n, id), log[|c.log|]);
  }

  /** A node that has no approval yet has never asked for one. */
  lemma {:induction false} NeverAsked(c: Core, n: NodeId, k: nat)
    requires QueueExplained(c) && StepOf(c.run, n).approval.None?
    requires k < |c.log| && c.log[k].Minted?
    ensures c.log[k].node != n
  {
    assert RequestExplained(c, k);
  }

  lemma {:induction false} NobodyAsked(c: Core, n: NodeId)
    requires QueueExplained(c) && StepOf(c.run, n).approval.None?
    ensures forall k | 0 <= k < |c.log| && c.log[k].Minted? :: c.log[k].node != n
  {
    forall k | 0 <= k < |c.log| && c.log[k].Minted? ensures c.log[k].node != n {
      NeverAsked(c, n, k);
    }
  }

  lemma {:induction false} OldRequestStays(c: Core, n: NodeId, id: ApprovalId, k: nat)
    requires QueueExplained(c) && StepOf(c.run, n).approval.None? && id !in c.rows
    requires k < |c.log| && c.log[k].Minted?
    ensures RequestExplained(AskAndPause(c, n, Some(id)), k)
  {
    NeverAsked(c, n, k);
    var d := AskAndPause(c, n, Some(id));
    assert RequestExplained(c, k) && d.log[k] == c.log[k];
    if c.rows[c.log[k].id].status == Approved {
      var j :| k < j < |c.log| && c.log[j] == Decided(c.log[k].id, Approved);
      assert d.log[j] == Decided(c.log[k].id, Approved);
    }
  }

  lemma {:induction false} AskKeepsQueue(c: Core, n: NodeId, id: ApprovalId)
    requires QueueExplained(c) && StepOf(c.run, n).approval.None? && id !in c.rows
    ensures QueueExplained(AskAndPause(c, n, Some(id)))
  {
    var d := AskAndPause(c, n, Some(id));
    forall k | 0 <= k < |d.log| && d.log[k].Minted? ensures RequestExplained(d, k) {
      if k < |c.log| {
        OldRequestStays(c, n, id, k);
      }
    }
    forall m | m in d.run.steps && d.run.steps[m].approval.Some?
      ensures Requested(d.log, d.run.steps[m].approval.value, m)
    {
      if m == n {
        assert d.log[|c.log|] == Minted(id, n);
      } else {
        var k :| 0 <= k < |c.log| && c.log[k] == Minted(c.run.steps[m].approval.value, m);
        assert d.log[k] == Minted(c.run.steps[m].approval.value, m);
      }
    }
  }

  lemma {:induction false} AskIsCausal(t: Template, c: Core, n: NodeId, minted: Option<ApprovalId>)
    requires Causal(t, c) && StepOf(c.run, n).approval.None?
    requires minted.Some? ==> minted.value !in c.rows
    ensures Causal(t, AskAndPause(c, n, minted))
  {
    match minted
    case None => QuietIsCausal(t, c, AskAndPause(c, n, minted));
    case Some(id) =>
      AskKeepsQueue(c, n, id);
      assert (c.log + [Minted(id, n)])[..|c.log|] == c.log;
      NobodyAsked(c, n);
      GoodLogAppend(t, c.log, Minted(id, n));
  }

  lemma {:induction false} OnlyTheLastSucceeds(node: Node, outcomes: seq<Outcome>, k: nat)
    requires RetryScript(node, outcomes) && k + 1 < |outcomes|
    ensures outcomes[k].Err?
  {
    assert GoesOn(node, outcomes[..k + 1]);
  }

  /** A series of attempts on n may start here. */
  ghost predicate GateOpen(log: seq<Event>, n: NodeId, level: ApprovalLevel) {
    level != NoApproval ==>
      log != [] && log[|log| - 1].GateRead? && log[|log| - 1].node == n && log[|log| - 1].approved
  }

  lemma {:induction false} NextAttemptInSeries(
    log: seq<Event>, node: Node, level: ApprovalLevel, outcomes: seq<Outcome>, k: nat)
    requires RetryScript(node, outcomes) && 0 < k <= |outcomes| && GateOpen(log, node.id, level)
    ensures var longer := log + AttemptLog(node.id, level, outcomes)[..k];
            AttemptInSeries(longer, |log| + k - 1, node.id, level, k)
  {
    var all := AttemptLog(node.id, level, outcomes);
    var longer, i := log + all[..k], |log| + k - 1;
    forall p | i - k < p < i ensures longer[p] == Attempted(node.id, level, k - i + p, false) {
      OnlyTheLastSucceeds(node, outcomes, k - i + p - 1);
      assert longer[p] == all[k - i + p - 1];
    }
  }

  /** A whole series of attempts is justified when it starts in the right place. */
  lemma {:induction false} AttemptsAreCausal(
    t: Template, log: seq<Event>, node: Node, level: ApprovalLevel, outcomes: seq<Outcome>, k: nat)
    requires GoodLog(t, log) && RetryScript(node, outcomes) && k <= |outcomes|
    requires AllowedLevel(t, node.id, level) && GateOpen(log, node.id, level)
    ensures GoodLog(t, log + AttemptLog(node.id, level, outcomes)[..k])
    ensures LastState(log + AttemptLog(node.id, level, outcomes)[..k]) == LastState(log)
  {
    var all := AttemptLog(node.id, level, outcomes);
    if k == 0 {
      assert log + all[..0] == log;
    } else {
      AttemptsAreCausal(t, log, node, level, outcomes, k - 1);
      NextAttemptInSeries(log, node, level, outcomes, k);
      var before := log + all[..k - 1];
      assert log + all[..k] == before + [all[k - 1]];
      assert (before + [all[k - 1]])[..|before|] == before;
      GoodLogAppend(t, before, all[k - 1]);
    }
  }

  lemma {:induction false} DispatchIsCausal(
    t: Template, c: Core, node: Node, level: ApprovalLevel, outcomes: seq<Outcome>)
    requires Causal(t, c) && RetryScript(node, outcomes)
    requires AllowedLevel(t, node.id, level) && GateOpen(c.log, node.id, level)
    ensures Causal(t, Dispatch(c, node, level, outcomes))
  {
    DispatchShape(c, node, level, outcomes);
    ResultIsCausal(t, c, node, level, outcomes, Dispatch(c, node, level, outcomes));
  }

  lemma {:induction false} DispatchShape(c: Core, node: Node, level: ApprovalLevel, outcomes: seq<Outcome>)
    ensures var d := Dispatch(c, node, level, outcomes);
            && ShowsAttempts(c.log, node, level, outcomes, d.log)
            && d.rows == c.rows && d.run.state == c.run.state
            && SameApprovals(c, d)
  {
  }

  ghost predicate ShowsAttempts(
    before: seq<Event>, node: Node, level: ApprovalLevel, outcomes: seq<Outcome>, after: seq<Event>)
  {
    var log := before + AttemptLog(node.id, level, outcomes);
    after == log || after == log + [Compensated(node.id)]
  }

  lemma {:induction false} ResultIsCausal(
    t: Template, c: Core, node: Node, level: ApprovalLevel, outcomes: seq<Outcome>, d: Core)
    requires Causal(t, c) && RetryScript(node, outcomes)
    requires AllowedLevel(t, node.id, level) && GateOpen(c.log, node.id, level)
    requires ShowsAttempts(c.log, node, level, outcomes, d.log)
    requires d.rows == c.rows && d.run.state == c.run.state && SameApprovals(c, d)
    ensures Causal(t, d)
  {
    DispatchLogIsGood(t, c.log, node, level, outcomes, d.log);
    GentleKeepsQueue(c, d);
  }

  lemma {:induction false} DispatchLogIsGood(
    t: Template, before: seq<Event>, node: Node, level: ApprovalLevel, outcomes: seq<Outcome>, after: seq<Event>)
    requires GoodLog(t, before) && RetryScript(node, outcomes)
    requires AllowedLevel(t, node.id, level) && GateOpen(before, node.id, level)
    requires ShowsAttempts(before, node, level, outcomes, after)
    ensures GoodLog(t, after) && LastState(after) == LastState(before)
  {
    var all := AttemptLog(node.id, level, outcomes);
    AttemptsAreCausal(t, before, node, level, outcomes, |outcomes|);
    assert all[..|outcomes|] == all;
    var log := before + all;
    if after != log {
      assert after[..|log|] == log;
      GoodLogAppend(t, log, Compensated(node.id));
    }
  }

  lemma {:induction false} PerformIsCausal(t: Template, c: Core, node: Node, minted: Option<ApprovalId>,
                                           outcomes: seq<Outcome>)
    requires Causal(t, c) && HasNode(t, node.id) && node == NodeOf(t, node.id)
    requires minted.Some? ==> minted.value !in c.rows
    requires Dispatches(c, node) ==> RetryScript(node, outcomes)
    ensures Causal(t, Perform(c, node, minted, outcomes))
  {
    var n := node.id;
    var level := ResolveLevel(node, c.run.ctx.overrides);
    var approval := StepOf(c.run, n).approval;
    if Unsafe(node) {
      GentleAppend(t, c, RefuseUnsafe(c, n), RefusedUnsafe(n));
    } else if level == NoApproval {
      DispatchIsCausal(t, c, node, level, outcomes);
    } else if approval.None? {
      AskIsCausal(t, c, n, minted);
    } else {
      GateIsCausal(t, c, n);
      var d := ReadGate(c, n, approval.value);
      if Satisfied(c.rows, approval) {
        DispatchIsCausal(t, d, node, level, outcomes);
      } else {
        QuietIsCausal(t, d, Pause(d, n));
      }
    }
  }

  // ----- every history -----

  lemma {:induction false} FoundNode(t: Template, n: NodeId)
    requires HasNode(t, n)
    ensures NodeOf(t, n).id == n
  {
  }

  lemma {:induction false} ApproveIsCausal(t: Template, c: Core, id: ApprovalId, node: Option<NodeId>)
    requires Causal(t, c) && id in c.rows
    ensures Causal(t, Approve(c, id, node))
  {
    DecideIsCausal(t, c, id, Approved);
    var d := Decide(c, id, Approved);
    var target := if node.Some? then node else c.rows[id].node;
    var e := d.(run := d.run.(needsApproval := UnmarkOption(d.run.needsApproval, target)));
    QuietIsCausal(t, d, e);
    MoveIsCausal(t, e, Running);
  }

  lemma {:induction false} RejectIsCausal(t: Template, c: Core, id: ApprovalId, node: Option<NodeId>)
    requires Causal(t, c) && id in c.rows
    ensures Causal(t, Reject(t, c, id, node))
  {
    DecideIsCausal(t, c, id, Rejected);
    var d := Decide(c, id, Rejected);
    var target := if node.Some? then node else c.rows[id].node;
    QuietIsCausal(t, d, BlockRejected(d, target));
    SettleIsCausal(t, BlockRejected(d, target));
  }

  lemma {:induction false} ActionIsCausal(t: Template, w: World, a: Action)
    requires Causal(t, w.core) && Enabled(t, w, a)
    ensures Causal(t, Next(t, w, a).core)
  {
    match a
    case Start => MoveIsCausal(t, w.core, Running);
    case Advance =>
      QuietIsCausal(t, w.core, Reconcile(w.core));
      MoveIsCausal(t, Reconcile(w.core), Running);
    case ApproveNode(id, node) => ApproveIsCausal(t, w.core, id, node);
    case RejectNode(id, node) => RejectIsCausal(t, w.core, id, node);
    case Cancel => MoveIsCausal(t, w.core, Cancelled);
    case OpenPass =>
    case Execute(minted, outcomes) =>
      FoundNode(t, w.pass[0]);
      PerformIsCausal(t, w.core, NodeOf(t, w.pass[0]), minted, outcomes);
    case SettleDrive => SettleIsCausal(t, w.core);
    case DecidedElsewhere(id, verdict) => DecideIsCausal(t, w.core, id, verdict);
    case MintedElsewhere(id, row) => QuietIsCausal(t, w.core, Next(t, w, a).core);
    case IngestKpis(_) => QuietIsCausal(t, w.core, Next(t, w, a).core);
  }

  lemma {:induction false} HistoryCausal(t: Template, origin: World, acts: seq<Action>)
    requires History(t, origin, acts)
    ensures Causal(t, Replay(t, origin, acts).core)
  {
    if acts != [] {
      var before := acts[..|acts| - 1];
      HistoryCausal(t, origin, before);
      ActionIsCausal(t, Replay(t, origin, before), acts[|acts| - 1]);
    } else {
      assert origin.core.log[..0] == [];
      assert LastState(origin.core.log) == Ready;
    }
  }

  // ----- the guarantees -----

  /** Gated dispatch: whatever the history, an attempt on a node whose level is
      not none comes right after a gate check of that node (its own failed
      attempts aside), and that check read an approval requested for this very
      node and decided in favour beforehand. */
  lemma {:induction false} GatedDispatch(t: Template, origin: World, acts: seq<Action>, w: World, i: nat)
    requires History(t, origin, acts) && w == Replay(t, origin, acts)
    requires i < |w.core.log| && w.core.log[i].Attempted? && w.core.log[i].level != NoApproval
    ensures PassedTheGate(w.core.log, i)
  {
    HistoryCausal(t, origin, acts);
    GoodLogPassesGates(t, w.core.log, i);
  }

  /** The attempt at position i follows, after only failed attempts of its own
      series, a gate check of its node that read an approval requested for that
      very node and decided in favour beforehand. */
  ghost predicate PassedTheGate(log: seq<Event>, i: nat)
    requires i < |log| && log[i].Attempted?
  {
    var n, k := log[i].node, log[i].attempt;
    && 1 <= k <= i
    && (forall p | i - k < p < i :: log[p] == Attempted(n, log[i].level, k - i + p, false))
    && log[i - k].GateRead? && log[i - k].node == n && log[i - k].approved
    && ApprovedBefore(log, i - k, log[i - k].id, n)
  }

  lemma {:induction false} GoodLogPassesGates(t: Template, log: seq<Event>, i: nat)
    requires GoodLog(t, log) && i < |log| && log[i].Attempted? && log[i].level != NoApproval
    ensures PassedTheGate(log, i)
  {
    assert Justified(t, log, i);
    assert Justified(t, log, i - log[i].attempt);
  }

  /** So every attempt on a high-risk or unclassified node was approved. */
  lemma {:induction false} HighRiskDispatchWasApproved(t: Template, origin: World, acts: seq<Action>, w: World, i: nat)
    requires History(t, origin, acts) && w == Replay(t, origin, acts)
    requires i < |w.core.log| && w.core.log[i].Attempted?
    requires HasNode(t, w.core.log[i].node) && HighRisk(NodeOf(t, w.core.log[i].node).kind)
    ensures exists id :: ApprovedBefore(w.core.log, i, id, w.core.log[i].node)
  {
    HistoryCausal(t, origin, acts);
    HighRiskIsGated(t, w.core.log, i);
    GatedDispatch(t, origin, acts, w, i);
    GatePassedMeansApproved(w.core.log, i);
  }

  lemma {:induction false} HighRiskIsGated(t: Template, log: seq<Event>, i: nat)
    requires GoodLog(t, log) && i < |log| && log[i].Attempted?
    requires HasNode(t, log[i].node) && HighRisk(NodeOf(t, log[i].node).kind)
    ensures log[i].level != NoApproval
  {
    assert Justified(t, log, i);
    HighRiskIsAlwaysGated(NodeOf(t, log[i].node), map[]);
  }

  lemma {:induction false} GatePassedMeansApproved(log: seq<Event>, i: nat)
    requires i < |log| && log[i].Attempted? && PassedTheGate(log, i)
    ensures exists id :: ApprovedBefore(log, i, id, log[i].node)
  {
    var g := i - log[i].attempt;
    var k, j :| 0 <= k < j < g && log[k] == Minted(log[g].id, log[i].node) && log[j] == Decided(log[g].id, Approved);
    assert ApprovedBefore(log, i, log[g].id, log[i].node);
  }

  /** At most one approval is ever requested per node. */
  lemma {:induction false} OneRequestPerNode(t: Template, origin: World, acts: seq<Action>, w: World, i: nat, j: nat)
    requires History(t, origin, acts) && w == Replay(t, origin, acts)
    requires i < |w.core.log| && j < |w.core.log|
    requires w.core.log[i].Minted? && w.core.log[j].Minted? && w.core.log[i].node == w.core.log[j].node
    ensures i == j
  {
    HistoryCausal(t, origin, acts);
    assert Justified(t, w.core.log, i) && Justified(t, w.core.log, j);
  }

  /** The lifecycle entries chain: each leaves the state the one before entered,
      and the last one enters the run's present state. */
  lemma {:induction false} LifecycleChains(t: Template, origin: World, acts: seq<Action>, w: World, i: nat)
    requires History(t, origin, acts) && w == Replay(t, origin, acts)
    requires i < |w.core.log| && w.core.log[i].Moved?
    ensures w.core.log[i].from == LastState(w.core.log[..i])
    ensures LastState(w.core.log) == w.core.run.state
  {
    HistoryCausal(t, origin, acts);
    assert Justified(t, w.core.log, i);
  }
}
