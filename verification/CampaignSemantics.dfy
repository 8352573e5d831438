/** What one campaign run may do, as a state machine over values.  Actions are
    the lifecycle operations, the steps of a drive, and what other parties do to
    the shared approvals queue and the KPIs.  The classes in CampaignEngine are
    proved to follow it action by action. */
module CampaignSemantics {
  import opened Basics
  import opened CampaignModel
  import opened CampaignGraphs

  // ----- state -----

  datatype Step = Step(status: NodeStatus, attempts: nat, approval: Option<ApprovalId>, error: string)

  const FRESH_STEP := Step(NodePending, 0, None, "")

  datatype Run = Run(
    state: CampaignState,
    current: Option<NodeId>,
    completed: seq<NodeId>,
    blocked: seq<NodeId>,
    failed: seq<NodeId>,
    needsApproval: seq<NodeId>,
    required: seq<ApprovalId>,
    steps: map<NodeId, Step>,
    ctx: Context)

  datatype Verdict = Pending | Approved | Rejected | Expired

  /** One row of the approvals queue; `node` is the payload's node id, which
      rows of other subsystems may lack. */
  datatype Approval = Approval(status: Verdict, node: Option<NodeId>)

  /** The ledger of everything observable, oldest first. */
  datatype Event =
    | Moved(from: CampaignState, to: CampaignState)
    | Minted(id: ApprovalId, node: NodeId)
    | Decided(id: ApprovalId, verdict: Verdict)
    | GateRead(node: NodeId, id: ApprovalId, approved: bool)
    | RefusedUnsafe(node: NodeId)
    | Attempted(node: NodeId, level: ApprovalLevel, attempt: nat, ok: bool)
    | Compensated(node: NodeId)

  /** Run, approvals queue and ledger. */
  datatype Core = Core(run: Run, rows: map<ApprovalId, Approval>, log: seq<Event>)

  /** `driving` and `pass` say where a drive stands: the ready nodes of the
      current pass that are still to be executed. */
  datatype World = World(core: Core, driving: bool, pass: seq<NodeId>)

  // ----- list buckets -----

  function Mark(bucket: seq<NodeId>, n: NodeId): seq<NodeId> {
    if n in bucket then bucket else bucket + [n]
  }

  /** Drop the first occurrence. */
  function Unmark(bucket: seq<NodeId>, n: NodeId): seq<NodeId> {
    if bucket == [] then []
    else if bucket[0] == n then bucket[1..]
    else [bucket[0]] + Unmark(bucket[1..], n)
  }

  function UnmarkOption(bucket: seq<NodeId>, n: Option<NodeId>): seq<NodeId> {
    if n.Some? then Unmark(bucket, n.value) else bucket
  }

  function CompletedSet(run: Run): set<NodeId> {
    set n | n in run.completed
  }

  function Excluded(run: Run): set<NodeId> {
    set n | n in run.completed + run.failed + run.blocked + run.needsApproval
  }

  function ReadyNow(t: Template, run: Run): seq<NodeId> {
    ReadyNodes(t, CompletedSet(run), run.ctx, Excluded(run))
  }

  // ----- lifecycle moves -----

  function Move(c: Core, to: CampaignState): Core {
    c.(run := c.run.(state := to), log := c.log + [Moved(c.run.state, to)])
  }

  function SettledState(t: Template, run: Run): CampaignState {
    if |CompletedSet(run)| >= |t.nodes| then Completed
    else if run.failed != [] then Failed
    else if run.blocked != [] then Blocked
    else if run.needsApproval != [] then NeedsApproval
    else Paused
  }

  function Settle(t: Template, c: Core): Core {
    if c.run.state == Cancelled then c
    else Move(c.(run := c.run.(current := None)), SettledState(t, c.run))
  }

  predicate Satisfied(rows: map<ApprovalId, Approval>, id: Option<ApprovalId>) {
    id.Some? && id.value in rows && rows[id.value].status == Approved
  }

  /** The gate of `n` may be lifted: its own approval has been given. */
  predicate Cleared(c: Core, n: NodeId) {
    n in c.run.steps && Satisfied(c.rows, c.run.steps[n].approval)
  }

  function KeepUncleared(c: Core, nodes: seq<NodeId>): seq<NodeId> {
    if nodes == [] then [] else
      (if Cleared(c, nodes[0]) then [] else [nodes[0]]) + KeepUncleared(c, nodes[1..])
  }

  function Reconcile(c: Core): Core {
    c.(run := c.run.(needsApproval := KeepUncleared(c, c.run.needsApproval)))
  }

  function Decide(c: Core, id: ApprovalId, verdict: Verdict): Core
    requires id in c.rows
  {
    c.(rows := c.rows[id := c.rows[id].(status := verdict)], log := c.log + [Decided(id, verdict)])
  }

  /** Approving lifts the gate of the target node and resumes the run. */
  function Approve(c: Core, id: ApprovalId, node: Option<NodeId>): Core
    requires id in c.rows
  {
    var target := if node.Some? then node else c.rows[id].node;
    var d := Decide(c, id, Approved);
    Move(d.(run := d.run.(needsApproval := UnmarkOption(d.run.needsApproval, target))), Running)
  }

  /** Rejecting blocks the target node, whatever node that is. */
  function Reject(t: Template, c: Core, id: ApprovalId, node: Option<NodeId>): Core
    requires id in c.rows
  {
    var target := if node.Some? then node else c.rows[id].node;
    Settle(t, BlockRejected(Decide(c, id, Rejected), target))
  }

  function BlockRejected(c: Core, target: Option<NodeId>): Core {
    if target.None? then c else
      var n := target.value;
      var steps := if n in c.run.steps
        then c.run.steps[n := c.run.steps[n].(status := NodeBlocked, error := "approval_rejected")]
        else c.run.steps;
      c.(run := c.run.(
        blocked := Mark(c.run.blocked, n),
        needsApproval := Unmark(c.run.needsApproval, n),
        steps := steps))
  }

  // ----- executing one node -----

  /** What one dispatch attempt comes back with. */
  datatype Outcome = Ok(after: Context) | Err(kind: string, text: string)

  predicate ShouldRetry(node: Node, o: Outcome)
    requires o.Err?
  {
    node.retryOn == []
    || exists k :: 0 <= k < |node.retryOn| && (Contains(o.kind, node.retryOn[k]) || Contains(o.text, node.retryOn[k]))
  }

  function AttemptLimit(node: Node): nat {
    if node.maxAttempts < 1 then 1 else node.maxAttempts
  }

  /** Whether the retry loop goes on after these outcomes. */
  predicate GoesOn(node: Node, outcomes: seq<Outcome>)
    requires outcomes != []
  {
    var last := outcomes[|outcomes| - 1];
    last.Err? && ShouldRetry(node, last) && |outcomes| < node.maxAttempts
  }

  /** The outcomes a bounded retry loop can have seen: it went on after every
      one but the last, and stopped there. */
  ghost predicate RetryScript(node: Node, outcomes: seq<Outcome>) {
    && outcomes != []
    && !GoesOn(node, outcomes)
    && forall k :: 1 <= k < |outcomes| ==> GoesOn(node, outcomes[..k])
  }

  function AttemptLog(n: NodeId, level: ApprovalLevel, outcomes: seq<Outcome>): seq<Event> {
    seq(|outcomes|, i requires 0 <= i < |outcomes| => Attempted(n, level, i + 1, outcomes[i].Ok?))
  }

  function SetStep(c: Core, n: NodeId, s: Step): Core {
    c.(run := c.run.(steps := c.run.steps[n := s]))
  }

  function StepOf(run: Run, n: NodeId): Step {
    if n in run.steps then run.steps[n] else FRESH_STEP
  }

  function RefuseUnsafe(c: Core, n: NodeId): Core {
    var s := StepOf(c.run, n).(status := NodeBlocked, error := "high_risk_node_requires_approval");
    var d := SetStep(c, n, s);
    d.(run := d.run.(blocked := Mark(d.run.blocked, n)), log := d.log + [RefusedUnsafe(n)])
  }

  function Pause(c: Core, n: NodeId): Core {
    var d := SetStep(c, n, StepOf(c.run, n).(status := NodeNeedsApproval));
    d.(run := d.run.(needsApproval := Mark(d.run.needsApproval, n)))
  }

  function RequireApproval(c: Core, id: ApprovalId): Core {
    if id in c.run.required then c else c.(run := c.run.(required := c.run.required + [id]))
  }

  /** A node without an approval asks for one and waits; `minted` is None when
      the queue could not create a row. */
  function AskAndPause(c: Core, n: NodeId, minted: Option<ApprovalId>): Core {
    match minted
    case None => Pause(c, n)
    case Some(id) =>
      var d := c.(rows := c.rows[id := Approval(Pending, Some(n))], log := c.log + [Minted(id, n)]);
      Pause(RequireApproval(SetStep(d, n, StepOf(d.run, n).(approval := Some(id))), id), n)
  }

  function Dispatch(c: Core, node: Node, level: ApprovalLevel, outcomes: seq<Outcome>): Core {
    var n := node.id;
    var d := c.(
      run := c.run.(
        needsApproval := Unmark(c.run.needsApproval, n),
        blocked := Unmark(c.run.blocked, n),
        current := Some(n)),
      log := c.log + AttemptLog(n, level, outcomes));
    var s := StepOf(c.run, n).(attempts := |outcomes|);
    if outcomes != [] && outcomes[|outcomes| - 1].Ok? then
      var e := SetStep(d, n, s.(status := NodeCompleted, error := ""));
      e.(run := e.run.(
        completed := Mark(e.run.completed, n),
        failed := Unmark(e.run.failed, n),
        ctx := outcomes[|outcomes| - 1].after))
    else
      var e := SetStep(d, n, s.(status := NodeFailed, error := ErrorText(outcomes)));
      e.(
        run := e.run.(failed := Mark(e.run.failed, n)),
        log := e.log + if Compensates(node) then [Compensated(n)] else [])
  }

  function ErrorText(outcomes: seq<Outcome>): string {
    if outcomes != [] && outcomes[|outcomes| - 1].Err?
    then outcomes[|outcomes| - 1].kind + ": " + outcomes[|outcomes| - 1].text
    else "dispatch_failed"
  }

  predicate Compensates(node: Node) {
    node.rollback == Compensate && node.compensation.Some?
  }

  predicate Unsafe(node: Node) {
    HighRisk(node.kind) && node.approvalRequired == NoApproval
  }

  /** Read the gate of n in the queue. */
  function ReadGate(c: Core, n: NodeId, id: ApprovalId): Core {
    RequireApproval(c.(log := c.log + [GateRead(n, id, Satisfied(c.rows, Some(id)))]), id)
  }

  /** The outcome branches of executing one node. */
  function Perform(c: Core, node: Node, minted: Option<ApprovalId>, outcomes: seq<Outcome>): Core {
    var n := node.id;
    var level := ResolveLevel(node, c.run.ctx.overrides);
    var approval := StepOf(c.run, n).approval;
    if Unsafe(node) then RefuseUnsafe(c, n)
    else if level == NoApproval then Dispatch(c, node, level, outcomes)
    else if approval.None? then AskAndPause(c, n, minted)
    else
      var d := ReadGate(c, n, approval.value);
      if Satisfied(c.rows, approval) then Dispatch(d, node, level, outcomes) else Pause(d, n)
  }

  /** Perform reaches the dispatcher. */
  predicate Dispatches(c: Core, node: Node) {
    && !Unsafe(node)
    && (ResolveLevel(node, c.run.ctx.overrides) == NoApproval || Satisfied(c.rows, StepOf(c.run, node.id).approval))
  }

  // ----- actions -----

  datatype Action =
    | Start
    | Advance
    | ApproveNode(id: ApprovalId, node: Option<NodeId>)
    | RejectNode(id: ApprovalId, node: Option<NodeId>)
    | Cancel
    | OpenPass
    | Execute(minted: Option<ApprovalId>, outcomes: seq<Outcome>)
    | SettleDrive
    | DecidedElsewhere(id: ApprovalId, verdict: Verdict)
    | MintedElsewhere(id: ApprovalId, row: Approval)
    | IngestKpis(ctx: Context)

  predicate Resumable(s: CampaignState) {
    s in {Running, Ready, Paused, NeedsApproval}
  }

  ghost predicate Enabled(t: Template, w: World, a: Action) {
    match a
    case Start => !w.driving && w.core.run.state !in {Completed, Cancelled}
    case Advance => !w.driving && Resumable(w.core.run.state)
    case ApproveNode(id, _) => !w.driving && id in w.core.rows && w.core.rows[id].status == Pending
    case RejectNode(id, _) => !w.driving && id in w.core.rows && w.core.rows[id].status == Pending
    case Cancel => !w.driving
    case OpenPass => w.driving && w.pass == []
    case Execute(minted, outcomes) =>
      && w.driving && w.pass != [] && HasNode(t, w.pass[0])
      && (minted.Some? ==> minted.value !in w.core.rows)
      && (Dispatches(w.core, NodeOf(t, w.pass[0])) ==> RetryScript(NodeOf(t, w.pass[0]), outcomes))
    case SettleDrive => w.driving && w.pass == [] && ReadyNow(t, w.core.run) == []
    case DecidedElsewhere(id, verdict) =>
      id in w.core.rows && w.core.rows[id].status == Pending && verdict != Pending
    case MintedElsewhere(id, _) => id !in w.core.rows
    case IngestKpis(ctx) => !w.driving && ctx == w.core.run.ctx.(kpis := ctx.kpis)
  }

  function Next(t: Template, w: World, a: Action): World {
    match a
    case Start => World(Move(w.core, Running), true, [])
    case Advance =>
      var c := Reconcile(w.core);
      World(if c.run.state == Running then c else Move(c, Running), true, [])
    case ApproveNode(id, node) => if id in w.core.rows then World(Approve(w.core, id, node), true, []) else w
    case RejectNode(id, node) => if id in w.core.rows then w.(core := Reject(t, w.core, id, node)) else w
    case Cancel => w.(core := Move(w.core, Cancelled))
    case OpenPass => w.(pass := ReadyNow(t, w.core.run))
    case Execute(minted, outcomes) =>
      if w.pass != [] && HasNode(t, w.pass[0])
      then World(Perform(w.core, NodeOf(t, w.pass[0]), minted, outcomes), w.driving, w.pass[1..])
      else w
    case SettleDrive => World(Settle(t, w.core), false, [])
    case DecidedElsewhere(id, verdict) => if id in w.core.rows then w.(core := Decide(w.core, id, verdict)) else w
    case MintedElsewhere(id, row) => w.(core := w.core.(rows := w.core.rows[id := row]))
    case IngestKpis(ctx) => w.(core := w.core.(run := w.core.run.(ctx := ctx)))
  }

  // ----- histories -----

  /** A freshly created campaign; the approvals queue may already hold rows of
      other subsystems. */
  ghost predicate Initial(w: World) {
    && w.core.run == Run(Ready, None, [], [], [], [], [], map[], w.core.run.ctx)
    && w.core.log == [Moved(Draft, Ready)]
    && !w.driving && w.pass == []
  }

  function Replay(t: Template, origin: World, acts: seq<Action>): World {
    if acts == [] then origin
    else Next(t, Replay(t, origin, acts[..|acts| - 1]), acts[|acts| - 1])
  }

  ghost predicate Legal(t: Template, origin: World, acts: seq<Action>) {
    acts == [] || (
      var before := acts[..|acts| - 1];
      Legal(t, origin, before) && Enabled(t, Replay(t, origin, before), acts[|acts| - 1]))
  }

  /** `acts` is a possible history of a campaign over `t`. */
  ghost predicate History(t: Template, origin: World, acts: seq<Action>) {
    WellFormed(t) && Initial(origin) && Legal(t, origin, acts)
  }

  lemma {:induction false} HistoryStep(t: Template, origin: World, acts: seq<Action>, a: Action)
    requires History(t, origin, acts) && Enabled(t, Replay(t, origin, acts), a)
    ensures History(t, origin, acts + [a])
    ensures Replay(t, origin, acts + [a]) == Next(t, Replay(t, origin, acts), a)
  {
    assert (acts + [a])[..|acts|] == acts;
  }
}
