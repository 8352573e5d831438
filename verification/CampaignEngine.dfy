/** The engine itself: a run updated in place, the shared approvals queue, the
    node executor and the lifecycle driver.  Every public operation extends a
    history of CampaignSemantics by the actions it performed, so everything
    proved about histories holds of the objects. */
module CampaignEngine {
  import opened Basics
  import opened Digraph
  import opened CampaignModel
  import opened CampaignGraphs
  import opened CampaignSemantics
  import opened CampaignInvariants
  import opened CampaignProgress
  import opened CampaignKpis

  /** The audit trail, as far as the properties speak of it. */
  class Ledger {
    ghost var entries: seq<Event>

    constructor ()
      ensures entries == [Moved(Draft, Ready)]
    {
      entries := [Moved(Draft, Ready)];
    }
  }

  class CampaignRun {
    var state: CampaignState
    var current: Option<NodeId>
    var completed: seq<NodeId>
    var blocked: seq<NodeId>
    var failed: seq<NodeId>
    var needsApproval: seq<NodeId>
    var required: seq<ApprovalId>
    var steps: map<NodeId, Step>
    var ctx: Context

    constructor (ctx: Context)
      ensures Snap() == Run(Ready, None, [], [], [], [], [], map[], ctx)
    {
      state, current := Ready, None;
      completed, blocked, failed, needsApproval := [], [], [], [];
      required, steps := [], map[];
      this.ctx := ctx;
    }

    function Snap(): Run
      reads this
    {
      Run(state, current, completed, blocked, failed, needsApproval, required, steps, ctx)
    }
  }

  class ApprovalQueue {
    var rows: map<ApprovalId, Approval>

    /** The queue never raises: when no row can be created there is no id. */
    method Create(node: NodeId, ledger: Ledger) returns (id: Option<ApprovalId>)
      modifies this, ledger
      ensures id.None? ==> rows == old(rows) && ledger.entries == old(ledger.entries)
      ensures id.Some? ==>
                && id.value !in old(rows)
                && rows == old(rows)[id.value := Approval(Pending, Some(node))]
                && ledger.entries == old(ledger.entries) + [Minted(id.value, node)]
    {
      var candidate: ApprovalId := *;
      if candidate == "" || candidate in rows {
        return None;
      }
      rows := rows[candidate := Approval(Pending, Some(node))];
      ledger.entries := ledger.entries + [Minted(candidate, node)];
      return Some(candidate);
    }

    method IsCurrentlyApproved(id: ApprovalId) returns (approved: bool)
      ensures approved == Satisfied(rows, Some(id))
    {
      approved := id in rows && rows[id].status == Approved;
    }

    /** Only a pending request can be decided. */
    method Decide(id: ApprovalId, verdict: Verdict, ledger: Ledger) returns (row: Option<Approval>)
      modifies this, ledger
      ensures row.Some? <==> id in old(rows) && old(rows)[id].status == Pending
      ensures row.None? ==> rows == old(rows) && ledger.entries == old(ledger.entries)
      ensures row.Some? ==>
                && row.value == old(rows)[id].(status := verdict)
                && rows == old(rows)[id := row.value]
                && ledger.entries == old(ledger.entries) + [Decided(id, verdict)]
    {
      if id !in rows || rows[id].status != Pending {
        return None;
      }
      var decided := rows[id].(status := verdict);
      rows := rows[id := decided];
      ledger.entries := ledger.entries + [Decided(id, verdict)];
      return Some(decided);
    }
  }

  ghost function CoreOf(run: CampaignRun, queue: ApprovalQueue, ledger: Ledger): Core
    reads run, queue, ledger
  {
    Core(run.Snap(), queue.rows, ledger.entries)
  }

  class NodeExecutor {
    const queue: ApprovalQueue
    const ledger: Ledger

    constructor (queue: ApprovalQueue, ledger: Ledger)
      ensures this.queue == queue && this.ledger == ledger
    {
      this.queue := queue;
      this.ledger := ledger;
    }

    /** Executing a node does exactly what Perform says, for the approval id the
        queue handed out and the outcomes the dispatcher produced. */
    method Execute(node: Node, run: CampaignRun)
      returns (ghost minted: Option<ApprovalId>, ghost outcomes: seq<Outcome>)
      modifies run, queue, ledger
      ensures minted.Some? ==> minted.value !in old(queue.rows)
      ensures old(Dispatches(CoreOf(run, queue, ledger), node)) ==> RetryScript(node, outcomes)
      ensures CoreOf(run, queue, ledger) == Perform(old(CoreOf(run, queue, ledger)), node, minted, outcomes)
    {
      minted, outcomes := None, [];
      var step := if node.id in run.steps then run.steps[node.id] else FRESH_STEP;
      if HighRisk(node.kind) && node.approvalRequired == NoApproval {
        RejectUnsafe(node, run, step);
        return;
      }
      var level := ResolveLevel(node, run.ctx.overrides);
      if level != NoApproval {
        if step.approval.None? {
          minted := AskForApproval(node, run, step);
          return;
        }
        var approved := PassGate(node, run, step.approval.value);
        if !approved {
          PauseForApproval(node, run, step);
          return;
        }
      }
      outcomes := RunDispatch(node, run, step, level);
    }

    /** A node that has no approval yet asks for one, and waits. */
    method AskForApproval(node: Node, run: CampaignRun, step: Step) returns (id: Option<ApprovalId>)
      requires step == StepOf(run.Snap(), node.id) && step.approval.None?
      modifies run, queue, ledger
      ensures id.Some? ==> id.value !in old(queue.rows)
      ensures CoreOf(run, queue, ledger) == AskAndPause(old(CoreOf(run, queue, ledger)), node.id, id)
    {
      id := queue.Create(node.id, ledger);
      Require(run, id);
      PauseForApproval(node, run, step.(approval := id));
    }

    /** Look up the approval a node has asked for. */
    method PassGate(node: Node, run: CampaignRun, id: ApprovalId) returns (approved: bool)
      modifies run`required, ledger
      ensures approved == Satisfied(queue.rows, Some(id))
      ensures CoreOf(run, queue, ledger) == ReadGate(old(CoreOf(run, queue, ledger)), node.id, id)
    {
      approved := queue.IsCurrentlyApproved(id);
      ledger.entries := ledger.entries + [GateRead(node.id, id, approved)];
      Require(run, Some(id));
    }

    method Require(run: CampaignRun, id: Option<ApprovalId>)
      modifies run`required
      ensures run.required == if id.None? || id.value in old(run.required) then old(run.required)
                              else old(run.required) + [id.value]
    {
      if id.Some? && id.value !in run.required {
        run.required := run.required + [id.value];
      }
    }

    method RejectUnsafe(node: Node, run: CampaignRun, step: Step)
      requires step == StepOf(run.Snap(), node.id)
      modifies run, ledger
      ensures CoreOf(run, queue, ledger) == RefuseUnsafe(old(CoreOf(run, queue, ledger)), node.id)
    {
      run.steps := run.steps[node.id := step.(status := NodeBlocked, error := "high_risk_node_requires_approval")];
      run.blocked := Mark(run.blocked, node.id);
      ledger.entries := ledger.entries + [RefusedUnsafe(node.id)];
    }

    method PauseForApproval(node: Node, run: CampaignRun, step: Step)
      modifies run
      ensures run.Snap() == old(run.Snap()).(
                steps := old(run.steps)[node.id := step.(status := NodeNeedsApproval)],
                needsApproval := Mark(old(run.needsApproval), node.id))
    {
      run.steps := run.steps[node.id := step.(status := NodeNeedsApproval)];
      run.needsApproval := Mark(run.needsApproval, node.id);
    }

    /** Where a node's capability actually runs; anything may come back. */
    method DispatchOnce(node: Node) returns (o: Outcome)
    {
      o := *;
    }

    method RunDispatch(node: Node, run: CampaignRun, step: Step, level: ApprovalLevel)
      returns (ghost outcomes: seq<Outcome>)
      requires step == StepOf(run.Snap(), node.id)
      modifies run, ledger
      ensures RetryScript(node, outcomes)
      ensures CoreOf(run, queue, ledger) == Dispatch(old(CoreOf(run, queue, ledger)), node, level, outcomes)
    {
      run.needsApproval := Unmark(run.needsApproval, node.id);
      run.blocked := Unmark(run.blocked, node.id);
      run.current := Some(node.id);
      var result, error, attempts;
      outcomes, result, error, attempts := TryUntilDone(node, level);
      var done := step.(attempts := attempts);
      if result.Some? {
        FinishSuccess(node, run, done, result.value);
      } else {
        FinishFailure(node, run, done, error);
      }
    }

    /** The bounded retry loop. */
    method TryUntilDone(node: Node, level: ApprovalLevel)
      returns (ghost outcomes: seq<Outcome>, result: Option<Context>, error: string, attempts: nat)
      modifies ledger
      ensures RetryScript(node, outcomes)
      ensures attempts == |outcomes|
      ensures ledger.entries == old(ledger.entries) + AttemptLog(node.id, level, outcomes)
      ensures var last := outcomes[|outcomes| - 1];
              result == if last.Ok? then Some(last.after) else None
      ensures result.None? ==> error == ErrorText(outcomes)
    {
      result, error, attempts, outcomes := None, "", 0, [];
      for attempt := 1 to AttemptLimit(node) + 1
        invariant |outcomes| == attempts == attempt - 1
        invariant forall k | 1 <= k < |outcomes| :: GoesOn(node, outcomes[..k])
        invariant outcomes != [] ==> GoesOn(node, outcomes) && error == ErrorText(outcomes)
        invariant result.None?
        invariant ledger.entries == old(ledger.entries) + AttemptLog(node.id, level, outcomes)
      {
        attempts := attempt;
        var o := DispatchOnce(node);
        ghost var before := outcomes;
        outcomes := before + [o];
        ledger.entries := ledger.entries + [Attempted(node.id, level, attempt, o.Ok?)];
        ExtendScript(node, level, before, o);
        if o.Ok? {
          result, error := Some(o.after), "";
          break;
        }
        error := o.kind + ": " + o.text;
        if !ShouldRetry(node, o) || attempt >= node.maxAttempts {
          break;
        }
      }
    }

    lemma {:induction false} ExtendScript(node: Node, level: ApprovalLevel, before: seq<Outcome>, o: Outcome)
      requires forall k | 1 <= k < |before| :: GoesOn(node, before[..k])
      requires before != [] ==> GoesOn(node, before)
      ensures forall k | 1 <= k < |before + [o]| :: GoesOn(node, (before + [o])[..k])
      ensures AttemptLog(node.id, level, before + [o])
           == AttemptLog(node.id, level, before) + [Attempted(node.id, level, |before| + 1, o.Ok?)]
    {
      forall k | 1 <= k < |before + [o]| ensures GoesOn(node, (before + [o])[..k]) {
        assert (before + [o])[..k] == if k < |before| then before[..k] else before;
      }
    }

    method FinishSuccess(node: Node, run: CampaignRun, step: Step, after: Context)
      modifies run
      ensures run.Snap() == old(run.Snap()).(
                ctx := after,
                steps := old(run.steps)[node.id := step.(status := NodeCompleted, error := "")],
                completed := Mark(old(run.completed), node.id),
                failed := Unmark(old(run.failed), node.id))
    {
      run.ctx := after;
      run.steps := run.steps[node.id := step.(status := NodeCompleted, error := "")];
      run.completed := Mark(run.completed, node.id);
      run.failed := Unmark(run.failed, node.id);
    }

    method FinishFailure(node: Node, run: CampaignRun, step: Step, error: string)
      modifies run, ledger
      ensures run.Snap() == old(run.Snap()).(
                steps := old(run.steps)[node.id := step.(status := NodeFailed, error := error)],
                failed := Mark(old(run.failed), node.id))
      ensures ledger.entries == old(ledger.entries) + if Compensates(node) then [Compensated(node.id)] else []
    {
      run.steps := run.steps[node.id := step.(status := NodeFailed, error := error)];
      run.failed := Mark(run.failed, node.id);
      if node.rollback == Compensate && node.compensation.Some? {
        var ignored := DispatchOnce(node);
        ledger.entries := ledger.entries + [Compensated(node.id)];
      }
    }
  }

  // ----- what one drive adds to a history -----

  predicate ByOthers(a: Action) {
    a.DecidedElsewhere? || a.MintedElsewhere?
  }

  predicate DriveStep(a: Action) {
    a.OpenPass? || a.Execute? || ByOthers(a)
  }

  /** `now` extends `before` by the steps of a drive. */
  ghost predicate Drives(before: seq<Action>, now: seq<Action>) {
    before <= now && forall i | |before| <= i < |now| :: DriveStep(now[i])
  }

  /** `now` extends `before` by one finished drive. */
  ghost predicate DrivesToTheEnd(before: seq<Action>, now: seq<Action>) {
    && now != [] && now[|now| - 1] == SettleDrive
    && |before| < |now| && Drives(before, now[..|now| - 1])
  }

  datatype Decision = Yes | No | Unintelligible

  datatype CampaignError = MissingInputs(names: seq<string>) | CyclicTemplate | NoPendingApproval | CannotDecide

  /** Inputs by name; None is a null. */
  type Inputs = map<string, Option<string>>

  predicate Lacks(inputs: Inputs, name: string) {
    name !in inputs || inputs[name] == None || inputs[name] == Some("")
  }

  /** What a required name ends up with: the run's own ids come first, then what
      the instance says, be it null, then the template's default. */
  predicate Supplied(name: string, defaults: Inputs, given: Inputs, clientId: string, campaignId: string) {
    var value :=
      if name == "campaign_id" then Some(campaignId)
      else if name == "client_id" then Some(clientId)
      else if name in given then given[name]
      else if name in defaults then defaults[name]
      else None;
    value.Some? && value.value != ""
  }

  class CampaignOrchestrator {
    const template: Template
    const run: CampaignRun
    const queue: ApprovalQueue
    const ledger: Ledger
    const executor: NodeExecutor
    ghost var driving: bool
    ghost var pass: seq<NodeId>
    ghost var acts: seq<Action>
    ghost const origin: World

    ghost function Now(): World
      reads this, run, queue, ledger
    {
      World(CoreOf(run, queue, ledger), driving, pass)
    }

    /** The objects are where the history says they are. */
    ghost predicate Follows()
      reads this, run, queue, ledger
    {
      && executor.queue == queue && executor.ledger == ledger
      && Acyclic(EdgeSet(template))
      && History(template, origin, acts)
      && Replay(template, origin, acts) == Now()
    }

    /** Between operations no drive is under way. */
    ghost predicate Valid()
      reads this, run, queue, ledger
    {
      Follows() && !driving
    }

    constructor (t: Template, ctx: Context, queue: ApprovalQueue)
      requires WellFormed(t) && Acyclic(EdgeSet(t))
      ensures Valid() && template == t && this.queue == queue && acts == []
      ensures fresh(run) && fresh(ledger) && fresh(executor)
      ensures run.ctx == ctx && run.state == Ready && queue.rows == old(queue.rows)
    {
      template := t;
      var r := new CampaignRun(ctx);
      var l := new Ledger();
      var e := new NodeExecutor(queue, l);
      run, ledger, executor := r, l, e;
      this.queue := queue;
      driving, pass, acts := false, [], [];
      origin := World(CoreOf(r, queue, l), false, []);
    }

    /** A template with missing inputs or a cycle never becomes a run. */
    static method CreateCampaign(
      t: Template, requiredInputs: seq<string>, defaults: Inputs, given: Inputs, clientId: string, campaignId: string,
      ctx: Context, queue: ApprovalQueue)
      returns (r: Result<CampaignOrchestrator, CampaignError>)
      requires WellFormed(t)
      ensures r.Success? <==>
              (forall k | 0 <= k < |requiredInputs| ::
                Supplied(requiredInputs[k], defaults, given, clientId, campaignId))
              && Acyclic(EdgeSet(t))
      ensures r.Success? ==> r.value.Valid() && r.value.template == t && r.value.queue == queue && fresh(r.value)
      ensures r.Failure? && r.error.MissingInputs? ==>
                forall name :: name in r.error.names <==>
                  name in requiredInputs && !Supplied(name, defaults, given, clientId, campaignId)
    {
      var effective := defaults + given;
      effective := effective["client_id" := Some(clientId)];
      effective := effective["campaign_id" := Some(campaignId)];
      var missing: seq<string> := [];
      for k := 0 to |requiredInputs|
        invariant forall name :: name in missing <==>
                    name in requiredInputs[..k] && !Supplied(name, defaults, given, clientId, campaignId)
      {
        var name := requiredInputs[k];
        assert requiredInputs[..k + 1] == requiredInputs[..k] + [name];
        assert Lacks(effective, name) <==> !Supplied(name, defaults, given, clientId, campaignId);
        if Lacks(effective, name) {
          missing := missing + [name];
        }
      }
      assert requiredInputs[..|requiredInputs|] == requiredInputs;
      if missing != [] {
        assert missing[0] in missing;
        return Failure(MissingInputs(missing));
      }
      var graph := CampaignGraph.Build(t);
      if graph.Failure? {
        return Failure(CyclicTemplate);
      }
      var o := new CampaignOrchestrator(t, ctx, queue);
      return Success(o);
    }

    /** Record an action whose effect the objects already show. */
    ghost method Emit(a: Action, before: World)
      requires executor.queue == queue && executor.ledger == ledger
      requires Acyclic(EdgeSet(template)) && History(template, origin, acts)
      requires Replay(template, origin, acts) == before && Enabled(template, before, a)
      requires CoreOf(run, queue, ledger) == Next(template, before, a).core
      modifies this
      ensures Follows() && acts == old(acts) + [a]
      ensures driving == Next(template, before, a).driving && pass == Next(template, before, a).pass
    {
      HistoryStep(template, origin, acts, a);
      acts := acts + [a];
      driving, pass := Next(template, before, a).driving, Next(template, before, a).pass;
    }

    /** Time passes: operators decide requests, requests expire, other subsystems
        file their own.  Nothing in this object changes. */
    method OthersAct()
      requires Follows()
      modifies this, queue, ledger
      ensures Follows() && driving == old(driving) && pass == old(pass)
      ensures old(acts) <= acts && forall i | |old(acts)| <= i < |acts| :: ByOthers(acts[i])
    {
      var script: seq<(ApprovalId, Verdict, Approval)> := *;
      for i := 0 to |script|
        invariant Follows() && driving == old(driving) && pass == old(pass)
        invariant old(acts) <= acts && forall i | |old(acts)| <= i < |acts| :: ByOthers(acts[i])
      {
        var (id, verdict, row) := script[i];
        ghost var before := Now();
        if id !in queue.rows {
          queue.rows := queue.rows[id := row];
          Emit(MintedElsewhere(id, row), before);
        } else if verdict != Pending {
          var decided := queue.Decide(id, verdict, ledger);
          if decided.Some? {
            Emit(DecidedElsewhere(id, verdict), before);
          }
        }
      }
    }

    method Transition(to: CampaignState)
      modifies run, ledger
      ensures CoreOf(run, queue, ledger) == Move(old(CoreOf(run, queue, ledger)), to)
    {
      ledger.entries := ledger.entries + [Moved(run.state, to)];
      run.state := to;
    }

    method SettleState(total: nat)
      requires total == |template.nodes|
      modifies run, ledger
      ensures CoreOf(run, queue, ledger) == Settle(template, old(CoreOf(run, queue, ledger)))
    {
      if run.state == Cancelled {
        return;
      }
      run.current := None;
      if |set n | n in run.completed| >= total {
        Transition(Completed);
      } else if run.failed != [] {
        Transition(Failed);
      } else if run.blocked != [] {
        Transition(Blocked);
      } else if run.needsApproval != [] {
        Transition(NeedsApproval);
      } else {
        Transition(Paused);
      }
    }

    /** Start moves to RUNNING and drives, except out of COMPLETED and CANCELLED. */
    method StartRun()
      requires Valid()
      modifies this, run, queue, ledger
      ensures Valid()
      ensures old(run.state) in {Completed, Cancelled} ==> Now() == old(Now()) && acts == old(acts)
      ensures old(run.state) !in {Completed, Cancelled} ==>
                DrivesToTheEnd(old(acts) + [Start], acts) && ReadyNow(template, run.Snap()) == []
    {
      if run.state == Completed || run.state == Cancelled {
        return;
      }
      ghost var before := Now();
      Transition(Running);
      Emit(Start, before);
      Drive();
    }

    /** Advance lifts satisfied gates and drives, from resumable states only. */
    method AdvanceRun()
      requires Valid()
      modifies this, run, queue, ledger
      ensures Valid()
      ensures !Resumable(old(run.state)) ==> Now() == old(Now()) && acts == old(acts)
      ensures Resumable(old(run.state)) ==>
                DrivesToTheEnd(old(acts) + [Advance], acts) && ReadyNow(template, run.Snap()) == []
    {
      if run.state !in {Running, Ready, Paused, NeedsApproval} {
        return;
      }
      ghost var before := Now();
      ReconcileApprovals();
      if run.state != Running {
        Transition(Running);
      }
      Emit(Advance, before);
      Drive();
    }

    method ReconcileApprovals()
      requires Follows()
      modifies run`needsApproval
      ensures CoreOf(run, queue, ledger) == Reconcile(old(CoreOf(run, queue, ledger)))
    {
      assert Distinct(run.needsApproval) by {
        HistorySound(template, origin, acts);
      }
      LiftSatisfied();
    }

    method LiftSatisfied()
      requires Distinct(run.needsApproval)
      modifies run`needsApproval
      ensures CoreOf(run, queue, ledger) == Reconcile(old(CoreOf(run, queue, ledger)))
    {
      var listed := run.needsApproval;
      ghost var c := CoreOf(run, queue, ledger);
      assert listed[0..] == listed;
      for i := 0 to |listed|
        invariant Distinct(run.needsApproval)
        invariant run.needsApproval == KeepUncleared(c, listed[..i]) + listed[i..]
      {
        var n := listed[i];
        var cleared := false;
        if n in run.steps && run.steps[n].approval.Some? {
          cleared := queue.IsCurrentlyApproved(run.steps[n].approval.value);
        }
        KeepUnclearedStep(c, listed, i);
        if cleared {
          UnmarkFacts(run.needsApproval, n);
          run.needsApproval := Unmark(run.needsApproval, n);
        }
      }
      assert listed[..|listed|] == listed && listed[|listed|..] == [];
    }

    lemma {:induction false} KeepUnclearedStep(c: Core, listed: seq<NodeId>, i: nat)
      requires i < |listed| && Distinct(listed)
      ensures var kept := KeepUncleared(c, listed[..i]) + listed[i..];
              KeepUncleared(c, listed[..i + 1]) + listed[i + 1..]
              == if Cleared(c, listed[i]) then Unmark(kept, listed[i]) else kept
    {
      var n := listed[i];
      assert listed[..i + 1] == listed[..i] + [n];
      KeepUnclearedAppend(c, listed[..i], n);
      KeepUnclearedFacts(c, listed[..i]);
      UnmarkMiddle(KeepUncleared(c, listed[..i]), n, listed[i + 1..]);
      assert KeepUncleared(c, listed[..i]) + listed[i..] == KeepUncleared(c, listed[..i]) + [n] + listed[i + 1..];
    }

    /** The drive: passes over the ready set until nothing is ready.  The bound
        of one pass more than there are nodes never cuts it short. */
    method Drive()
      requires Follows() && driving && pass == []
      modifies this, run, queue, ledger
      ensures Valid() && DrivesToTheEnd(old(acts), acts)
      ensures ReadyNow(template, run.Snap()) == []
    {
      var built := CampaignGraph.Build(template);
      var graph := built.value;
      var total := |template.nodes|;
      RunPasses(graph);
      ghost var world := Now();
      SettleState(total);
      Emit(SettleDrive, world);
    }

    /** The passes of a drive; they end with nothing ready. */
    method RunPasses(graph: CampaignGraph)
      requires Follows() && driving && pass == []
      requires graph.Valid() && graph.template == template
      modifies this, run, queue, ledger
      ensures Follows() && driving && pass == [] && Drives(old(acts), acts)
      ensures ReadyNow(template, run.Snap()) == []
    {
      var total, quiet := |template.nodes|, false;
      for i := 0 to total + 1
        invariant Follows() && driving && pass == [] && Drives(old(acts), acts)
        invariant graph.Valid() && graph.template == template
        invariant !quiet && |run.completed| >= i
      {
        var ready := graph.Ready(CompletedSet(run.Snap()), run.ctx, Excluded(run.Snap()));
        if ready == [] {
          quiet := true;
          break;
        }
        var before := |run.completed|;
        RunPass(ready);
        if |run.completed| == before {
          quiet := true;
          break;
        }
      }
      HistorySound(template, origin, acts);
      CompletedFits(template, run.Snap());
      assert quiet;
    }

    /** One pass executes the nodes that were ready when it opened.  Either some
        node completes or nothing is ready afterwards. */
    method RunPass(ready: seq<NodeId>)
      requires Follows() && driving && pass == []
      requires ready == ReadyNow(template, run.Snap())
      modifies this, run, queue, ledger
      ensures Follows() && driving && pass == [] && Drives(old(acts), acts)
      ensures |run.completed| >= old(|run.completed|)
      ensures |run.completed| == old(|run.completed|) ==> ReadyNow(template, run.Snap()) == []
    {
      ghost var first := run.Snap();
      Emit(OpenPass, Now());
      for j := 0 to |ready|
        invariant Follows() && driving && pass == ready[j..] && Drives(old(acts), acts)
        invariant Since(first, run.Snap(), ready[..j])
      {
        ghost var left := pass;
        assert left[0] == ready[j] && left[1..] == ready[j + 1..] && ready[..j + 1] == ready[..j] + [ready[j]];
        RunNext(ready[j]);
      }
      assert ready[..|ready|] == ready;
      if run.completed == first.completed {
        BarrenPassExhausts(template, first, run.Snap());
      }
    }

    /** Between two points of a pass: completions only grow, the context changes
        only along with them, and the executed nodes have landed in buckets. */
    static ghost predicate Since(first: Run, now: Run, executed: seq<NodeId>) {
      && first.completed <= now.completed
      && (now.completed == first.completed ==> now.ctx == first.ctx)
      && Excluded(first) <= Excluded(now)
      && forall n | n in executed :: n in Excluded(now)
    }

    /** Execute the next node of the pass. */
    method RunNext(n: NodeId)
      requires Follows() && driving && pass != [] && pass[0] == n
      modifies this, run, queue, ledger
      ensures Follows() && driving && pass == old(pass)[1..] && Drives(old(acts), acts)
      ensures Lands(old(run.Snap()), run.Snap(), n)
      ensures Excluded(run.Snap()) == Excluded(old(run.Snap())) + {n}
    {
      OthersAct();
      ghost var world := Now();
      HistorySound(template, origin, acts);
      InExcluded(run.Snap(), n);
      var node := NodeOf(template, n);
      ghost var minted, outcomes := executor.Execute(node, run);
      PerformLands(world.core, node, minted, outcomes);
      LandsExcluded(template, world.core.run, run.Snap(), n);
      Emit(Execute(minted, outcomes), world);
    }

    /** The id an approval call is about: the one given, else the named node's
        own, else the oldest still pending of this campaign. */
    function ApprovalFor(node: Option<NodeId>, given: Option<ApprovalId>): Option<ApprovalId>
      reads run, queue
    {
      if given.Some? then given
      else if node.Some? then
        if node.value in run.steps then run.steps[node.value].approval else None
      else OldestPending(run.required, queue.rows)
    }

    static function OldestPending(ids: seq<ApprovalId>, rows: map<ApprovalId, Approval>): Option<ApprovalId> {
      if ids == [] then None
      else if ids[0] in rows && rows[ids[0]].status == Pending then Some(ids[0])
      else OldestPending(ids[1..], rows)
    }

    static predicate CanDecide(rows: map<ApprovalId, Approval>, id: Option<ApprovalId>, decision: Decision) {
      id.Some? && decision != Unintelligible && id.value in rows && rows[id.value].status == Pending
    }

    /** Decide a node's approval, then resume or block the campaign. */
    method DecideNode(node: Option<NodeId>, given: Option<ApprovalId>, decision: Decision)
      returns (r: Result<bool, CampaignError>)
      requires Valid()
      modifies this, run, queue, ledger
      ensures Valid()
      ensures r.Success? <==> CanDecide(old(queue.rows), old(ApprovalFor(node, given)), decision)
      ensures r.Failure? ==>
                Now() == old(Now()) && acts == old(acts)
                && (r.error == NoPendingApproval <==> old(ApprovalFor(node, given)).None?)
      ensures r.Success? && decision == Yes ==>
                DrivesToTheEnd(old(acts) + [ApproveNode(old(ApprovalFor(node, given)).value, node)], acts)
                && ReadyNow(template, run.Snap()) == []
      ensures r.Success? && decision == No ==>
                acts == old(acts) + [RejectNode(old(ApprovalFor(node, given)).value, node)]
    {
      var id := ApprovalFor(node, given);
      if id.None? {
        return Failure(NoPendingApproval);
      }
      if decision == Unintelligible {
        return Failure(CannotDecide);
      }
      ghost var before := Now();
      var row := queue.Decide(id.value, if decision == Yes then Approved else Rejected, ledger);
      if row.None? {
        return Failure(CannotDecide);
      }
      var target := if node.Some? then node else row.value.node;
      if row.value.status == Approved {
        run.needsApproval := UnmarkOption(run.needsApproval, target);
        Transition(Running);
        Emit(ApproveNode(id.value, node), before);
        Drive();
        return Success(true);
      }
      if target.Some? {
        BlockNode(target.value);
      }
      SettleState(|template.nodes|);
      Emit(RejectNode(id.value, node), before);
      return Success(false);
    }

    method BlockNode(n: NodeId)
      modifies run
      ensures CoreOf(run, queue, ledger) == BlockRejected(old(CoreOf(run, queue, ledger)), Some(n))
    {
      run.blocked := Mark(run.blocked, n);
      run.needsApproval := Unmark(run.needsApproval, n);
      if n in run.steps {
        run.steps := run.steps[n := run.steps[n].(status := NodeBlocked, error := "approval_rejected")];
      }
    }

    method CancelRun()
      requires Valid()
      modifies this, run, ledger
      ensures Valid() && acts == old(acts) + [Cancel]
      ensures Now() == old(Now()).(core := Move(old(Now()).core, Cancelled))
    {
      ghost var before := Now();
      Transition(Cancelled);
      Emit(Cancel, before);
    }

    /** KPI events from outside, all of them or none: one that is not valid raises
        before the run is saved. */
    method Ingest(events: seq<KpiEvent>) returns (ok: bool)
      requires Valid()
      modifies this, run
      ensures Valid()
      ensures ok <==> Invalid !in events
      ensures !ok ==> Now() == old(Now()) && acts == old(acts)
      ensures ok ==>
                && acts == old(acts) + [IngestKpis(run.ctx)]
                && run.Snap() == old(run.Snap()).(
                     ctx := old(run.ctx).(kpis := Fold(old(run.ctx.kpis), events, |events|)))
    {
      ghost var before := Now();
      var kpis := run.ctx.kpis;
      for i := 0 to |events|
        invariant Invalid !in events[..i] && kpis == Fold(run.ctx.kpis, events, i)
      {
        match events[i]
        case Invalid => return false;
        case SetTo(kpi, value) => kpis := kpis[kpi := value];
        case Add(kpi, value) => kpis := kpis[kpi := (if kpi in kpis then kpis[kpi] else 0.0) + value];
      }
      run.ctx := run.ctx.(kpis := kpis);
      Emit(IngestKpis(run.ctx), before);
      return true;
    }
  }
}
