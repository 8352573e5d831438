/** Concrete histories for the places where the campaign engine does less than it
    is documented to do. */
module CampaignExamples {
  import opened Basics
  import opened CampaignModel
  import opened CampaignGraphs
  import opened CampaignSemantics
  import opened CampaignInvariants

  const NO_CONTEXT := Context(map[], map[], map[])

  function Single(id: NodeId, kind: NodeType, level: ApprovalLevel, rollback: RollbackMode): Node {
    Node(id, kind, level, 1, [], rollback, None)
  }

  function Flat(nodes: seq<Node>): Template {
    Template(nodes, [], (c: Condition, x: Context) => false)
  }

  function Begin(rows: map<ApprovalId, Approval>): World {
    World(Core(Run(Ready, None, [], [], [], [], [], map[], NO_CONTEXT), rows, [Moved(Draft, Ready)]), false, [])
  }

  /** Without edges every node that is in no bucket is ready, in order. */
  lemma {:induction false} FlatReady(nodes: seq<Node>, ids: seq<NodeId>, run: Run)
    requires forall i | 0 <= i < |ids| :: ids[i] !in Excluded(run)
    ensures ReadyAmong(Flat(nodes), ids, CompletedSet(run), run.ctx, Excluded(run)) == ids
  {
    if ids != [] {
      FlatReady(nodes, ids[..|ids| - 1], run);
      assert ids == ids[..|ids| - 1] + [ids[|ids| - 1]];
      assert IsReady(Flat(nodes), ids[|ids| - 1], CompletedSet(run), run.ctx);
    }
  }

  lemma {:induction false} NoneReady(nodes: seq<Node>, ids: seq<NodeId>, run: Run)
    requires forall i | 0 <= i < |ids| :: ids[i] in Excluded(run)
    ensures ReadyAmong(Flat(nodes), ids, CompletedSet(run), run.ctx, Excluded(run)) == []
  {
    if ids != [] {
      NoneReady(nodes, ids[..|ids| - 1], run);
    }
  }

  // ----- one gated node -----

  function Gated(): Template {
    Flat([Single("n", FunnelPlan, Operator, LeaveFailed)])
  }

  const STARTED := [Start]
  const OPENED := STARTED + [OpenPass]
  const ASKED := OPENED + [Execute(Some("a"), [])]
  /** The node asked for approval "a" and the drive settled. */
  const WAITING := ASKED + [SettleDrive]

  function RunningRun(): Run {
    Run(Running, None, [], [], [], [], [], map[], NO_CONTEXT)
  }

  function StartedCore(): Core {
    Core(RunningRun(), map[], [Moved(Draft, Ready)] + [Moved(Ready, Running)])
  }

  function AskedCore(): Core {
    Core(
      RunningRun().(
        needsApproval := ["n"], required := ["a"], steps := map["n" := Step(NodeNeedsApproval, 0, Some("a"), "")]),
      map["a" := Approval(Pending, Some("n"))],
      StartedCore().log + [Minted("a", "n")])
  }

  function WaitingCore(): Core {
    AskedCore().(
      run := AskedCore().run.(state := NeedsApproval),
      log := AskedCore().log + [Moved(Running, NeedsApproval)])
  }

  lemma {:induction false} StartHappens(t: Template)
    requires WellFormed(t)
    ensures History(t, Begin(map[]), STARTED)
    ensures Replay(t, Begin(map[]), STARTED) == World(StartedCore(), true, [])
  {
    BeginHappens(t);
    HistoryStep(t, Begin(map[]), [], Start);
    assert [] + [Start] == STARTED;
    StartedIs(t);
  }

  lemma {:induction false} BeginHappens(t: Template)
    requires WellFormed(t)
    ensures History(t, Begin(map[]), []) && Replay(t, Begin(map[]), []) == Begin(map[])
  {
  }

  lemma {:induction false} StartedIs(t: Template)
    ensures Next(t, Begin(map[]), Start) == World(StartedCore(), true, [])
  {
  }

  lemma {:induction false} OpenHappens(t: Template, nodes: seq<Node>)
    requires t == Flat(nodes) && WellFormed(t)
    ensures History(t, Begin(map[]), OPENED)
    ensures Replay(t, Begin(map[]), OPENED) == World(StartedCore(), true, Ids(nodes))
  {
    StartHappens(t);
    FlatReady(nodes, Ids(nodes), RunningRun());
    HistoryStep(t, Begin(map[]), STARTED, OpenPass);
  }

  lemma {:induction false} AskHappens()
    ensures History(Gated(), Begin(map[]), ASKED)
    ensures Replay(Gated(), Begin(map[]), ASKED) == World(AskedCore(), true, [])
  {
    assert Ids(Gated().nodes) == ["n"];
    OpenHappens(Gated(), Gated().nodes);
    AskedIs();
    HistoryStep(Gated(), Begin(map[]), OPENED, Execute(Some("a"), []));
  }

  lemma {:induction false} AskedIs()
    ensures var w, a := World(StartedCore(), true, ["n"]), Execute(Some("a"), []);
            Enabled(Gated(), w, a) && Next(Gated(), w, a) == World(AskedCore(), true, [])
  {
    assert Ids(Gated().nodes) == ["n"];
    assert NodeOf(Gated(), "n") == Single("n", FunnelPlan, Operator, LeaveFailed);
    AskingStep(StartedCore());
    assert ["n"][1..] == [];
  }

  lemma {:induction false} WaitHappens()
    ensures History(Gated(), Begin(map[]), WAITING)
    ensures Replay(Gated(), Begin(map[]), WAITING) == World(WaitingCore(), false, [])
  {
    assert Ids(Gated().nodes) == ["n"];
    AskHappens();
    NoneReady(Gated().nodes, ["n"], AskedCore().run);
    assert CompletedSet(AskedCore().run) == {};
    HistoryStep(Gated(), Begin(map[]), ASKED, SettleDrive);
  }

  lemma {:induction false} AskingStep(c: Core)
    requires c.run.state == Running && c.run.needsApproval == [] && c.run.required == [] && c.run.steps == map[]
    requires c.rows == map[]
    ensures var node := Single("n", FunnelPlan, Operator, LeaveFailed);
            && !Dispatches(c, node)
            && Perform(c, node, Some("a"), []) == Core(
                 c.run.(
                   needsApproval := ["n"], required := ["a"],
                   steps := map["n" := Step(NodeNeedsApproval, 0, Some("a"), "")]),
                 map["a" := Approval(Pending, Some("n"))],
                 c.log + [Minted("a", "n")])
  {
  }

  /** A cancelled campaign runs again: cancelled while it waits, approved later. */
  lemma {:induction false} CancelledRunsAgain()
    ensures var cancelled, approved := WAITING + [Cancel], WAITING + [Cancel] + [ApproveNode("a", None)];
            && History(Gated(), Begin(map[]), cancelled) && History(Gated(), Begin(map[]), approved)
            && Replay(Gated(), Begin(map[]), cancelled).core.run.state == Cancelled
            && Replay(Gated(), Begin(map[]), approved).core.run.state == Running
  {
    WaitHappens();
    HistoryStep(Gated(), Begin(map[]), WAITING, Cancel);
    HistoryStep(Gated(), Begin(map[]), WAITING + [Cancel], ApproveNode("a", None));
  }

  /** Rejecting the node's approval under another id blocks what does not exist. */
  lemma {:induction false} StrayRejectionBreaksBuckets()
    ensures var acts := WAITING + [RejectNode("a", Some("other"))];
            && History(Gated(), Begin(map[]), WAITING) && Buckets(Replay(Gated(), Begin(map[]), WAITING).core.run)
            && History(Gated(), Begin(map[]), acts) && !Buckets(Replay(Gated(), Begin(map[]), acts).core.run)
  {
    WaitHappens();
    HistorySound(Gated(), Begin(map[]), WAITING);
    HistoryStep(Gated(), Begin(map[]), WAITING, RejectNode("a", Some("other")));
    assert "other" !in WaitingCore().run.steps by {
      assert |"other"| != |"n"|;
    }
    RejectKeepsBuckets(Gated(), World(WaitingCore(), false, []), "a", Some("other"));
  }

  // ----- two roots, the first halting -----

  function Siblings(): Template {
    Flat([Single("h", SeoAudit, NoApproval, Halt), Single("s", SeoAudit, NoApproval, LeaveFailed)])
  }

  const FAILED_TRY := [Err("E", "")]
  const GOOD_TRY := [Ok(NO_CONTEXT)]
  const HALTED := OPENED + [Execute(None, FAILED_TRY)]
  const WENT_ON := HALTED + [Execute(None, GOOD_TRY)]

  function HaltedCore(): Core {
    Dispatch(StartedCore(), Single("h", SeoAudit, NoApproval, Halt), NoApproval, FAILED_TRY)
  }

  lemma {:induction false} OneTry(c: Core, node: Node, o: Outcome)
    requires node == Single(node.id, SeoAudit, NoApproval, node.rollback) && c.run.ctx == NO_CONTEXT
    ensures RetryScript(node, [o])
    ensures Perform(c, node, None, [o]) == Dispatch(c, node, NoApproval, [o])
  {
  }

  lemma {:induction false} TwoIds(t: Template)
    requires t == Siblings()
    ensures Ids(t.nodes) == ["h", "s"] && WellFormed(t)
    ensures NodeOf(t, "h") == t.nodes[0] && NodeOf(t, "s") == t.nodes[1]
  {
    assert "h"[0] != "s"[0];
    assert Ids(t.nodes) == ["h", "s"];
    assert t.nodes[1..] == [t.nodes[1]];
    assert Ids(t.nodes[1..]) == ["s"];
  }

  lemma {:induction false} HaltHappens()
    ensures History(Siblings(), Begin(map[]), HALTED)
    ensures Replay(Siblings(), Begin(map[]), HALTED) == World(HaltedCore(), true, ["s"])
  {
    TwoIds(Siblings());
    OpenHappens(Siblings(), Siblings().nodes);
    OneTry(StartedCore(), Siblings().nodes[0], FAILED_TRY[0]);
    assert ["h", "s"][1..] == ["s"];
    HistoryStep(Siblings(), Begin(map[]), OPENED, Execute(None, FAILED_TRY));
  }

  lemma {:induction false} HaltedCoreIs()
    ensures HaltedCore().run.failed == ["h"] && HaltedCore().run.completed == [] && HaltedCore().run.ctx == NO_CONTEXT
    ensures HaltedCore().log == StartedCore().log + [Attempted("h", NoApproval, 1, false)]
  {
  }

  /** A node in halt mode fails, and its sibling of the same pass is dispatched
      nonetheless. */
  lemma {:induction false} HaltDoesNotStopSiblings()
    ensures History(Siblings(), Begin(map[]), WENT_ON)
    ensures var core := Replay(Siblings(), Begin(map[]), WENT_ON).core;
            && core.run.failed == ["h"] && core.run.completed == ["s"]
            && core.log == StartedCore().log
                           + [Attempted("h", NoApproval, 1, false)] + [Attempted("s", NoApproval, 1, true)]
  {
    TwoIds(Siblings());
    HaltHappens();
    HaltedCoreIs();
    var s := Siblings().nodes[1];
    OneTry(HaltedCore(), s, GOOD_TRY[0]);
    HistoryStep(Siblings(), Begin(map[]), HALTED, Execute(None, GOOD_TRY));
    GoodTryCompletes(HaltedCore(), s);
  }

  lemma {:induction false} GoodTryCompletes(c: Core, node: Node)
    requires node.id !in c.run.completed && node.id !in c.run.failed
    ensures var d := Dispatch(c, node, NoApproval, GOOD_TRY);
            && d.run.completed == c.run.completed + [node.id] && d.run.failed == c.run.failed
            && d.log == c.log + [Attempted(node.id, NoApproval, 1, true)]
  {
    UnmarkAbsent(c.run.failed, node.id);
  }
}
